/**
 * The cells of one contact row (src/components/kontakte/KontakteTable.tsx):
 * the display name with its optional person sub-line, the avatar initial,
 * the e-mail, location and country cells. The customer name
 * (`firma`, else the person's name) is also what the invoice editor copies
 * onto an invoice.
 */
module ContactTable {

  import opened Optional
  import opened Text
  import opened Database

  /** The placeholder shown for an empty cell. */
  const Dash: string := "—"

  /** The given name and the family name joined by a space, missing ones as '', then trimmed. */
  function PersonName(k: Kontakt): (r: string)
    ensures r == "" <==> AllSpace(OrEmpty(k.vorname)) && AllSpace(OrEmpty(k.nachname))
    ensures exists i :: TrimmedAt(OrEmpty(k.vorname) + " " + OrEmpty(k.nachname), r, i)
    ensures |r| > 0 ==> !IsSpace(r[0]) && !IsSpace(r[|r| - 1])
  {
    var joined := OrEmpty(k.vorname) + " " + OrEmpty(k.nachname);
    AllSpaceAppend(OrEmpty(k.vorname) + " ", OrEmpty(k.nachname));
    AllSpaceAppend(OrEmpty(k.vorname), " ");
    Trim(joined)
  }

  /** The company, or the person's name without one: the name the invoice editor copies onto an invoice. */
  function CustomerName(k: Kontakt): (r: string)
    ensures r == "" <==> !Truthy(k.firma) && AllSpace(OrEmpty(k.vorname)) && AllSpace(OrEmpty(k.nachname))
    ensures Truthy(k.firma) ==> r == k.firma.value
  {
    OrElse(k.firma, PersonName(k))
  }

  /** `displayName`: the customer name, or a dash when that is empty. */
  function DisplayName(k: Kontakt): (r: string)
    ensures r != ""
    ensures CustomerName(k) != "" ==> r == CustomerName(k)
    ensures CustomerName(k) == "" ==> r == Dash
    ensures Truthy(k.firma) ==> r == k.firma.value
  {
    var name := CustomerName(k);
    if name != "" then name else Dash
  }

  /** `subName`: the person's name under a company name, when a person is named at all. */
  function SubName(k: Kontakt): (r: Option<string>)
    ensures r.Some? <==> Truthy(k.firma) && (Truthy(k.vorname) || Truthy(k.nachname))
    ensures r.Some? ==> r.value == PersonName(k)
  {
    if Truthy(k.firma) && (Truthy(k.vorname) || Truthy(k.nachname)) then Some(PersonName(k)) else None
  }

  /** The avatar letter: the first character of the display name, upper-cased. */
  function Initial(k: Kontakt): (r: string)
    ensures |r| == 1
    ensures r[0] == UpperChar(DisplayName(k)[0])
  {
    Upper(DisplayName(k)[..1])
  }

  /** The e-mail cell: the address, or a dash when there is none. */
  function EmailCell(k: Kontakt): (r: string)
    ensures r != ""
    ensures Truthy(k.email) ==> r == k.email.value
  {
    if Truthy(k.email) then k.email.value else Dash
  }

  /** The location cell: `plz ort`, or `ort` alone, or a dash when there is no place. */
  function LocationCell(k: Kontakt): (r: string)
    ensures !Truthy(k.ort) ==> r == Dash
    ensures Truthy(k.ort) ==> |r| >= |k.ort.value| && r[|r| - |k.ort.value|..] == k.ort.value
    ensures Truthy(k.ort) && Truthy(k.plz) ==> StartsWith(r, k.plz.value + " ") && |r| == |k.plz.value| + 1 + |k.ort.value|
    ensures Truthy(k.ort) && !Truthy(k.plz) ==> r == k.ort.value
  {
    if Truthy(k.ort) then (if Truthy(k.plz) then k.plz.value + " " else "") + k.ort.value
    else Dash
  }

  /** The country cell: `land`, or a dash when it is empty. */
  function LandCell(k: Kontakt): (r: string)
    ensures r != ""
    ensures k.land != "" ==> r == k.land
  {
    if k.land != "" then k.land else Dash
  }

  /** `{subName && ...}`: the sub-line is rendered only for a non-empty `subName`. */
  predicate SubLineShown(k: Kontakt) {
    SubName(k).Some? && SubName(k).value != ""
  }

  /* ------------------------------- properties ------------------------------ */

  /** A sub-line is rendered exactly under a company, when some name is more than white space. */
  lemma SubLineShownIff(k: Kontakt)
    ensures SubLineShown(k) <==> Truthy(k.firma) && !(AllSpace(OrEmpty(k.vorname)) && AllSpace(OrEmpty(k.nachname)))
  {
    if !AllSpace(OrEmpty(k.vorname)) {
      assert OrEmpty(k.vorname) != "";
    }
    if !AllSpace(OrEmpty(k.nachname)) {
      assert OrEmpty(k.nachname) != "";
    }
  }

  /** With a company and a blank given name only, `subName` is '' and no sub-line is rendered. */
  lemma BlankNameNoSubLine(k: Kontakt)
    requires k.firma == Some("ACME") && k.vorname == Some(" ") && k.nachname == None
    ensures SubName(k) == Some("")
    ensures !SubLineShown(k)
  {
    assert AllSpace(" ");
  }

  /** Without a company name the display name is the person's name, or the dash if it is blank. */
  lemma DisplayNameWithoutFirma(k: Kontakt)
    requires !Truthy(k.firma)
    ensures DisplayName(k) == if AllSpace(OrEmpty(k.vorname)) && AllSpace(OrEmpty(k.nachname)) then Dash else PersonName(k)
  {
  }

  /** The sub-line is never a repeat of a missing company name: it appears only under a company. */
  lemma SubNameImpliesCompanyDisplay(k: Kontakt)
    requires SubName(k).Some?
    ensures DisplayName(k) == k.firma.value
  {
  }

  /** A postcode without a place shows nothing but the dash. */
  lemma LocationIgnoresLonePlz(k: Kontakt, plz: Option<string>)
    requires !Truthy(k.ort)
    ensures LocationCell(k.(plz := plz)) == Dash
  {
  }
}
