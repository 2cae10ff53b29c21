/**
 * The invoice editor of src/components/rechnungen/RechnungModal.tsx: the list
 * of line items being edited, the net/VAT/gross totals, the next invoice
 * number, the save request, and how line items are written as rows and read
 * back. Remote results (the count of this year's invoices, the signed-in
 * user, the stored rows) and the clock (year, today, now) are parameters.
 */
module InvoiceEditor {

  import opened Optional
  import opened Text
  import opened Seqs
  import opened Database
  import ContactTable

  /** `PositionForm`: one line item as edited. */
  datatype PositionForm = PositionForm(
    beschreibung: string,
    menge: real,
    einheit: string,
    einzelpreis: real,
    mwst_satz: real)

  const DefaultEinheit: string := "Stk"
  const DefaultMwstSatz: real := 8.1

  /** The line item the editor starts with and appends: one 'Stk' at price 0 with rate 8.1. */
  const DefaultPosition: PositionForm := PositionForm("", 1.0, DefaultEinheit, 0.0, DefaultMwstSatz)

  /* ---------------------------- invoice number ---------------------------- */

  /** A missing count is read as zero. */
  function CountOrZero(count: Option<nat>): nat {
    count.GetOr(0)
  }

  /** The invoice number: `RE-`, the year, a dash, and the next sequence number padded with zeros to three digits. */
  function InvoiceNumber(year: nat, count: Option<nat>): (r: string)
    ensures StartsWith(r, "RE-" + Decimal(year) + "-")
    ensures var digits := |Decimal(CountOrZero(count) + 1)|;
      |r| == |"RE-" + Decimal(year) + "-"| + (if digits < 3 then 3 else digits)
  {
    var prefix := "RE-" + Decimal(year) + "-";
    var r := prefix + PadStart(Decimal(CountOrZero(count) + 1), 3, '0');
    assert r[..|prefix|] == prefix;
    r
  }

  /** Reads `RE-<year>-<sequence>` back into its two numbers. */
  function ParseInvoiceNumber(s: string): (r: Option<(nat, nat)>)
  {
    if !StartsWith(s, "RE-") then None
    else
      var rest := s[3..];
      match IndexOf(rest, '-')
      case None => None
      case Some(k) =>
        var year := rest[..k];
        var seqNo := rest[k + 1..];
        if |year| > 0 && AllDigits(year) && |seqNo| > 0 && AllDigits(seqNo)
        then Some((DigitsValue(year), DigitsValue(seqNo)))
        else None
  }

  /** Any `RE-<digits>-<digits>` string reads back as its two numbers. */
  lemma ParseComposed(y: string, n: string)
    requires |y| > 0 && AllDigits(y) && |n| > 0 && AllDigits(n)
    ensures ParseInvoiceNumber("RE-" + y + "-" + n) == Some((DigitsValue(y), DigitsValue(n)))
  {
    var s := "RE-" + y + "-" + n;
    assert s[..3] == "RE-";
    var rest := s[3..];
    assert rest == y + "-" + n;
    assert '-' !in y by {
      forall i | 0 <= i < |y| ensures y[i] != '-' {
        assert IsDigit(y[i]);
      }
    }
    assert rest[..|y|] == y;
    assert IndexOf(rest, '-') == Some(|y|);
    assert rest[|y| + 1..] == n;
  }

  /** The number is the prefix, the year's digits, a dash and the padded sequence number. */
  lemma InvoiceNumberIs(year: nat, count: Option<nat>, y: string, n: string)
    requires Decimal(year) == y && PadStart(Decimal(CountOrZero(count) + 1), 3, '0') == n
    ensures InvoiceNumber(year, count) == "RE-" + y + "-" + n
  {
  }

  /** The generated number reads back as the year and the next sequence number: nothing is cut off. */
  lemma InvoiceNumberRoundTrip(year: nat, count: Option<nat>)
    ensures ParseInvoiceNumber(InvoiceNumber(year, count)) == Some((year, CountOrZero(count) + 1))
  {
    var n := Decimal(CountOrZero(count) + 1);
    var padded := PadStart(n, 3, '0');
    PadStartDigits(n, 3);
    InvoiceNumberIs(year, count, Decimal(year), padded);
    ParseComposed(Decimal(year), padded);
  }

  /** Different counts give different numbers within a year. */
  lemma InvoiceNumberInjective(year: nat, c1: Option<nat>, c2: Option<nat>)
    requires CountOrZero(c1) != CountOrZero(c2)
    ensures InvoiceNumber(year, c1) != InvoiceNumber(year, c2)
  {
    InvoiceNumberRoundTrip(year, c1);
    InvoiceNumberRoundTrip(year, c2);
  }

  /** A failed count query is read as no invoices yet: the first number of the year is `RE-<year>-001`. */
  lemma FirstInvoiceOfYear(year: nat)
    ensures InvoiceNumber(year, None) == "RE-" + Decimal(year) + "-001"
    ensures InvoiceNumber(year, Some(0)) == InvoiceNumber(year, None)
  {
    PadFirst();
    InvoiceNumberIs(year, None, Decimal(year), "001");
    InvoiceNumberIs(year, Some(0), Decimal(year), "001");
    FirstSuffix("RE-" + Decimal(year));
  }

  lemma FirstSuffix(p: string)
    ensures p + "-" + "001" == p + "-001"
  {
    assert "-" + "001" == "-001";
  }

  /** The first sequence number, padded. */
  lemma PadFirst()
    ensures PadStart(Decimal(CountOrZero(None) + 1), 3, '0') == "001"
    ensures PadStart(Decimal(CountOrZero(Some(0)) + 1), 3, '0') == "001"
  {
    DecimalDigit(1);
    assert Decimal(1) == "1";
    assert Repeat('0', 2) == "00";
  }

  /** Worked examples: the 42nd number of 2025, and the 1000th, which grows to four digits. */
  lemma InvoiceNumberExamples()
    ensures InvoiceNumber(2025, Some(41)) == "RE-2025-042"
    ensures InvoiceNumber(2025, Some(999)) == "RE-2025-1000"
  {
    DecimalExamples();
    PadExamples();
    InvoiceNumberIs(2025, Some(41), "2025", "042");
    InvoiceNumberIs(2025, Some(999), "2025", "1000");
    ExampleLiterals();
  }

  lemma ExampleLiterals()
    ensures "RE-" + "2025" + "-" + "042" == "RE-2025-042"
    ensures "RE-" + "2025" + "-" + "1000" == "RE-2025-1000"
  {
  }

  lemma PadExamples()
    ensures PadStart("42", 3, '0') == "042"
    ensures PadStart("1000", 3, '0') == "1000"
  {
    assert Repeat('0', 1) == "0";
  }

  /** The decimal strings the worked examples need. */
  lemma DecimalExamples()
    ensures Decimal(2025) == "2025" && Decimal(42) == "42" && Decimal(1000) == "1000"
  {
    DecimalDigit(2);
    DecimalStep(20, "2", '0');
    DecimalStep(202, "20", '2');
    DecimalStep(2025, "202", '5');
    DecimalDigit(4);
    DecimalStep(42, "4", '2');
    DecimalDigit(1);
    DecimalStep(10, "1", '0');
    DecimalStep(100, "10", '0');
    DecimalStep(1000, "100", '0');
  }

  /* ----------------------------- line items ------------------------------ */

  datatype Field = Beschreibung | Menge | Einheit | Einzelpreis | MwstSatz

  datatype FieldValue = Text(text: string) | Number(number: real)

  /** The `(field, value)` pair `updatePosition` is called with; the value has the field's type. */
  datatype FieldUpdate =
    | SetBeschreibung(beschreibung: string)
    | SetMenge(menge: real)
    | SetEinheit(einheit: string)
    | SetEinzelpreis(einzelpreis: real)
    | SetMwstSatz(mwst_satz: real)
  {
    function Target(): Field {
      match this
      case SetBeschreibung(_) => Beschreibung
      case SetMenge(_) => Menge
      case SetEinheit(_) => Einheit
      case SetEinzelpreis(_) => Einzelpreis
      case SetMwstSatz(_) => MwstSatz
    }

    function Value(): FieldValue {
      match this
      case SetBeschreibung(s) => Text(s)
      case SetMenge(x) => Number(x)
      case SetEinheit(s) => Text(s)
      case SetEinzelpreis(x) => Number(x)
      case SetMwstSatz(x) => Number(x)
    }
  }

  /** The value of one field of a line item. */
  function Get(p: PositionForm, f: Field): FieldValue {
    match f
    case Beschreibung => Text(p.beschreibung)
    case Menge => Number(p.menge)
    case Einheit => Text(p.einheit)
    case Einzelpreis => Number(p.einzelpreis)
    case MwstSatz => Number(p.mwst_satz)
  }

  /** `{ ...p, [field]: value }`: the named field takes the value, every other field is kept. */
  function WithField(p: PositionForm, u: FieldUpdate): (r: PositionForm)
    ensures Get(r, u.Target()) == u.Value()
    ensures forall f :: f != u.Target() ==> Get(r, f) == Get(p, f)
  {
    match u
    case SetBeschreibung(s) => p.(beschreibung := s)
    case SetMenge(x) => p.(menge := x)
    case SetEinheit(s) => p.(einheit := s)
    case SetEinzelpreis(x) => p.(einzelpreis := x)
    case SetMwstSatz(x) => p.(mwst_satz := x)
  }

  /** Two line items with the same fields are the same line item. */
  lemma FieldsDetermine(p: PositionForm, q: PositionForm)
    requires forall f :: Get(p, f) == Get(q, f)
    ensures p == q
  {
    assert Get(p, Beschreibung) == Get(q, Beschreibung);
    assert Get(p, Menge) == Get(q, Menge);
    assert Get(p, Einheit) == Get(q, Einheit);
    assert Get(p, Einzelpreis) == Get(q, Einzelpreis);
    assert Get(p, MwstSatz) == Get(q, MwstSatz);
  }

  /** `updatePosition`: the line item at `index` takes the new field value; every other item is kept. */
  function UpdatePosition(ps: seq<PositionForm>, index: int, u: FieldUpdate): (r: seq<PositionForm>)
    ensures |r| == |ps|
    ensures forall i :: 0 <= i < |ps| && i != index ==> r[i] == ps[i]
    ensures 0 <= index < |ps| ==> Get(r[index], u.Target()) == u.Value()
    ensures 0 <= index < |ps| ==> forall f :: f != u.Target() ==> Get(r[index], f) == Get(ps[index], f)
    decreases |ps|
  {
    if |ps| == 0 then []
    else [if index == 0 then WithField(ps[0], u) else ps[0]] + UpdatePosition(ps[1..], index - 1, u)
  }

  /** "Position hinzufügen": a copy of the default line item is appended. */
  function AddPosition(ps: seq<PositionForm>): (r: seq<PositionForm>)
    ensures |r| == |ps| + 1 && r[..|ps|] == ps && r[|ps|] == DefaultPosition
  {
    ps + [DefaultPosition]
  }

  /** The remove button of line item `index`: every item at another position is kept. */
  function RemovePosition(ps: seq<PositionForm>, index: int): (r: seq<PositionForm>)
    ensures 0 <= index < |ps| ==> r == ps[..index] + ps[index + 1..]
    ensures !(0 <= index < |ps|) ==> r == ps
    decreases |ps|
  {
    if |ps| == 0 then []
    else
      var rest := RemovePosition(ps[1..], index - 1);
      if index == 0 then rest
      else
        assert index > 0 && index - 1 < |ps| - 1 ==> [ps[0]] + ps[1..][..index - 1] == ps[..index];
        assert [ps[0]] + ps[1..] == ps;
        [ps[0]] + rest
  }

  /** The remove button is shown only while there is more than one line item. */
  predicate RemoveOffered(ps: seq<PositionForm>): (b: bool)
    ensures b <==> |ps| > 0 && forall i :: 0 <= i < |ps| ==> |RemovePosition(ps, i)| > 0
  {
    assert |ps| == 1 ==> |RemovePosition(ps, 0)| == 0;
    |ps| > 1
  }

  /** A user action on the line items, as the editor offers it. */
  datatype PositionAction = Add | Update(index: int, u: FieldUpdate) | Remove(index: int)

  /** The line items after one action; a remove the editor does not offer changes nothing. */
  function ApplyAction(ps: seq<PositionForm>, a: PositionAction): (r: seq<PositionForm>)
    ensures a.Add? ==> |r| == |ps| + 1
    ensures a.Update? ==> |r| == |ps|
    ensures a.Remove? ==> |r| == |ps| || (|ps| > 1 && |r| == |ps| - 1)
  {
    match a
    case Add => AddPosition(ps)
    case Update(i, u) => UpdatePosition(ps, i, u)
    case Remove(i) => if RemoveOffered(ps) && 0 <= i < |ps| then RemovePosition(ps, i) else ps
  }

  /** The line items after a sequence of actions, applied in order. */
  function ApplyActions(ps: seq<PositionForm>, actions: seq<PositionAction>): (r: seq<PositionForm>)
    ensures |r| <= |ps| + |actions|
    decreases |actions|
  {
    if |actions| == 0 then ps else ApplyActions(ApplyAction(ps, actions[0]), actions[1..])
  }

  /** Whatever the user does, the editor keeps at least one line item. */
  lemma {:induction false} NeverEmpty(ps: seq<PositionForm>, actions: seq<PositionAction>)
    requires |ps| >= 1
    ensures |ApplyActions(ps, actions)| >= 1
    decreases |actions|
  {
    if |actions| > 0 {
      var next := ApplyAction(ps, actions[0]);
      assert |next| >= 1;
      NeverEmpty(next, actions[1..]);
    }
  }

  /* -------------------------------- totals -------------------------------- */

  /** A line's net amount: quantity times unit price. */
  function LineNet(p: PositionForm): (n: real)
    ensures p.menge == 0.0 || p.einzelpreis == 0.0 ==> n == 0.0
  {
    p.menge * p.einzelpreis
  }

  /** A line's VAT: its rate, in percent, applied to its net amount. */
  function LineVat(p: PositionForm): (v: real)
    ensures p.mwst_satz == 0.0 || LineNet(p) == 0.0 ==> v == 0.0
  {
    p.menge * p.einzelpreis * p.mwst_satz / 100.0
  }

  /** A line's gross amount: its net amount plus its VAT. */
  function LineGross(p: PositionForm): (g: real)
    ensures p.mwst_satz == 0.0 ==> g == LineNet(p)
  {
    LineNet(p) + LineVat(p)
  }

  datatype Totals = Totals(netto: real, mwst: real, brutto: real)

  /** `netto`, `mwst` and `brutto` as the editor shows and saves them. */
  function ComputeTotals(ps: seq<PositionForm>): (t: Totals)
    ensures t.brutto == t.netto + t.mwst
    ensures t.brutto == SumOf(ps, LineGross)
    ensures forall q :: multiset(q) == multiset(ps) ==> SumOf(q, LineNet) == t.netto && SumOf(q, LineVat) == t.mwst
  {
    SumAddTerms(ps, LineNet, LineVat, LineGross);
    SumPermutations(ps, LineNet);
    SumPermutations(ps, LineVat);
    var netto := SumOf(ps, LineNet);
    var mwst := SumOf(ps, LineVat);
    Totals(netto, mwst, netto + mwst)
  }

  /** The gross total is also the sum of the lines' gross amounts. */
  lemma GrossIsSumOfLines(ps: seq<PositionForm>)
    ensures ComputeTotals(ps).brutto == SumOf(ps, LineGross)
  {
    SumAddTerms(ps, LineNet, LineVat, LineGross);
  }

  /** With exact arithmetic the totals do not depend on the order of the line items. */
  lemma TotalsOrderIndependent(a: seq<PositionForm>, b: seq<PositionForm>)
    requires multiset(a) == multiset(b)
    ensures ComputeTotals(a) == ComputeTotals(b)
  {
    SumPermutation(a, b, LineNet);
    SumPermutation(a, b, LineVat);
  }

  /** A new default line item (price 0) does not change the totals. */
  lemma TotalsAfterAdd(ps: seq<PositionForm>)
    ensures ComputeTotals(AddPosition(ps)) == ComputeTotals(ps)
  {
    SumSnoc(ps, DefaultPosition, LineNet);
    SumSnoc(ps, DefaultPosition, LineVat);
    DefaultLineZero();
    SameSumsSameTotals(AddPosition(ps), ps);
  }

  /** Totals are determined by the two folds. */
  lemma SameSumsSameTotals(a: seq<PositionForm>, b: seq<PositionForm>)
    requires SumOf(a, LineNet) == SumOf(b, LineNet) && SumOf(a, LineVat) == SumOf(b, LineVat)
    ensures ComputeTotals(a) == ComputeTotals(b)
  {
  }

  /** The default line item has no amount. */
  lemma DefaultLineZero()
    ensures LineNet(DefaultPosition) == 0.0 && LineVat(DefaultPosition) == 0.0
  {
  }

  /** Removing a line item takes exactly its amounts off the totals. */
  lemma TotalsAfterRemove(ps: seq<PositionForm>, i: nat)
    requires i < |ps|
    ensures ComputeTotals(RemovePosition(ps, i)).netto == ComputeTotals(ps).netto - LineNet(ps[i])
    ensures ComputeTotals(RemovePosition(ps, i)).mwst == ComputeTotals(ps).mwst - LineVat(ps[i])
  {
    SumRemoveAt(ps, i, LineNet);
    SumRemoveAt(ps, i, LineVat);
  }

  /** Editing a description or a unit leaves the totals as they are. */
  lemma TotalsIgnoreText(ps: seq<PositionForm>, i: int, u: FieldUpdate)
    requires u.SetBeschreibung? || u.SetEinheit?
    ensures ComputeTotals(UpdatePosition(ps, i, u)) == ComputeTotals(ps)
  {
    var r := UpdatePosition(ps, i, u);
    TextEditKeepsAmounts(ps, i, u);
    forall j | 0 <= j < |ps|
      ensures LineNet(ps[j]) == LineNet(r[j]) && LineVat(ps[j]) == LineVat(r[j])
    {
      SameAmountsSameLine(ps[j], r[j]);
    }
    SumSameTerms(ps, r, LineNet);
    SumSameTerms(ps, r, LineVat);
  }

  /** Two lines with the same quantity, price and rate have the same amounts. */
  lemma SameAmountsSameLine(p: PositionForm, q: PositionForm)
    requires p.menge == q.menge && p.einzelpreis == q.einzelpreis && p.mwst_satz == q.mwst_satz
    ensures LineNet(p) == LineNet(q) && LineVat(p) == LineVat(q)
  {
  }

  /** Editing a description or a unit keeps every line's quantity, price and rate. */
  lemma TextEditKeepsAmounts(ps: seq<PositionForm>, i: int, u: FieldUpdate)
    requires u.SetBeschreibung? || u.SetEinheit?
    ensures var r := UpdatePosition(ps, i, u);
      |r| == |ps| && forall j :: 0 <= j < |ps| ==>
        r[j].menge == ps[j].menge && r[j].einzelpreis == ps[j].einzelpreis && r[j].mwst_satz == ps[j].mwst_satz
  {
    var r := UpdatePosition(ps, i, u);
    if 0 <= i < |ps| {
      assert Get(r[i], Menge) == Get(ps[i], Menge);
      assert Get(r[i], Einzelpreis) == Get(ps[i], Einzelpreis);
      assert Get(r[i], MwstSatz) == Get(ps[i], MwstSatz);
    }
  }

  /** Folds agree over two sequences whose elements agree termwise. */
  lemma {:induction false} SumSameTerms(a: seq<PositionForm>, b: seq<PositionForm>, f: PositionForm -> real)
    requires |a| == |b| && forall i :: 0 <= i < |a| ==> f(a[i]) == f(b[i])
    ensures SumOf(a, f) == SumOf(b, f)
  {
    if |a| > 0 {
      SumSameTerms(a[..|a| - 1], b[..|b| - 1], f);
    }
  }

  /** When every line carries the same rate, the VAT is that rate applied to the net amount. */
  lemma UniformRate(ps: seq<PositionForm>, rate: real)
    requires forall i :: 0 <= i < |ps| ==> ps[i].mwst_satz == rate
    ensures ComputeTotals(ps).mwst == ComputeTotals(ps).netto * rate / 100.0
  {
    SumScale(ps, LineNet, LineVat, rate / 100.0);
  }

  /** Non-negative quantities, prices and rates give non-negative totals with gross at least net. */
  lemma TotalsNonNegative(ps: seq<PositionForm>)
    requires forall i :: 0 <= i < |ps| ==> ps[i].menge >= 0.0 && ps[i].einzelpreis >= 0.0 && ps[i].mwst_satz >= 0.0
    ensures 0.0 <= ComputeTotals(ps).netto <= ComputeTotals(ps).brutto
    ensures ComputeTotals(ps).mwst >= 0.0
  {
    SumNonNegative(ps, LineNet);
    SumNonNegative(ps, LineVat);
  }

  /* ------------------------- customer and the form ------------------------ */

  /** The editor's form state. */
  datatype InvoiceForm = InvoiceForm(
    kontaktId: string,
    kontaktName: string,
    titel: string,
    datum: string,
    faellig: string,
    notizen: string,
    positionen: seq<PositionForm>)

  /** The form when the editor opens on `rechnung` (null for a new invoice); `today` is the current date. */
  function InitForm(rechnung: Option<Rechnung>, today: string): (f: InvoiceForm)
    ensures f.positionen == [DefaultPosition]
    ensures rechnung.None? ==> f == InvoiceForm("", "", "", today, "", "", [DefaultPosition])
    ensures today != "" ==> f.datum != ""
    ensures rechnung.Some? ==> f.kontaktName == rechnung.value.kontakt_name
    ensures rechnung.Some? && rechnung.value.datum != "" ==> f.datum == rechnung.value.datum
    ensures rechnung.Some? ==> (f.titel == "" <==> !Truthy(rechnung.value.titel))
    ensures rechnung.Some? ==> (f.faellig == "" <==> !Truthy(rechnung.value.faelligkeitsdatum))
  {
    match rechnung
    case None => InvoiceForm("", "", "", today, "", "", [DefaultPosition])
    case Some(r) =>
      InvoiceForm(OrEmpty(r.kontakt_id), r.kontakt_name, OrEmpty(r.titel),
                  if r.datum != "" then r.datum else today,
                  OrEmpty(r.faelligkeitsdatum), OrEmpty(r.notizen), [DefaultPosition])
  }

  /** The first contact in the list with that id, if any. */
  function FindKontakt(kontakte: seq<Kontakt>, id: string): (r: Option<Kontakt>)
    ensures r.None? <==> forall i :: 0 <= i < |kontakte| ==> kontakte[i].id != id
    ensures r.Some? ==> exists i :: (0 <= i < |kontakte| && kontakte[i] == r.value
      && r.value.id == id && forall j :: 0 <= j < i ==> kontakte[j].id != id)
    decreases |kontakte|
  {
    if |kontakte| == 0 then None
    else if kontakte[0].id == id then
      assert kontakte[0] == kontakte[0];
      Some(kontakte[0])
    else
      var r := FindKontakt(kontakte[1..], id);
      if r.Some? then
        var i :| 0 <= i < |kontakte[1..]| && kontakte[1..][i] == r.value
          && r.value.id == id && forall j :: 0 <= j < i ==> kontakte[1..][j].id != id;
        assert kontakte[i + 1] == r.value;
        r
      else r
  }

  /** `handleKontaktChange(id)`: the id is taken; the name only if a contact has that id. */
  function KontaktChange(f: InvoiceForm, kontakte: seq<Kontakt>, id: string): (r: InvoiceForm)
    ensures r.kontaktId == id
    ensures r == f.(kontaktId := id, kontaktName := r.kontaktName)
    ensures FindKontakt(kontakte, id).None? ==> r.kontaktName == f.kontaktName
    ensures FindKontakt(kontakte, id).Some? ==> r.kontaktName == ContactTable.CustomerName(FindKontakt(kontakte, id).value)
  {
    match FindKontakt(kontakte, id)
    case None => f.(kontaktId := id)
    case Some(k) => f.(kontaktId := id, kontaktName := ContactTable.CustomerName(k))
  }

  /* --------------------------------- save --------------------------------- */

  /** The columns `handleSave` writes: an update of an open invoice or the insert of a new one. */
  datatype InvoiceWrite =
    | InvoiceUpdate(
        id: string,
        kontakt_id: Option<string>,
        kontakt_name: string,
        titel: Option<string>,
        datum: string,
        faelligkeitsdatum: Option<string>,
        notizen: Option<string>,
        nettobetrag: real,
        mwst_betrag: real,
        bruttobetrag: real,
        updated_at: string)
    | InvoiceInsert(
        user_id: string,
        nummer: string,
        kontakt_id: Option<string>,
        kontakt_name: string,
        titel: Option<string>,
        datum: string,
        faelligkeitsdatum: Option<string>,
        notizen: Option<string>,
        status: RechnungStatus,
        nettobetrag: real,
        mwst_betrag: real,
        bruttobetrag: real,
        mwst_satz: real,
        waehrung: string)

  datatype InvoiceSave =
    | InvoiceRejected(message: string)
    | InvoiceNotSignedIn(message: string)
    | InvoiceWrites(write: InvoiceWrite)

  const MissingCustomerMessage: string := "Bitte einen Kunden auswählen."
  const NotSignedInMessage: string := "Nicht angemeldet"
  const Currency: string := "CHF"

  /**
   * `handleSave`. Without a customer name nothing is asked of the backend.
   * `user` is the result of `auth.getUser()`, `count` the number of invoices
   * already numbered in `year`, `now` the update timestamp.
   */
  function SaveInvoice(f: InvoiceForm, rechnung: Option<Rechnung>, user: Option<string>,
                       year: nat, count: Option<nat>, now: string): (r: InvoiceSave)
    ensures r.InvoiceRejected? <==> f.kontaktName == ""
    ensures r.InvoiceRejected? ==> r.message == MissingCustomerMessage
    ensures r.InvoiceNotSignedIn? <==> f.kontaktName != "" && user.None?
    ensures r.InvoiceWrites? ==> (r.write.InvoiceUpdate? <==> rechnung.Some?)
    ensures r.InvoiceWrites? && r.write.InvoiceUpdate? ==> r.write.id == rechnung.value.id
    ensures r.InvoiceWrites? && r.write.InvoiceUpdate? ==> r.write.updated_at == now
    ensures r.InvoiceWrites? && r.write.InvoiceInsert? ==>
      && r.write.user_id == user.value
      && r.write.nummer == InvoiceNumber(year, count)
      && r.write.status == Entwurf
      && r.write.waehrung == Currency
      && r.write.mwst_satz == DefaultMwstSatz
    ensures r.InvoiceWrites? ==>
      && r.write.kontakt_name == f.kontaktName
      && r.write.kontakt_id == NullIfEmpty(f.kontaktId)
      && r.write.titel == NullIfEmpty(f.titel)
      && r.write.faelligkeitsdatum == NullIfEmpty(f.faellig)
      && r.write.notizen == NullIfEmpty(f.notizen)
      && r.write.datum == f.datum
    ensures r.InvoiceWrites? ==>
      var t := ComputeTotals(f.positionen);
      r.write.nettobetrag == t.netto && r.write.mwst_betrag == t.mwst && r.write.bruttobetrag == t.brutto
  {
    if f.kontaktName == "" then InvoiceRejected(MissingCustomerMessage)
    else if user.None? then InvoiceNotSignedIn(NotSignedInMessage)
    else
      var t := ComputeTotals(f.positionen);
      match rechnung
      case Some(existing) =>
        InvoiceWrites(InvoiceUpdate(existing.id, NullIfEmpty(f.kontaktId), f.kontaktName,
          NullIfEmpty(f.titel), f.datum, NullIfEmpty(f.faellig), NullIfEmpty(f.notizen),
          t.netto, t.mwst, t.brutto, now))
      case None =>
        InvoiceWrites(InvoiceInsert(user.value, InvoiceNumber(year, count), NullIfEmpty(f.kontaktId),
          f.kontaktName, NullIfEmpty(f.titel), f.datum, NullIfEmpty(f.faellig), NullIfEmpty(f.notizen),
          Entwurf, t.netto, t.mwst, t.brutto, DefaultMwstSatz, Currency))
  }

  /**
   * Opening an invoice and saving it with unchanged fields writes back the
   * same customer, title, due date and notes, with blanks as null; an empty
   * date becomes today. `ps` are the line items as loaded.
   */
  lemma UnchangedInvoiceSaveRoundTrip(r: Rechnung, today: string, ps: seq<PositionForm>,
                                      user: string, year: nat, count: Option<nat>, now: string)
    requires r.kontakt_name != ""
    ensures var w := SaveInvoice(InitForm(Some(r), today).(positionen := ps), Some(r), Some(user), year, count, now);
      && w.InvoiceWrites? && w.write.InvoiceUpdate? && w.write.id == r.id
      && w.write.kontakt_name == r.kontakt_name
      && w.write.kontakt_id == (if Truthy(r.kontakt_id) then r.kontakt_id else None)
      && w.write.titel == (if Truthy(r.titel) then r.titel else None)
      && w.write.faelligkeitsdatum == (if Truthy(r.faelligkeitsdatum) then r.faelligkeitsdatum else None)
      && w.write.notizen == (if Truthy(r.notizen) then r.notizen else None)
      && w.write.datum == (if r.datum != "" then r.datum else today)
  {
    NullIfEmptyOrEmpty(r.kontakt_id);
    NullIfEmptyOrEmpty(r.titel);
    NullIfEmptyOrEmpty(r.faelligkeitsdatum);
    NullIfEmptyOrEmpty(r.notizen);
  }

  /** The stored rate of a new invoice is 8.1 whatever rates its lines carry. */
  lemma NewInvoiceRateIgnoresLines(f: InvoiceForm, g: InvoiceForm, user: string, year: nat, count: Option<nat>, now: string)
    requires f.kontaktName != "" && g == f.(positionen := g.positionen)
    ensures SaveInvoice(f, None, Some(user), year, count, now).write.mwst_satz
         == SaveInvoice(g, None, Some(user), year, count, now).write.mwst_satz == 8.1
  {
  }

  /** Choosing the empty "— Kunde auswählen —" entry keeps the previous customer name, so saving is still allowed. */
  lemma DeselectKeepsName(f: InvoiceForm, kontakte: seq<Kontakt>, user: string, year: nat, count: Option<nat>, now: string)
    requires forall i :: 0 <= i < |kontakte| ==> kontakte[i].id != ""
    requires f.kontaktName != ""
    ensures KontaktChange(f, kontakte, "").kontaktName == f.kontaktName
    ensures SaveInvoice(KontaktChange(f, kontakte, ""), None, Some(user), year, count, now).InvoiceWrites?
    ensures SaveInvoice(KontaktChange(f, kontakte, ""), None, Some(user), year, count, now).write.kontakt_id == None
  {
  }

  /* ---------------------------- line item rows ---------------------------- */

  /** One row of the `rechnung_positionen` insert. */
  datatype PositionRow = PositionRow(
    rechnung_id: string,
    beschreibung: string,
    menge: real,
    einheit: string,
    einzelpreis: real,
    mwst_satz: real,
    gesamtpreis: real,
    reihenfolge: int)

  /** The row of line item `p` at position `i`; its total is its quantity times its price. */
  function ToRow(p: PositionForm, rechnungId: string, i: nat): (row: PositionRow)
    ensures row.gesamtpreis == row.menge * row.einzelpreis
    ensures row.reihenfolge == i && row.rechnung_id == rechnungId
    ensures row.beschreibung == p.beschreibung && row.menge == p.menge && row.einheit == p.einheit
    ensures row.einzelpreis == p.einzelpreis && row.mwst_satz == p.mwst_satz
  {
    PositionRow(rechnungId, p.beschreibung, p.menge, p.einheit, p.einzelpreis, p.mwst_satz, LineNet(p), i)
  }

  /** The rows inserted for the line items: one per item, numbered by position, each with its net amount. */
  function PositionRows(ps: seq<PositionForm>, rechnungId: string): (rows: seq<PositionRow>)
    ensures |rows| == |ps|
    ensures forall i :: 0 <= i < |ps| ==> rows[i] == ToRow(ps[i], rechnungId, i)
  {
    seq(|ps|, i requires 0 <= i < |ps| => ToRow(ps[i], rechnungId, i))
  }

  /** The stored row `s` holds exactly the columns of the inserted row `row`; the store adds the id. */
  predicate StoredAs(s: RechnungPosition, row: PositionRow) {
    && s.rechnung_id == row.rechnung_id && s.beschreibung == row.beschreibung
    && s.menge == row.menge && s.einheit == row.einheit && s.einzelpreis == row.einzelpreis
    && s.mwst_satz == row.mwst_satz && s.gesamtpreis == row.gesamtpreis && s.reihenfolge == row.reihenfolge
  }

  /** A stored row read back into the form, with an empty unit replaced by 'Stk'. */
  function FromRow(p: RechnungPosition): (f: PositionForm)
    ensures f.einheit != ""
    ensures p.einheit != "" ==> f.einheit == p.einheit
    ensures f.beschreibung == p.beschreibung && f.menge == p.menge
    ensures f.einzelpreis == p.einzelpreis && f.mwst_satz == p.mwst_satz
  {
    PositionForm(p.beschreibung, p.menge, if p.einheit != "" then p.einheit else DefaultEinheit,
                 p.einzelpreis, p.mwst_satz)
  }

  /** Loading: rows replace the line items only when there is at least one. */
  function LoadPositions(current: seq<PositionForm>, data: Option<seq<RechnungPosition>>): (r: seq<PositionForm>)
    ensures data.None? || |data.value| == 0 ==> r == current
    ensures data.Some? && |data.value| > 0 ==> |r| == |data.value|
    ensures data.Some? && |data.value| > 0 ==> forall i :: 0 <= i < |r| ==> r[i] == FromRow(data.value[i])
  {
    if data.Some? && |data.value| > 0 then
      seq(|data.value|, i requires 0 <= i < |data.value| => FromRow(data.value[i]))
    else current
  }

  /** A line item as it comes back: an empty unit reads as 'Stk'. */
  function NormalizeEinheit(p: PositionForm): PositionForm {
    p.(einheit := if p.einheit != "" then p.einheit else DefaultEinheit)
  }

  /** Rows are written in list order with strictly increasing `reihenfolge`, so ordering by it keeps that order. */
  lemma RowsOrdered(ps: seq<PositionForm>, rechnungId: string)
    ensures forall i, j :: 0 <= i < j < |ps| ==>
      PositionRows(ps, rechnungId)[i].reihenfolge < PositionRows(ps, rechnungId)[j].reihenfolge
  {
  }

  function RowTotal(row: PositionRow): real {
    row.gesamtpreis
  }

  /** The row totals add up to the net amount. */
  lemma RowsSumToNet(ps: seq<PositionForm>, rechnungId: string)
    ensures SumOf(PositionRows(ps, rechnungId), RowTotal) == ComputeTotals(ps).netto
  {
    RowsSum(ps, rechnungId);
  }

  lemma {:induction false} RowsSum(ps: seq<PositionForm>, rechnungId: string)
    ensures SumOf(PositionRows(ps, rechnungId), RowTotal) == SumOf(ps, LineNet)
    decreases |ps|
  {
    if |ps| > 0 {
      var init := ps[..|ps| - 1];
      RowsSum(init, rechnungId);
      assert PositionRows(ps, rechnungId)[..|ps| - 1] == PositionRows(init, rechnungId);
    }
  }

  /**
   * Saving then reopening an invoice gives back its line items, in order, with
   * an empty unit read as 'Stk'. `stored` are the rows the store returns
   * ordered by `reihenfolge`: the rows inserted, each with an id added.
   */
  lemma PositionsRoundTrip(ps: seq<PositionForm>, rechnungId: string,
                           stored: seq<RechnungPosition>, current: seq<PositionForm>)
    requires |ps| > 0 && |stored| == |ps|
    requires forall i :: 0 <= i < |ps| ==> StoredAs(stored[i], PositionRows(ps, rechnungId)[i])
    ensures |LoadPositions(current, Some(stored))| == |ps|
    ensures forall i :: 0 <= i < |ps| ==> LoadPositions(current, Some(stored))[i] == NormalizeEinheit(ps[i])
    ensures ComputeTotals(LoadPositions(current, Some(stored))) == ComputeTotals(ps)
  {
    var loaded := LoadPositions(current, Some(stored));
    forall i | 0 <= i < |ps|
      ensures LineNet(loaded[i]) == LineNet(ps[i]) && LineVat(loaded[i]) == LineVat(ps[i])
    {
      RowRoundTrip(ps[i], rechnungId, i, stored[i]);
      SameAmountsSameLine(loaded[i], ps[i]);
    }
    SumSameTerms(loaded, ps, LineNet);
    SumSameTerms(loaded, ps, LineVat);
    SameSumsSameTotals(loaded, ps);
  }

  /** One line item written as a row and read back: only an empty unit changes, to 'Stk'. */
  lemma RowRoundTrip(p: PositionForm, rechnungId: string, i: nat, s: RechnungPosition)
    requires StoredAs(s, ToRow(p, rechnungId, i))
    ensures FromRow(s) == NormalizeEinheit(p)
  {
  }

  /** Line items with a unit come back unchanged, and so do the totals. */
  lemma PositionsRoundTripExact(ps: seq<PositionForm>, rechnungId: string,
                                stored: seq<RechnungPosition>, current: seq<PositionForm>)
    requires |ps| > 0 && |stored| == |ps|
    requires forall i :: 0 <= i < |ps| ==> StoredAs(stored[i], PositionRows(ps, rechnungId)[i])
    requires forall i :: 0 <= i < |ps| ==> ps[i].einheit != ""
    ensures LoadPositions(current, Some(stored)) == ps
    ensures ComputeTotals(LoadPositions(current, Some(stored))) == ComputeTotals(ps)
  {
    PositionsRoundTrip(ps, rechnungId, stored, current);
  }

  /** Reopening an invoice whose rows are gone keeps the single default line item. */
  lemma LoadNoRowsKeepsDefault(rechnung: Rechnung, today: string)
    ensures LoadPositions(InitForm(Some(rechnung), today).positionen, Some([])) == [DefaultPosition]
    ensures LoadPositions(InitForm(Some(rechnung), today).positionen, None) == [DefaultPosition]
  {
  }
}
