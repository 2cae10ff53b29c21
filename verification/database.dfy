/**
 * The records of src/types/database.ts: contacts (`Kontakt`), their contact
 * persons (`KontaktPerson`), invoices (`Rechnung`) with their status, and
 * invoice lines (`RechnungPosition`).
 * Columns keep the table's names. A `string | null` column is an
 * `Option<string>`; amounts are exact `real`s.
 */
module Database {

  import opened Optional

  /** `RechnungStatus`; `Ueberfaellig` is the stored value 'überfällig'. */
  datatype RechnungStatus = Entwurf | Gesendet | Bezahlt | Ueberfaellig | Storniert

  datatype KontaktTyp = Firma | Privat

  datatype Kontakt = Kontakt(
    id: string,
    user_id: string,
    typ: KontaktTyp,
    kundennummer: string,
    firma: Option<string>,
    branche: Option<string>,
    mwst_nr: Option<string>,
    website: Option<string>,
    iban: Option<string>,
    vorname: Option<string>,
    nachname: Option<string>,
    email: Option<string>,
    telefon: Option<string>,
    adresse: Option<string>,
    plz: Option<string>,
    ort: Option<string>,
    land: string,
    notizen: Option<string>,
    created_at: string,
    updated_at: string)

  /** A contact person of a company contact. */
  datatype KontaktPerson = KontaktPerson(
    id: string,
    kontakt_id: string,
    user_id: string,
    personennummer: string,
    anrede: Option<string>,
    vorname: Option<string>,
    nachname: string,
    funktion: Option<string>,
    email: Option<string>,
    telefon: Option<string>,
    mobile: Option<string>,
    ist_hauptperson: bool,
    created_at: string)

  datatype Rechnung = Rechnung(
    id: string,
    user_id: string,
    nummer: string,
    kontakt_id: Option<string>,
    kontakt_name: string,
    titel: Option<string>,
    datum: string,
    faelligkeitsdatum: Option<string>,
    status: RechnungStatus,
    nettobetrag: real,
    mwst_betrag: real,
    bruttobetrag: real,
    mwst_satz: real,
    waehrung: string,
    notizen: Option<string>,
    created_at: string)

  datatype RechnungPosition = RechnungPosition(
    id: string,
    rechnung_id: string,
    beschreibung: string,
    menge: real,
    einheit: string,
    einzelpreis: real,
    mwst_satz: real,
    gesamtpreis: real,
    reihenfolge: int)

  /* ------------- JavaScript truthiness of nullable text columns ------------ */

  /** A nullable string is truthy when it is present and not empty. */
  predicate Truthy(s: Option<string>) {
    s.Some? && s.value != ""
  }

  /** `s || d` for a nullable string `s`. */
  function OrElse(s: Option<string>, d: string): (r: string)
    ensures Truthy(s) ==> r == s.value
    ensures !Truthy(s) ==> r == d
  {
    if Truthy(s) then s.value else d
  }

  /** `s || ''`: a nullable string read into a form field. */
  function OrEmpty(s: Option<string>): string {
    OrElse(s, "")
  }

  /** `s || null`: a form field written back to a nullable column. */
  function NullIfEmpty(s: string): (r: Option<string>)
    ensures r.None? <==> s == ""
    ensures r.Some? ==> r.value == s
  {
    if s == "" then None else Some(s)
  }

  /** `col` is what a form holding `field` writes: null when the field is empty, and reading it back gives the field. */
  predicate StoresField(col: Option<string>, field: string) {
    (col.None? <==> field == "") && OrEmpty(col) == field
  }

  /** The written column is determined by the field. */
  lemma StoresFieldUnique(a: Option<string>, b: Option<string>, field: string)
    requires StoresField(a, field) && StoresField(b, field)
    ensures a == b
  {
  }

  /** Writing with `s || null` stores the field. */
  lemma NullIfEmptyStores(field: string)
    ensures StoresField(NullIfEmpty(field), field)
  {
  }

  /** Reading a field and writing it back gives the column, except that '' becomes null. */
  lemma NullIfEmptyOrEmpty(s: Option<string>)
    ensures NullIfEmpty(OrEmpty(s)) == if Truthy(s) then s else None
  {
  }

  /** Writing a form field and reading it back gives the field. */
  lemma OrEmptyNullIfEmpty(s: string)
    ensures OrEmpty(NullIfEmpty(s)) == s
  {
  }
}
