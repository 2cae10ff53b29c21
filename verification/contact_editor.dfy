/**
 * The contact editor of src/components/kontakte/KontaktModal.tsx: the form
 * is filled from the edited contact (missing fields as '', country 'CH'),
 * saving is refused without a company or family name, and the request sent
 * writes empty fields as null. The signed-in user is a parameter standing for
 * `auth.getUser()`; the request value stands for the remote insert or update.
 */
module ContactEditor {

  import opened Optional
  import opened Database

  datatype ContactForm = ContactForm(
    firma: string,
    vorname: string,
    nachname: string,
    email: string,
    adresse: string,
    plz: string,
    ort: string,
    land: string)

  /** The columns both the insert and the update write. */
  datatype ContactPayload = ContactPayload(
    firma: Option<string>,
    vorname: Option<string>,
    nachname: Option<string>,
    email: Option<string>,
    adresse: Option<string>,
    plz: Option<string>,
    ort: Option<string>,
    land: string)

  datatype ContactSave =
    | ContactRejected(message: string)
    | ContactNotSignedIn(message: string)
    | ContactUpdate(id: string, payload: ContactPayload)
    | ContactInsert(user_id: string, payload: ContactPayload)

  const DefaultLand: string := "CH"
  const MissingNameMessage: string := "Bitte Firma oder Nachname eingeben."
  const NotSignedInMessage: string := "Nicht angemeldet"

  /** The form state when the editor opens on `kontakt` (null for a new contact). */
  function InitForm(kontakt: Option<Kontakt>): (f: ContactForm)
    ensures kontakt.None? ==> f == ContactForm("", "", "", "", "", "", "", DefaultLand)
    ensures f.land != ""
  {
    match kontakt
    case None => ContactForm("", "", "", "", "", "", "", DefaultLand)
    case Some(k) =>
      ContactForm(OrEmpty(k.firma), OrEmpty(k.vorname), OrEmpty(k.nachname), OrEmpty(k.email),
                  OrEmpty(k.adresse), OrEmpty(k.plz), OrEmpty(k.ort),
                  if k.land != "" then k.land else DefaultLand)
  }

  /** The row written for a form: every empty text field becomes null. */
  function Payload(f: ContactForm): (p: ContactPayload)
    ensures StoresField(p.firma, f.firma) && StoresField(p.vorname, f.vorname)
    ensures StoresField(p.nachname, f.nachname) && StoresField(p.email, f.email)
    ensures StoresField(p.adresse, f.adresse) && StoresField(p.plz, f.plz)
    ensures StoresField(p.ort, f.ort) && p.land == f.land
  {
    ContactPayload(NullIfEmpty(f.firma), NullIfEmpty(f.vorname), NullIfEmpty(f.nachname),
                   NullIfEmpty(f.email), NullIfEmpty(f.adresse), NullIfEmpty(f.plz),
                   NullIfEmpty(f.ort), f.land)
  }

  /** `handleSave`: validation first, then the user check, then update or insert. */
  function SaveContact(f: ContactForm, kontakt: Option<Kontakt>, user: Option<string>): (r: ContactSave)
    ensures r.ContactRejected? <==> f.firma == "" && f.nachname == ""
    ensures r.ContactRejected? ==> r.message == MissingNameMessage
    ensures r.ContactNotSignedIn? <==> (f.firma != "" || f.nachname != "") && user.None?
    ensures r.ContactUpdate? ==> kontakt.Some? && r.id == kontakt.value.id && r.payload == Payload(f)
    ensures r.ContactInsert? ==> kontakt.None? && user == Some(r.user_id) && r.payload == Payload(f)
    ensures (f.firma != "" || f.nachname != "") && user.Some? ==> (r.ContactUpdate? <==> kontakt.Some?)
  {
    if f.firma == "" && f.nachname == "" then ContactRejected(MissingNameMessage)
    else if user.None? then ContactNotSignedIn(NotSignedInMessage)
    else if kontakt.Some? then ContactUpdate(kontakt.value.id, Payload(f))
    else ContactInsert(user.value, Payload(f))
  }

  /* ------------------------------- properties ------------------------------ */

  /** The row a save result writes, if it writes one. */
  function Written(r: ContactSave): Option<ContactPayload> {
    match r
    case ContactUpdate(_, p) => Some(p)
    case ContactInsert(_, p) => Some(p)
    case _ => None
  }

  /** A row is only ever written with a company or a family name in it, and nothing is written otherwise. */
  lemma WrittenHasName(f: ContactForm, kontakt: Option<Kontakt>, user: Option<string>)
    ensures Written(SaveContact(f, kontakt, user)).Some? <==> (f.firma != "" || f.nachname != "") && user.Some?
    ensures Written(SaveContact(f, kontakt, user)).Some? ==>
      Written(SaveContact(f, kontakt, user)).value.firma.Some? || Written(SaveContact(f, kontakt, user)).value.nachname.Some?
  {
  }

  /** Opening an existing contact and saving it unchanged writes back the same text columns, blanks as null. */
  lemma UnchangedSaveRoundTrip(k: Kontakt, user: string)
    requires Truthy(k.firma) || Truthy(k.nachname)
    ensures SaveContact(InitForm(Some(k)), Some(k), Some(user))
         == ContactUpdate(k.id, ContactPayload(
              if Truthy(k.firma) then k.firma else None,
              if Truthy(k.vorname) then k.vorname else None,
              if Truthy(k.nachname) then k.nachname else None,
              if Truthy(k.email) then k.email else None,
              if Truthy(k.adresse) then k.adresse else None,
              if Truthy(k.plz) then k.plz else None,
              if Truthy(k.ort) then k.ort else None,
              if k.land != "" then k.land else DefaultLand))
  {
    NullIfEmptyOrEmpty(k.firma);
    NullIfEmptyOrEmpty(k.vorname);
    NullIfEmptyOrEmpty(k.nachname);
    NullIfEmptyOrEmpty(k.email);
    NullIfEmptyOrEmpty(k.adresse);
    NullIfEmptyOrEmpty(k.plz);
    NullIfEmptyOrEmpty(k.ort);
  }

  /** A new contact is sent with country 'CH' unless the form changed it. */
  lemma NewContactDefaultsToCH(f: ContactForm, user: string)
    requires f == InitForm(None).(firma := f.firma, nachname := f.nachname)
    requires f.firma != "" || f.nachname != ""
    ensures SaveContact(f, None, Some(user)) == ContactInsert(user, Payload(f))
    ensures Payload(f).land == "CH"
  {
  }
}
