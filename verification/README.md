# fuxion core, modelled in Dafny

fuxion is a Swiss bookkeeping web application. Customers (`kontakte`) are
kept in a contact list, and invoices (`rechnungen`) are made of line items
(`rechnung_positionen`). An invoice goes through the statuses draft, sent and
paid. Almost all of the code is React user interface over a hosted database.
This project models the small pure derivations inside those components, as
pure Dafny functions over immutable records, and proves what they promise.

| module (file) | models |
|---|---|
| `Database` (database.dfy) | the records of `src/types/database.ts`, and how a nullable text column is read into a form field (`s \|\| ''`) and written back (`s \|\| null`) |
| `InvoiceEditor` (invoice_editor.dfy) | the invoice editor `RechnungModal.tsx`: the next invoice number `RE-<year>-<nnn>`, the line-item edits, the net/VAT/gross totals, choosing a customer, the save request, and how line items are written as rows and read back |
| `InvoiceTable` (invoice_table.dfy) | one invoice row of `RechnungenTable.tsx`: the overdue flag, the status badge, and the row menu, whose entries form the status transitions |
| `InvoiceList` (invoice_list.dfy) | the invoice page `dashboard/rechnungen/page.tsx`: the search and status filter, the key figures, the status change and the delete |
| `ContactTable` (contact_table.dfy) | the cells of one contact row in `KontakteTable.tsx` |
| `ContactEditor` (contact_editor.dfy) | the contact editor `KontaktModal.tsx`: the form, the required name, and the written row |
| `ContactList` (contact_list.dfy) | the contact search of `kontakte/page.tsx` |
| `RouteGuard` (route_guard.dfy) | the redirect decision of `middleware.ts` |
| `Sidebar` (sidebar.dfy) | the highlighted navigation entry and the e-mail initials of `Sidebar.tsx` |
| `Text`, `Seqs`, `Optional` | the JavaScript string operations used in the core (ASCII `toLowerCase`/`toUpperCase`, `trim`, `includes`, `startsWith`, `padStart`, `String(n)`), filtering and summing over sequences, and `Option` |

Modelling choices:

- Amounts, quantities and rates are exact `real`s.
- A nullable column is an `Option`. JavaScript truthiness of a nullable string is `Truthy(s)`: present and not empty.
- Everything that comes from outside a component is a parameter:
  - the signed-in user;
  - the count of this year's invoices;
  - the rows the database returns;
  - the clock (`year`, `today`, `now`);
  - date parsing (`toTime`, which gives `None` for an unreadable date).
- A request to the database is a value that says what would be written.
- A status change or delete, followed by the refetch, is a function from the old list to the new one.

## Model

| member | source | states |
|---|---|---|
| Database.NullIfEmpty | src/components/kontakte/KontaktModal.tsx:43-51 | a form field is written as null exactly when it is empty, and unchanged otherwise |
| Database.NullIfEmptyOrEmpty | src/components/kontakte/KontaktModal.tsx:21-27 | reading a nullable column into a field and writing it back gives the column, except that '' becomes null |
| Database.OrEmptyNullIfEmpty | src/components/kontakte/KontaktModal.tsx:43-51 | writing a field and reading it back gives the field unchanged |
| Database.StoresFieldUnique | src/components/kontakte/KontaktModal.tsx:43-51 | at most one column value stores a given field (null for '', the text itself otherwise), so a write is fixed by the form it stores |
| Database.NullIfEmptyStores | src/components/kontakte/KontaktModal.tsx:43-51 | writing a field with `\|\| null` gives the column value that stores it |
| InvoiceEditor.InvoiceNumber | src/components/rechnungen/RechnungModal.tsx:109-114 | the number starts with `RE-<year>-`, and its sequence part is at least 3 characters: 3 below 1000, otherwise as long as the sequence number |
| InvoiceEditor.InvoiceNumberRoundTrip | src/components/rechnungen/RechnungModal.tsx:109-114 | parsing the generated number gives back the year and count+1 (a missing count reads as 0): padding never truncates and the number carries no other information |
| InvoiceEditor.ParseComposed | src/components/rechnungen/RechnungModal.tsx:114 | any `RE-<digits>-<digits>` string parses into the values of its two digit runs |
| InvoiceEditor.InvoiceNumberInjective | src/components/rechnungen/RechnungModal.tsx:114 | within one year, different counts give different invoice numbers |
| InvoiceEditor.FirstInvoiceOfYear | src/components/rechnungen/RechnungModal.tsx:110-114 | a missing count and a count of 0 both give `RE-<year>-001` |
| InvoiceEditor.InvoiceNumberExamples | src/components/rechnungen/RechnungModal.tsx:114 | after 41 invoices in 2025 the number is `RE-2025-042`; after 999 it grows to `RE-2025-1000` |
| InvoiceEditor.WithField | src/components/rechnungen/RechnungModal.tsx:73 | the named field takes the new value and every other field keeps its value |
| InvoiceEditor.FieldsDetermine | src/components/rechnungen/RechnungModal.tsx:14-20 | two line items that agree on all five fields are equal, so the field-wise statements fix the whole item |
| InvoiceEditor.UpdatePosition | src/components/rechnungen/RechnungModal.tsx:72-74 | the length is kept, every other line item is unchanged, and in the edited item only the named field changes; an index outside the list changes nothing |
| InvoiceEditor.AddPosition | src/components/rechnungen/RechnungModal.tsx:230 | exactly one default line item (1 Stk at 0.00, 8.1 %) is appended, and the existing items are kept in order |
| InvoiceEditor.RemovePosition | src/components/rechnungen/RechnungModal.tsx:279 | removing index i drops exactly the i-th item and keeps the others in order; an index outside the list changes nothing |
| InvoiceEditor.RemoveOffered | src/components/rechnungen/RechnungModal.tsx:277 | the remove button is offered exactly when removing any one line item still leaves at least one; a definition NeverEmpty relies on |
| InvoiceEditor.ApplyAction | src/components/rechnungen/RechnungModal.tsx:230-279 | adding grows the list by one, editing keeps its length, and removing shrinks it by one only while more than one item is left; the step NeverEmpty relies on |
| InvoiceEditor.ApplyActions | src/components/rechnungen/RechnungModal.tsx:230-279 | a sequence of actions adds at most one line item per action; the run of actions NeverEmpty is about |
| InvoiceEditor.NeverEmpty | src/components/rechnungen/RechnungModal.tsx:277-279 | because the remove button is shown only while there is more than one line item, no sequence of add, edit and remove actions empties the list |
| InvoiceEditor.LineNet | src/components/rechnungen/RechnungModal.tsx:76 | a line with no quantity or no price adds nothing to net; a definition the totals lemmas rely on |
| InvoiceEditor.LineVat | src/components/rechnungen/RechnungModal.tsx:77 | a line at rate 0, or with no net amount, adds no VAT; a definition the totals lemmas rely on |
| InvoiceEditor.LineGross | src/components/rechnungen/RechnungModal.tsx:76-78 | at rate 0 a line's gross amount is its net amount; a definition GrossIsSumOfLines relies on |
| InvoiceEditor.ComputeTotals | src/components/rechnungen/RechnungModal.tsx:76-78 | gross equals net plus VAT, and also the sum of the items' own gross amounts; net and VAT come out the same for every reordering of the line items |
| InvoiceEditor.GrossIsSumOfLines | src/components/rechnungen/RechnungModal.tsx:76-78 | the gross total also equals the sum of the items' own gross amounts (quantity × price × (1 + rate/100)) |
| InvoiceEditor.TotalsOrderIndependent | src/components/rechnungen/RechnungModal.tsx:76-77 | with exact arithmetic, any reordering of the line items leaves all three totals unchanged |
| InvoiceEditor.TotalsAfterAdd | src/components/rechnungen/RechnungModal.tsx:22-24 | adding a default line item leaves the totals unchanged, since its price is 0 |
| InvoiceEditor.TotalsAfterRemove | src/components/rechnungen/RechnungModal.tsx:76-77 | removing item i lowers net and VAT by exactly that item's amounts |
| InvoiceEditor.TotalsIgnoreText | src/components/rechnungen/RechnungModal.tsx:72-77 | editing a description or a unit leaves the totals unchanged |
| InvoiceEditor.TextEditKeepsAmounts | src/components/rechnungen/RechnungModal.tsx:72-74 | editing a description or a unit keeps the quantity, price and rate of every line item |
| InvoiceEditor.UniformRate | src/components/rechnungen/RechnungModal.tsx:76-77 | when all line items carry the same rate, VAT is that rate applied to net |
| InvoiceEditor.TotalsNonNegative | src/components/rechnungen/RechnungModal.tsx:76-78 | non-negative quantities, prices and rates give 0 ≤ net ≤ gross, and non-negative VAT |
| InvoiceEditor.InitForm | src/components/rechnungen/RechnungModal.tsx:34-40 | the editor starts with the single default line item. A new invoice starts with empty fields and today's date. An opened invoice keeps its customer name and a non-empty date, its title and due-date fields are empty exactly when the stored value is missing or empty, and the date is never empty when today is not |
| InvoiceEditor.FindKontakt | src/components/rechnungen/RechnungModal.tsx:68 | the result is the first contact with the id, and none exactly when no contact has the id |
| InvoiceEditor.KontaktChange | src/components/rechnungen/RechnungModal.tsx:66-70 | the id is always taken. The customer name becomes the found contact's company or person name, and stays as it was when no contact has the id. Nothing else in the form changes |
| InvoiceEditor.SaveInvoice | src/components/rechnungen/RechnungModal.tsx:83-131 | the save is refused, with no request, exactly when the customer name is empty. Without a user nothing is written. An open invoice is updated by its id, stamped with the save time as `updated_at`, and a new one is inserted with the generated number, status draft, CHF and rate 8.1. Both writes carry the form's fields, with empty fields as null, and the three totals |
| InvoiceEditor.NewInvoiceRateIgnoresLines | src/components/rechnungen/RechnungModal.tsx:129 | the stored rate of a new invoice is 8.1, whatever rates its line items carry |
| InvoiceEditor.DeselectKeepsName | src/components/rechnungen/RechnungModal.tsx:66-70 | choosing the empty customer entry keeps the previous name, so the save still goes through, now without a contact id |
| InvoiceEditor.UnchangedInvoiceSaveRoundTrip | src/components/rechnungen/RechnungModal.tsx:94-101 | opening an invoice and saving it unchanged updates that invoice by its id with its own customer name, contact, title, due date and notes, blanks written as null, and its date (or today when it had none) |
| InvoiceEditor.PositionRows | src/components/rechnungen/RechnungModal.tsx:137-147 | there is one row per line item, in list order: row i carries item i's fields, `reihenfolge` i and `gesamtpreis` quantity × price |
| InvoiceEditor.ToRow | src/components/rechnungen/RechnungModal.tsx:138-147 | a row belongs to the saved invoice, stores the item's five fields, has the list index as `reihenfolge`, and its `gesamtpreis` is its own quantity times its own price |
| InvoiceEditor.FromRow | src/components/rechnungen/RechnungModal.tsx:54-60 | a row read back into the editor always has a unit: its own unit when non-empty, otherwise a default; the other four fields are the row's |
| InvoiceEditor.RowRoundTrip | src/components/rechnungen/RechnungModal.tsx:54-60 | a line item written as a row and read back is the item itself, with an empty unit replaced by 'Stk' |
| InvoiceEditor.RowsOrdered | src/components/rechnungen/RechnungModal.tsx:146 | `reihenfolge` strictly increases along the list, so ordering the rows by it restores the list order |
| InvoiceEditor.RowsSumToNet | src/components/rechnungen/RechnungModal.tsx:145 | the rows' `gesamtpreis` values add up to the net total |
| InvoiceEditor.LoadPositions | src/components/rechnungen/RechnungModal.tsx:52-61 | rows replace the line items only when at least one row came back; then there is one item per row, in row order |
| InvoiceEditor.PositionsRoundTrip | src/components/rechnungen/RechnungModal.tsx:51-60 | reading back the stored rows, ordered by `reihenfolge`, gives the saved line items in order, with an empty unit read as 'Stk', and the same net, VAT and gross totals |
| InvoiceEditor.PositionsRoundTripExact | src/components/rechnungen/RechnungModal.tsx:137-147 | line items that all have a unit come back exactly |
| InvoiceEditor.LoadNoRowsKeepsDefault | src/components/rechnungen/RechnungModal.tsx:40 | when no rows come back, the editor keeps its single default line item |
| InvoiceTable.Menu | src/components/RechnungenTable.tsx:104-132 | edit comes first and delete last in every menu |
| InvoiceTable.StatusActions | src/components/RechnungenTable.tsx:110-125 | a draft offers only "sent". Sent and overdue offer only "paid". Paid and cancelled offer no status entry |
| InvoiceTable.Transition | src/components/RechnungenTable.tsx:110-125 | a menu transition always changes the status, and only ever to sent or paid; a definition the transition lemmas rely on |
| InvoiceTable.TransitionTable | src/components/RechnungenTable.tsx:110-125 | a menu entry moves an invoice from one status to another exactly for draft→sent, sent→paid and overdue→paid |
| InvoiceTable.NeverTargeted | src/components/RechnungenTable.tsx:104-132 | no entry sets an invoice to overdue, cancelled or draft |
| InvoiceTable.EditAndDeleteAlways | src/components/RechnungenTable.tsx:104-109 | edit and delete are offered for every status |
| InvoiceTable.TransitionAdvances | src/components/RechnungenTable.tsx:110-125 | every transition moves strictly forward in the lifecycle |
| InvoiceTable.PathsAreShort | src/components/RechnungenTable.tsx:110-125 | no status is ever revisited: any chain of menu transitions has at most two steps |
| InvoiceTable.IsOverdue | src/components/RechnungenTable.tsx:72-75 | an overdue invoice is sent, has a non-empty due date, and that date parses to a time strictly before now |
| InvoiceTable.View | src/components/RechnungenTable.tsx:82-88 | the badge is the stored status and the amount the gross amount. The due-date warning is shown exactly when the invoice is overdue, only on a sent invoice, and once shown it stays shown at every later time |
| InvoiceTable.OverdueOnlyWhenSent | src/components/RechnungenTable.tsx:72-73 | an invoice with any status other than sent is never overdue |
| InvoiceTable.OverdueNeedsDueDate | src/components/RechnungenTable.tsx:74 | without a due date, or with an empty one, an invoice is never overdue |
| InvoiceTable.OverdueIff | src/components/RechnungenTable.tsx:72-75 | a sent invoice with a readable due date is overdue exactly when that date is strictly before now |
| InvoiceTable.OverdueStaysOverdue | src/components/RechnungenTable.tsx:75 | once overdue, an invoice stays overdue as time goes on |
| InvoiceTable.BadgeIgnoresOverdue | src/components/RechnungenTable.tsx:87-88 | the badge does not depend on the clock: being overdue never changes the status shown |
| InvoiceList.StatusLabel | src/app/dashboard/rechnungen/page.tsx:10-16 | every status has a non-empty German label; a definition the filter-caption lemmas rely on |
| InvoiceList.FilterCaption | src/app/dashboard/rechnungen/page.tsx:138 | a filter button's caption is never empty, and it is 'Alle' exactly for the show-all button |
| InvoiceList.FilterCaptionsDistinct | src/app/dashboard/rechnungen/page.tsx:130-138 | the six filter buttons carry six different captions |
| InvoiceList.StatusLabelInjective | src/app/dashboard/rechnungen/page.tsx:10-16 | two statuses have the same label exactly when they are the same status |
| InvoiceList.FilterChoicesComplete | src/app/dashboard/rechnungen/page.tsx:130-138 | 'Alle' is the first filter button, every status has a button, and no two buttons are the same |
| InvoiceList.TitleText | src/app/dashboard/rechnungen/page.tsx:61 | a missing or empty title is searched as '', a present one as itself |
| InvoiceList.MatchesSearch | src/app/dashboard/rechnungen/page.tsx:58-61 | an invoice matches exactly when the lower-cased query occurs in the lower-cased number, customer name or title; the empty query matches every invoice |
| InvoiceList.FilterInvoices | src/app/dashboard/rechnungen/page.tsx:57-64 | the result is an order-preserving subsequence. Every kept invoice matches the query in number, customer name or title, and has the chosen status when a status filter is set. Every invoice that matches both is kept as often as it occurs, and no other is kept |
| InvoiceList.ShowAll | src/app/dashboard/rechnungen/page.tsx:57-64 | an empty query with filter 'Alle' lists every invoice |
| InvoiceList.SearchCaseIrrelevant | src/app/dashboard/rechnungen/page.tsx:59-61 | under ASCII case mapping, an upper-cased query lists the same invoices as the original query |
| InvoiceList.UntitledSearch | src/app/dashboard/rechnungen/page.tsx:61 | an invoice without a title matches a non-empty query exactly when its number or customer name contains it |
| InvoiceList.GrossOf | src/app/dashboard/rechnungen/page.tsx:46-48 | filtering by a status and summing the gross amounts equals summing every invoice's gross amount when it has that status, 0 otherwise |
| InvoiceList.FilteredSum | src/app/dashboard/rechnungen/page.tsx:46-48 | the sum over the invoices of one status equals the sum of the per-invoice contributions, for every list |
| InvoiceList.ComputeKpis | src/app/dashboard/rechnungen/page.tsx:45-50 | the open, paid and overdue figures are the sums, over all fetched invoices, of each invoice's gross amount when it has that status; together they are the total gross minus the drafts' and the cancelled invoices' amounts. The count is the number of fetched invoices |
| InvoiceList.GrossOfOne | src/app/dashboard/rechnungen/page.tsx:46-48 | one invoice adds its gross amount to the sum of its own status, and nothing to any other |
| InvoiceList.GrossOfAppend | src/app/dashboard/rechnungen/page.tsx:46-48 | the per-status sums over two lists put together are the sums of the per-status sums |
| InvoiceList.GrossPartition | src/app/dashboard/rechnungen/page.tsx:46-48 | the five per-status sums add up to the sum of all gross amounts |
| InvoiceList.KpisLeaveOutDraftsAndCancelled | src/app/dashboard/rechnungen/page.tsx:46-48 | open + paid + overdue is the total gross minus exactly the drafts and the cancelled invoices |
| InvoiceList.KpisOrderIndependent | src/app/dashboard/rechnungen/page.tsx:41-50 | the key figures do not depend on the order in which the invoices were fetched |
| InvoiceList.KpisAppend | src/app/dashboard/rechnungen/page.tsx:45-50 | the key figures of two lists put together are the field-wise sums of their key figures |
| InvoiceList.OverdueCountsAsOpen | src/app/dashboard/rechnungen/page.tsx:46-48 | an invoice shown as overdue, because a sent invoice is past its due date, is counted as open, not as overdue |
| InvoiceList.TotalIgnoresFilter | src/app/dashboard/rechnungen/page.tsx:49-64 | the count covers every fetched invoice, so it is at least the number shown after search and filter |
| InvoiceList.ChangeStatus | src/app/dashboard/rechnungen/page.tsx:78-81 | only the status field changes: invoices with that id get the new status, and every other field and invoice is unchanged |
| InvoiceList.ChangeStatusOne | src/app/dashboard/rechnungen/page.tsx:79 | with unique ids, a status change rewrites exactly one row in place |
| InvoiceList.GrossOfSplit | src/app/dashboard/rechnungen/page.tsx:46-48 | a per-status sum is the sums on either side of one invoice plus that invoice's own term |
| InvoiceList.GrossOfReplace | src/app/dashboard/rechnungen/page.tsx:46-48 | replacing one invoice exchanges its term in each per-status sum for the new invoice's term |
| InvoiceList.MarkPaidInPlace | src/app/dashboard/rechnungen/page.tsx:46-48 | marking one sent invoice paid, wherever it stands, moves its gross amount from open to paid |
| InvoiceList.MarkPaidMovesAmount | src/app/dashboard/rechnungen/page.tsx:78-81 | marking a sent invoice paid moves its gross amount from open to paid; the overdue figure and the count stay the same |
| InvoiceList.NoneOverdueZero | src/app/dashboard/rechnungen/page.tsx:48 | the overdue figure is 0 unless some invoice is stored with status overdue |
| InvoiceList.MenuKeepsOverdueZero | src/app/dashboard/rechnungen/page.tsx:78-81 | the row menu never stores the overdue status, so the overdue figure stays 0 once it is 0 |
| InvoiceList.DeleteInvoice | src/app/dashboard/rechnungen/page.tsx:72-76 | the result is an order-preserving subsequence that contains no invoice with that id and keeps every other invoice as often as it occurs |
| InvoiceList.DeleteOne | src/app/dashboard/rechnungen/page.tsx:72-76 | with unique ids, deleting removes exactly that one row, and the count drops by one |
| ContactTable.PersonName | src/components/kontakte/KontakteTable.tsx:54-56 | the person name is the given name and the family name, missing ones as '', joined by one space, with only white space cut from both ends; it neither starts nor ends with white space, and is empty exactly when both names are blank |
| ContactTable.CustomerName | src/components/rechnungen/RechnungModal.tsx:69 | the customer name is the company when one is set; it is empty exactly when there is no company and both names are blank |
| ContactTable.DisplayName | src/components/kontakte/KontakteTable.tsx:54 | the display name is never empty. It is the company when one is set, otherwise the customer name, and the dash when that is empty |
| ContactTable.DisplayNameWithoutFirma | src/components/kontakte/KontakteTable.tsx:54 | without a company, the display name is the person's name, or the dash when both names are blank |
| ContactTable.SubName | src/components/kontakte/KontakteTable.tsx:55-57 | `subName` is set exactly when a company and at least one of the two names are non-empty, and it is then the trimmed person name, which is '' when both names are blank |
| ContactTable.SubNameImpliesCompanyDisplay | src/components/kontakte/KontakteTable.tsx:54-57 | whenever the sub-line is shown, the main line is the company |
| ContactTable.SubLineShownIff | src/components/kontakte/KontakteTable.tsx:55-68 | the grey sub-line is rendered exactly under a company when some name has a non-blank character |
| ContactTable.BlankNameNoSubLine | src/components/kontakte/KontakteTable.tsx:55-68 | with a company and a given name of one space, `subName` is '' and no sub-line is rendered |
| ContactTable.Initial | src/components/kontakte/KontakteTable.tsx:64 | the avatar letter is always one character: the upper-cased first character of the display name |
| ContactTable.EmailCell | src/components/kontakte/KontakteTable.tsx:73-78 | the e-mail cell is never empty; it shows the address when there is one |
| ContactTable.LocationCell | src/components/kontakte/KontakteTable.tsx:81-86 | without a place the cell is the dash. With a place the cell ends with the place; it is `plz ` followed by the place when there is a postcode, and the place alone otherwise |
| ContactTable.LocationIgnoresLonePlz | src/components/kontakte/KontakteTable.tsx:81-86 | without a place the cell is the dash, whatever the postcode |
| ContactTable.LandCell | src/components/kontakte/KontakteTable.tsx:88 | the country cell is never empty; it shows the country when one is set |
| ContactEditor.InitForm | src/components/kontakte/KontaktModal.tsx:21-28 | the country field is never empty; a new contact starts with empty fields and 'CH' |
| ContactEditor.Payload | src/components/kontakte/KontaktModal.tsx:43-51 | each of the seven optional text columns stores its form field: null exactly when the field is empty, the field itself otherwise, so reading it back gives the field; the country is written as it is |
| ContactEditor.SaveContact | src/components/kontakte/KontaktModal.tsx:30-67 | the save is refused, with no request, exactly when both company and family name are empty. Without a user nothing is written. An existing contact is updated by its id, with no user id. A new contact is inserted with the user's id. Both writes carry the normalised payload |
| ContactEditor.WrittenHasName | src/components/kontakte/KontaktModal.tsx:31-66 | a row is written exactly when a name is given and a user is signed in, and every written row has a company or a family name |
| ContactEditor.UnchangedSaveRoundTrip | src/components/kontakte/KontaktModal.tsx:21-52 | opening a contact and saving it unchanged writes back the same text columns, with blanks as null and an empty country as 'CH' |
| ContactEditor.NewContactDefaultsToCH | src/components/kontakte/KontaktModal.tsx:28 | a new contact with only a name entered is inserted with country 'CH' |
| ContactList.Haystack | src/app/kontakte/page.tsx:31 | the searched text is the lower-cased company, given name, family name and e-mail, missing ones as '', joined by single spaces |
| ContactList.Matches | src/app/kontakte/page.tsx:31-32 | a contact matches exactly when the lower-cased query occurs somewhere in its searched text |
| ContactList.FilterContacts | src/app/kontakte/page.tsx:30-33 | the result is an order-preserving subsequence: every kept contact matches the query, and every matching contact is kept as often as it occurs |
| ContactList.EmptyQueryKeepsAll | src/app/kontakte/page.tsx:30-33 | an empty query lists every contact |
| ContactList.SpaceQueryKeepsAll | src/app/kontakte/page.tsx:31 | a one-space query lists every contact, because of the separators |
| ContactList.QueryCaseIrrelevant | src/app/kontakte/page.tsx:31-32 | lower-casing the query lists the same contacts; under ASCII case mapping so does upper-casing it |
| ContactList.MatchAcrossFields | src/app/kontakte/page.tsx:31-32 | the query "ANNA WEB" finds Anna Weber, across the boundary between given name and family name |
| ContactList.SearchExample | src/app/kontakte/page.tsx:30-33 | of a company "Muster AG" and a person "Weber", only the company matches "mus" |
| RouteGuard.Guard | src/middleware.ts:32-48 | without a user, a request is sent to login exactly when it is neither on an auth route nor on '/'. With a user, it is sent to the dashboard exactly on an auth route. There are no other redirects |
| RouteGuard.HomeAlwaysPasses | src/middleware.ts:33-48 | '/' passes with or without a user |
| RouteGuard.RedirectTargetPasses | src/middleware.ts:32-48 | there is no redirect loop: the target of a redirect passes for the same user |
| RouteGuard.PrefixClassification | src/middleware.ts:32 | '/authors' counts as an auth route, so it passes without a user and is sent to the dashboard with one |
| RouteGuard.ProtectedPage | src/middleware.ts:35-39 | a dashboard page goes to login without a user, and passes with one |
| Sidebar.ActiveItems | src/components/layout/Sidebar.tsx:95-96 | the highlighted entries are exactly the menu entries whose path equals the current path or is a '/'-terminated prefix of it, in menu order |
| Sidebar.IsActive | src/components/layout/Sidebar.tsx:96 | an entry is active exactly on its own path and on paths that continue it with '/' |
| Sidebar.AtMostOneActive | src/components/layout/Sidebar.tsx:9-19 | on any path at most one menu entry is highlighted |
| Sidebar.NavItemsShape | src/components/layout/Sidebar.tsx:9-19 | every menu path is a top-level path, and no two entries share one |
| Sidebar.AtMostOneTopLevelActive | src/components/layout/Sidebar.tsx:96 | two different top-level paths are never both active on the same path |
| Sidebar.SlashAfterActive | src/components/layout/Sidebar.tsx:96 | a path longer than an active entry's path continues with '/' right after it |
| Sidebar.SiblingPrefixInactive | src/components/layout/Sidebar.tsx:96 | '/kontakte2' does not activate '/kontakte' |
| Sidebar.DashboardSubpage | src/components/layout/Sidebar.tsx:10-12 | on '/dashboard/rechnungen' the dashboard entry is highlighted, and the invoices entry is not |
| Sidebar.Initials | src/components/layout/Sidebar.tsx:53 | the initials have at most 2 characters: the upper-cased start of the e-mail address, or 'MM' when there is no address |
| Sidebar.InitialsExamples | src/components/layout/Sidebar.tsx:53 | an empty address gives '', only a missing one gives 'MM', and `max@muster.ch` gives 'MA' |
| Text.Trim | src/components/kontakte/KontakteTable.tsx:54 | the result is a contiguous part of the input with only white space cut from both ends. It neither starts nor ends with white space, and it is empty exactly when the input is all white space |
| Text.TrimIdempotent | src/components/kontakte/KontakteTable.tsx:56 | trimming twice is the same as trimming once |
| Text.PadStart | src/components/rechnungen/RechnungModal.tsx:114 | the result has at least the target width and ends with the input unchanged; only fill characters come before it |
| Text.PadStartDigits | src/components/rechnungen/RechnungModal.tsx:114 | zero-padding a digit string keeps its value |
| Text.Decimal | src/components/rechnungen/RechnungModal.tsx:114 | `String(n)` is a non-empty digit string without a leading zero whose value is n |
| Text.DecimalLength | src/components/rechnungen/RechnungModal.tsx:114 | `String(n)` has the shortest length that can hold n |
| Text.ContainsIff | src/app/kontakte/page.tsx:32 | `includes` holds exactly when the query occurs at some position |
| Text.LowerIdempotent | src/app/kontakte/page.tsx:31-32 | lower-casing twice is the same as lower-casing once |
| Seqs.Filter | src/app/dashboard/rechnungen/page.tsx:57 | the result is an order-preserving subsequence whose elements all satisfy the predicate, holding each satisfying value as often as the input does |
| Seqs.SumPermutation | src/app/dashboard/rechnungen/page.tsx:46-48 | in exact arithmetic, a sum with `reduce` does not depend on the order of the elements |
| Seqs.SumPermutations | src/app/dashboard/rechnungen/page.tsx:46-48 | in exact arithmetic, every reordering of a list has the same sum |

## Left out

- Database access, authentication and cookies. Every Supabase call is outside the model. Its result is a parameter: the signed-in user, the invoice count, the returned rows. Each write is a returned value. A failed write, and the error message it shows, is not modelled.
- The order the database returns rows in (`order('datum')`, `order('firma')`, `order('reihenfolge')`) is not modelled. The lists are taken as given; `InvoiceList.KpisOrderIndependent` shows that, in exact arithmetic, the key figures do not depend on it.
- React state, effects, event listeners, the open/close state of menus and the collapsed sidebar are user interface only.
- `Intl.NumberFormat` and `toLocaleDateString` formatting are presentation only.
- Date parsing and the clock (`new Date(...)`, `getFullYear`, `toISOString`) are the parameters `toTime`, `now`, `year` and `today`.
- InvoiceEditor.ComputeTotals: sums exact reals, not IEEE-754 doubles, so rounding in the browser is not modelled. The order-independence of the totals holds only in this exact model. The same holds for `InvoiceList.ComputeKpis`, `InvoiceList.KpisOrderIndependent`, `Seqs.SumPermutation` and `Seqs.SumPermutations`: with doubles, `reduce` can differ in the last bits between orders (0.1 + 0.2 + 0.3 is not 0.3 + 0.2 + 0.1).
- InvoiceEditor.UpdatePosition: the value entered for quantity or price is taken as a number; `parseFloat(...) || 0` on the raw input is not modelled.
- The value passed to `updatePosition` is a typed `FieldUpdate`, so the value always has the field's type. The source's signature would accept a string for a numeric field, but its callers never pass one.
- Text.Lower: case mapping covers ASCII letters only; the Unicode case tables of `toLowerCase`/`toUpperCase` are not modelled. The same holds for `ContactTable.Initial` and `Sidebar.Initials`.
- InvoiceList.SearchCaseIrrelevant and ContactList.QueryCaseIrrelevant: the upper-casing half holds only for ASCII case mapping. JavaScript's `toUpperCase` maps 'ß' to 'SS', so the query 'weiß' finds 'Weiß AG' but its upper-cased form 'WEISS' does not. The lower-casing half of `ContactList.QueryCaseIrrelevant` holds for JavaScript too, because `toLowerCase` is idempotent.
- Strings are sequences of characters, so `charAt(0)` and `slice(0, 2)` on text outside the Basic Multilingual Plane, where JavaScript counts UTF-16 code units, are not modelled.
- Saving line items deletes the old rows and then inserts the new ones, in two separate requests. Reading the invoice count and inserting with the next number are likewise separate. Neither pair is atomic, and the races between them are concurrency concerns outside a pure model.
- The middleware `matcher` pattern, which decides which requests reach the guard, is routing configuration.
- Customer and person numbers (`KD-`, `KP-`) and any transition to the cancelled status occur in none of the modelled code. `Database.KontaktPerson` is declared as a record only, because no modelled component reads or writes contact persons.
- The confirmation dialog before deleting is not modelled: `InvoiceList.DeleteInvoice` is the delete after a confirmed dialog; a cancelled dialog changes nothing.
- The year is a natural number. A negative year would print with a sign in JavaScript.
- The key figure shown as "Bezahlt (YTD)" sums every paid invoice of any year (`src/app/dashboard/rechnungen/page.tsx:47`, label at line 111). `InvoiceList.ComputeKpis` models the sum as written.
- The invoice page imports its table from `components/rechnungen/RechnungenTable`. The model follows `src/components/RechnungenTable.tsx`. The file at the imported path is not part of this model.
