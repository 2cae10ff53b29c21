/**
 * The invoice list of src/app/dashboard/rechnungen/page.tsx: the search and
 * status filter over the fetched invoices, the key figures computed from
 * them, and the status and delete actions that the row menu triggers.
 */
module InvoiceList {

  import opened Optional
  import opened Text
  import opened Seqs
  import opened Database
  import InvoiceTable

  /* ------------------------------ status labels ----------------------------- */

  /** The German label shown for each status. */
  function StatusLabel(s: RechnungStatus): (l: string)
    ensures |l| > 0
  {
    match s
    case Entwurf => "Entwurf"
    case Gesendet => "Gesendet"
    case Bezahlt => "Bezahlt"
    case Ueberfaellig => "Überfällig"
    case Storniert => "Storniert"
  }

  /** The status filter: every invoice, or only those with one stored status. */
  datatype StatusFilter = Alle | Nur(status: RechnungStatus)

  /** The filter buttons, in the order they are shown. */
  const FilterChoices: seq<StatusFilter> :=
    [Alle, Nur(Entwurf), Nur(Gesendet), Nur(Bezahlt), Nur(Ueberfaellig), Nur(Storniert)]

  /** The caption of a filter button: 'Alle', or the label of the status it selects. */
  function FilterCaption(f: StatusFilter): (c: string)
    ensures c != ""
    ensures c == "Alle" <==> f.Alle?
  {
    match f
    case Alle => "Alle"
    case Nur(s) => StatusLabel(s)
  }

  /** The filter buttons all carry different captions, so each caption names one filter. */
  lemma FilterCaptionsDistinct()
    ensures forall i, j :: 0 <= i < j < |FilterChoices| ==> FilterCaption(FilterChoices[i]) != FilterCaption(FilterChoices[j])
  {
    forall i, j | 0 <= i < j < |FilterChoices|
      ensures FilterCaption(FilterChoices[i]) != FilterCaption(FilterChoices[j])
    {
      if i > 0 {
        StatusLabelInjective(FilterChoices[i].status, FilterChoices[j].status);
      }
    }
  }

  /** Different statuses have different labels, so a label names its status. */
  lemma StatusLabelInjective(s: RechnungStatus, t: RechnungStatus)
    ensures StatusLabel(s) == StatusLabel(t) <==> s == t
  {
    if s != t {
      assert StatusLabel(s)[0] != StatusLabel(t)[0];
    }
  }

  /** Every status has exactly one filter button, and 'Alle' comes first. */
  lemma FilterChoicesComplete(s: RechnungStatus)
    ensures FilterChoices[0] == Alle
    ensures Nur(s) in FilterChoices
    ensures forall i, j :: 0 <= i < j < |FilterChoices| ==> FilterChoices[i] != FilterChoices[j]
  {
  }

  /* ------------------------------- the search ------------------------------- */

  /** The title as searched: a missing or empty title is the empty string. */
  function TitleText(r: Rechnung): (t: string)
    ensures Truthy(r.titel) ==> t == r.titel.value
    ensures !Truthy(r.titel) ==> t == ""
  {
    OrEmpty(r.titel)
  }

  /** `matchSearch`: number, customer name or title contains the query, ignoring case. */
  predicate MatchesSearch(r: Rechnung, query: string): (b: bool)
    ensures b <==>
      || (exists i :: OccursAt(Lower(r.nummer), Lower(query), i))
      || (exists i :: OccursAt(Lower(r.kontakt_name), Lower(query), i))
      || (exists i :: OccursAt(Lower(TitleText(r)), Lower(query), i))
    ensures query == "" ==> b
  {
    ContainsIff(Lower(r.nummer), Lower(query));
    ContainsIff(Lower(r.kontakt_name), Lower(query));
    ContainsIff(Lower(TitleText(r)), Lower(query));
    ContainsEmpty(Lower(r.nummer));
    || Contains(Lower(r.nummer), Lower(query))
    || Contains(Lower(r.kontakt_name), Lower(query))
    || Contains(Lower(TitleText(r)), Lower(query))
  }

  /** `matchStatus` */
  predicate MatchesStatus(r: Rechnung, f: StatusFilter) {
    f.Alle? || r.status == f.status
  }

  predicate Selected(r: Rechnung, query: string, f: StatusFilter) {
    MatchesSearch(r, query) && MatchesStatus(r, f)
  }

  function Selector(query: string, f: StatusFilter): Rechnung -> bool {
    (r: Rechnung) => Selected(r, query, f)
  }

  /** `filtered`: the invoices that match both search and status filter, in their fetched order. */
  function FilterInvoices(rechnungen: seq<Rechnung>, query: string, f: StatusFilter): (r: seq<Rechnung>)
    ensures IsSubsequence(r, rechnungen)
    ensures forall i :: 0 <= i < |r| ==> MatchesSearch(r[i], query)
    ensures f.Nur? ==> forall i :: 0 <= i < |r| ==> r[i].status == f.status
    ensures forall x :: x in rechnungen && MatchesSearch(x, query) && MatchesStatus(x, f) ==> x in r
    ensures forall x :: multiset(r)[x] == if Selected(x, query, f) then multiset(rechnungen)[x] else 0
  {
    var r := Filter(rechnungen, Selector(query, f));
    forall x | x in rechnungen && MatchesSearch(x, query) && MatchesStatus(x, f)
      ensures x in r
    {
      FilterKeeps(rechnungen, Selector(query, f), x);
    }
    r
  }

  /** An empty query with filter 'Alle' lists every invoice. */
  lemma ShowAll(rechnungen: seq<Rechnung>)
    ensures FilterInvoices(rechnungen, "", Alle) == rechnungen
  {
    forall i | 0 <= i < |rechnungen|
      ensures Selector("", Alle)(rechnungen[i])
    {
      ContainsEmpty(Lower(rechnungen[i].nummer));
    }
    FilterAll(rechnungen, Selector("", Alle));
  }

  /** Searching ignores the case of the query. */
  lemma SearchCaseIrrelevant(rechnungen: seq<Rechnung>, query: string, f: StatusFilter)
    ensures FilterInvoices(rechnungen, Upper(query), f) == FilterInvoices(rechnungen, query, f)
  {
    assert Lower(Upper(query)) == Lower(query) by {
      forall i | 0 <= i < |query|
        ensures LowerChar(UpperChar(query[i])) == LowerChar(query[i])
      {
      }
    }
    FilterSamePredicate(rechnungen, Selector(Upper(query), f), Selector(query, f));
  }

  /** A missing title is searched as '': an invoice without title is found by its number or name only. */
  lemma UntitledSearch(r: Rechnung, query: string)
    requires r.titel == None && query != ""
    ensures MatchesSearch(r, query) <==>
      Contains(Lower(r.nummer), Lower(query)) || Contains(Lower(r.kontakt_name), Lower(query))
  {
    assert Lower(TitleText(r)) == "";
    if Contains("", Lower(query)) {
      ContainsIff("", Lower(query));
    }
  }

  /* ---------------------------- the key figures ---------------------------- */

  /** The four key figures shown above the list. */
  datatype Kpis = Kpis(offen: real, bezahlt: real, ueberfaellig: real, total: nat)

  function Brutto(r: Rechnung): real {
    r.bruttobetrag
  }

  function HasStatus(s: RechnungStatus): Rechnung -> bool {
    (r: Rechnung) => r.status == s
  }

  /** An invoice's contribution to the sum of status `s`: its gross amount if it has that status, else nothing. */
  function BruttoIf(s: RechnungStatus): Rechnung -> real {
    (r: Rechnung) => if r.status == s then r.bruttobetrag else 0.0
  }

  /** The gross sum over the invoices with stored status `s`. */
  function GrossOf(rechnungen: seq<Rechnung>, s: RechnungStatus): (g: real)
    ensures g == SumOf(rechnungen, BruttoIf(s))
  {
    FilteredSum(rechnungen, s);
    SumOf(Filter(rechnungen, HasStatus(s)), Brutto)
  }

  /** Summing the filtered invoices is summing every invoice's contribution. */
  lemma {:induction false} FilteredSum(rechnungen: seq<Rechnung>, s: RechnungStatus)
    ensures SumOf(Filter(rechnungen, HasStatus(s)), Brutto) == SumOf(rechnungen, BruttoIf(s))
  {
    if |rechnungen| > 0 {
      var init, last := rechnungen[..|rechnungen| - 1], rechnungen[|rechnungen| - 1];
      assert rechnungen == init + [last];
      FilteredSum(init, s);
      FilterAppend(init, [last], HasStatus(s));
      FilterSingleton(last, HasStatus(s));
      SumAppend(Filter(init, HasStatus(s)), Filter([last], HasStatus(s)), Brutto);
      SumSingleton(last, Brutto);
      SumSnoc(init, last, BruttoIf(s));
    }
  }

  /** The key figures set by `fetchRechnungen`. */
  function ComputeKpis(rechnungen: seq<Rechnung>): (k: Kpis)
    ensures k.total == |rechnungen|
    ensures k.offen == SumOf(rechnungen, BruttoIf(Gesendet))
    ensures k.bezahlt == SumOf(rechnungen, BruttoIf(Bezahlt))
    ensures k.ueberfaellig == SumOf(rechnungen, BruttoIf(Ueberfaellig))
    ensures k.offen + k.bezahlt + k.ueberfaellig
      == SumOf(rechnungen, Brutto) - SumOf(rechnungen, BruttoIf(Entwurf)) - SumOf(rechnungen, BruttoIf(Storniert))
  {
    GrossPartition(rechnungen);
    Kpis(
      GrossOf(rechnungen, Gesendet),
      GrossOf(rechnungen, Bezahlt),
      GrossOf(rechnungen, Ueberfaellig),
      |rechnungen|)
  }

  /** One invoice contributes its gross amount to the sum of its own status, and nothing to any other. */
  lemma GrossOfOne(r: Rechnung, s: RechnungStatus)
    ensures GrossOf([r], s) == if r.status == s then r.bruttobetrag else 0.0
  {
    FilterSingleton(r, HasStatus(s));
    SumSingleton(r, Brutto);
  }

  /** The per-status sums over a concatenation add up. */
  lemma GrossOfAppend(a: seq<Rechnung>, b: seq<Rechnung>, s: RechnungStatus)
    ensures GrossOf(a + b, s) == GrossOf(a, s) + GrossOf(b, s)
  {
    FilterAppend(a, b, HasStatus(s));
    SumAppend(Filter(a, HasStatus(s)), Filter(b, HasStatus(s)), Brutto);
  }

  /** The per-status sums split the sum of all gross amounts. */
  lemma {:induction false} GrossPartition(rechnungen: seq<Rechnung>)
    ensures SumOf(rechnungen, Brutto)
      == GrossOf(rechnungen, Entwurf) + GrossOf(rechnungen, Gesendet) + GrossOf(rechnungen, Bezahlt)
       + GrossOf(rechnungen, Ueberfaellig) + GrossOf(rechnungen, Storniert)
  {
    if |rechnungen| > 0 {
      var init := rechnungen[..|rechnungen| - 1];
      var last := rechnungen[|rechnungen| - 1];
      assert rechnungen == init + [last];
      GrossPartition(init);
      SumSnoc(init, last, Brutto);
      GrossOfSnoc(init, last, Entwurf);
      GrossOfSnoc(init, last, Gesendet);
      GrossOfSnoc(init, last, Bezahlt);
      GrossOfSnoc(init, last, Ueberfaellig);
      GrossOfSnoc(init, last, Storniert);
    }
  }

  /** Appending one invoice adds its gross amount to the sum of its own status only. */
  lemma GrossOfSnoc(init: seq<Rechnung>, last: Rechnung, s: RechnungStatus)
    ensures GrossOf(init + [last], s) == GrossOf(init, s) + (if last.status == s then last.bruttobetrag else 0.0)
  {
    GrossOfAppend(init, [last], s);
    GrossOfOne(last, s);
  }

  /** The open, paid and overdue figures leave out exactly the drafts and the cancelled invoices. */
  lemma KpisLeaveOutDraftsAndCancelled(rechnungen: seq<Rechnung>)
    ensures var k := ComputeKpis(rechnungen);
      k.offen + k.bezahlt + k.ueberfaellig
      == SumOf(rechnungen, Brutto) - GrossOf(rechnungen, Entwurf) - GrossOf(rechnungen, Storniert)
  {
    GrossPartition(rechnungen);
  }

  /** The key figures do not depend on the order the invoices were fetched in. */
  lemma KpisOrderIndependent(a: seq<Rechnung>, b: seq<Rechnung>)
    requires multiset(a) == multiset(b)
    ensures ComputeKpis(a) == ComputeKpis(b)
  {
    assert |a| == |multiset(a)| == |multiset(b)| == |b|;
    forall s: RechnungStatus
      ensures GrossOf(a, s) == GrossOf(b, s)
    {
      var fa := Filter(a, HasStatus(s));
      var fb := Filter(b, HasStatus(s));
      assert multiset(fa) == multiset(fb) by {
        forall x
          ensures multiset(fa)[x] == multiset(fb)[x]
        {
        }
      }
      SumPermutation(fa, fb, Brutto);
    }
  }

  /** The key figures of a concatenation are the sums of the key figures. */
  lemma KpisAppend(a: seq<Rechnung>, b: seq<Rechnung>)
    ensures var ka, kb, k := ComputeKpis(a), ComputeKpis(b), ComputeKpis(a + b);
      k == Kpis(ka.offen + kb.offen, ka.bezahlt + kb.bezahlt, ka.ueberfaellig + kb.ueberfaellig, ka.total + kb.total)
  {
    KpisFields(a);
    KpisFields(b);
    KpisFields(a + b);
    GrossOfAppend(a, b, Gesendet);
    GrossOfAppend(a, b, Bezahlt);
    GrossOfAppend(a, b, Ueberfaellig);
  }

  /** The key figures are the per-status sums of the open, paid and overdue invoices and the count. */
  lemma KpisFields(rechnungen: seq<Rechnung>)
    ensures ComputeKpis(rechnungen)
      == Kpis(GrossOf(rechnungen, Gesendet), GrossOf(rechnungen, Bezahlt), GrossOf(rechnungen, Ueberfaellig), |rechnungen|)
  {
  }

  /** A sent invoice past its due date is shown with a warning but still counted as open, not overdue. */
  lemma OverdueCountsAsOpen(r: Rechnung, now: int, toTime: string -> Option<int>)
    requires InvoiceTable.IsOverdue(r, now, toTime)
    ensures ComputeKpis([r]) == Kpis(r.bruttobetrag, 0.0, 0.0, 1)
  {
    GrossOfOne(r, Gesendet);
    GrossOfOne(r, Bezahlt);
    GrossOfOne(r, Ueberfaellig);
  }

  /** The total counts every fetched invoice, whatever the search and filter show. */
  lemma TotalIgnoresFilter(rechnungen: seq<Rechnung>, query: string, f: StatusFilter)
    ensures |FilterInvoices(rechnungen, query, f)| <= ComputeKpis(rechnungen).total == |rechnungen|
  {
  }

  /* ------------------------------ row actions ------------------------------ */

  /** `handleStatusChange` followed by the refetch: every invoice with that id gets the new status. */
  function ChangeStatus(rechnungen: seq<Rechnung>, id: string, s: RechnungStatus): (r: seq<Rechnung>)
    ensures |r| == |rechnungen|
    ensures forall i :: 0 <= i < |r| ==> r[i].(status := rechnungen[i].status) == rechnungen[i]
    ensures forall i :: 0 <= i < |r| ==> r[i].status == if rechnungen[i].id == id then s else rechnungen[i].status
  {
    seq(|rechnungen|, i requires 0 <= i < |rechnungen| =>
      if rechnungen[i].id == id then rechnungen[i].(status := s) else rechnungen[i])
  }

  /** No two invoices share an id, as the primary key guarantees. */
  predicate UniqueIds(rechnungen: seq<Rechnung>) {
    forall i, j :: 0 <= i < j < |rechnungen| ==> rechnungen[i].id != rechnungen[j].id
  }

  /** With unique ids, a status change rewrites one row in place. */
  lemma ChangeStatusOne(rechnungen: seq<Rechnung>, k: nat, s: RechnungStatus)
    requires UniqueIds(rechnungen) && k < |rechnungen|
    ensures ChangeStatus(rechnungen, rechnungen[k].id, s)
      == rechnungen[..k] + [rechnungen[k].(status := s)] + rechnungen[k + 1..]
  {
  }

  /** The per-status sum around one invoice: the sums of the runs on either side, plus its own term. */
  lemma GrossOfSplit(a: seq<Rechnung>, x: Rechnung, b: seq<Rechnung>, s: RechnungStatus)
    ensures GrossOf(a + [x] + b, s)
      == GrossOf(a, s) + GrossOf(b, s) + (if x.status == s then x.bruttobetrag else 0.0)
  {
    GrossOfAppend(a + [x], b, s);
    GrossOfAppend(a, [x], s);
    GrossOfOne(x, s);
  }

  /** Rewriting one sent invoice as paid, wherever it stands, moves its amount from open to paid. */
  lemma MarkPaidInPlace(a: seq<Rechnung>, x: Rechnung, b: seq<Rechnung>)
    requires x.status == Gesendet
    ensures var before, after := ComputeKpis(a + [x] + b), ComputeKpis(a + [x.(status := Bezahlt)] + b);
      && after.offen == before.offen - x.bruttobetrag
      && after.bezahlt == before.bezahlt + x.bruttobetrag
      && after.ueberfaellig == before.ueberfaellig
      && after.total == before.total
  {
    var y := x.(status := Bezahlt);
    GrossOfReplace(a, x, y, b, Gesendet);
    GrossOfReplace(a, x, y, b, Bezahlt);
    GrossOfReplace(a, x, y, b, Ueberfaellig);
  }

  /** Replacing one invoice swaps its term in the per-status sum for the new one's. */
  lemma GrossOfReplace(a: seq<Rechnung>, x: Rechnung, y: Rechnung, b: seq<Rechnung>, s: RechnungStatus)
    ensures GrossOf(a + [y] + b, s)
      == GrossOf(a + [x] + b, s)
       - (if x.status == s then x.bruttobetrag else 0.0)
       + (if y.status == s then y.bruttobetrag else 0.0)
  {
    GrossOfSplit(a, x, b, s);
    GrossOfSplit(a, y, b, s);
  }

  /** Marking a sent invoice paid moves its gross amount from open to paid and changes nothing else. */
  lemma MarkPaidMovesAmount(rechnungen: seq<Rechnung>, k: nat)
    requires UniqueIds(rechnungen) && k < |rechnungen| && rechnungen[k].status == Gesendet
    ensures var before, after := ComputeKpis(rechnungen), ComputeKpis(ChangeStatus(rechnungen, rechnungen[k].id, Bezahlt));
      && after.offen == before.offen - rechnungen[k].bruttobetrag
      && after.bezahlt == before.bezahlt + rechnungen[k].bruttobetrag
      && after.ueberfaellig == before.ueberfaellig
      && after.total == before.total
  {
    var a, b := rechnungen[..k], rechnungen[k + 1..];
    ChangeStatusOne(rechnungen, k, Bezahlt);
    assert rechnungen == a + [rechnungen[k]] + b;
    MarkPaidInPlace(a, rechnungen[k], b);
  }

  /** No invoice is stored as overdue. */
  predicate NoneOverdue(rechnungen: seq<Rechnung>) {
    forall i :: 0 <= i < |rechnungen| ==> rechnungen[i].status != Ueberfaellig
  }

  /** The overdue figure is zero unless some invoice is stored as overdue. */
  lemma NoneOverdueZero(rechnungen: seq<Rechnung>)
    requires NoneOverdue(rechnungen)
    ensures ComputeKpis(rechnungen).ueberfaellig == 0.0
  {
    FilterNone(rechnungen, HasStatus(Ueberfaellig));
  }

  /** The row menu never stores the overdue status, so the overdue figure stays zero when it starts at zero. */
  lemma MenuKeepsOverdueZero(rechnungen: seq<Rechnung>, id: string, from: RechnungStatus, s: RechnungStatus)
    requires NoneOverdue(rechnungen) && InvoiceTable.Transition(from, s)
    ensures NoneOverdue(ChangeStatus(rechnungen, id, s))
    ensures ComputeKpis(ChangeStatus(rechnungen, id, s)).ueberfaellig == 0.0
  {
    InvoiceTable.NeverTargeted(from);
    NoneOverdueZero(ChangeStatus(rechnungen, id, s));
  }

  function WithoutId(id: string): Rechnung -> bool {
    (r: Rechnung) => r.id != id
  }

  /** `handleDelete` after confirmation, followed by the refetch. */
  function DeleteInvoice(rechnungen: seq<Rechnung>, id: string): (r: seq<Rechnung>)
    ensures IsSubsequence(r, rechnungen)
    ensures forall i :: 0 <= i < |r| ==> r[i].id != id
    ensures forall x :: x in rechnungen && x.id != id ==> x in r
    ensures forall x :: multiset(r)[x] == if x.id != id then multiset(rechnungen)[x] else 0
  {
    var r := Filter(rechnungen, WithoutId(id));
    forall x | x in rechnungen && x.id != id
      ensures x in r
    {
      FilterKeeps(rechnungen, WithoutId(id), x);
    }
    r
  }

  /** With unique ids, deleting removes exactly the one row and the total drops by one. */
  lemma DeleteOne(rechnungen: seq<Rechnung>, k: nat)
    requires UniqueIds(rechnungen) && k < |rechnungen|
    ensures DeleteInvoice(rechnungen, rechnungen[k].id) == rechnungen[..k] + rechnungen[k + 1..]
    ensures ComputeKpis(DeleteInvoice(rechnungen, rechnungen[k].id)).total == |rechnungen| - 1
  {
    var x := rechnungen[k];
    var a, b := rechnungen[..k], rechnungen[k + 1..];
    assert rechnungen == a + [x] + b;
    forall i | 0 <= i < |a|
      ensures WithoutId(x.id)(a[i])
    {
      assert a[i] == rechnungen[i];
    }
    forall i | 0 <= i < |b|
      ensures WithoutId(x.id)(b[i])
    {
      assert b[i] == rechnungen[k + 1 + i];
    }
    FilterDropOne(a, x, b, WithoutId(x.id));
  }
}
