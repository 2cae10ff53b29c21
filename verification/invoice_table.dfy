/**
 * One invoice row of src/components/RechnungenTable.tsx: the overdue flag on
 * the due date, the status badge, and the actions menu, whose status entries
 * form the invoice's status transitions. `new Date(s)` is the parameter
 * `toTime` (None for a date that does not parse) and `new Date()` is `now`.
 */
module InvoiceTable {

  import opened Optional
  import opened Database

  /** `isOverdue`: sent, with a due date, and that date already past. */
  predicate IsOverdue(r: Rechnung, now: int, toTime: string -> Option<int>): (b: bool)
    ensures b ==> r.status == Gesendet && r.faelligkeitsdatum.Some? && r.faelligkeitsdatum.value != ""
    ensures b ==> exists due :: toTime(r.faelligkeitsdatum.value) == Some(due) && due < now
  {
    && r.status == Gesendet
    && Truthy(r.faelligkeitsdatum)
    && match toTime(r.faelligkeitsdatum.value)
       case Some(due) => due < now
       case None => false
  }

  /** The entries of the row's menu, in order. */
  datatype MenuItem = Bearbeiten | AlsGesendet | AlsBezahlt | Loeschen

  /** The menu of a row with stored status `s`. */
  function Menu(s: RechnungStatus): (items: seq<MenuItem>)
    ensures |items| >= 2 && items[0] == Bearbeiten && items[|items| - 1] == Loeschen
  {
    [Bearbeiten]
    + (if s == Entwurf then [AlsGesendet] else [])
    + (if s == Gesendet || s == Ueberfaellig then [AlsBezahlt] else [])
    + [Loeschen]
  }

  /** The status an entry sets through `onStatusChange`, if it sets one. */
  function Target(item: MenuItem): Option<RechnungStatus> {
    match item
    case AlsGesendet => Some(Gesendet)
    case AlsBezahlt => Some(Bezahlt)
    case _ => None
  }

  function TargetList(item: MenuItem): seq<RechnungStatus> {
    match Target(item)
    case Some(s) => [s]
    case None => []
  }

  /** The statuses a list of entries can set, in order. */
  function Targets(items: seq<MenuItem>): seq<RechnungStatus> {
    if |items| == 0 then [] else TargetList(items[0]) + Targets(items[1..])
  }

  /** The target statuses the menu of a row with stored status `s` offers. */
  function StatusActions(s: RechnungStatus): (r: seq<RechnungStatus>)
    ensures s == Entwurf ==> r == [Gesendet]
    ensures s == Gesendet || s == Ueberfaellig ==> r == [Bezahlt]
    ensures s == Bezahlt || s == Storniert ==> r == []
  {
    var items := Menu(s);
    assert Targets([Loeschen]) == [];
    assert items[1..] == items[1..|items| - 1] + [Loeschen];
    TargetsAppend(items[1..|items| - 1], [Loeschen]);
    Targets(items)
  }

  lemma {:induction false} TargetsAppend(a: seq<MenuItem>, b: seq<MenuItem>)
    ensures Targets(a + b) == Targets(a) + Targets(b)
  {
    if |a| == 0 {
      assert a + b == b;
    } else {
      calc {
        Targets(a + b);
        TargetList(a[0]) + Targets((a + b)[1..]);
        { assert (a + b)[1..] == a[1..] + b; }
        TargetList(a[0]) + Targets(a[1..] + b);
        { TargetsAppend(a[1..], b); }
        TargetList(a[0]) + (Targets(a[1..]) + Targets(b));
      }
    }
  }

  /** The user can move an invoice from `from` to `to` with one menu entry. */
  predicate Transition(from: RechnungStatus, to: RechnungStatus): (b: bool)
    ensures b ==> from != to
    ensures b ==> to == Gesendet || to == Bezahlt
  {
    to in StatusActions(from)
  }

  /** What the row shows: the badge from the stored status, and the warning on the due date. */
  datatype RowView = RowView(badge: RechnungStatus, dueWarning: bool, betrag: real)

  function View(r: Rechnung, now: int, toTime: string -> Option<int>): (v: RowView)
    ensures v.badge == r.status && v.betrag == r.bruttobetrag
    ensures v.dueWarning ==> v.badge == Gesendet
    ensures v.dueWarning <==> IsOverdue(r, now, toTime)
    ensures v.dueWarning ==> forall later :: now <= later ==> IsOverdue(r, later, toTime)
  {
    RowView(r.status, IsOverdue(r, now, toTime), r.bruttobetrag)
  }

  /* ------------------------------- properties ------------------------------ */

  /** Only a sent invoice can be overdue. */
  lemma OverdueOnlyWhenSent(r: Rechnung, now: int, toTime: string -> Option<int>)
    requires r.status != Gesendet
    ensures !IsOverdue(r, now, toTime)
  {
  }

  /** Without a due date an invoice is never overdue. */
  lemma OverdueNeedsDueDate(r: Rechnung, now: int, toTime: string -> Option<int>)
    requires r.faelligkeitsdatum == None || r.faelligkeitsdatum == Some("")
    ensures !IsOverdue(r, now, toTime)
  {
  }

  /** A sent invoice with a readable due date is overdue exactly when that date is before now. */
  lemma OverdueIff(r: Rechnung, now: int, toTime: string -> Option<int>, due: int)
    requires r.status == Gesendet && Truthy(r.faelligkeitsdatum) && toTime(r.faelligkeitsdatum.value) == Some(due)
    ensures IsOverdue(r, now, toTime) <==> due < now
  {
  }

  /** Once overdue, an invoice stays overdue as time goes on. */
  lemma OverdueStaysOverdue(r: Rechnung, now: int, later: int, toTime: string -> Option<int>)
    requires IsOverdue(r, now, toTime) && now <= later
    ensures IsOverdue(r, later, toTime)
  {
  }

  /** The badge does not depend on the clock: overdue is never shown as a status. */
  lemma BadgeIgnoresOverdue(r: Rechnung, now1: int, now2: int, toTime: string -> Option<int>)
    ensures View(r, now1, toTime).badge == View(r, now2, toTime).badge == r.status
  {
  }

  /** The complete transition table. */
  lemma {:induction false} TransitionTable(from: RechnungStatus, to: RechnungStatus)
    ensures Transition(from, to) <==>
      (from == Entwurf && to == Gesendet) || ((from == Gesendet || from == Ueberfaellig) && to == Bezahlt)
  {
    match from
    case Entwurf => assert StatusActions(from) == [Gesendet];
    case Gesendet => assert StatusActions(from) == [Bezahlt];
    case Ueberfaellig => assert StatusActions(from) == [Bezahlt];
    case Bezahlt => assert StatusActions(from) == [];
    case Storniert => assert StatusActions(from) == [];
  }

  /** No menu entry sets an invoice to overdue, cancelled or draft. */
  lemma NeverTargeted(from: RechnungStatus)
    ensures !Transition(from, Ueberfaellig) && !Transition(from, Storniert) && !Transition(from, Entwurf)
  {
    TransitionTable(from, Ueberfaellig);
    TransitionTable(from, Storniert);
    TransitionTable(from, Entwurf);
  }

  /** Edit and delete are offered whatever the status. */
  lemma EditAndDeleteAlways(s: RechnungStatus)
    ensures Bearbeiten in Menu(s) && Loeschen in Menu(s)
  {
  }

  /** How far along the lifecycle a status is. */
  function Stage(s: RechnungStatus): nat {
    match s
    case Entwurf => 0
    case Gesendet => 1
    case Ueberfaellig => 1
    case Bezahlt => 2
    case Storniert => 2
  }

  /** Every transition moves strictly forward. */
  lemma TransitionAdvances(from: RechnungStatus, to: RechnungStatus)
    requires Transition(from, to)
    ensures Stage(from) < Stage(to)
  {
    TransitionTable(from, to);
  }

  /** A chain of statuses joined by transitions. */
  predicate IsPath(path: seq<RechnungStatus>) {
    forall i :: 0 <= i < |path| - 1 ==> Transition(path[i], path[i + 1])
  }

  /** No status can be revisited: any chain of transitions takes at most two steps. */
  lemma {:induction false} PathsAreShort(path: seq<RechnungStatus>)
    requires IsPath(path)
    ensures |path| <= 3
  {
    if |path| > 3 {
      TransitionAdvances(path[0], path[1]);
      TransitionAdvances(path[1], path[2]);
      TransitionAdvances(path[2], path[3]);
      assert false;
    }
  }
}
