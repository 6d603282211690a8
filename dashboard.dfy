/**
 * The derived views of src/ui/components/App.tsx: the dashboard tallies
 * (reduce folds over the entries of the map), the option lists of the forms
 * and the dashboard list (filters), and the status badge.
 */
module Dashboard {
  import opened Wrappers
  import opened Inventory
  import opened Lifecycle

  type Entry = (string, Item)

  /** `entries` lists the map as Object.entries does: every key once, with its record, in some order. */
  predicate EntriesOf(entries: seq<Entry>, items: Items) {
    (forall i, j :: 0 <= i < j < |entries| ==> entries[i].0 != entries[j].0) &&
    (forall i :: 0 <= i < |entries| ==> entries[i].0 in items && items[entries[i].0] == entries[i].1) &&
    (forall k :: k in items ==> exists i :: 0 <= i < |entries| && entries[i].0 == k)
  }

  /** The fold `reduce((n, [id, item]) => n + w(item), 0)`. */
  function Sum(entries: seq<Entry>, w: Item -> int): int {
    if entries == [] then 0 else w(entries[0].1) + Sum(entries[1..], w)
  }

  // What each record adds to each tally.
  function SoldBox(item: Item): int { if item.status.CheckedIn? && item.currentCount == 0 then 1 else 0 }
  function InBox(item: Item): int { if item.status.CheckedIn? && item.currentCount > 0 then 1 else 0 }
  function OutBox(item: Item): int { if item.status.CheckedOut? then 1 else 0 }
  function MissingBox(item: Item): int { if item.status.Missing? then 1 else 0 }
  function AnyBox(item: Item): int { 1 }
  function SoldBars(item: Item): int { item.initialCount - item.currentCount }
  function InBars(item: Item): int { if item.status.CheckedIn? && item.currentCount > 0 then item.currentCount else 0 }
  function OutBars(item: Item): int { if item.status.CheckedOut? && item.currentCount > 0 then item.currentCount else 0 }
  function MissingBars(item: Item): int { if item.status.Missing? && item.currentCount > 0 then item.currentCount else 0 }
  function AllBars(item: Item): int { item.initialCount }
  /** The part of a count below zero, which none of the bar tallies shows. */
  function Deficit(item: Item): int { if item.currentCount < 0 then item.currentCount else 0 }

  function BoxesSold(entries: seq<Entry>): int { Sum(entries, SoldBox) }
  function BoxesCheckedIn(entries: seq<Entry>): int { Sum(entries, InBox) }
  function BoxesCheckedOut(entries: seq<Entry>): int { Sum(entries, OutBox) }
  function BoxesMissing(entries: seq<Entry>): int { Sum(entries, MissingBox) }
  function TotalBoxes(entries: seq<Entry>): int { Sum(entries, AnyBox) }
  function BarsSold(entries: seq<Entry>): int { Sum(entries, SoldBars) }
  function BarsCheckedIn(entries: seq<Entry>): int { Sum(entries, InBars) }
  function BarsCheckedOut(entries: seq<Entry>): int { Sum(entries, OutBars) }
  function BarsMissing(entries: seq<Entry>): int { Sum(entries, MissingBars) }
  function TotalBars(entries: seq<Entry>): int { Sum(entries, AllBars) }

  /** The four box tallies never exceed the total, and meet it exactly when no checked-in count is negative. */
  lemma {:induction false} BoxesAccount(entries: seq<Entry>)
    ensures BoxesSold(entries) + BoxesCheckedIn(entries) + BoxesCheckedOut(entries) + BoxesMissing(entries)
            <= TotalBoxes(entries)
    ensures BoxesSold(entries) + BoxesCheckedIn(entries) + BoxesCheckedOut(entries) + BoxesMissing(entries)
            == TotalBoxes(entries)
            <==> forall i :: 0 <= i < |entries| && entries[i].1.status.CheckedIn? ==> entries[i].1.currentCount >= 0
  {
    if entries != [] {
      var tail := entries[1..];
      BoxesAccount(tail);
      assert forall i :: 1 <= i < |entries| ==> entries[i] == tail[i - 1];
    }
  }

  /** The four bar tallies add up to the total less the deficit of counts below zero. */
  lemma {:induction false} BarsAccount(entries: seq<Entry>)
    ensures BarsSold(entries) + BarsCheckedIn(entries) + BarsCheckedOut(entries) + BarsMissing(entries)
            == TotalBars(entries) - Sum(entries, Deficit)
    ensures Sum(entries, Deficit) <= 0
    ensures Sum(entries, Deficit) == 0 <==> forall i :: 0 <= i < |entries| ==> entries[i].1.currentCount >= 0
  {
    if entries != [] {
      var tail := entries[1..];
      BarsAccount(tail);
      assert forall i :: 1 <= i < |entries| ==> entries[i] == tail[i - 1];
    }
  }

  /** Dropping the first entry lists the map without that entry's key. */
  lemma EntriesOfTail(entries: seq<Entry>, items: Items)
    requires entries != [] && EntriesOf(entries, items)
    ensures entries[0].0 in items
    ensures EntriesOf(entries[1..], items - {entries[0].0})
  {
    var rest := items - {entries[0].0};
    var tail := entries[1..];
    forall k | k in rest ensures exists i :: 0 <= i < |tail| && tail[i].0 == k {
      var i :| 0 <= i < |entries| && entries[i].0 == k;
      assert tail[i - 1].0 == k;
    }
  }

  /** The total box tally is the number of records in the map. */
  lemma {:induction false} TotalBoxesIsSize(entries: seq<Entry>, items: Items)
    requires EntriesOf(entries, items)
    ensures TotalBoxes(entries) == |items|
    decreases |entries|
  {
    if entries == [] {
      assert items.Keys == {};
    } else {
      var key := entries[0].0;
      EntriesOfTail(entries, items);
      TotalBoxesIsSize(entries[1..], items - {key});
      assert items.Keys == (items - {key}).Keys + {key};
    }
  }

  /** On a sound map every record falls in exactly one box tally and the bar tallies add up to the total. */
  lemma SoundInventoryBalances(entries: seq<Entry>, items: Items)
    requires EntriesOf(entries, items) && Sound(items)
    ensures BoxesSold(entries) + BoxesCheckedIn(entries) + BoxesCheckedOut(entries) + BoxesMissing(entries)
            == TotalBoxes(entries) == |items|
    ensures BarsSold(entries) + BarsCheckedIn(entries) + BarsCheckedOut(entries) + BarsMissing(entries)
            == TotalBars(entries)
  {
    BoxesAccount(entries);
    BarsAccount(entries);
    TotalBoxesIsSize(entries, items);
    assert forall i :: 0 <= i < |entries| ==> CountsInRange(items[entries[i].0]);
  }

  /** `sub` is `s` with some entries dropped and the rest kept in their order. */
  predicate Subsequence(sub: seq<Entry>, s: seq<Entry>)
    decreases |s|
  {
    if sub == [] then true
    else if s == [] then false
    else (sub[0] == s[0] && Subsequence(sub[1..], s[1..])) || Subsequence(sub, s[1..])
  }

  /**
   * Array.filter: the entries that pass `keep`, each as often as in the
   * input, in the input's order.
   */
  function Filter(entries: seq<Entry>, keep: Entry -> bool): (r: seq<Entry>)
    ensures Subsequence(r, entries)
    ensures forall e :: multiset(r)[e] == if keep(e) then multiset(entries)[e] else 0
    ensures forall e :: e in r <==> e in entries && keep(e)
  {
    if entries == [] then []
    else
      assert entries == [entries[0]] + entries[1..];
      if keep(entries[0]) then [entries[0]] + Filter(entries[1..], keep)
      else Filter(entries[1..], keep)
  }

  /**
   * The id, or the holder when there is one, matches the form's query. The
   * case-insensitive substring test is the caller's `matches`.
   */
  predicate Mentions(e: Entry, matches: string -> bool) {
    matches(e.0) || (e.1.borrowedBy.Some? && matches(e.1.borrowedBy.value))
  }

  /** Check-in form options: checked-out records with stock, matched on id or holder. */
  function CheckInOptions(entries: seq<Entry>, matches: string -> bool): (r: seq<Entry>)
    ensures Subsequence(r, entries)
    ensures forall e ::
      multiset(r)[e] == (if Mentions(e, matches) && e.1.status.CheckedOut? && e.1.currentCount > 0 then multiset(entries)[e] else 0)
    ensures forall e :: e in r <==>
      e in entries && Mentions(e, matches) && e.1.status.CheckedOut? && e.1.currentCount > 0
  {
    Filter(entries, (e: Entry) => Mentions(e, matches) && e.1.status.CheckedOut? && e.1.currentCount > 0)
  }

  /** Check-out form options: checked-in records with stock, matched on id only. */
  function CheckOutOptions(entries: seq<Entry>, matches: string -> bool): (r: seq<Entry>)
    ensures Subsequence(r, entries)
    ensures forall e ::
      multiset(r)[e] == (if matches(e.0) && e.1.status.CheckedIn? && e.1.currentCount > 0 then multiset(entries)[e] else 0)
    ensures forall e :: e in r <==>
      e in entries && matches(e.0) && e.1.status.CheckedIn? && e.1.currentCount > 0
  {
    Filter(entries, (e: Entry) => matches(e.0) && e.1.status.CheckedIn? && e.1.currentCount > 0)
  }

  /** Mark-missing form options: records not yet missing and with stock. */
  function MissingOptions(entries: seq<Entry>, matches: string -> bool): (r: seq<Entry>)
    ensures Subsequence(r, entries)
    ensures forall e ::
      multiset(r)[e] == (if Mentions(e, matches) && !e.1.status.Missing? && e.1.currentCount > 0 then multiset(entries)[e] else 0)
    ensures forall e :: e in r <==>
      e in entries && Mentions(e, matches) && !e.1.status.Missing? && e.1.currentCount > 0
  {
    Filter(entries, (e: Entry) => Mentions(e, matches) && !e.1.status.Missing? && e.1.currentCount > 0)
  }

  /** Delete form options: every record the query matches, whatever its status. */
  function DeleteOptions(entries: seq<Entry>, matches: string -> bool): (r: seq<Entry>)
    ensures Subsequence(r, entries)
    ensures forall e ::
      multiset(r)[e] == (if Mentions(e, matches) then multiset(entries)[e] else 0)
    ensures forall e :: e in r <==> e in entries && Mentions(e, matches)
  {
    Filter(entries, (e: Entry) => Mentions(e, matches))
  }

  /** The dashboard list: records out, and records back but partly used. */
  function DashboardList(entries: seq<Entry>): (r: seq<Entry>)
    ensures Subsequence(r, entries)
    ensures forall e ::
      multiset(r)[e] == (if e.1.status.CheckedOut? || (e.1.status.CheckedIn? && 0 < e.1.currentCount < e.1.initialCount) then multiset(entries)[e] else 0)
    ensures forall e :: e in r <==>
      e in entries && (e.1.status.CheckedOut? || (e.1.status.CheckedIn? && 0 < e.1.currentCount < e.1.initialCount))
  {
    Filter(entries, (e: Entry) => e.1.status.CheckedOut? || (e.1.status.CheckedIn? && 0 < e.1.currentCount < e.1.initialCount))
  }

  /** A check-out option of the current map is refused only for a borrower who already holds a record. */
  lemma CheckOutOptionsCanCheckOut(items: Items, entries: seq<Entry>, matches: string -> bool,
                                   e: Entry, borrower: string, now: Stamp)
    requires EntriesOf(entries, items)
    requires e in CheckOutOptions(entries, matches)
    ensures e.0 in items
    ensures Step(items, CheckOutOp(e.0, borrower), now).Ok? <==> !HoldsItem(items, borrower)
  {
    var i :| 0 <= i < |entries| && entries[i] == e;
  }

  /** Every check-in option accepts a check-in of any count up to its current count. */
  lemma CheckInOptionsCanCheckIn(items: Items, entries: seq<Entry>, matches: string -> bool,
                                 e: Entry, count: int, now: Stamp)
    requires EntriesOf(entries, items)
    requires e in CheckInOptions(entries, matches)
    requires count <= e.1.currentCount
    ensures e.0 in items
    ensures Step(items, CheckInOp(e.0, count), now).Ok?
  {
    assert e in entries && e.1.status.CheckedOut?;
    var i :| 0 <= i < |entries| && entries[i] == e;
    CheckInOfCheckedOut(items, e.0, count, now);
  }

  /** A checked-out record accepts a check-in of any count up to its current count. */
  lemma CheckInOfCheckedOut(items: Items, id: string, count: int, now: Stamp)
    requires id in items && items[id].status.CheckedOut? && count <= items[id].currentCount
    ensures Step(items, CheckInOp(id, count), now).Ok?
  {
  }

  datatype Badge = MissingBadge | CompletedBadge | IncompleteBadge | CheckedInBadge | CheckedOutBadge

  /**
   * The Status component. Its checked-in case returns nothing when a positive
   * count exceeds the capacity, and falls through to the checked-out case.
   */
  function StatusBadge(item: Item): (b: Badge)
    ensures b == MissingBadge <==> item.status.Missing?
    ensures b == CheckedOutBadge <==>
      item.status.CheckedOut? || (item.status.CheckedIn? && 0 < item.currentCount && item.initialCount < item.currentCount)
    ensures b == CompletedBadge <==> item.status.CheckedIn? && item.currentCount <= 0
    ensures b == IncompleteBadge <==> item.status.CheckedIn? && 0 < item.currentCount < item.initialCount
    ensures b == CheckedInBadge <==> item.status.CheckedIn? && 0 < item.currentCount == item.initialCount
  {
    match item.status
    case Missing => MissingBadge
    case CheckedIn =>
      if item.currentCount <= 0 then CompletedBadge
      else if item.currentCount < item.initialCount then IncompleteBadge
      else if item.currentCount == item.initialCount then CheckedInBadge
      else CheckedOutBadge
    case CheckedOut => CheckedOutBadge
  }

  /** The fall-through: a checked-in record with more than its capacity shows as checked out. */
  lemma OverfullShowsCheckedOut()
    ensures StatusBadge(Item(CheckedIn, None, None, 60, 61, "")) == CheckedOutBadge
  {
  }

  /** On records with counts in range, the badge agrees with the box tally the record adds to. */
  lemma BadgeAgreesWithTallies(item: Item)
    requires CountsInRange(item)
    ensures StatusBadge(item) == CompletedBadge <==> SoldBox(item) == 1
    ensures StatusBadge(item) in {IncompleteBadge, CheckedInBadge} <==> InBox(item) == 1
    ensures StatusBadge(item) == CheckedOutBadge <==> OutBox(item) == 1
    ensures StatusBadge(item) == MissingBadge <==> MissingBox(item) == 1
  {
  }

  /** The dashboard lists exactly the records whose badge is checked-out or incomplete. */
  lemma DashboardByBadge(entries: seq<Entry>, e: Entry)
    requires e in entries && CountsInRange(e.1)
    ensures e in DashboardList(entries) <==> StatusBadge(e.1) in {CheckedOutBadge, IncompleteBadge}
  {
  }
}
