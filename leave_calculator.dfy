/**
 * `LeaveCalculatorView` and its two sheets: the leave allowance, the leave days used and
 * left, the upcoming and past sections, saving a range of days and swiping rows away.
 */
module LeaveCalculator {
  import opened Clock
  import opened Wrappers
  import opened Collections
  import opened Store
  import opened NumberText

  const Regular: string := "Regular"

  datatype LeaveDay = LeaveDay(date: Instant, leaveType: string, approved: bool, notes: Option<string>)

  function ByDate(l: Stored<LeaveDay>): int {
    l.value.date
  }

  /** `@Query(sort: \LeaveDay.date)`. */
  function SortedLeave(store: seq<Stored<LeaveDay>>): (r: seq<Stored<LeaveDay>>)
    ensures multiset(r) == multiset(store) && |r| == |store|
    ensures forall i, j :: 0 <= i < j < |r| ==> r[i].value.date <= r[j].value.date
  {
    var r := SortBy(store, ByDate);
    assert SortedBy(r, ByDate);
    r
  }

  function IsRegular(l: LeaveDay): bool {
    l.leaveType == Regular
  }

  /** `usedLeaveDays`: the days of type "Regular"; weekend and special leave are free. */
  function UsedLeaveDays(leaveDays: seq<Stored<LeaveDay>>): (r: nat)
    ensures r <= |leaveDays|
  {
    |Filter(Values(leaveDays), IsRegular)|
  }

  /** The count does not depend on the order the query returns the days in. */
  lemma UsedIgnoresOrder(a: seq<Stored<LeaveDay>>, b: seq<Stored<LeaveDay>>)
    requires multiset(a) == multiset(b)
    ensures UsedLeaveDays(a) == UsedLeaveDays(b)
  {
    ValuesPermutation(a, b);
    FilterCountPermutation(Values(a), Values(b), IsRegular);
  }

  /** `remainingLeaveDays`: not clamped, so it goes negative once more is used than allowed. */
  function RemainingLeaveDays(allowance: int, leaveDays: seq<Stored<LeaveDay>>): (r: int)
    ensures r + UsedLeaveDays(leaveDays) == allowance
    ensures r <= allowance
    ensures r < 0 <==> UsedLeaveDays(leaveDays) > allowance
  {
    allowance - UsedLeaveDays(leaveDays)
  }

  function IsUpcoming(now: Instant): Stored<LeaveDay> -> bool {
    (l: Stored<LeaveDay>) => l.value.date > now
  }

  function IsPast(now: Instant): Stored<LeaveDay> -> bool {
    (l: Stored<LeaveDay>) => l.value.date <= now
  }

  /** The "Tulevat lomat" section: `leaveDays.filter { $0.date > Date() }`. */
  function Upcoming(leaveDays: seq<Stored<LeaveDay>>, now: Instant): (r: seq<Stored<LeaveDay>>)
    ensures forall i :: 0 <= i < |r| ==> r[i] in leaveDays && r[i].value.date > now
    ensures forall i :: 0 <= i < |leaveDays| && leaveDays[i].value.date > now ==> leaveDays[i] in r
  {
    Filter(leaveDays, IsUpcoming(now))
  }

  /** The "Menneet lomat" section: the days up to now, latest first. */
  function Past(leaveDays: seq<Stored<LeaveDay>>, now: Instant): (r: seq<Stored<LeaveDay>>)
    ensures forall i :: 0 <= i < |r| ==> r[i] in leaveDays && r[i].value.date <= now
    ensures forall i :: 0 <= i < |leaveDays| && leaveDays[i].value.date <= now ==> leaveDays[i] in r
  {
    var kept := Filter(leaveDays, IsPast(now));
    var r := Reverse(kept);
    assert forall i :: 0 <= i < |kept| ==> kept[i] == r[|kept| - 1 - i];
    r
  }

  /** Every leave day is in exactly one of the two sections. */
  lemma SectionsPartition(leaveDays: seq<Stored<LeaveDay>>, now: Instant)
    ensures multiset(Upcoming(leaveDays, now)) + multiset(Past(leaveDays, now)) == multiset(leaveDays)
    ensures |Upcoming(leaveDays, now)| + |Past(leaveDays, now)| == |leaveDays|
  {
    FilterSplits(leaveDays, IsUpcoming(now), IsPast(now));
    ReverseMultiset(Filter(leaveDays, IsPast(now)));
  }

  /** Upcoming leave runs soonest first. */
  lemma UpcomingOrdered(store: seq<Stored<LeaveDay>>, now: Instant)
    ensures var up := Upcoming(SortedLeave(store), now);
      forall i, j :: 0 <= i < j < |up| ==> up[i].value.date <= up[j].value.date
  {
    var sorted := SortedLeave(store);
    assert SortedBy(sorted, ByDate);
    FilterSortedBy(sorted, IsUpcoming(now), ByDate);
    var up := Filter(sorted, IsUpcoming(now));
    assert SortedBy(up, ByDate);
    forall i, j | 0 <= i < j < |up| ensures up[i].value.date <= up[j].value.date {
      assert ByDate(up[i]) <= ByDate(up[j]);
    }
  }

  /** Past leave runs latest first. */
  lemma PastOrdered(store: seq<Stored<LeaveDay>>, now: Instant)
    ensures var past := Past(SortedLeave(store), now);
      forall i, j :: 0 <= i < j < |past| ==> past[i].value.date >= past[j].value.date
  {
    var sorted := SortedLeave(store);
    assert SortedBy(sorted, ByDate);
    FilterSortedBy(sorted, IsPast(now), ByDate);
    var kept := Filter(sorted, IsPast(now));
    ReverseSortedBy(kept, ByDate);
  }

  /** A record shown among the upcoming days and one shown among the past days are never the same object. */
  lemma SectionsShareNoIds(store: seq<Stored<LeaveDay>>, nextId: nat, now: Instant, u: nat, p: nat)
    requires WellKeyed(store, nextId)
    requires u < |Upcoming(SortedLeave(store), now)| && p < |Past(SortedLeave(store), now)|
    ensures Upcoming(SortedLeave(store), now)[u].id != Past(SortedLeave(store), now)[p].id
  {
    var sorted := SortedLeave(store);
    var x := Upcoming(sorted, now)[u];
    var y := Past(sorted, now)[p];
    assert x in multiset(sorted) && y in multiset(sorted);
    var i :| 0 <= i < |store| && store[i] == x;
    var j :| 0 <= j < |store| && store[j] == y;
    assert x.value.date != y.value.date;
    assert i != j;
  }

  /** `numberOfDays`, shown on the form: whole days from start to end, plus one. */
  function NumberOfDays(start: Instant, end: Instant): (r: int)
    ensures start <= end ==> r >= 1
    ensures end < start && start - end < DaySeconds ==> r == 1
    ensures start - end >= DaySeconds ==> r <= 0
  {
    WholeDaysBetween(start, end) + 1
  }

  /** How many times the loop of `saveLeave` runs: start, start + 1 day, ... while not past `end`. */
  function RangeCount(start: Instant, end: Instant): (n: nat)
    ensures n == 0 <==> end < start
    ensures end < start + n * DaySeconds
    ensures n > 0 ==> start + (n - 1) * DaySeconds <= end
  {
    if end < start then 0 else (end - start) / DaySeconds + 1
  }

  /** The records `saveLeave` inserts, one per day, all with the form's type, approval and note. */
  function LeaveRange(start: Instant, n: nat, leaveType: string, approved: bool, notes: Option<string>): (r: seq<LeaveDay>)
    ensures |r| == n
    ensures forall k :: 0 <= k < n ==> r[k] == LeaveDay(start + k * DaySeconds, leaveType, approved, notes)
  {
    seq(n, k requires 0 <= k < n => LeaveDay(start + k * DaySeconds, leaveType, approved, notes))
  }

  /** When the end is not before the start, the form counts exactly the days that get saved. */
  lemma SavedDaysAsShown(start: Instant, end: Instant)
    requires start <= end
    ensures RangeCount(start, end) == NumberOfDays(start, end)
  {
  }

  /**
   * The start picker is not bounded by the end, so the end can fall before the start. Less
   * than a day before, the form still says 1 day and nothing is saved; a day or more before,
   * the form shows zero or a negative count.
   */
  lemma ReversedRange(start: Instant, end: Instant)
    requires end < start
    ensures RangeCount(start, end) == 0
    ensures start - end < DaySeconds ==> NumberOfDays(start, end) == 1
    ensures start - end >= DaySeconds ==> NumberOfDays(start, end) <= 0
  {
  }

  lemma LeaveRangeStep(start: Instant, n: nat, leaveType: string, approved: bool, notes: Option<string>)
    ensures LeaveRange(start, n + 1, leaveType, approved, notes)
         == LeaveRange(start, n, leaveType, approved, notes) + [LeaveDay(start + n * DaySeconds, leaveType, approved, notes)]
  {
  }

  /** Saving `n` days of one type adds `n` to the used count exactly when the type is "Regular". */
  lemma UsedAfterSave(before: seq<Stored<LeaveDay>>, after: seq<Stored<LeaveDay>>, start: Instant, n: nat,
                      leaveType: string, approved: bool, notes: Option<string>)
    requires Values(after) == Values(before) + LeaveRange(start, n, leaveType, approved, notes)
    ensures leaveType == Regular ==> UsedLeaveDays(SortedLeave(after)) == UsedLeaveDays(SortedLeave(before)) + n
    ensures leaveType != Regular ==> UsedLeaveDays(SortedLeave(after)) == UsedLeaveDays(SortedLeave(before))
  {
    var saved := LeaveRange(start, n, leaveType, approved, notes);
    UsedIgnoresOrder(SortedLeave(after), after);
    UsedIgnoresOrder(SortedLeave(before), before);
    FilterConcat(Values(before), saved, IsRegular);
    if leaveType == Regular {
      FilterAll(saved, IsRegular);
    } else {
      FilterNone(saved, IsRegular);
    }
  }

  /** The days `PastSwipeDeletes` starts from: one past leave day and one upcoming. */
  function TwoDayStore(): seq<Stored<LeaveDay>> {
    [Stored(0, LeaveDay(0, Regular, false, None)), Stored(1, LeaveDay(2 * DaySeconds, Regular, false, None))]
  }

  lemma TwoDayStoreSorted()
    ensures SortedLeave(TwoDayStore()) == TwoDayStore()
  {
    var store := TwoDayStore();
    assert SortBy([store[1]], ByDate) == [store[1]];
    assert store == [store[0]] + [store[1]];
  }

  lemma TwoDaySections()
    ensures Upcoming(TwoDayStore(), DaySeconds) == [TwoDayStore()[1]]
    ensures Past(TwoDayStore(), DaySeconds) == [TwoDayStore()[0]]
  {
    var store := TwoDayStore();
    assert store[1..] == [store[1]];
    assert Filter([store[1]], IsUpcoming(DaySeconds)) == [store[1]];
    assert Filter([store[1]], IsPast(DaySeconds)) == [];
  }

  lemma TwoDayDeletion()
    ensures IdsAt([TwoDayStore()[1]], [0]) == {1}
    ensures Without(TwoDayStore(), {1}) == [TwoDayStore()[0]]
  {
    var store := TwoDayStore();
    assert IdsAt([store[1]], [0]) == IdsAt([store[1]], []) + {1};
    assert store[1..] == [store[1]];
    assert Filter([store[1]], Survives({1})) == [];
  }

  /**
   * As written, `deleteLeave` serves both sections and always indexes the upcoming list:
   * swiping the only past row deletes the upcoming day and leaves the swiped one.
   */
  lemma PastSwipeDeletes()
    ensures Past(SortedLeave(TwoDayStore()), DaySeconds)[0].id == 0
    ensures IdsAt(Upcoming(SortedLeave(TwoDayStore()), DaySeconds), [0]) == {1}
    ensures Without(TwoDayStore(), IdsAt(Upcoming(SortedLeave(TwoDayStore()), DaySeconds), [0])) == [TwoDayStore()[0]]
  {
    TwoDayStoreSorted();
    TwoDaySections();
    TwoDayDeletion();
  }

  /** Swiping in the past section with the as-written handler never deletes a past day. */
  lemma PastSwipeMissesPast(store: seq<Stored<LeaveDay>>, nextId: nat, now: Instant, offsets: seq<nat>, p: nat)
    requires WellKeyed(store, nextId)
    requires p < |Past(SortedLeave(store), now)|
    ensures Past(SortedLeave(store), now)[p].id !in IdsAt(Upcoming(SortedLeave(store), now), offsets)
  {
    var up := Upcoming(SortedLeave(store), now);
    var id := Past(SortedLeave(store), now)[p].id;
    if id in IdsAt(up, offsets) {
      var k :| 0 <= k < |offsets| && offsets[k] < |up| && up[offsets[k]].id == id;
      SectionsShareNoIds(store, nextId, now, offsets[k], p);
    }
  }

  /** With the corrected handler, a swipe in the past section deletes no upcoming day. */
  lemma PastDeleteKeepsUpcoming(store: seq<Stored<LeaveDay>>, nextId: nat, now: Instant, offsets: seq<nat>, u: nat)
    requires WellKeyed(store, nextId)
    requires u < |Upcoming(SortedLeave(store), now)|
    ensures Upcoming(SortedLeave(store), now)[u].id !in IdsAt(Past(SortedLeave(store), now), offsets)
  {
    var past := Past(SortedLeave(store), now);
    var id := Upcoming(SortedLeave(store), now)[u].id;
    if id in IdsAt(past, offsets) {
      var k :| 0 <= k < |offsets| && offsets[k] < |past| && past[offsets[k]].id == id;
      SectionsShareNoIds(store, nextId, now, u, offsets[k]);
    }
  }

  /** The leave days in the store, and the allowance kept under `totalLeaveAllowance`. */
  class LeaveBook {
    var leaveDays: seq<Stored<LeaveDay>>
    var totalLeaveAllowance: int
    var nextId: nat

    ghost predicate Valid()
      reads this
    {
      WellKeyed(leaveDays, nextId) && IntMin <= totalLeaveAllowance <= IntMax
    }

    constructor ()
      ensures Valid() && leaveDays == [] && totalLeaveAllowance == 0
    {
      leaveDays := [];
      totalLeaveAllowance := 0;
      nextId := 0;
    }

    /** The list the view's query delivers. */
    function Query(): (r: seq<Stored<LeaveDay>>)
      reads this
      ensures multiset(r) == multiset(leaveDays)
      ensures forall i, j :: 0 <= i < j < |r| ==> r[i].value.date <= r[j].value.date
    {
      SortedLeave(leaveDays)
    }

    /** The text field's contents when the settings sheet appears. */
    function AllowanceText(): (text: string)
      reads this
      requires Valid()
      ensures ParseInt(text) == Some(totalLeaveAllowance)
    {
      ParseIntToString(totalLeaveAllowance);
      IntToString(totalLeaveAllowance)
    }

    /**
     * `deleteLeave(at:)` as written: the offsets are looked up in the upcoming list, from
     * whichever section they came.
     */
    method DeleteLeave(offsets: seq<nat>, now: Instant)
      requires Valid()
      modifies this
      ensures Valid()
      ensures leaveDays == Without(old(leaveDays), IdsAt(Upcoming(old(Query()), now), offsets))
      ensures totalLeaveAllowance == old(totalLeaveAllowance) && nextId == old(nextId)
    {
      var upcoming := Upcoming(Query(), now);
      leaveDays := DeleteRows(leaveDays, upcoming, offsets);
      WithoutWellKeyed(old(leaveDays), IdsAt(upcoming, offsets), nextId);
    }

    /** The handler the past section needs: the offsets are looked up in the past list it shows. */
    method DeletePast(offsets: seq<nat>, now: Instant)
      requires Valid()
      modifies this
      ensures Valid()
      ensures leaveDays == Without(old(leaveDays), IdsAt(Past(old(Query()), now), offsets))
      ensures totalLeaveAllowance == old(totalLeaveAllowance) && nextId == old(nextId)
    {
      var past := Past(Query(), now);
      leaveDays := DeleteRows(leaveDays, past, offsets);
      WithoutWellKeyed(old(leaveDays), IdsAt(past, offsets), nextId);
    }

    /**
     * `saveLeave()`: one record per day from the start while not past the end. Saving regular
     * leave uses up that many days of the allowance; other types use none.
     */
    method SaveLeave(startDate: Instant, endDate: Instant, leaveType: string, approved: bool, notes: string)
      requires Valid()
      modifies this
      ensures Valid()
      ensures Values(leaveDays) == old(Values(leaveDays))
        + LeaveRange(startDate, RangeCount(startDate, endDate), leaveType, approved, NilIfEmpty(notes))
      ensures Appended(old(leaveDays), leaveDays, old(nextId),
        LeaveRange(startDate, RangeCount(startDate, endDate), leaveType, approved, NilIfEmpty(notes)))
      ensures leaveType == Regular ==> UsedLeaveDays(Query()) == old(UsedLeaveDays(Query())) + RangeCount(startDate, endDate)
      ensures leaveType != Regular ==> UsedLeaveDays(Query()) == old(UsedLeaveDays(Query()))
      ensures totalLeaveAllowance == old(totalLeaveAllowance)
    {
      var currentDate := startDate;
      ghost var added: nat := 0;
      ExtendsNothing(leaveDays, nextId);
      while currentDate <= endDate
        invariant Valid() && totalLeaveAllowance == old(totalLeaveAllowance)
        invariant currentDate == startDate + added * DaySeconds
        invariant added <= RangeCount(startDate, endDate)
        invariant added < RangeCount(startDate, endDate) <==> currentDate <= endDate
        invariant nextId == old(nextId) + added
        invariant Values(leaveDays) == old(Values(leaveDays)) + LeaveRange(startDate, added, leaveType, approved, NilIfEmpty(notes))
        invariant Extends(old(leaveDays), leaveDays, old(nextId))
        decreases endDate - currentDate
      {
        var leave := LeaveDay(currentDate, leaveType, approved, NilIfEmpty(notes));
        ExtendsStep(old(leaveDays), leaveDays, old(nextId), nextId, leave);
        leaveDays := Insert(leaveDays, nextId, leave);
        nextId := nextId + 1;
        LeaveRangeStep(startDate, added, leaveType, approved, NilIfEmpty(notes));
        currentDate := NextDay(currentDate);
        added := added + 1;
      }
      UsedAfterSave(old(leaveDays), leaveDays, startDate, added, leaveType, approved, NilIfEmpty(notes));
    }

    /**
     * `LeaveSettingsView`'s Save: the allowance takes the typed number when `Int(_:)` reads
     * one and is kept otherwise; with the field empty the button is disabled.
     */
    method SaveAllowance(allowanceText: string)
      requires Valid()
      modifies this
      ensures Valid()
      ensures ParseInt(allowanceText).Some? ==> totalLeaveAllowance == ParseInt(allowanceText).value
      ensures ParseInt(allowanceText).None? ==> totalLeaveAllowance == old(totalLeaveAllowance)
      ensures leaveDays == old(leaveDays) && nextId == old(nextId)
    {
      if allowanceText == "" {
        return;
      }
      var days := ParseInt(allowanceText);
      if days.Some? {
        totalLeaveAllowance := days.value;
      }
    }
  }
}
