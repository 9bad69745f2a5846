/**
 * `PayTrackerView`: days served, the allowance earned so far, the expense log and what is
 * left, with the settings record created on first use.
 */
module PayTracker {
  import opened Clock
  import opened Wrappers
  import opened Collections
  import opened Store
  import opened Profile
  import opened NumberText
  import PaySettingsModel

  type Cents = int

  datatype BudgetEntry = BudgetEntry(date: Instant, amount: Cents, category: string, notes: Option<string>)

  const RecentLimit: nat := 10

  /** `daysServed`: whole days since the start, zero without a start and before it. */
  function DaysServed(start: Option<Instant>, now: Instant): (r: nat)
    ensures start.None? ==> r == 0
    ensures start.Some? && now - start.value < DaySeconds ==> r == 0
    ensures start.Some? && start.value <= now ==> r * DaySeconds <= now - start.value < (r + 1) * DaySeconds
  {
    if start.None? then 0
    else
      var days := WholeDaysBetween(start.value, now);
      if 0 > days then 0 else days
  }

  /** The allowance earned by today: the daily rates of every day served. */
  function TotalEarned(settings: PaySettingsModel.PaySettings, start: Option<Instant>, now: Instant): (r: Cents)
    ensures r == PaySettingsModel.Accrued(settings.isWoman, DaysServed(start, now))
  {
    PaySettingsModel.TotalEarnedIsAccrual(settings.isWoman, DaysServed(start, now));
    PaySettingsModel.TotalEarned(settings.isWoman, DaysServed(start, now))
  }

  /** Today's rate, at the clamped day count. */
  function CurrentDailyRate(settings: PaySettingsModel.PaySettings, start: Option<Instant>, now: Instant): (r: Cents)
    ensures PaySettingsModel.DailyRate(settings.isWoman, 1) <= r
  {
    PaySettingsModel.DailyRate(settings.isWoman, DaysServed(start, now))
  }

  /** Once service has begun, each further day adds that day's rate to the total earned. */
  lemma EarnedNextDay(settings: PaySettingsModel.PaySettings, start: Option<Instant>, now: Instant)
    requires start.Some? && start.value <= now
    ensures DaysServed(start, now + DaySeconds) == DaysServed(start, now) + 1
    ensures TotalEarned(settings, start, now + DaySeconds)
         == TotalEarned(settings, start, now) + CurrentDailyRate(settings, start, now + DaySeconds)
  {
    PaySettingsModel.TotalEarnedAddsOneDay(settings.isWoman, DaysServed(start, now));
  }

  /** `budgetEntries.reduce(0) { $0 + $1.amount }`. */
  function TotalExpenses(entries: seq<Stored<BudgetEntry>>): (r: Cents)
    ensures entries == [] ==> r == 0
    ensures (forall i :: 0 <= i < |entries| ==> entries[i].value.amount >= 0) ==> r >= 0
  {
    if entries == [] then 0 else entries[0].value.amount + TotalExpenses(entries[1..])
  }

  /** A saved entry adds exactly its amount to the spending total. */
  lemma {:induction false} TotalExpensesAppend(entries: seq<Stored<BudgetEntry>>, e: Stored<BudgetEntry>)
    ensures TotalExpenses(entries + [e]) == TotalExpenses(entries) + e.value.amount
  {
    if entries != [] {
      assert (entries + [e])[1..] == entries[1..] + [e];
      TotalExpensesAppend(entries[1..], e);
    }
  }

  lemma {:induction false} TotalExpensesSplit(entries: seq<Stored<BudgetEntry>>, p: Stored<BudgetEntry> -> bool,
                                               q: Stored<BudgetEntry> -> bool)
    requires forall e :: q(e) == !p(e)
    ensures TotalExpenses(Filter(entries, p)) + TotalExpenses(Filter(entries, q)) == TotalExpenses(entries)
  {
    if entries != [] {
      var rest := entries[1..];
      TotalExpensesSplit(rest, p, q);
      if p(entries[0]) {
        var kept := Filter(entries, p);
        assert kept == [entries[0]] + Filter(rest, p);
        assert kept[0] == entries[0] && kept[1..] == Filter(rest, p);
        assert Filter(entries, q) == Filter(rest, q);
      } else {
        var kept := Filter(entries, q);
        assert kept == [entries[0]] + Filter(rest, q);
        assert kept[0] == entries[0] && kept[1..] == Filter(rest, q);
        assert Filter(entries, p) == Filter(rest, p);
      }
    }
  }

  function DatedFrom(start: Instant): Stored<BudgetEntry> -> bool {
    (e: Stored<BudgetEntry>) => e.value.date >= start
  }

  function DatedBefore(start: Instant): Stored<BudgetEntry> -> bool {
    (e: Stored<BudgetEntry>) => e.value.date < start
  }

  /**
   * `thisMonthExpenses`, with the start of the current month passed in: the entries dated at
   * or after it, and together with the earlier ones they make up the total.
   */
  function ThisMonthExpenses(entries: seq<Stored<BudgetEntry>>, startOfMonth: Instant): (r: Cents)
    ensures r + TotalExpenses(Filter(entries, DatedBefore(startOfMonth))) == TotalExpenses(entries)
  {
    TotalExpensesSplit(entries, DatedFrom(startOfMonth), DatedBefore(startOfMonth));
    TotalExpenses(Filter(entries, DatedFrom(startOfMonth)))
  }

  /** With nothing older than this month, this month's spending is all the spending. */
  lemma ThisMonthIsAllWhenRecent(entries: seq<Stored<BudgetEntry>>, startOfMonth: Instant)
    requires forall i :: 0 <= i < |entries| ==> entries[i].value.date >= startOfMonth
    ensures ThisMonthExpenses(entries, startOfMonth) == TotalExpenses(entries)
  {
    FilterAll(entries, DatedFrom(startOfMonth));
  }

  /** `moneyLeft`: earned so far, minus everything spent. */
  function MoneyLeft(settings: PaySettingsModel.PaySettings, start: Option<Instant>, now: Instant,
                     entries: seq<Stored<BudgetEntry>>): (r: Cents)
    ensures r + TotalExpenses(entries) == PaySettingsModel.Accrued(settings.isWoman, DaysServed(start, now))
  {
    TotalEarned(settings, start, now) - TotalExpenses(entries)
  }

  function NewestKey(e: Stored<BudgetEntry>): int {
    -e.value.date
  }

  /** `budgetEntries.sorted(by: { $0.date > $1.date })`. */
  function NewestFirst(entries: seq<Stored<BudgetEntry>>): (r: seq<Stored<BudgetEntry>>)
    ensures multiset(r) == multiset(entries)
    ensures forall i, j :: 0 <= i < j < |r| ==> r[i].value.date >= r[j].value.date
  {
    var r := SortBy(entries, NewestKey);
    assert forall i, j :: 0 <= i < j < |r| ==> NewestKey(r[i]) <= NewestKey(r[j]);
    r
  }

  /** The "recent expenses" list: `.prefix(10)` of the newest-first list. */
  function RecentEntries(entries: seq<Stored<BudgetEntry>>): (r: seq<Stored<BudgetEntry>>)
    ensures |r| == if |entries| < RecentLimit then |entries| else RecentLimit
    ensures r == NewestFirst(entries)[..|r|]
  {
    var sorted := NewestFirst(entries);
    assert |sorted| == |multiset(entries)| == |entries|;
    sorted[..if |sorted| < RecentLimit then |sorted| else RecentLimit]
  }

  /**
   * `deleteExpenses` indexes the whole newest-first list, the rows on screen are its first
   * ten, so a swipe deletes the entry on the row swiped.
   */
  lemma {:induction false} DeleteHitsShownRow(entries: seq<Stored<BudgetEntry>>, offsets: seq<nat>)
    requires forall k :: 0 <= k < |offsets| ==> offsets[k] < |RecentEntries(entries)|
    ensures IdsAt(NewestFirst(entries), offsets) == IdsAt(RecentEntries(entries), offsets)
  {
    if offsets != [] {
      DeleteHitsShownRow(entries, offsets[..|offsets| - 1]);
    }
  }

  class PayTrackerStore {
    var paySettings: seq<PaySettingsModel.PaySettings>
    var budgetEntries: seq<Stored<BudgetEntry>>
    var nextId: nat

    ghost predicate Valid()
      reads this
    {
      WellKeyed(budgetEntries, nextId)
    }

    constructor ()
      ensures Valid() && paySettings == [] && budgetEntries == []
    {
      paySettings := [];
      budgetEntries := [];
      nextId := 0;
    }

    /** The `settings` accessor: the first record, or a new one inserted with `isWoman` false. */
    method Settings(now: Instant) returns (s: PaySettingsModel.PaySettings)
      modifies this
      ensures old(paySettings) != [] ==> s == old(paySettings)[0] && paySettings == old(paySettings)
      ensures old(paySettings) == [] ==> s == PaySettingsModel.NewPaySettings(now, false) && paySettings == [s]
      ensures paySettings != [] && s == paySettings[0]
      ensures budgetEntries == old(budgetEntries) && nextId == old(nextId)
    {
      if paySettings != [] {
        s := paySettings[0];
      } else {
        s := PaySettingsModel.NewPaySettings(now, false);
        paySettings := paySettings + [s];
      }
    }

    /** `PaySettingsView`'s Save: writes the toggle into the record the accessor handed out. */
    method SavePaySettings(isWoman: bool)
      requires paySettings != []
      modifies this
      ensures paySettings == old(paySettings)[0 := old(paySettings)[0].(isWoman := isWoman)]
      ensures budgetEntries == old(budgetEntries) && nextId == old(nextId)
    {
      paySettings := paySettings[0 := paySettings[0].(isWoman := isWoman)];
    }

    /** `deleteExpenses(at:)`: offsets index the newest-first list; out-of-range ones are skipped. */
    method DeleteExpenses(offsets: seq<nat>)
      requires Valid()
      modifies this
      ensures Valid()
      ensures budgetEntries == Without(old(budgetEntries), IdsAt(NewestFirst(old(budgetEntries)), offsets))
      ensures paySettings == old(paySettings) && nextId == old(nextId)
    {
      var sorted := NewestFirst(budgetEntries);
      budgetEntries := DeleteRows(budgetEntries, sorted, offsets);
      WithoutWellKeyed(old(budgetEntries), IdsAt(sorted, offsets), nextId);
    }

    /**
     * `saveBudgetEntry()`: commas become points, then the platform's `Double(_:)`, passed in
     * as `parseAmount`, reads the amount in cents. Nothing is stored when the text is empty
     * (the button is disabled) or does not parse; an empty note is stored as nil.
     */
    method SaveBudgetEntry(amountText: string, category: string, notes: string, date: Instant,
                           parseAmount: string -> Option<Cents>) returns (saved: bool)
      requires Valid()
      modifies this
      ensures Valid()
      ensures saved <==> amountText != "" && parseAmount(ReplaceCommas(amountText)).Some?
      ensures saved ==>
        Values(budgetEntries) == old(Values(budgetEntries))
          + [BudgetEntry(date, parseAmount(ReplaceCommas(amountText)).value, category, NilIfEmpty(notes))]
      ensures saved ==> Appended(old(budgetEntries), budgetEntries, old(nextId),
        [BudgetEntry(date, parseAmount(ReplaceCommas(amountText)).value, category, NilIfEmpty(notes))])
      ensures !saved ==> budgetEntries == old(budgetEntries)
      ensures paySettings == old(paySettings)
    {
      saved := false;
      if amountText == "" {
        return;
      }
      var cleanAmount := ReplaceCommas(amountText);
      var amountValue := parseAmount(cleanAmount);
      if amountValue.None? {
        return;
      }
      var entry := BudgetEntry(date, amountValue.value, category, NilIfEmpty(notes));
      budgetEntries := Insert(budgetEntries, nextId, entry);
      nextId := nextId + 1;
      saved := true;
    }
  }
}
