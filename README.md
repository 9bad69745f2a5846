# Palveluspolku — a verified model of the app's logic

Palveluspolku is an iOS app for Finnish conscripts. It counts down to the start and end of
service, computes the conscript allowance ("päiväraha") earned so far, keeps an expense log,
tracks leave days, carries a packing list, a preparation checklist and an equipment
inventory, and feeds two home-screen widgets. This project models the logic behind those
screens in Dafny and proves what the app promises about it.

Conventions used everywhere:

- An instant is an integer number of seconds. A day is 86400 seconds; there are no time zones or DST.
  The start of a day is `t - t % 86400`.
  A calendar `.day` difference is the elapsed time in whole days, truncated toward zero (Clock).
  Weekdays run 1 = Sunday … 7 = Saturday, so Friday is 6.
- Money is in integer euro cents. The daily rates are 610, 1015 and 1415, and the women's supplement is 150.
- Every SwiftData table is a sequence of `Stored(id, value)` records with distinct ids below a counter (Store).
  - Inserting appends a record with a fresh id.
  - `modelContext.delete` of the objects shown at some row offsets removes those ids.
- Each screen that changes its table is a class. Its methods carry `modifies` clauses.
- `@Query(sort:)` and `sorted(by:)` are a stable insertion sort by an integer key (Collections.SortBy).
- The current time, the start of the current month, and the platform parsers are parameters.
  - The parsers are `Double(_:)` for budget amounts and `ISO8601DateFormatter` for the widget.
- `Int(_:)` is modelled exactly as NumberText.ParseInt: an optional sign, decimal digits, and the 64-bit range.

Modules, following the source files:

| module | models |
|---|---|
| Clock | calendar arithmetic on instants |
| PaySettingsModel | `PaySettings.swift` |
| SharedData | `SharedDataManager.swift` |
| SimpleWidget | `widget.swift` |
| CountdownWidget | `ServiceCountdownWidget.swift` |
| CountdownCardModel | `CountdownCard.swift` |
| QuickActions | `QuickActionsSection.swift` |
| PhaseAgreement | how the card's and the quick actions' views of the phase relate |
| Profile | the `UserProfile` record |
| PayTracker | `PayTrackerView.swift` |
| LeaveCalculator | `LeaveCalculatorView.swift` |
| PackingList | `PackingListView.swift` |
| Preparation | `PreparationView.swift` |
| Equipment | `varusteView.swift` |
| Sections | the "fixed order filtered to the categories present" grouping shared by the three list screens |
| Collections, Store, NumberText, Wrappers | filter/sort/reverse, the record store, integer text, `Option` |

## Model

| member | source | states |
|---|---|---|
| PaySettingsModel.NewPaySettings | Palveluspolku/Models/PaySettings.swift:19-23 | A new record has the default rate 6.10, starts now and carries the given `isWoman`. |
| PaySettingsModel.DailyRate | Palveluspolku/Models/PaySettings.swift:26-41 | Days ≤ 165 (including ≤ 0) pay 6.10; 166–255 pay 10.15; later days pay 14.15. Each rate includes the supplement when it applies. |
| PaySettingsModel.DailyRateMonotone | Palveluspolku/Models/PaySettings.swift:29-35 | The rate never falls as the day count grows. |
| PaySettingsModel.SupplementIsFlat | Palveluspolku/Models/PaySettings.swift:38-40 | At every day count, the women's rate is exactly 1.50 above the men's. |
| PaySettingsModel.TotalEarned | Palveluspolku/Models/PaySettings.swift:44-49 | The total is 0 for a day count ≤ 0 and is never negative. |
| PaySettingsModel.TotalEarnedAddsOneDay | Palveluspolku/Models/PaySettings.swift:54-66 | Each extra day adds exactly that day's rate, across the 165→166 and 255→256 boundaries too. |
| PaySettingsModel.TotalEarnedIsAccrual | Palveluspolku/Models/PaySettings.swift:54-66 | The tiered closed form equals the day-by-day sum of the rates for days 1..d. |
| PaySettingsModel.TotalEarnedMonotone | Palveluspolku/Models/PaySettings.swift:54-66 | The total never decreases in the day count. |
| PaySettingsModel.TierBoundaryTotals | Palveluspolku/Models/PaySettings.swift:54-66 | Totals at the boundaries: 1006.50 at day 165, 1920.00 at day 255, 1934.15 at day 256, and 1254.00 at day 165 with the supplement. |
| PaySettingsModel.NextPaymentDate | Palveluspolku/Models/PaySettings.swift:78-89 | The loop stops on a Friday, on or after today and less than 7 days later. The result is a whole number of days after today, and no earlier day of the walk was a Friday. Today is returned when today is a Friday. |
| PaySettingsModel.DaysSinceLastPayment | Palveluspolku/Models/PaySettings.swift:92-103 | Gives d for day-of-month d ≤ 15 and d − 15 after that, so always 1..16. |
| PaySettingsModel.NextPaymentAmount | Palveluspolku/Models/PaySettings.swift:106-108 | The day of month times the rate up to the 15th, and (day − 15) times the rate after it. So it lies between 1 and 16 times a non-negative rate. |
| Clock.StartOfDay | Palveluspolku/Shared/SharedDataManager.swift:48-49 | The start of day is at or before the instant, less than a day earlier, and on a day boundary. |
| Clock.WholeDaysBetween | Palveluspolku/Models/PaySettings.swift:45 | The whole days between two instants, truncated toward zero, in both directions. |
| Clock.WholeWeeksBetween | Palveluspolku/Views/PreparationView.swift:47 | The whole weeks between two instants, truncated toward zero, in both directions. |
| Clock.WeekdayOfNextDay | Palveluspolku/Models/PaySettings.swift:84-85 | Adding a day moves the weekday on by one, wrapping from 7 to 1. |
| Clock.Weekday | Palveluspolku/Models/PaySettings.swift:84 | `.weekday` is always in 1..7, counted from 1970-01-01 as a Thursday. |
| Clock.NextDay | Palveluspolku/Models/PaySettings.swift:85 | Adding a day lands on the next day number and keeps the time of day. |
| Clock.DaysUntilFriday | Palveluspolku/Models/PaySettings.swift:84 | From any weekday, fewer than 7 steps reach Friday. |
| SharedData.ServiceDataIn | Palveluspolku/Shared/SharedDataManager.swift:37-43 | Loading yields data exactly when service data is stored under "serviceData". |
| SharedData.PremiumIn | Palveluspolku/Shared/SharedDataManager.swift:59-61 | A missing "isPremium" key reads as false. |
| SharedData.DaysRemaining | Palveluspolku/Shared/SharedDataManager.swift:46-52 | Gives the end's day number minus today's, unclamped. |
| SharedData.DaysRemainingIgnoresTimeOfDay | Palveluspolku/Shared/SharedDataManager.swift:46-52 | The time of day of either instant does not change the count. |
| SharedData.DaysRemainingNextDay | Palveluspolku/Shared/SharedDataManager.swift:46-52 | One day later, the count is exactly one lower. |
| SharedData.DaysRemainingSign | Palveluspolku/Shared/SharedDataManager.swift:46-52 | The count is 0 exactly on the end day and negative exactly after it. |
| SharedData.SharedDataManager.constructor | Palveluspolku/Shared/SharedDataManager.swift:17-26 | An empty app group has no service data and is not premium. |
| SharedData.SharedDataManager.LoadServiceData | Palveluspolku/Shared/SharedDataManager.swift:37-43 | Gives data exactly when an encoded value sits under "serviceData", and that value's contents. |
| SharedData.SharedDataManager.IsPremium | Palveluspolku/Shared/SharedDataManager.swift:59-61 | A missing key reads false; a stored flag reads as itself. |
| SharedData.SharedDataManager.SaveServiceData | Palveluspolku/Shared/SharedDataManager.swift:29-34 | Afterwards, loading returns the saved data. The premium flag is unchanged. |
| SharedData.SharedDataManager.SetIsPremium | Palveluspolku/Shared/SharedDataManager.swift:55-57 | Afterwards, the flag reads back as set. The service data is unchanged. |
| SimpleWidget.StoredEndDate | Palveluspolku/Views/widget.swift:46-50 | A date under "serviceEndDate" wins. The ISO string is parsed only when that date is absent. |
| SimpleWidget.DateAt | Palveluspolku/Views/widget.swift:46 | `object(forKey:) as? Date` gives the value exactly when a date is stored under the key. |
| SimpleWidget.StringAt | Palveluspolku/Views/widget.swift:48 | `string(forKey:)` gives the value exactly when text is stored under the key. |
| SimpleWidget.LoadEndDateAndDaysLeft | Palveluspolku/Views/widget.swift:42-58 | No end date gives (nil, nil). Otherwise, the day difference of the starts of day, clamped at 0. |
| SimpleWidget.DaysLeftIgnoresTimeOfDay | Palveluspolku/Views/widget.swift:52-55 | The result is the same at every time of the same day. |
| SimpleWidget.NextFivePastMidnight | Palveluspolku/Views/widget.swift:36 | The first instant strictly after now at 00:00:05, within a day. |
| SimpleWidget.RefreshDate | Palveluspolku/Views/widget.swift:36-37 | The next 00:00:05 when there is a count, and now + 6 h otherwise. |
| CountdownWidget.MakeEntry | ServiceCountdownWidget/ServiceCountdownWidget.swift:39-53 | The count is nil exactly when no end date is stored. Otherwise it is the unclamped `daysRemaining`. The end date and garrison are copied. |
| CountdownWidget.NextRefresh | ServiceCountdownWidget/ServiceCountdownWidget.swift:33-34 | The start of the next calendar day. |
| CountdownWidget.SmallLabel | ServiceCountdownWidget/ServiceCountdownWidget.swift:114 | Singular exactly when days == 1. |
| CountdownWidget.DayUnit | ServiceCountdownWidget/ServiceCountdownWidget.swift:133 | The unit word, singular exactly when days == 1. The small caption is this word followed by " jäljellä". |
| CountdownWidget.EntryView | ServiceCountdownWidget/ServiceCountdownWidget.swift:60-79 | Non-premium users see the locked view. Premium users see the small or medium countdown, or the no-date view. |
| CountdownWidget.SavedEndDateReachesWidget | ServiceCountdownWidget/ServiceCountdownWidget.swift:39-53 | After the app saves an end date and the premium flag, the small widget shows the unclamped day count. |
| CountdownCardModel.DaysRemaining | Palveluspolku/Views/components/CountdownCard.swift:14-26 | The card's number is never negative. |
| CountdownCardModel.Phase | Palveluspolku/Views/components/CountdownCard.swift:14-49 | The four cases: no profile; a start ahead; otherwise an end ahead; otherwise done. A future start wins over a future end. |
| CountdownCardModel.CountdownText | Palveluspolku/Views/components/CountdownCard.swift:28-38 | Each of the four texts appears exactly in its phase. |
| CountdownCardModel.PhaseColor | Palveluspolku/Views/components/CountdownCard.swift:40-49 | Blue exactly before service, green exactly during it, gray without a profile or once done. |
| CountdownCardModel.CardFollowsPhase | Palveluspolku/Views/components/CountdownCard.swift:14-49 | The number, text and colour follow one case split: no profile, start ahead, end ahead, or done. |
| CountdownCardModel.CalculateProgress | Palveluspolku/Views/components/CountdownCard.swift:93-97 | Clamped to [0, 1]: 0 up to the start and 1 from the end. In between it is strictly inside and equals elapsed / total. |
| CountdownCardModel.ProgressWhereShown | Palveluspolku/Views/components/CountdownCard.swift:71-75 | Where the bar is shown, the divisor is positive and the value is strictly between 0 and 1. |
| CountdownCardModel.ProgressMonotone | Palveluspolku/Views/components/CountdownCard.swift:93-97 | Progress never decreases over time. |
| QuickActions.IsPreService | Palveluspolku/Views/components/QuickActionsSection.swift:14-17 | True without a profile or a start date. Otherwise true exactly when the start is ahead. |
| QuickActions.IsDuringService | Palveluspolku/Views/components/QuickActionsSection.swift:19-24 | True exactly when both dates are set and start ≤ now < end. |
| QuickActions.NotBothPhases | Palveluspolku/Views/components/QuickActionsSection.swift:14-24 | The two flags are never both true. |
| QuickActions.QuickActionCards | Palveluspolku/Views/components/QuickActionsSection.swift:35-68 | The pre-service cards show exactly when `isPreService` holds, the during-service cards exactly when `isDuringService` holds, and neither otherwise. |
| QuickActions.ShowsWrappedCard | Palveluspolku/Views/components/QuickActionsSection.swift:127 | The wrapped card shows exactly when the first grid shows no cards. |
| QuickActions.ExactlyOneCardSet | Palveluspolku/Views/components/QuickActionsSection.swift:35-127 | Exactly one of the pre-service cards, the during-service cards and the wrapped card shows. |
| QuickActions.StartedWithoutEndShowsWrapped | Palveluspolku/Views/components/QuickActionsSection.swift:127-135 | With the start passed and no end date, only the wrapped card shows. |
| PhaseAgreement.AgreeWithBothDates | Palveluspolku/Views/components/CountdownCard.swift:14-49 | With both dates set, the card's phase matches the quick actions' flags. |
| PhaseAgreement.DisagreeWithoutStart | Palveluspolku/Views/components/QuickActionsSection.swift:14-17 | Without a start date but with an end ahead, the card counts to the end while the pre-service cards show. |
| Profile.ServiceStartDate | Palveluspolku/Views/PayTrackerView.swift:31-33 | No profile means no start date. |
| PayTracker.DaysServed | Palveluspolku/Views/PayTrackerView.swift:35-39 | 0 without a start and within the first day. Otherwise the whole days elapsed since the start. |
| PayTracker.TotalEarned | Palveluspolku/Views/PayTrackerView.swift:41-43 | The sum of the daily rates of every day served. |
| PayTracker.CurrentDailyRate | Palveluspolku/Views/PayTrackerView.swift:45-47 | Never below the first band's rate. |
| PayTracker.EarnedNextDay | Palveluspolku/Views/PayTrackerView.swift:41-47 | Once service has begun, each day adds one to the days served and adds the new day's rate to the total. |
| PayTracker.TotalExpensesSplit | Palveluspolku/Views/PayTrackerView.swift:49-61 | The spending in a filter plus the spending outside it is the total. |
| PayTracker.TotalExpenses | Palveluspolku/Views/PayTrackerView.swift:49-51 | 0 for no entries, and never negative when no amount is negative. TotalExpensesSplit and TotalExpensesAppend pin its value. |
| PayTracker.TotalExpensesAppend | Palveluspolku/Views/PayTrackerView.swift:49-51 | Appending an entry adds exactly its amount to the total, as a save does. |
| PayTracker.ThisMonthExpenses | Palveluspolku/Views/PayTrackerView.swift:53-61 | This month's spending plus the earlier spending equals the total. |
| PayTracker.ThisMonthIsAllWhenRecent | Palveluspolku/Views/PayTrackerView.swift:53-61 | With no entry older than this month, this month's spending is the total. |
| PayTracker.MoneyLeft | Palveluspolku/Views/PayTrackerView.swift:63-65 | Money left plus all spending equals the amount earned. |
| PayTracker.NewestFirst | Palveluspolku/Views/PayTrackerView.swift:217 | A permutation of the entries with dates descending. |
| PayTracker.RecentEntries | Palveluspolku/Views/PayTrackerView.swift:135 | The first min(10, n) entries of the newest-first list. |
| PayTracker.DeleteHitsShownRow | Palveluspolku/Views/PayTrackerView.swift:216-223 | For rows on screen, the delete handler's list and the shown list pick the same entries. |
| PayTracker.PayTrackerStore.Settings | Palveluspolku/Views/PayTrackerView.swift:21-29 | Returns the first record. If there is none, inserts exactly one with `isWoman` false. |
| PayTracker.PayTrackerStore.SavePaySettings | Palveluspolku/Views/PayTrackerView.swift:315-319 | Writes `isWoman` into that record and changes nothing else. |
| PayTracker.PayTrackerStore.DeleteExpenses | Palveluspolku/Views/PayTrackerView.swift:216-223 | Removes the entries at the in-range offsets of the newest-first list, and nothing else. |
| PayTracker.PayTrackerStore.SaveBudgetEntry | Palveluspolku/Views/PayTrackerView.swift:274-287 | Saves exactly when the text is non-empty and parses after commas become points. Appends exactly that entry, with empty notes stored as nil, under the next id; every stored entry keeps its id and value. |
| NumberText.ReplaceCommas | Palveluspolku/Views/PayTrackerView.swift:275 | Every comma becomes a point and every other character is kept. |
| Wrappers.NilIfEmpty | Palveluspolku/Views/PayTrackerView.swift:282 | nil exactly for empty text, otherwise that text. |
| Store.Insert | Palveluspolku/Views/PayTrackerView.swift:285 | The old records stay as they were, the new value goes at the end under the fresh id, and the ids stay distinct. |
| Store.Without | Palveluspolku/Views/PayTrackerView.swift:220 | Exactly the records whose ids were not deleted survive. |
| Store.IdsAt | Palveluspolku/Views/PayTrackerView.swift:218-221 | The ids at the in-range offsets, and only those. |
| Store.DeleteRows | Palveluspolku/Views/PayTrackerView.swift:216-223 | The loop over offsets removes exactly the ids at the in-range offsets. |
| Store.WithoutWellKeyed | Palveluspolku/Views/PayTrackerView.swift:220 | Deleting keeps the ids distinct. |
| Store.WithoutTwice | Palveluspolku/Views/LeaveCalculatorView.swift:138-142 | Deleting one set and then another is deleting the union. |
| Store.WithoutNothing | Palveluspolku/Views/LeaveCalculatorView.swift:138-142 | Deleting no ids changes nothing. |
| Collections.SortBy | Palveluspolku/Views/LeaveCalculatorView.swift:14 | The result is sorted by the key and is a permutation. |
| Collections.ReverseSortedBy | Palveluspolku/Views/LeaveCalculatorView.swift:99 | Reversing an ascending list gives a descending one. |
| Collections.FilterKeepsOrder | Palveluspolku/Views/PackingListView.swift:34 | A filter keeps the relative order of a duplicate-free list. |
| LeaveCalculator.SortedLeave | Palveluspolku/Views/LeaveCalculatorView.swift:14 | The query's list is a permutation of the store, by ascending date. |
| LeaveCalculator.UsedLeaveDays | Palveluspolku/Views/LeaveCalculatorView.swift:23-25 | Counts the "Regular" days; never more than the number of days. |
| LeaveCalculator.UsedIgnoresOrder | Palveluspolku/Views/LeaveCalculatorView.swift:23-25 | The count does not depend on the order of the list. |
| LeaveCalculator.RemainingLeaveDays | Palveluspolku/Views/LeaveCalculatorView.swift:27-29 | Remaining plus used equals the allowance. Negative exactly when more is used than allowed. |
| LeaveCalculator.Upcoming | Palveluspolku/Views/LeaveCalculatorView.swift:89 | Exactly the days after now. |
| LeaveCalculator.Past | Palveluspolku/Views/LeaveCalculatorView.swift:99 | Exactly the days up to now. |
| LeaveCalculator.SectionsPartition | Palveluspolku/Views/LeaveCalculatorView.swift:82-99 | Every leave day is in exactly one of the two sections. |
| LeaveCalculator.UpcomingOrdered | Palveluspolku/Views/LeaveCalculatorView.swift:89 | Upcoming leave runs soonest first. |
| LeaveCalculator.PastOrdered | Palveluspolku/Views/LeaveCalculatorView.swift:99 | Past leave runs latest first. |
| LeaveCalculator.SectionsShareNoIds | Palveluspolku/Views/LeaveCalculatorView.swift:89-99 | No record is shown in both sections. |
| LeaveCalculator.RangeCount | Palveluspolku/Views/LeaveCalculatorView.swift:241-252 | The number of loop passes: zero exactly when the end is before the start. The last day saved is at or before the end, and the next step would pass it. |
| LeaveCalculator.LeaveRange | Palveluspolku/Views/LeaveCalculatorView.swift:242-247 | One record per successive day, all with the same type, approval and note. |
| LeaveCalculator.LeaveRangeStep | Palveluspolku/Views/LeaveCalculatorView.swift:241-252 | One more pass appends the next day's record. |
| LeaveCalculator.SavedDaysAsShown | Palveluspolku/Views/LeaveCalculatorView.swift:189-192 | When the end is not before the start, the form's day count is the number of days saved. |
| LeaveCalculator.NumberOfDays | Palveluspolku/Views/LeaveCalculatorView.swift:189-192 | At least 1 when the end is not before the start; 1 for a reversed gap under a day, ≤ 0 beyond. SavedDaysAsShown ties it to the days saved. |
| LeaveCalculator.ReversedRange | Palveluspolku/Views/LeaveCalculatorView.swift:189-192 | With the end before the start nothing is saved. The form shows 1 if the gap is under a day, otherwise ≤ 0. |
| LeaveCalculator.UsedAfterSave | Palveluspolku/Views/LeaveCalculatorView.swift:236-255 | Saving n days adds n to the used count exactly when the type is "Regular". |
| LeaveCalculator.PastSwipeDeletes | Palveluspolku/Views/LeaveCalculatorView.swift:136-143 | Counterexample with one past and one upcoming day: swiping the past row deletes the upcoming day. |
| LeaveCalculator.PastSwipeMissesPast | Palveluspolku/Views/LeaveCalculatorView.swift:136-143 | With the as-written handler, a swipe never deletes a past day. |
| LeaveCalculator.PastDeleteKeepsUpcoming | Palveluspolku/Views/LeaveCalculatorView.swift:97-102 | With the corrected handler, a past-section swipe never deletes an upcoming day. |
| LeaveCalculator.TwoDayStoreSorted | Palveluspolku/Views/LeaveCalculatorView.swift:14 | The counterexample store (a day at day 0 and one at day 2) is already in query order. |
| LeaveCalculator.TwoDaySections | Palveluspolku/Views/LeaveCalculatorView.swift:89-99 | At day 1 the upcoming section holds only the day-2 record and the past section only the day-0 record. |
| LeaveCalculator.TwoDayDeletion | Palveluspolku/Views/LeaveCalculatorView.swift:136-143 | Offset 0 of the upcoming list is id 1, and deleting it leaves only the day-0 record. |
| LeaveCalculator.LeaveBook.AllowanceText | Palveluspolku/Views/LeaveCalculatorView.swift:292-294 | The prefilled text parses back to the stored allowance. |
| LeaveCalculator.LeaveBook.Query | Palveluspolku/Views/LeaveCalculatorView.swift:14 | The query returns a permutation of the stored days in ascending date order. |
| LeaveCalculator.LeaveBook.DeleteLeave | Palveluspolku/Views/LeaveCalculatorView.swift:136-143 | Removes the days at the in-range offsets of the upcoming list, and nothing else. |
| LeaveCalculator.LeaveBook.DeletePast | Palveluspolku/Views/LeaveCalculatorView.swift:97-102 | Removes the days at the in-range offsets of the past list it shows, and nothing else. |
| LeaveCalculator.LeaveBook.SaveLeave | Palveluspolku/Views/LeaveCalculatorView.swift:236-255 | The loop appends exactly the day range, under consecutive fresh ids, behind the unchanged old records. The used count grows by its length exactly for "Regular" leave, and the allowance is kept. |
| LeaveCalculator.LeaveBook.SaveAllowance | Palveluspolku/Views/LeaveCalculatorView.swift:283-289 | The allowance takes the typed value when `Int(_:)` reads one, and is kept otherwise. |
| NumberText.ParseInt | Palveluspolku/Views/LeaveCalculatorView.swift:284 | Rejects empty text, a lone sign, a first character that is neither a digit nor a sign, any later non-digit, and values outside Int64. |
| NumberText.ParseDigits | Palveluspolku/Views/LeaveCalculatorView.swift:284 | Digits alone or behind '+' read as their value, and behind '-' as its negation, each nil outside Int64. With ParseInt's rejections this fixes the result for every text. |
| NumberText.ParseIntLeadingZeros | Palveluspolku/Views/LeaveCalculatorView.swift:284 | "007" reads 7. |
| NumberText.ParseIntSigns | Palveluspolku/Views/LeaveCalculatorView.swift:284 | "+5" reads 5 and "-0" reads 0. |
| NumberText.ParseIntRejects | Palveluspolku/Views/LeaveCalculatorView.swift:284 | "a5" and " 5" are rejected. |
| NumberText.ParseIntToString | Palveluspolku/Views/LeaveCalculatorView.swift:293 | Every Int64 value printed as `"\(n)"` parses back to itself. |
| NumberText.NatToStringValue | Palveluspolku/Views/LeaveCalculatorView.swift:293 | The printed digits denote the number. |
| Sections.OrderedCategories | Palveluspolku/Views/PackingListView.swift:34 | Exactly the categories of the order that are present. |
| Sections.OrderedCategoriesDistinct | Palveluspolku/Views/PackingListView.swift:34 | Without duplicates and in the fixed order. |
| Sections.CategorySet | Palveluspolku/Views/PackingListView.swift:32 | Exactly the categories of the items. |
| Sections.Categories | Palveluspolku/Views/PackingListView.swift:22-35 | A category is listed exactly when it is in the order and some item has it. |
| Sections.ItemsInCategory | Palveluspolku/Views/PackingListView.swift:37-39 | Exactly the items of that category. |
| Sections.ListedCategoryHasItems | Palveluspolku/Views/PackingListView.swift:22-39 | Every listed section is non-empty. |
| Sections.ShownInItsSection | Palveluspolku/Views/PackingListView.swift:22-39 | An item in an ordered category is shown in its section. |
| Sections.OutsideOrderNeverShown | Palveluspolku/Views/PackingListView.swift:22-39 | An item whose category is outside the order is in no section. |
| PackingList.CategoryOrderDistinct | Palveluspolku/Views/PackingListView.swift:23-30 | The fixed order has no duplicates. |
| PackingList.DefaultRecords | Palveluspolku/Views/PackingListView.swift:225-230 | One unchecked, non-custom record per default pair, in order. |
| PackingList.DefaultsShape | Palveluspolku/Views/PackingListView.swift:159-231 | There are 38 defaults, all unchecked and non-custom, and each one's category has a section. |
| PackingList.Categories | Palveluspolku/Views/PackingListView.swift:22-35 | The present categories, in the fixed order and without duplicates. |
| PackingList.ItemsInCategory | Palveluspolku/Views/PackingListView.swift:37-39 | Exactly the items of that category. |
| PackingList.UntouchedCategoryHidden | Palveluspolku/Views/PackingListView.swift:22-35 | An item saved with the add form's default "Muut" appears in no section. |
| PackingList.PickerCategoriesShown | Palveluspolku/Views/PackingListView.swift:240-242 | Every category the picker offers has a section; "Muut" has none. |
| PackingList.CheckedCount | Palveluspolku/Views/PackingListView.swift:41-43 | At most the total, and equal to it exactly when every item is checked. |
| PackingList.ProgressTotal | Palveluspolku/Views/PackingListView.swift:63 | At least 1, the item count when there are items, and never below the checked count. |
| PackingList.ToggleAt | Palveluspolku/Views/PackingListView.swift:73-74 | Flips that item's `isChecked` and changes nothing else. |
| PackingList.ToggleAtProperties | Palveluspolku/Views/PackingListView.swift:73-74 | Toggling twice restores the list; each toggle moves the checked count by one. |
| PackingList.Unchecked | Palveluspolku/Views/PackingListView.swift:153-157 | Everything unchecked, ids and other fields kept. |
| PackingList.UncheckedCount | Palveluspolku/Views/PackingListView.swift:153-157 | Afterwards nothing is checked, and resetting again changes nothing. |
| PackingList.PackingStore.Toggle | Palveluspolku/Views/PackingListView.swift:73-74 | The store becomes the toggled list. |
| PackingList.PackingStore.ResetChecks | Palveluspolku/Views/PackingListView.swift:153-157 | The loop leaves the store unchecked, with nothing else changed. |
| PackingList.PackingStore.PopulateDefaultItems | Palveluspolku/Views/PackingListView.swift:159-231 | The loop appends exactly the default records. Every record already stored keeps its place, id and value, and the new ones take the next ids in turn. |
| PackingList.PackingStore.OnAppear | Palveluspolku/Views/PackingListView.swift:146-150 | An empty list gets the defaults. A non-empty one is left alone, so the defaults go in once. |
| PackingList.PackingStore.AddItem | Palveluspolku/Views/PackingListView.swift:262-267 | With a non-empty name, appends an unchecked custom item under the next id behind the unchanged records. Otherwise does nothing. |
| PackingList.PackingStore.DeleteItem | Palveluspolku/Views/PackingListView.swift:86-94 | Removes exactly that custom item. |
| Preparation.CategoryOrderDistinct | Palveluspolku/Views/PreparationView.swift:21-27 | The fixed order has no duplicates. |
| Preparation.DefaultRecords | Palveluspolku/Views/PreparationView.swift:210-218 | One non-completed, non-custom record per default triple, with its due week. |
| Preparation.DefaultsShape | Palveluspolku/Views/PreparationView.swift:163-219 | There are 26 defaults, all non-custom and not completed, each due 0–12 weeks before and in a listed category. |
| Preparation.Categories | Palveluspolku/Views/PreparationView.swift:20-31 | The present categories, in the fixed order and without duplicates. |
| Preparation.ItemsInCategory | Palveluspolku/Views/PreparationView.swift:33-35 | Exactly the items of that category. |
| Preparation.UntouchedCategoryHidden | Palveluspolku/Views/PreparationView.swift:20-31 | A task saved with the default "Henkilökohtaiset" appears in no section. |
| Preparation.DefaultCategoryUnlisted | Palveluspolku/Views/PreparationView.swift:227 | "Henkilökohtaiset" is not in the order. |
| Preparation.CompletedCount | Palveluspolku/Views/PreparationView.swift:37-39 | At most the total, and equal to it exactly when every task is done. |
| Preparation.ProgressTotal | Palveluspolku/Views/PreparationView.swift:65 | At least 1, the item count when there are items, and never below the completed count. |
| Preparation.WeeksUntilService | Palveluspolku/Views/PreparationView.swift:45-49 | nil exactly without a start. Otherwise the whole weeks from now to the start, clamped at 0. |
| Preparation.DueHint | Palveluspolku/Views/PreparationView.swift:93 | Shown exactly for a positive due week, with that number. |
| Preparation.ToggleAt | Palveluspolku/Views/PreparationView.swift:82 | Flips that task's `isCompleted` and changes nothing else. |
| Preparation.ToggleAtProperties | Palveluspolku/Views/PreparationView.swift:82 | Toggling twice restores the list; each toggle moves the count by one. |
| Preparation.Uncompleted | Palveluspolku/Views/PreparationView.swift:157-161 | Nothing completed, everything else kept. |
| Preparation.UncompletedCount | Palveluspolku/Views/PreparationView.swift:157-161 | Afterwards nothing is completed, and resetting again changes nothing. |
| Preparation.PreparationStore.Toggle | Palveluspolku/Views/PreparationView.swift:82 | The store becomes the toggled list. |
| Preparation.PreparationStore.ResetChecks | Palveluspolku/Views/PreparationView.swift:157-161 | The loop leaves the store uncompleted, with nothing else changed. |
| Preparation.PreparationStore.PopulateDefaultItems | Palveluspolku/Views/PreparationView.swift:163-219 | The loop appends exactly the default records. Every record already stored keeps its place, id and value, and the new ones take the next ids in turn. |
| Preparation.PreparationStore.OnAppear | Palveluspolku/Views/PreparationView.swift:150-154 | Defaults only into an empty list. |
| Preparation.PreparationStore.AddItem | Palveluspolku/Views/PreparationView.swift:256-265 | With a non-empty title, appends a custom item with no due week under the next id behind the unchanged records. Otherwise does nothing. |
| Preparation.PreparationStore.DeleteItem | Palveluspolku/Views/PreparationView.swift:102-110 | Removes exactly that custom task. |
| Equipment.CategoryOrderDistinct | Palveluspolku/Views/varusteView.swift:20-26 | The fixed order has no duplicates. |
| Equipment.DefaultRecords | Palveluspolku/Views/varusteView.swift:160-165 | One fresh item per default pair, in order. |
| Equipment.DefaultsShape | Palveluspolku/Views/varusteView.swift:134-166 | There are 13 defaults, none issued or returned, and each in a listed category. |
| Equipment.Categories | Palveluspolku/Views/varusteView.swift:19-30 | The present categories, in the fixed order and without duplicates. |
| Equipment.ItemsInCategory | Palveluspolku/Views/varusteView.swift:32-34 | Exactly the items of that category. |
| Equipment.IssuedCount | Palveluspolku/Views/varusteView.swift:36-38 | Counts the issued, not returned items; at most the total. |
| Equipment.ReturnedCount | Palveluspolku/Views/varusteView.swift:40-42 | Counts the returned items; at most the total. |
| Equipment.OpenItemsIssued | Palveluspolku/Views/varusteView.swift:36-42 | All unreturned items are issued exactly when every item is issued or returned. |
| Equipment.CountsDisjoint | Palveluspolku/Views/varusteView.swift:36-42 | Held + returned ≤ total, with equality exactly when every item is issued or returned. |
| Equipment.DeleteInCategoryKeepsOthers | Palveluspolku/Views/varusteView.swift:123-131 | A swipe in one section deletes no item of another category. |
| Equipment.ApplyEdit | Palveluspolku/Views/varusteView.swift:314-319 | Writes serial, issued, returned and notes (empty → nil). Name, category and dates are kept. |
| Equipment.DraftOf | Palveluspolku/Views/varusteView.swift:282-288 | The form starts with the item's flags, and with its serial and notes or "" where they are nil. |
| Equipment.EditWithoutChanges | Palveluspolku/Views/varusteView.swift:282-288 | Opening the form and saving unchanged restores the item. |
| Equipment.EditKeepsNoEmptyText | Palveluspolku/Views/varusteView.swift:315-318 | After an edit, no text field is present but empty. |
| Equipment.AddedItem | Palveluspolku/Views/varusteView.swift:256-262 | Empty serial and notes become nil. Not returned, no dates. |
| Equipment.EquipmentStore.DeleteItems | Palveluspolku/Views/varusteView.swift:123-131 | Removes the items at the in-range offsets of that category's list, and nothing else. |
| Equipment.EquipmentStore.PopulateDefaultItems | Palveluspolku/Views/varusteView.swift:134-166 | The loop appends exactly the default records. Every record already stored keeps its place, id and value, and the new ones take the next ids in turn. |
| Equipment.EquipmentStore.OnAppear | Palveluspolku/Views/varusteView.swift:116-120 | Defaults only into an empty list. |
| Equipment.EquipmentStore.AddItem | Palveluspolku/Views/varusteView.swift:255-266 | With a non-empty name, appends exactly the added item under the next id behind the unchanged records. Otherwise does nothing. |
| Equipment.EquipmentStore.SaveEdit | Palveluspolku/Views/varusteView.swift:314-319 | That item becomes its edited self; every other item is unchanged. |

## Findings

| source | as written | input that shows it | evidently intended | confidence | as-written member | corrected member |
|---|---|---|---|---|---|---|
| Palveluspolku/Views/LeaveCalculatorView.swift:102 | The past section's `.onDelete` calls `deleteLeave`, which looks the offsets up in the upcoming list (lines 136-143). The past section lists latest first (line 99). | A leave day yesterday and one tomorrow. Swipe the only past row (offset 0): tomorrow's day is deleted and yesterday's stays. | A swipe in the past section deletes the past row swiped. | not executed | LeaveCalculator.PastSwipeDeletes | LeaveCalculator.LeaveBook.DeletePast |

`LeaveCalculator.LeaveBook.DeleteLeave` is the handler as written. `LeaveCalculator.PastSwipeMissesPast` proves that a past-section swipe with it never deletes a past day. `LeaveCalculator.LeaveBook.DeletePast` is the handler the past section needs. `LeaveCalculator.PastDeleteKeepsUpcoming` proves that with it, a past-section swipe never touches an upcoming day.

## Modelling choices

- `PayTrackerView` calls `settings.totalEarned(serviceStartDate:)`, `currentDailyRate(daysServed:)`, `nextPaymentDate()` and `nextPaymentAmount(currentRate:)`. `PaySettings` defines none of these; it has parameterless computed properties instead.
  - The model takes the `PaySettings` definitions.
  - The day count, today and the day of month are passed in.
  - `PayTracker` feeds them its own clamped `daysServed`, counted from the profile's start date.
- `PayTrackerView.daysServed` and `PaySettings.totalEarned` take the `.day` component of the raw interval, not a difference of starts of day. So 23 hours after the start is day 0, and the model does the same.
- The card's `phaseColor` and `countdownText` compare instants (`end > Date()`), and `isDuringService` ends at `now < end`. So service counts as completed from the end instant on, not from the start of the end day, and the model does the same.

## Left out

- SwiftUI layout and rendering. Only the branch choices (which view, which text, which colour) are modelled.
- SwiftData mechanics. `@Query` is an in-memory sequence, `insert` appends, and `delete` removes by identity. `save()` is a no-op; saving to disk is not modelled.
- UserDefaults and JSON encoding. The app-group defaults are a key → value map, and an encoded `ServiceData` is kept as the value itself.
- The App Group ID and key mismatch between `widget.swift` and `SharedDataManager.swift` is configuration. Each widget reads its own map.
- RevenueCat purchases, the paywall, the promo code, the menu network fetch, CooperTestView, and the other forms and pages. They hold no logic beyond what is listed here.
- WidgetKit timeline and reload APIs. Only the refresh instant is modelled.
- `Double` arithmetic and `%.2f` formatting.
  - Amounts are integer cents.
  - `calculateProgress` is a real ratio, and its percentage text is not modelled.
  - `Double(_:)` for budget amounts is the `parseAmount` parameter.
- Time zones, DST and months.
  - Days are 86400 seconds.
  - The start of the current month and the day of the month are passed in.
  - `ISO8601DateFormatter` is the `parseIso` parameter.
- The unused `PaySettings.dailyRate` field is stored but never read.
- SimpleWidget.LoadEndDateAndDaysLeft: the `(endDate, nil)` branch of `widget.swift` is not modelled. With fixed-length days the `.day` component always exists.
- LeaveCalculator.LeaveBook.SaveLeave: the `?? endDate.addingTimeInterval(86400)` fallback of `saveLeave` is left out. With fixed-length days, adding a day always succeeds.
- Sort ties. `@Query(sort:)` and `sorted(by:)` leave the order of equal keys unspecified. The model sorts stably.
- The packing list's `@Query(sort: \.category)` ordering is left out. Every section holds one category, so all its keys tie; each section shows its items in store order.
- `resetChecks` has no entry point in either checklist, because its button is commented out. It is modelled all the same.
- Equipment.EquipmentStore.SaveEdit: the "Palautettu" toggle is disabled while "Vastaanotettu" is off, but any draft can be saved. A draft taken from an item that is returned but not issued keeps that combination. `issueDate` and `returnDate` are never set by any screen.
- Rows for toggling and deleting identify their item by its index in the store, where the source holds a reference to the object itself.
- PayTracker.PayTrackerStore.Settings: in the model, a default record inserted by one read of `settings` is seen by the next read at once. In the app `settings` is read several times per body evaluation (through `totalEarned`, `currentDailyRate` and the toolbar's `PaySettingsView`), and `@Query` is not refreshed in between, so one evaluation could insert more than one default record.
- The current time: the model takes one `now` for a whole view or widget refresh. The source calls `Date()` separately in each computed property of `CountdownCard` and `QuickActionsSection`, in `calculateProgress`, and in `widget.swift` both in `getTimeline` (line 32) and in `loadEndDateAndDaysLeft` (line 52), so two properties could in principle see instants on either side of a boundary.
- PackingList.PackingStore.DeleteItem and Preparation.PreparationStore.DeleteItem require the item to be custom, because the trash button exists only on custom rows.
