# SpendEasy core in Dafny

SpendEasy is an iOS expense tracker. This project models its logic:

- **Reminder engine** (`NotificationManager`). A daily 8 PM reminder and an inactivity reminder. Each "smart" pass cancels the four smart requests. It then fires at most one spending milestone (10k or 15k) and the end-of-month advice in the last seven days. Last, it fires the monthly comparison when the previous month had spending. Each alert fires once per month, and a persisted flag per (alert, month start) records it.
- **Dashboard** (`ContentView`). The expenses of the selected day or month, and the drill-down list of one category. The grouped breakdown with its per-row percentages. Date navigation by day or month, which never moves past now.
- **Donut chart** (`DonutChartView`). The per-category totals, largest first. The centre caption and total for the selected categories. The tap handler checks the ring and turns the tap's angle into a clockwise angle from the top. It walks the slices to find the one under that angle and toggles its category.
- **Add-expense form** (`AddExpenseView`). The amount text is sanitised on every edit: only digits and '.' are kept, and at most one '.'. Parsed text becomes the amount. Save is enabled only with a title and an amount. Saving stores the record, restarts the inactivity clock and runs a smart pass.
- **Category tables** (`CategoryHelper`). An icon and a colour per category, and the integer decoding of `Color(hex:)`.

Each source file has a module: `Notifications`, `Dashboard`, `DonutChart`, `AddExpense`, `CategoryHelper`. Shared concepts have their own modules:

- `Expenses`: the record, sums and the grouping shared by the chart and the breakdown.
- `Calendar`: dates, order, same day or month, and stepping by a day or a month.
- `Sanitizer`: the amount field's filter and `Double(_:)` on its output.
- `Numeric`: truncation toward zero.
- `Text`: decimal rendering.
- `Wrappers`: `Option`.

Objects whose state the source updates are classes whose methods change fields. Each such method is proved against a function of the old state:

- `NotificationManager`: the persisted flags, the pending requests and the last-open time.
- `DonutChartView`: the selection.
- `ContentView`'s state: `DashboardState`.
- `AddExpenseView`'s state: `AddExpenseForm`.

`FindSlice` is the slice walk of `handleTap`, written as a loop with invariants. Lemmas state what the source promises about these functions.

The code decides where it and the written design differ:

- Percentages are truncated by `Int(_:)`, not rounded.
- The order of categories with equal totals is left unspecified (dictionary order), not stable.

## Model

| member | source | states |
|---|---|---|
| Notifications.NotificationManager.constructor | SwiftExpenseTracker/NotificationManager.swift:7-8 | a new manager has no flags, no pending requests and no stored last-open time |
| Notifications.NotificationManager.ScheduleDailyReminder | SwiftExpenseTracker/NotificationManager.swift:19-33 | the "dailyReminder" request becomes the daily 20:00 reminder; nothing else pending changes |
| Notifications.NotificationManager.CheckInactivity | SwiftExpenseTracker/NotificationManager.swift:36-52 | without a stored last-open time, now is stored and nothing is scheduled; with one, the inactivity reminder is scheduled exactly when at least 24 hours have passed |
| Notifications.NotificationManager.HasAlertedFor | SwiftExpenseTracker/NotificationManager.swift:170-173 | true only for a flag that was written (an unwritten key reads false) |
| Notifications.NotificationManager.MarkAlertAsShown | SwiftExpenseTracker/NotificationManager.swift:175-178 | sets the flag of (kind, month); every flag set before stays set |
| Notifications.NotificationManager.ScheduleNotification | SwiftExpenseTracker/NotificationManager.swift:180-197 | adds or replaces the request under its identifier, firing once after one second |
| Notifications.NotificationManager.ScheduleSmartReminders | SwiftExpenseTracker/NotificationManager.swift:55-127 | the new flags and pending requests are those of the pass function `SmartPass` applied to the old ones |
| Notifications.NotificationManager.ScheduleMilestone | SwiftExpenseTracker/NotificationManager.swift:73-93 | the new state is `MilestoneStep` of the old one: at most one milestone, each once per month |
| Notifications.NotificationManager.ScheduleEndOfMonthAdvice | SwiftExpenseTracker/NotificationManager.swift:95-118 | the new state is `EndOfMonthStep` of the old one: the banded advice once per month in the last seven days |
| Notifications.NotificationManager.CheckAndScheduleMonthlyComparison | SwiftExpenseTracker/NotificationManager.swift:129-167 | the new state is `ComparisonStep` of the old one |
| Notifications.SmartPass | SwiftExpenseTracker/NotificationManager.swift:55-127 | the pass on values: a failed fetch keeps the state; otherwise cancel the four smart identifiers, then the milestone, advice and comparison steps in that order; its properties are the lemmas below |
| Notifications.MilestoneStep | SwiftExpenseTracker/NotificationManager.swift:73-93 | the milestone section on values: 15k from 15000, 10k from 10000 up to that, each only when its flag is unset; MilestonesExclusive, DueMilestoneScheduled and ScheduledOnlyWhenUnflagged state it |
| Notifications.EndOfMonthStep | SwiftExpenseTracker/NotificationManager.swift:95-118 | the advice section on values; EndOfMonthAdvice states when it fires and which band it uses |
| Notifications.ComparisonStep | SwiftExpenseTracker/NotificationManager.swift:129-167 | the comparison section on values; ComparisonNeedsPositiveTotal states when it fires |
| Notifications.FlagKeyInjective | SwiftExpenseTracker/NotificationManager.swift:171 | distinct (alert, month start) pairs give distinct "alert_<kind>_<seconds>" keys, so alerts never share a flag |
| Notifications.IdStringInjective | SwiftExpenseTracker/NotificationManager.swift:71 | the six request identifiers are distinct strings |
| Notifications.FailedFetchChangesNothing | SwiftExpenseTracker/NotificationManager.swift:124-126 | a pass whose expense fetch fails changes no flag and no request |
| Notifications.CancelsOnlySmartIds | SwiftExpenseTracker/NotificationManager.swift:71 | a pass leaves every request outside the four smart identifiers exactly as it was, present or absent |
| Notifications.MilestonesExclusive | SwiftExpenseTracker/NotificationManager.swift:74-93 | never both milestones; neither below 10000; no 15k below 15000; no 10k from 15000 on |
| Notifications.DueMilestoneScheduled | SwiftExpenseTracker/NotificationManager.swift:74-93 | after a pass the 10k milestone is pending exactly when the total is in [10000, 15000) and its flag for the month was unset, and the 15k one exactly when the total is at least 15000 and its flag was unset |
| Notifications.ScheduledOnlyWhenUnflagged | SwiftExpenseTracker/NotificationManager.swift:76-92 | each smart request is pending after a pass only if its flag for the month was unset before and is set after |
| Notifications.EndOfMonthAdvice | SwiftExpenseTracker/NotificationManager.swift:96-117 | the advice is pending iff at most 7 days remain and it was not shown this month; its text follows the bands up to 10000, up to 15000, above |
| Notifications.ComparisonNeedsPositiveTotal | SwiftExpenseTracker/NotificationManager.swift:135-162 | the comparison is pending iff not shown this month and the previous month's fetch succeeded with a positive total; a zero total leaves the flag as it was |
| Notifications.FlagsMonotone | SwiftExpenseTracker/NotificationManager.swift:55-167 | a pass never clears a flag; every flag it writes is true and belongs to the pass's month |
| Notifications.PassMarks | SwiftExpenseTracker/NotificationManager.swift:74-162 | after a pass, the flag of every alert whose condition held is set; an unset comparison flag means no previous spending was found |
| Notifications.RerunSchedulesNothing | SwiftExpenseTracker/NotificationManager.swift:55-167 | repeating a pass in the same month with the same data only cancels the smart requests and changes no flag |
| Notifications.PreviousMonthEnd | SwiftExpenseTracker/NotificationManager.swift:140 | for a month's first instant, the result is that instant moved one month on and then one day back: a valid instant in the same month, on its last day (`DaysInMonth`), at the same time of day (00:00) |
| Notifications.PreviousMonthExpensesAsWritten | SwiftExpenseTracker/NotificationManager.swift:142-146 | the fetch as written: exactly the dated expenses from the month's first instant to the start of its last day |
| Notifications.PreviousMonthExpenses | SwiftExpenseTracker/NotificationManager.swift:138-146 | the intended fetch: exactly the dated expenses of the previous month |
| Notifications.AsWrittenMissesLastDay | SwiftExpenseTracker/NotificationManager.swift:140-143 | the query as written returns only previous-month expenses; it misses exactly those on the month's last day after midnight |
| Notifications.LastEveningExpenseMissed | SwiftExpenseTracker/NotificationManager.swift:140-161 | an expense on the evening of January 31: the query as written finds nothing and no comparison is scheduled, while the whole-month query schedules it |
| Notifications.PreviousSpendingReported | SwiftExpenseTracker/NotificationManager.swift:138-162 | with the whole previous month fetched, any positive expense of that month makes the pass schedule the comparison unless it was already shown |
| Expenses.MemberBelowTotal | SwiftExpenseTracker/NotificationManager.swift:147 | with no negative amount, each expense is at most the total |
| Dashboard.FilteredExpenses | SwiftExpenseTracker/ContentView.swift:27-37 | exactly the dated expenses on the selected day (day view) or in the selected month (month view) |
| Dashboard.InRange | SwiftExpenseTracker/ContentView.swift:29-36 | the filter's test: an expense with a date, on the selected day in day view or in the selected month in month view |
| Dashboard.UnitOf | SwiftExpenseTracker/ContentView.swift:46 | day view steps by a day, month view by a month |
| Dashboard.DayWithinMonth | SwiftExpenseTracker/ContentView.swift:27-37 | filtering the month's list to the selected day gives the day view |
| Dashboard.FilteredAppend | SwiftExpenseTracker/ContentView.swift:29 | the filter keeps the fetched order: filtering a concatenation concatenates the filtered parts |
| Dashboard.CategoryFiltered | SwiftExpenseTracker/ContentView.swift:39-42 | empty without a selected category; otherwise exactly the listed expenses whose category equals it |
| Dashboard.DrillDownMatchesRow | SwiftExpenseTracker/ContentView.swift:39-42 | for a named category, the drill-down list has the row's count and sums to the row's amount |
| Dashboard.UncategorisedNeverListed | SwiftExpenseTracker/ContentView.swift:41 | an expense without a category is grouped as "Other" but appears in no drill-down list |
| Dashboard.PercentageAsWritten | SwiftExpenseTracker/ContentView.swift:146 | the percentage as written fails (NaN to `Int`) exactly when the total is zero |
| Dashboard.ZeroAmountDayTraps | SwiftExpenseTracker/ContentView.swift:146 | a day whose only expense is 0 has a zero total: the percentage as written fails, the corrected one is 0 |
| Dashboard.Percentage | SwiftExpenseTracker/ContentView.swift:146 | agrees with the code wherever the code has a value, and is 0 for a zero total |
| Dashboard.PercentageBounds | SwiftExpenseTracker/ContentView.swift:146 | a share of a positive total is between 0 and 100, and 100 only for all of it |
| Dashboard.BreakdownPercentages | SwiftExpenseTracker/ContentView.swift:139-148 | over the breakdown rows, each percentage is in [0, 100] and they add up to between 100 - (rows - 1) and 100 |
| Dashboard.ForwardBlockedInCurrentPeriod | SwiftExpenseTracker/ContentView.swift:44-51 | forward navigation is impossible while the selected day (month) is today's |
| Dashboard.CanNavigateForward | SwiftExpenseTracker/ContentView.swift:44-51 | one unit after the selected date is no later than now; ForwardBlockedInCurrentPeriod and MoveDate state what it allows |
| Dashboard.DashboardState.constructor | SwiftExpenseTracker/ContentView.swift:17-20 | the dashboard opens on now, by day, with no category drilled into |
| Dashboard.DashboardState.MoveDate | SwiftExpenseTracker/ContentView.swift:281-291 | takes the date one unit away only if it is not after now, then clears the drill-down; forward succeeds iff forward navigation is allowed; backward always succeeds; never passes now |
| Dashboard.DashboardState.Swipe | SwiftExpenseTracker/ContentView.swift:157-169 | a swipe within 50 points does nothing; past 50 points left (right) the date one unit later (earlier) is taken and the drill-down cleared exactly when it is no later than now, otherwise nothing changes; a left swipe changes the date iff `canNavigateForward` |
| Dashboard.DashboardState.ChangeTimeRange | SwiftExpenseTracker/ContentView.swift:70-72 | a different range clears the drill-down; the same range keeps it |
| Dashboard.DashboardState.SelectCategory | SwiftExpenseTracker/ContentView.swift:141 | tapping a breakdown row drills into its category |
| Expenses.GroupSpec | SwiftExpenseTracker/ContentView.swift:297-302 | the grouping has one row per key (category or "Other"), each with that key's sum and a count of at least 1; rows sorted by amount, largest first; amounts add up to the total and counts to the number of expenses |
| Expenses.Group | SwiftExpenseTracker/ContentView.swift:297-302 | `Dictionary(grouping:)` by `category ?? "Other"`, summed and counted per key, sorted by amount; GroupSpec states what it promises, and DonutChartView.swift:9-15 uses the same grouping without counts |
| Expenses.GroupNonNegative | SwiftExpenseTracker/DonutChartView.swift:9-15 | with no negative expense, no row has a negative amount |
| Expenses.SortByAmount | SwiftExpenseTracker/DonutChartView.swift:14 | the sorted rows are a permutation of the unsorted ones (`SortSorted`: largest first) |
| Expenses.TotalAppend | SwiftExpenseTracker/ContentView.swift:293-295 | the sum of a concatenation is the sum of the sums |
| Expenses.Total | SwiftExpenseTracker/ContentView.swift:293-295 | the sum of the amounts; TotalAppend, TotalNonNegative and MemberBelowTotal state its properties |
| Expenses.TotalNonNegative | SwiftExpenseTracker/ContentView.swift:293-295 | the total of non-negative amounts is not negative |
| DonutChart.TotalAmount | SwiftExpenseTracker/DonutChartView.swift:17-25 | the sum of all rows with no selection, otherwise of the selected rows only; TotalAmountOfExpenses states what it shows |
| DonutChart.TotalAmountOfExpenses | SwiftExpenseTracker/DonutChartView.swift:9-25 | no selection shows the total of all expenses; any other selection shows the total of exactly the expenses whose category (or "Other") is selected; selecting every category gives the full total; with no negative expense any selection shows between 0 and the full total |
| DonutChart.SelectedExpenses | SwiftExpenseTracker/DonutChartView.swift:22 | exactly the expenses grouped under a selected category |
| DonutChart.SelectedTotal | SwiftExpenseTracker/DonutChartView.swift:20-23 | summing the selected rows of the grouping equals summing the expenses in the selected categories |
| DonutChart.SingleCategoryTotal | SwiftExpenseTracker/DonutChartView.swift:17-25 | one selected category shows exactly that category's spending |
| DonutChart.SelectedSumBounded | SwiftExpenseTracker/DonutChartView.swift:21-23 | a selection's sum lies between 0 and the sum of all rows |
| DonutChart.SelectedCategoryNames | SwiftExpenseTracker/DonutChartView.swift:27-35 | "Total" for no selection, the selected category itself for one, a caption ending in " Categories" for more |
| DonutChart.CaptionCount | SwiftExpenseTracker/DonutChartView.swift:33 | the number in that caption reads back as the selection's size |
| DonutChart.RingBoundsInclusive | SwiftExpenseTracker/DonutChartView.swift:97-106 | both radii 70 and 140 are accepted; the centre and the frame corner are not |
| DonutChart.OnRing | SwiftExpenseTracker/DonutChartView.swift:101-106 | the distance guard `70 <= distance <= 140`, on squared distances |
| DonutChart.NormalizeAngle | SwiftExpenseTracker/DonutChartView.swift:109-115 | the normalised angle is in [0, 360) and differs from the atan2 angle plus 90 by whole turns |
| DonutChart.NormalizeAtan2Range | SwiftExpenseTracker/DonutChartView.swift:109-115 | every angle atan2 can return lands in [0, 360) |
| DonutChart.TapTarget | SwiftExpenseTracker/DonutChartView.swift:95-136 | no target off the ring; any target is a category of the chart |
| DonutChart.SlicesFullTurn | SwiftExpenseTracker/DonutChartView.swift:118-135 | the slices' widths add up to exactly 360 degrees |
| DonutChart.SlicesDisjoint | SwiftExpenseTracker/DonutChartView.swift:121-123 | with non-negative amounts no angle lies in two slices |
| DonutChart.SlicePartition | SwiftExpenseTracker/DonutChartView.swift:118-135 | every angle in [0, 360) lies in exactly one slice, it has a positive amount, and the walk finds it |
| DonutChart.TapOnRingHits | SwiftExpenseTracker/DonutChartView.swift:95-136 | with a positive total, every tap on the ring selects the category of the slice under it |
| DonutChart.SingleCategoryAlwaysHit | SwiftExpenseTracker/DonutChartView.swift:95-136 | a chart with one positive category toggles it wherever the ring is tapped |
| DonutChart.Toggle | SwiftExpenseTracker/DonutChartView.swift:126-130 | flips the tapped category's membership and no other |
| DonutChart.ToggleTwice | SwiftExpenseTracker/DonutChartView.swift:126-130 | tapping the same slice twice restores the selection |
| DonutChart.DonutChartView.constructor | SwiftExpenseTracker/DonutChartView.swift:4-6 | the chart starts with no category selected |
| DonutChart.DonutChartView.HandleTap | SwiftExpenseTracker/DonutChartView.swift:95-136 | the new selection is the old one with the tap's target toggled |
| DonutChart.LocateTap | SwiftExpenseTracker/DonutChartView.swift:96-135 | the ring guard, the angle normalisation and the slice walk together yield exactly `TapTarget` |
| DonutChart.FindSlice | SwiftExpenseTracker/DonutChartView.swift:118-135 | the loop returns the first slice holding the angle, as `HitFrom` defines it |
| DonutChart.HitFrom | SwiftExpenseTracker/DonutChartView.swift:118-135 | the slice walk on values: the first row whose slice `[current, current + width)` holds the angle; SlicePartition and HitFromFinds state what it finds |
| Numeric.Truncate | SwiftExpenseTracker/ContentView.swift:146 | `Int(x)` rounds toward zero: the integer part of x, for either sign |
| Numeric.TruncatingRemainder360 | SwiftExpenseTracker/DonutChartView.swift:115 | the remainder has the sign of x, is less than 360 in size, and differs from x by whole turns |
| AddExpense.AddExpenseForm.constructor | SwiftExpenseTracker/AddExpenseView.swift:32-42 | a new form has an empty title and amount text, no amount, "Food", and the preselected date |
| AddExpense.AddExpenseForm.AmountTextChanged | SwiftExpenseTracker/AddExpenseView.swift:81-87 | a parsable text sets the amount, an empty text clears it, any other text keeps it; the amount stays non-negative |
| AddExpense.AddExpenseForm.EditAmountText | SwiftExpenseTracker/AddExpenseView.swift:14-24 | the text is written back sanitised; the amount is cleared iff no digit or dot is kept, kept if only dots are kept, otherwise parsed |
| AddExpense.AddExpenseForm.CanSave | SwiftExpenseTracker/AddExpenseView.swift:141-142 | Save is enabled iff the title is non-empty and an amount is set |
| AddExpense.AddExpenseForm.SetTitle | SwiftExpenseTracker/AddExpenseView.swift:59 | the title field sets the title |
| AddExpense.AddExpenseForm.ChooseCategory | SwiftExpenseTracker/AddExpenseView.swift:102-107 | a category button sets the category |
| AddExpense.AddExpenseForm.AddExpense | SwiftExpenseTracker/AddExpenseView.swift:149-167 | the record carries the form's fields, a missing amount as 0; on a successful save the last-open time becomes now and the manager runs a smart pass; on failure the manager is unchanged |
| AddExpense.ZeroIsAnAmount | SwiftExpenseTracker/AddExpenseView.swift:16-23 | "0" survives sanitising and parses to 0, so a zero expense can be saved |
| AddExpense.SanitizeEmpty | SwiftExpenseTracker/AddExpenseView.swift:16-23 | sanitising gives an empty text iff the input has no digit and no dot |
| Sanitizer.KeepAllowed | SwiftExpenseTracker/AddExpenseView.swift:16 | keeps only digits and '.', never lengthening the text |
| Sanitizer.Split | SwiftExpenseTracker/AddExpenseView.swift:18 | `components(separatedBy: ".")` gives one more part than there are dots |
| Sanitizer.SanitizeSpec | SwiftExpenseTracker/AddExpenseView.swift:14-24 | the result holds only digits and '.', at most one '.', and the same digits in the same order as the filtered input |
| Sanitizer.Sanitize | SwiftExpenseTracker/AddExpenseView.swift:14-24 | the field's filter: keep digits and dots, and with more than one dot keep the first part, one dot and the rest joined; SanitizeShape, SanitizeSpec and SanitizeIdempotent state it |
| Sanitizer.SanitizeShape | SwiftExpenseTracker/AddExpenseView.swift:16-23 | the result is the filtered text when it has at most one dot, and otherwise the part before its first dot, one dot and the rest with its dots removed |
| Sanitizer.SanitizeIdempotent | SwiftExpenseTracker/AddExpenseView.swift:14-24 | sanitising a sanitised text changes nothing, so the write-back settles |
| Sanitizer.JoinSplit | SwiftExpenseTracker/AddExpenseView.swift:18-20 | joining the parts again gives the text without its dots |
| Sanitizer.ParseAmount | SwiftExpenseTracker/AddExpenseView.swift:82 | `Double(text)` on digits and dots has a value iff there is at most one dot and some digit; that value is never negative |
| Sanitizer.SanitizedParses | SwiftExpenseTracker/AddExpenseView.swift:14-24 | a sanitised text fails to parse iff it has no digit |
| Sanitizer.ParseWholeNumber | SwiftExpenseTracker/AddExpenseView.swift:82 | the decimal rendering of n parses back to n |
| CategoryHelper.Icon | SwiftExpenseTracker/CategoryHelper.swift:4-15 | the default icon exactly for categories outside the seven known ones |
| CategoryHelper.IconsDistinct | SwiftExpenseTracker/CategoryHelper.swift:5-13 | distinct known categories have distinct icons |
| CategoryHelper.ColorHex | SwiftExpenseTracker/CategoryHelper.swift:17-28 | every colour is six hex digits; unknown categories and "Other" share the slate grey |
| CategoryHelper.CategoryColor | SwiftExpenseTracker/CategoryHelper.swift:17-28 | a category's colour is opaque, with the bytes of its hex string as red, green and blue |
| CategoryHelper.Trim | SwiftExpenseTracker/CategoryHelper.swift:34 | removes exactly the leading and trailing non-alphanumeric characters |
| CategoryHelper.ScanHex | SwiftExpenseTracker/CategoryHelper.swift:35-36 | the value of the leading hex digits, below 16 to the length |
| CategoryHelper.Decode3Digits | SwiftExpenseTracker/CategoryHelper.swift:39-40 | "rgb": opaque, each component its digit times 17 |
| CategoryHelper.Decode3Range | SwiftExpenseTracker/CategoryHelper.swift:39-40 | a 3-character code is opaque, with components that are multiples of 17 within a byte |
| CategoryHelper.Decode6Bytes | SwiftExpenseTracker/CategoryHelper.swift:41-42 | "rrggbb": opaque, each component its pair of digits |
| CategoryHelper.Decode6Range | SwiftExpenseTracker/CategoryHelper.swift:41-42 | a 6-character code is opaque, with components within a byte |
| CategoryHelper.Decode8Bytes | SwiftExpenseTracker/CategoryHelper.swift:43-44 | "aarrggbb": alpha first, each component its pair of digits |
| CategoryHelper.Decode8Range | SwiftExpenseTracker/CategoryHelper.swift:43-44 | an 8-character code gives four components within a byte |
| CategoryHelper.DecodeOtherLength | SwiftExpenseTracker/CategoryHelper.swift:45-46 | any other trimmed length gives (1, 1, 1, 0) |
| CategoryHelper.DecodeHex | SwiftExpenseTracker/CategoryHelper.swift:33-47 | `Color.init(hex:)` on integers: trim, scan the leading hex digits, split by trimmed length 3, 6 or 8; the Decode lemmas state each branch |
| CategoryHelper.DecodeIgnoresJunk | SwiftExpenseTracker/CategoryHelper.swift:34 | non-alphanumeric characters around the code do not change the colour |
| CategoryHelper.HashPrefixIgnored | SwiftExpenseTracker/CategoryHelper.swift:34 | "#rrggbb" decodes as "rrggbb" |
| Calendar.DaysInMonth | SwiftExpenseTracker/NotificationManager.swift:96-97 | 28 to 31 days, and 28 exactly for February of a common year |
| Calendar.Step | SwiftExpenseTracker/ContentView.swift:281-283 | one day or month forward is later and one back is earlier, valid with the same time of day; a month step changes the month |
| Calendar.NextDay | SwiftExpenseTracker/ContentView.swift:46-47 | a valid instant on a later day at the same time of day |
| Calendar.PreviousDay | SwiftExpenseTracker/ContentView.swift:281-283 | a valid instant on an earlier day at the same time of day |
| Calendar.NextMonth | SwiftExpenseTracker/ContentView.swift:46-47 | a valid instant in the month right after, at the same time of day, on the same day, or on that month's last day when it is shorter than the day |
| Calendar.PreviousMonth | SwiftExpenseTracker/ContentView.swift:281-283 | a valid instant in the month right before, at the same time of day, on the same day, or on that month's last day when it is shorter than the day |
| Calendar.DaysInverse | SwiftExpenseTracker/ContentView.swift:281-283 | a day forward then back, or back then forward, returns the same instant |
| Calendar.MonthsInverse | SwiftExpenseTracker/ContentView.swift:281-283 | on a day every month has (at most 28), a month forward then back, or back then forward, returns the same instant |
| Calendar.StepForwardLeavesPeriod | SwiftExpenseTracker/ContentView.swift:44-51 | if a forward step is not after now, the selected day (month) is before today (this month) |
| Text.NatToStringRoundTrip | SwiftExpenseTracker/DonutChartView.swift:33 | the rendered count reads back as the number |
| Text.IntToStringInjective | SwiftExpenseTracker/NotificationManager.swift:171 | distinct integers render as distinct strings |

## Left out

- Notification delivery, `requestAuthorization`, `UserDefaults` and Core Data are not modelled as I/O. The stores are fields of `NotificationManager`. Query results arrive as inputs, and `None` stands for a fetch that throws.
- `Date()` is an input. The current month's start is an epoch-second integer. Today's day and the month length also come in with each pass. The previous month's fetch result is an input of the pass as well; `PreviousMonthExpenses` says what it should contain.
- Notifications.NotificationManager.CheckAndScheduleMonthlyComparison: it uses the pass's month start for its flag. The code reads the clock a second time, so the two can differ only when a month boundary falls between the two reads.
- Calendar: local time has no time zone or daylight-saving change. Steps are of one day or one month only. `calendar.date(byAdding:)` never returns nil here; the code then leaves the date unchanged.
- Amounts are exact reals. `Double` rounding, NaN and infinities are not modelled, except where a zero total leads to a division by zero: the chart's tap hits no slice, and the percentage is the finding below.
- DonutChart.TapTarget: `atan2` and `sqrt` are left out. The tap's atan2 angle, in degrees, is an input. The distance guard is decided on squared distances, which decide the same for non-negative distances.
- Expenses.SortByAmount: the order of rows with equal amounts is not fixed, because the source's dictionary has no defined order.
- DonutChart.DonutChartView.HandleTap: for categories with equal amounts, which slice a tap hits follows the order `Group` fixes for ties; the source's order there is its dictionary's.
- Sanitizer.KeepAllowed: a text is a sequence of Unicode scalars, not of Swift `Character`s (grapheme clusters). The source keeps or drops a whole cluster, so a pasted keycap "1️⃣" (U+0031 U+FE0F U+20E3) or a digit followed by a combining mark is dropped there, while the model keeps the digit.
- Sanitizer.ParseAmount: only texts of digits and dots are parsed, because the sanitiser only produces those. Other `Double(_:)` forms (exponents, signs, "inf", "nan") are left out.
- AddExpense.AddExpenseForm.EditAmountText: the handler is modelled on the sanitised text. The handler's run on the raw keystroke before the write-back is not modelled.
- AddExpense.AddExpenseForm.AddExpense: on a failed save the unsaved object stays in the Core Data context; that is not modelled. The new record's UUID is the `id` parameter.
- CategoryHelper.Trim: only ASCII letters and digits count as alphanumeric. `scanHexInt64` accepts a leading "0x", and that is not modelled.
- CategoryHelper.CategoryColor: the final division of each component by 255 into a `Double` is not modelled.
- SwiftUI layout, animations, the date-picker sheet, `dismiss()`, `EditExpenseView`, `Persistence` and `SpendEasyApp` are not part of this model.

## Findings

| source | as written | input that shows it | evidently intended | confidence | as-written member | corrected member |
|---|---|---|---|---|---|---|
| SwiftExpenseTracker/ContentView.swift:146 | `Int((item.amount / totalAmount) * 100)` divides by a zero total. For a zero-amount day that is 0/0 = NaN, and `Int(NaN)` stops the app | a day whose only expense has amount 0 (the form accepts "0") | a 0% row when the total is zero | high, not executed | Dashboard.PercentageAsWritten, Dashboard.ZeroAmountDayTraps | Dashboard.Percentage, Dashboard.BreakdownPercentages |
| SwiftExpenseTracker/NotificationManager.swift:140-143 | the previous month's query ends at `previousMonthStart + (1 month, -1 day)`, the first instant of the month's last day, so expenses later that day are not counted | a single expense of 500 at 20:00 on January 31, checked in February: the previous total is 0 and no comparison is scheduled | the whole previous month, up to its last instant | high, not executed | Notifications.PreviousMonthExpensesAsWritten, Notifications.LastEveningExpenseMissed | Notifications.PreviousMonthExpenses, Notifications.PreviousSpendingReported |
