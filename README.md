# Maal Tracker — a Dafny model of its state and derived values

Maal Tracker is a React personal-finance tracker. This project models the
part of it that holds state and computes figures, with the backend, the
clock and browser storage turned into parameters:

- **Challenge** (`challenge.dfy`): the progress engine of the 7-day and
  30-day spending challenges. It covers the "smart start" at midnight of the
  earliest recent transaction, the day slots with their totals and statuses,
  the day number, the daily limit, and "remaining today" / "over today". It
  also covers the step machine `start → input → active → start` of both
  challenge cards, which updates the challenge fields of the tracker context.
- **Tracker context and hook** (`tracker_context.dfy`, `use_tracker.dfy`):
  the context chooses between the signed-in user's rows and the guest list
  and never merges them. It clears the guest list when a session appears and
  records guest expenses locally. The hook loads and inserts the user's rows
  and sums "spent today" over today's window.
- **Pages that edit lists**: the account dashboard (`account.dfy`), the
  savings-goal page (`plan.dfy`), the today page (`today.dfy`) and the
  transaction form (`transaction_form.dfy`). They prepend on insert, filter
  on delete, replace by id on update, validate form input and reset fields
  after a submit.
- **Derived figures**: the progress of a savings goal (`plan.dfy`) and the
  analysis panel's totals and chart entries (`analysis.dfy`).
- **Currency formatter** (`format_currency.dfy`): the symbol table, the
  lookup with its fallback, and how the symbol and the number are composed.
- **Application shell** (`app.dfy`): view, guest mode, target feature,
  session and theme.

Conventions used throughout (`common.dfy`):

- An instant is an integer number of milliseconds on the local-time axis.
  Day `d` runs from `d·86400000` to `d·86400000 + 86399999`.
- A `transaction_date` is a day index.
- Amounts are reals.
- A number input's text is `NumField`: `Blank` for the empty string, or
  `Num(v)`. Any non-empty text is truthy, so "0" is truthy.
- Each backend query's outcome is a `Fetch` value: `Failed`, or
  `Fetched(data)` where the data may be null.
- A confirmation dialog is a boolean parameter, and `Date.now()` is a
  parameter `freshId` or `now`.
- Each React component's state is a class whose fields its handlers
  reassign.

Where the code and its design notes disagree, the model follows the code:

- The guest "spent today" total is the sum of every guest amount, with no
  day filter (`src/context/TrackerContext.jsx:54`).
- The account page deletes a signed-in user's entry locally without looking
  at the backend's answer (`src/components/Account.jsx:82-84`).

## Model

| member | source | states |
|---|---|---|
| `Common.CreatedOnDay` | src/components/Challenge.jsx:78-83 | the day filter keeps exactly the transactions whose `created_at` lies in that day's 00:00:00.000–23:59:59.999 |
| `Common.FilteredSumIsDayTotal` | src/hooks/useTracker.js:72-77 | summing the day-filtered list, as the challenge slots do, equals the hook's "spent today" fold with the window test inside it |
| `Common.SplitFirstDay` | src/components/Challenge.jsx:68-83 | a span starting at midnight of day d splits into day d and the rest of the span, and the two parts do not overlap |
| `Common.InDayIsDayOf` | src/components/Challenge.jsx:72-76 | an instant lies in day d's window exactly when its day is d, so the windows of different days never overlap |
| `Common.RemoveId` | src/components/Account.jsx:78 | delete-by-id keeps exactly the elements whose id differs, keeps their order, and never grows the list |
| `Common.RemoveIdConcat` | src/components/Plan.jsx:50 | delete-by-id distributes over concatenation, so the survivors keep their relative order |
| `Common.RemoveIdAbsent` | src/components/Account.jsx:84 | deleting an id that no element carries leaves the list unchanged |
| `Common.ReplaceId` | src/components/Account.jsx:91 | replace-by-id keeps the length, rewrites each element whose id matches, and leaves every other position unchanged |
| `UseTracker.SpentTodayPrepend` | src/hooks/useTracker.js:64-77 | prepending a transaction raises "spent today" by its amount if it was created today and by nothing otherwise |
| `UseTracker.NothingTodaySpendsNothing` | src/hooks/useTracker.js:72-77 | transactions created on other days contribute 0 to "spent today" |
| `UseTracker.HasUser` | src/hooks/useTracker.js:11 | `session?.user`: no session, or a session without a user, counts as no user |
| `UseTracker.LimitFound` | src/hooks/useTracker.js:43 | `plan?.daily_limit`: no plan, or a limit of 0, leaves the daily limit as it was |
| `UseTracker.Tracker.constructor` | src/hooks/useTracker.js:6-8 | the hook starts with no rows, a daily limit of 0 and loading |
| `UseTracker.Tracker.FetchData` | src/hooks/useTracker.js:10-46 | without a user only loading is cleared; with a user the rows replace the list only when there is no error; the daily limit is overwritten only by a truthy plan limit; loading ends false |
| `UseTracker.Tracker.AddExpense` | src/hooks/useTracker.js:48-66 | the inserted row is prepended only when there is a user, no error and data; otherwise the list is unchanged |
| `UseTracker.Tracker.TotalSpentToday` | src/hooks/useTracker.js:72-77 | "spent today" is the sum of the rows created inside today's window, the same number as filtering to today and summing |
| `TrackerContext.InitialCurrency` | src/context/TrackerContext.jsx:32-38 | the currency starts as the stored code, or "USD" when storage is empty or cannot be read |
| `TrackerContext.GuestRecord` | src/context/TrackerContext.jsx:65-71 | a guest expense carries the amount and category, its category also as description, no id, and a stamp in the window of the day it was added; it is typed only by the lowercase `type` "expense", so it is neither an "Income" nor an "Expense" row |
| `TrackerContext.SameDayTotalIsSum` | src/context/TrackerContext.jsx:54 | on a list whose every entry was created on day d, the day-window total equals the plain sum |
| `TrackerContext.TrackerProvider.constructor` | src/context/TrackerContext.jsx:7-38 | the provider starts with an empty guest list, no active challenge, blank limits, both steps at start, and the initial currency |
| `TrackerContext.TrackerProvider.SetSession` | src/context/TrackerContext.jsx:47-51 | when a session appears the guest list becomes empty and the exposed list is the remote one |
| `TrackerContext.TrackerProvider.SetCurrency` | src/context/TrackerContext.jsx:32 | the chosen currency code becomes the current one |
| `TrackerContext.TrackerProvider.GuestTotal` | src/context/TrackerContext.jsx:54 | the guest total is the sum of every guest amount; it equals a day's window total whenever every guest entry was created that day |
| `TrackerContext.TrackerProvider.ActiveTransactions` | src/context/TrackerContext.jsx:57 | the exposed list is exactly the remote list with a session and exactly the guest list without one |
| `TrackerContext.TrackerProvider.ActiveTotal` | src/context/TrackerContext.jsx:54-58 | the exposed total is the remote day-filtered total with a session, and without one the sum of all guest amounts with no day filter |
| `TrackerContext.TrackerProvider.AddExpense` | src/context/TrackerContext.jsx:61-74 | with a session it delegates to the hook and leaves the guest list alone; without one it prepends exactly one guest record, keeps the earlier entries, and raises the guest total by exactly the amount |
| `TrackerContext.TrackerProvider.FormatAmount` | src/context/TrackerContext.jsx:77 | the amount is formatted with the current currency; for every currency that is not an inherited object key the string is the one the formatter as written produces |
| `TrackerContext.UseTrackerContext` | src/context/TrackerContext.jsx:107-113 | outside a provider the error "useTrackerContext must be used inside TrackerProvider" is raised; inside one the provider's value is returned |
| `TrackerContext.GuestAddThenQuery` | src/context/TrackerContext.jsx:54-72 | a guest who adds 12 to an empty provider sees one transaction and a total of 12 |
| `Challenge.Earliest` | src/components/Challenge.jsx:57-60 | the earliest `created_at` in the window: none exactly when nothing is stamped there, otherwise a stamp present in the window and no later than any other |
| `Challenge.SmartStart` | src/components/Challenge.jsx:54-63 | the start day always lies in the trailing window [today − (n−1), today] |
| `Challenge.SmartStartIsEarliestDay` | src/components/Challenge.jsx:107-116 | the start is today when the window holds no stamp, and otherwise the day of an in-window stamp that no in-window stamp precedes |
| `Challenge.DayTotals` | src/components/Challenge.jsx:68-93 | there are n slots; slot i is day start+i, its total is that day's window sum, and its status is the classification of that day |
| `Challenge.Classify` | src/components/Challenge.jsx:85-90 | a slot is over exactly when its day is past and its total strictly above the limit, under exactly when past and at or below it, today exactly on today, future exactly after today |
| `Challenge.TodayIndex` | src/components/Challenge.jsx:95 | the index of the first "today" slot, or −1 exactly when there is none |
| `Challenge.ChallengeProgress` | src/components/Challenge.jsx:50-100 | n slots with the given limit; slot i is day i after the smart start and holds that day's window total; the day number lies in [1, n] and points at the slot of today, whose status is today |
| `Challenge.SlotsAreClassified` | src/components/Challenge.jsx:85-90 | a past slot is over exactly when its total is strictly above the limit and under otherwise (equal counts as under); later slots are future |
| `Challenge.TodaySlotIsUnique` | src/components/Challenge.jsx:150-151 | exactly one slot is today's, so the day number is its index + 1, it lies in [1, n], and the −1 → 1 fallback never fires |
| `Challenge.BucketsCoverSpan` | src/components/Challenge.jsx:127-138 | the slot totals add up to the amounts stamped anywhere in the challenge span |
| `Challenge.DayTotalsCoverSpan` | src/components/Challenge.jsx:123-138 | for any start day, n consecutive day slots partition the span from the first midnight to the last 23:59:59.999 |
| `Challenge.SlotsAreDisjoint` | src/components/Challenge.jsx:72-81 | no instant falls in two different slots |
| `Challenge.SevenDayLimitOf` | src/components/Challenge.jsx:65 | the 7-day limit is the entered limit, else the plan's daily limit, else 0 |
| `Challenge.ThirtyDayLimitOf` | src/components/Challenge.jsx:119-120 | the 30-day limit is the budget divided by 30 when the budget is positive, and 0 otherwise; it is never negative |
| `Challenge.SevenData` | src/components/Challenge.jsx:50-100 | seven slots, the entered limit when there is one and the plan's daily limit otherwise, and a day number in [1, 7] pointing at today's slot |
| `Challenge.ThirtyData` | src/components/Challenge.jsx:102-154 | thirty slots, a daily limit that is never negative and is a thirtieth of a positive budget, and a day number in [1, 30] pointing at today's slot |
| `Challenge.CurrentLimit` | src/components/Challenge.jsx:194 | the 7-day limit when that challenge is active, the 30-day limit when that one is, and 0 when none is |
| `Challenge.RemainingToday` | src/components/Challenge.jsx:194-195 | remaining plus spent equals the active challenge's limit |
| `Challenge.IsOverToday` | src/components/Challenge.jsx:196 | today is flagged over only when strictly more than the active limit was spent |
| `Challenge.OverTodayIffSpentAboveLimit` | src/components/Challenge.jsx:196 | today is over exactly when strictly more than the active limit was spent; with no challenge active, exactly when anything was spent |
| `Challenge.TodaySlotMatchesSpentToday` | src/components/Challenge.jsx:188 | with a session, today's slot of either challenge holds exactly the "spent today" total the context exposes |
| `Challenge.ActiveChallengeHasPositiveLimit` | src/components/Challenge.jsx:19-23 | in a consistent state an active challenge has a positive daily limit, and the two cards are never active together |
| `Challenge.SevenCardEnabled` | src/components/Challenge.jsx:218 | the 7-day card takes pointer input exactly when the 30-day challenge is not active; in a consistent state, exactly when the 30-day card is not in its active step |
| `Challenge.ThirtyCardEnabled` | src/components/Challenge.jsx:294 | the 30-day card takes pointer input exactly when the 7-day challenge is not active; in a consistent state, exactly when the 7-day card is not in its active step |
| `Challenge.HandleStart7Click` | src/components/Challenge.jsx:17 | the 7-day card moves to the input step and the challenge state stays consistent |
| `Challenge.SetSevenDayLimit` | src/components/Challenge.jsx:244 | the typed limit is stored; while the card is in the input step the state stays consistent |
| `Challenge.ConfirmStart7` | src/components/Challenge.jsx:19-23 | a missing, zero or negative limit changes neither the active challenge nor the step; a positive one makes the 7-day challenge active and its step active |
| `Challenge.Stop7` | src/components/Challenge.jsx:25-31 | a confirmed stop clears the active challenge, resets the step to start and blanks the limit; a declined one changes nothing |
| `Challenge.HandleStart30Click` | src/components/Challenge.jsx:33 | the 30-day card moves to the input step and the challenge state stays consistent |
| `Challenge.SetThirtyDayGoal` | src/components/Challenge.jsx:320 | the typed budget is stored; while the card is in the input step the state stays consistent |
| `Challenge.ConfirmStart30` | src/components/Challenge.jsx:35-39 | a missing, zero or negative budget changes nothing; a positive one makes the 30-day challenge active and its step active |
| `Challenge.Stop30` | src/components/Challenge.jsx:41-47 | a confirmed stop clears the active challenge, resets the step to start and blanks the budget; a declined one changes nothing |
| `Challenge.StartSevenDayScenario` | src/components/Challenge.jsx:17-23 | a limit of 0 is refused and leaves no challenge active; a limit of 30 then activates the 7-day challenge |
| `Challenge.KeyboardStartsBothChallenges` | src/components/Challenge.jsx:17-39 | with a 7-day limit typed in, starting the 30-day challenge and then confirming the faded 7-day card from the keyboard leaves both cards in their active step and the 7-day challenge active |
| `Challenge.LimitScenarios` | src/components/Challenge.jsx:119-120 | a budget of 1500 gives a daily limit of 50; spending 40 against a limit of 30 leaves −10, which is over |
| `Account.AccountPage.constructor` | src/components/Account.jsx:12-17 | the page starts loading with no transactions and nothing being edited; the user name is "Guest" for a guest and empty otherwise |
| `Account.AccountPage.FetchData` | src/components/Account.jsx:22-48 | a guest only stops loading; a signed-in user takes the profile name when found and the fetched rows unless the query failed; loading ends false |
| `Account.AccountPage.HandleNewTransaction` | src/components/Account.jsx:56-72 | a guest prepends the record under a fresh id and keeps the earlier entries; a signed-in insert prepends the returned row only on success and otherwise leaves the list unchanged |
| `Account.AccountPage.HandleDelete` | src/components/Account.jsx:74-88 | a declined confirm changes nothing; a confirmed delete leaves no entry with that id and keeps the others in order, without checking the backend's answer |
| `Account.AccountPage.HandleUpdateSuccess` | src/components/Account.jsx:90-93 | each entry whose id matches is replaced, the length and every other entry are kept, and the entry being edited is cleared |
| `Account.GuestInsertThenDelete` | src/components/Account.jsx:57-80 | a guest who deletes what they just inserted gets back the list they had |
| `Plan.PlanPage.constructor` | src/components/Plan.jsx:7-16 | the form starts on January with an empty goal and empty notes, with no plans and no plan being edited |
| `Plan.Merged` | src/components/Plan.jsx:103 | an edited plan takes the form's month, goal, notes and user and the edited id, and keeps its own creation stamp |
| `Plan.AcceptedGoal` | src/components/Plan.jsx:84-86 | the submit accepts exactly a present, strictly positive goal; an empty, zero or negative one is refused |
| `Plan.PlanPage.FetchPlans` | src/components/Plan.jsx:26-42 | the fetched rows, or none when the data is null, replace the list; an error keeps it |
| `Plan.PlanPage.HandleDeletePlan` | src/components/Plan.jsx:45-69 | a declined confirm deletes nothing; a guest, or a successful remote delete, removes exactly the plans with that id and keeps the rest in order; a failed remote delete changes nothing |
| `Plan.PlanPage.StartEditPlan` | src/components/Plan.jsx:72-78 | the form takes the plan's month, goal and notes (empty if absent), and the plan's id becomes the one being edited |
| `Plan.PlanPage.HandleSubmitPlan` | src/components/Plan.jsx:81-137 | a blank or non-positive goal changes nothing. A guest edit merges the form into the plans with the edited id, keeping their id and creation stamp, the length and all other plans. A guest insert prepends one plan. Any accepted submit clears goal, notes and the edited id and keeps the month |
| `Plan.Round` | src/components/Plan.jsx:162 | the rounded value lies within half a unit of the number |
| `Plan.Clamp` | src/components/Plan.jsx:162 | the displayed percentage lies in [0, 100] and equals the percentage when that is already in range |
| `Plan.TargetGoal` | src/components/Plan.jsx:142 | a zero target is treated as 1 and any other target is kept, so the division is always defined |
| `Plan.InMonth` | src/components/Plan.jsx:144-149 | keeps exactly the transactions that carry a date whose month name is the plan's month |
| `Plan.ColorFor` | src/components/Plan.jsx:164-166 | red exactly below 50, amber exactly from 50 to below 100, green exactly from 100 |
| `Plan.CalculateProgress` | src/components/Plan.jsx:140-177 | income and expense are the type-exact sums over the month's transactions; net balance = income − expense; remaining = target − net balance; the percentage is the share of net balance in the target, times 100 and rounded half up; the displayed percentage is that value clamped to [0, 100]; the colour is the band of the displayed percentage |
| `Plan.ProgressColorBands` | src/components/Plan.jsx:164-166 | red exactly below 50, amber exactly from 50 to below 100, green exactly at 100; a reached goal is green and a percentage below 50 is red |
| `Plan.GreenIffGoalReached` | src/components/Plan.jsx:160-166 | for a positive target the bar is green exactly when the month's net balance reaches 99.5% of it |
| `Plan.MonthSumPrepend` | src/components/Plan.jsx:151-157 | a transaction adds its amount to its type's monthly sum when dated in the month, and nothing otherwise |
| `Plan.NetBalanceOfPrepended` | src/components/Plan.jsx:151-175 | a transaction in the plan's month raises the net balance by its amount if it is income and lowers it if it is an expense; the remainder moves the other way |
| `Plan.OtherMonthIgnored` | src/components/Plan.jsx:144-149 | a transaction dated in another month, or undated, changes no figure of the progress |
| `Today.Find` | src/components/Today.jsx:114 | the first category with that name, or none exactly when no category has it |
| `Today.CategoryIcon` | src/components/Today.jsx:114 | a description that names no category shows the fallback icon |
| `Today.CategoriesShowTheirIcons` | src/components/Today.jsx:20-28 | every offered category shows its own icon |
| `Today.ExpenseTotalOfExpenses` | src/components/Today.jsx:68-69 | on a list of expenses only, the expense total equals the sum of all amounts, so a guest's total is the sum of the amounts it lists |
| `Today.ExpenseRecord` | src/components/Today.jsx:56-62 | a quick-add record is an "Expense" row with the amount, described by its category, dated on the day and stamped at the instant of the save, with no id |
| `Today.TodayPage.constructor` | src/components/Today.jsx:5-9 | the page starts with total 0, an empty list, the modal closed, an empty amount and category Food |
| `Today.TodayPage.FetchTodayData` | src/components/Today.jsx:30-48 | a guest fetches nothing; otherwise the list and its Expense-only total are replaced only when there is no error and the data is present |
| `Today.TodayPage.HandleSave` | src/components/Today.jsx:52-74 | an empty amount changes nothing. A guest save prepends one Expense record described by the category and raises the total by exactly the amount. Every accepted save clears the amount and closes the modal, and the total keeps matching the list |
| `Analysis.OfType` | src/components/Analysis.jsx:9 | keeps exactly the transactions whose type is the given one |
| `Analysis.FilteredSumIsSumOfType` | src/components/Analysis.jsx:8-14 | filtering by type and then summing equals the fold with the type test inside it |
| `Analysis.TotalIncome` | src/components/Analysis.jsx:8-10 | the income total is the sum over the transactions whose type is exactly "Income" |
| `Analysis.TotalExpense` | src/components/Analysis.jsx:12-14 | the expense total is the sum over the transactions whose type is exactly "Expense" |
| `Analysis.OtherTypeIgnored` | src/components/Analysis.jsx:9-13 | a transaction of any other type, such as lowercase "expense", changes neither total nor the balance, wherever it sits |
| `Analysis.TypedRowMovesBalance` | src/components/Analysis.jsx:16 | an Income row raises income and the balance by its amount; an Expense row raises expense and lowers the balance by it |
| `Analysis.TotalBalance` | src/components/Analysis.jsx:16 | the balance is the sum over the "Income" rows minus the sum over the "Expense" rows |
| `Analysis.ChartData` | src/components/Analysis.jsx:18-20 | there is an Income entry exactly when income is positive and an Expense entry exactly when expense is positive, in that order, at most two, each with its total |
| `Analysis.ShowsNoData` | src/components/Analysis.jsx:22-30 | the "no data" panel is shown only when neither total is positive |
| `Analysis.NoDataIffNoPositiveTotal` | src/components/Analysis.jsx:22-30 | the "no data" branch is taken exactly when both totals are ≤ 0 |
| `Analysis.CellColor` | src/components/Analysis.jsx:36-37 | a slice is painted with its series' colour: green-teal for income, orange for expense |
| `Analysis.CellColorAsWritten` | src/components/Analysis.jsx:47-49 | the as-written member named in Findings: a slice at an even position takes the income colour and one at an odd position the expense colour, whatever its series |
| `Analysis.ChartColorsMatchSummary` | src/components/Analysis.jsx:47-49 | with the series-based fill, an expense-only chart has one slice in the expense colour, a chart with both series paints the first slice in the income colour and the second in the expense colour, and an income-only chart has one slice in the income colour |
| `Analysis.AsWrittenAgreesWithIncome` | src/components/Analysis.jsx:47-49 | when income is positive, the index-based fill and the series-based fill agree on every slice |
| `Analysis.ExpenseOnlyChartTakesIncomeColor` | src/components/Analysis.jsx:5 | with one expense and no income, the index-based fill paints the Expense slice with the income colour |
| `FormatCurrency.GetCurrencySymbol` | src/utils/formatCurrency.js:8-10 | the symbol is the table's for USD, EUR and SOS, and "$" for any other code |
| `FormatCurrency.Symbols` | src/utils/formatCurrency.js:2-6 | the table has own entries exactly for USD, EUR and SOS, USD's is "$", and every entry is a non-empty prefix symbol |
| `FormatCurrency.SymbolsProperty` | src/utils/formatCurrency.js:16 | `SYMBOLS[code]` is the own entry for a table code, an inherited member exactly for an `Object.prototype` key outside the table, and undefined otherwise |
| `FormatCurrency.Coerce` | src/utils/formatCurrency.js:14 | `Number(amount) \|\| 0`: a numeric amount is kept and a non-numeric one becomes 0 |
| `FormatCurrency.MetaFor` | src/utils/formatCurrency.js:16 | the entry used is the code's own entry, else USD's |
| `FormatCurrency.FormatCurrency` | src/utils/formatCurrency.js:12-19 | a code without an entry formats as "$" followed by the number; a code with one is composed according to its position |
| `FormatCurrency.FormatCurrencyAsWritten` | src/utils/formatCurrency.js:12-19 | the as-written member named in Findings: an own entry is composed by its position, an unknown code formats as "$" followed by the number, and an inherited object key gives the number followed by "undefined" |
| `FormatCurrency.FormatCurrencySpec` | src/utils/formatCurrency.js:13-18 | an unknown code gives the USD string; prefix gives symbol + number and suffix gives number + symbol; a non-numeric amount formats as 0; both digit counts default to 0 |
| `FormatCurrency.AvailableCurrenciesHaveSymbols` | src/utils/formatCurrency.js:21 | every offered currency has its own entry, so neither fallback fires for it |
| `FormatCurrency.AsWrittenAgreesOffPrototype` | src/utils/formatCurrency.js:16 | for any code that is not an inherited object key, the formatter as written and the corrected formatter agree |
| `FormatCurrency.InheritedKeyLosesFallback` | src/utils/formatCurrency.js:16 | as written, the code "toString" formats 5 as the number followed by "undefined" instead of "$" followed by the number |
| `TransactionForm.Form.constructor` | src/components/TransactionForm.jsx:5-8 | the form starts as Income, with an empty amount, an empty description and today's date |
| `TransactionForm.FormRecord` | src/components/TransactionForm.jsx:14-19 | the handed-over record carries the form's type, amount, description and date, and no id and no stamp |
| `TransactionForm.Form.HandleSubmit` | src/components/TransactionForm.jsx:10-24 | an empty amount hands nothing over and changes nothing; otherwise the record carries the type, amount, description and date, and amount and description are cleared while type and date stay |
| `TransactionForm.SubmitTwice` | src/components/TransactionForm.jsx:12-23 | a second submit right after the first hands nothing over, because the amount was cleared |
| `App.RenderContent` | src/App.jsx:60-68 | each known view gets its page, and any unrecognised view gets the landing page |
| `App.Toggled` | src/App.jsx:44-46 | light becomes dark and anything else becomes light |
| `App.ToggleTwiceRestores` | src/App.jsx:44-46 | toggling always changes the theme, always yields light or dark, and toggling twice restores a light or dark theme |
| `App.AppState.constructor` | src/App.jsx:19-25 | the app starts on the landing view, with no session, target feature "daily", no guest mode and the light theme |
| `App.AppState.HandleFeatureClick` | src/App.jsx:49-58 | the feature is remembered, the view becomes the dashboard, and guest mode is on exactly when nobody is signed in |
| `App.AppState.ApplyInitialSession` | src/App.jsx:32 | the initial session answer is stored |
| `App.AppState.OnAuthStateChange` | src/App.jsx:33-39 | the session is stored; a null session forces the landing view and leaves guest mode; a non-null one changes nothing else |
| `App.AppState.Navigate` | src/App.jsx:75-78 | a navigation callback changes the view |
| `App.AppState.ToggleTheme` | src/App.jsx:44-46 | the theme becomes its toggle and stays light or dark |
| `App.SignOutFromDashboard` | src/App.jsx:33-58 | signing out from the dashboard always ends on the landing page outside guest mode |

## Left out

- Backend queries and authentication are parameters. Each call receives its query's outcome as a `Fetch` value, which is an error or data that may be null. Overlapping requests, their ordering and the `loading` flag of the savings-goal page are not modelled.
- `localStorage` appears only as the optional stored currency. Writing the currency back is not modelled.
- The clock is a parameter. There are no time zones and no daylight-saving time. `toISOString` dates are treated as the same day index as the local day. The month name of a date is the parameter `monthOf`.
- Amounts are exact reals. NaN, string coercion of amounts, `parseFloat` of malformed text and floating-point rounding are not modelled. `toFixed` (which only decides how figures and today's segment are shown) is not modelled either.
- `toLocaleString` is the parameter `Localize`. The EUR symbol is kept as the repository's literal characters.
- Alerts, console output, styling, the window-size listener, analytics and the presentation components are not modelled. That covers the landing, about, contact, navbar and layout components, the week and month views, and the edit modal's backend call.
- The form fields' change handlers (month, notes, type, date, category, modal open) are plain setters. Only the limit and budget inputs of the challenge cards are modelled, because the challenge invariant depends on them.
- `FormatCurrency.FormatCurrency`: the parameter defaults of `getCurrencySymbol` and `formatCurrency` (`code = 'USD'`, `opts = {}`) are not modelled. Callers always pass both.
- `Account.AccountPage.HandleNewTransaction`: an insert that succeeds but returns an empty row array makes the source prepend `undefined` (`data[0]`) to the list. The model has no undefined entry and leaves the list unchanged in that case, as it does for null data, where `data[0]` throws and the error is caught with the list kept.
- `Challenge.ConfirmStart7`: its consistency clause holds only when the card takes pointer input. The card is faded with `pointerEvents: 'none'` but its buttons are not disabled, so keyboard activation can still confirm it while the 30-day challenge is active. That path leaves both cards active, as `Challenge.KeyboardStartsBothChallenges` shows, and no invariant is claimed for it.
- `Challenge.ConfirmStart30`: the same holds for the 30-day card while the 7-day challenge is active.
- `Account.AccountPage.HandleDelete`: a delete call that throws instead of returning an error would alert and keep the list. The model treats every call as returning.
- The savings plan's `budget_target` is a plain real, so a backend row whose target is null is not represented. The source would treat it as 1 in the progress and would throw in `startEditPlan`.
- `TrackerContext.TrackerProvider.FormatAmount`: it formats with the corrected formatter of the first "## Findings" row. For a stored currency that is an inherited object key such as "toString", the code as written produces the number followed by "undefined" instead; its ensures states that the two agree on every other currency.
- `UseTracker.Tracker.FetchData`: the 30-day lower bound of the hook's query is the backend's concern. The rows it returns are taken as given.

## Findings

| source | as written | input that shows it | evidently intended | confidence | as-written member | corrected member |
|---|---|---|---|---|---|---|
| src/utils/formatCurrency.js:16 | `SYMBOLS[code] \|\| SYMBOLS['USD']` keeps a member that the table inherits from `Object.prototype`. That member has no `symbol` and no `position`, so the output is the number followed by "undefined" | code "toString" (for instance a stored currency), amount 5 | every code that is not an own entry of the table falls back to USD and formats as "$5" | not executed; high | `FormatCurrency.InheritedKeyLosesFallback` | `FormatCurrency.FormatCurrency` |
| src/components/Analysis.jsx:47-49 | each pie slice is filled by its index in the data (`COLORS[index % 2]`). When income is not positive, the Expense slice sits at index 0 and is painted with the income colour | one Expense transaction of 10 and no income | each slice takes its series' colour, as the summary card does (`#00C49F` for income, `#FF8042` for expense) | not executed; medium | `Analysis.ExpenseOnlyChartTakesIncomeColor` | `Analysis.CellColor` |
