# Balance projection of expense-calc, in Dafny

expense-calc is an Angular page that projects a bank balance day by day.
Its form holds a start date, an end date, a starting balance and four lists
of items:

- budget items: monthly bills, paid on the day of the month of their due date;
- income items: paychecks every 14 days ("biweekly") or 28 days (any other
  frequency), counted from a reference pay date;
- one-time items: paid or received on one date;
- aggregate expenses: a total for 30 days, paid in rounded installments
  every `interval` days.

`projectBudget` builds the list of days, walks it, applies the four kinds of
item to a running balance, and pushes one balance per day. This project
models that engine and proves what it computes.

Layout:

- `calendar.dfy` (module `Calendar`): instants as milliseconds, calendar days
  as day numbers, and `getDate()` as a Gregorian civil-from-days conversion
  read in UTC.
- `js_number.dfy` (module `JsNumber`): balances as exact reals or
  `NonFinite`, which stands for Infinity and NaN together. `Math.round` is
  modelled as `Floor(x + 0.5)`.
- `js_string.dfy` (module `JsString`): `split` on one character, and `Join`,
  its inverse.
- `app_component.dfy` (module `App`): the items and the form. It holds the
  component's pure helpers as functions and the projection's specification
  functions (`DayStep`, `Projection`, `DateList`, `ProjectedBalances`). It
  also holds class `JsDate`, a mutable `Date`, and class `AppComponent`. Its
  methods `AddDaysToDate` and `GetDateArray` move the `Date` they are given.
  `ProjectBudget` fills the fields `dateList` and `projectedBalance`. Each of
  the four per-list loops of `projectBudget` is its own method, proved
  against a fold function. So are the loop over the day list and its body.
- `app_properties.dfy` (module `AppProperties`): a reference definition of
  each day's change as a sum over the items, and lemmas tying it to the
  component's functions.

The model follows the code as written. Four of its behaviours are easy to
miss when reading it:

- `addDaysToDate` changes its argument, and `getDateArray` is handed the
  start date itself. By the time aggregates are checked, the start date is
  the last entry of the day list. Aggregates are therefore counted back from
  the end of the list (`AggregateCountsBackFromEnd`), not forward from the
  start date.
- In UTC, the day list starts the day after the start date and has
  `|end - start| + 1` entries. When the end date is not before the start
  date, it ends one day after the end date (`DateListShape`).
- An end date before the start date still gives a list running forward from
  the start date (`ReversedRangeCountsForward`).
- `Math.round` rounds halves up: −2.5 becomes −2, and `JsRound` does the
  same.

A source comment says `formatCalendarDateString` reads "yyyy-dd-mm", but the
middle part is the month (`FormatIsoDate`).

## Model

| member | source | states |
|---|---|---|
| `Calendar.ToDay` | src/app/app.component.ts:155 | the calendar day of an instant is the whole number of days before it: `d * MsPerDay <= t < (d + 1) * MsPerDay` |
| `Calendar.Midnight` | src/app/app.component.ts:167-169 | a parsed date string is the instant its day begins: it falls on that day and is a whole number of days |
| `Calendar.ToDayShift` | src/app/app.component.ts:146-149 | moving an instant by `n` whole days moves its calendar day by `n` |
| `Calendar.SplitYears` | src/app/app.component.ts:172 | splitting a day count into years gives a day of the year that lies within that year's length |
| `Calendar.SplitMonths` | src/app/app.component.ts:172 | splitting a day of the year into months gives a month from 1 to 12 and a day within that month's length |
| `Calendar.CivilFromDays` | src/app/app.component.ts:172 | every day number has a Gregorian month from 1 to 12 and a day from 1 to that month's length |
| `Calendar.DayOfMonth` | src/app/app.component.ts:172 | `getDate()` is between 1 and 31 |
| `Calendar.YearIsItsMonths` | src/app/app.component.ts:172 | the twelve month lengths add up to the year's length (365 or 366) |
| `Calendar.GregorianCycle` | src/app/app.component.ts:172 | the day of the month and the month repeat after 146097 days (400 Gregorian years) |
| `Calendar.CycleStartsOnTheFirst` | src/app/app.component.ts:172 | day 10957 is 2000-01-01 |
| `JsNumber.Plus` | src/app/app.component.ts:115 | adding a finite amount keeps a balance finite, moves it by exactly that amount, and leaves a non-finite balance non-finite |
| `JsNumber.Minus` | src/app/app.component.ts:125 | a difference is finite exactly when both sides are, and then it adds back to the minuend |
| `JsNumber.JsRound` | src/app/app.component.ts:260-261 | `Math.round` returns the integer within half a unit, with halves going up: `x - 0.5 < r <= x + 0.5` |
| `JsNumber.JsRoundUnique` | src/app/app.component.ts:260-261 | an integer within half a unit, halves going up, is the rounded value |
| `JsString.Split` | src/app/app.component.ts:162 | `split` gives at least one piece, and no piece contains the separator |
| `JsString.JoinSplit` | src/app/app.component.ts:162 | joining the pieces of a split with the separator gives back the original string |
| `JsString.SplitJoin` | src/app/app.component.ts:162 | splitting joined pieces that contain no separator gives back the pieces |
| `JsString.SplitNoSeparator` | src/app/app.component.ts:162 | a string without the separator splits into itself alone |
| `App.CalcDaysDiff` | src/app/app.component.ts:141-144 | the result is the floor of the absolute millisecond difference divided by 86400000, and never negative |
| `App.DaysDiffOfMidnights` | src/app/app.component.ts:141-144 | two midnights are `|b - a|` whole days apart |
| `AppProperties.DaysDiffSymmetric` | src/app/app.component.ts:141-144 | the day difference is symmetric, and 0 for the same instant |
| `App.AppComponent.AddDaysToDate` | src/app/app.component.ts:146-149 | the given date object itself moves forward by `duration` days and is returned |
| `App.AppComponent.GetDateArray` | src/app/app.component.ts:151-158 | returns `duration + 1` consecutive days (none for a negative duration), entry `i` being `i + 1` days after the start; the start date object is left advanced by the list's length |
| `App.FormatCalendarDateString` | src/app/app.component.ts:160-165 | "a-b-c" becomes "b/c/a"; its property is stated by `AppProperties.FormatIsoDate` |
| `App.CalculateNewBalanceForBudgetItemForDate` | src/app/app.component.ts:171-174 | subtracts the payment exactly when `getDate()` of the projection date is the due day of the month; stated by `AppProperties.BudgetItemEffect` and `AppProperties.BudgetItemsClosedForm` |
| `App.DateIsOnInterval` | src/app/app.component.ts:176-179 | holds exactly when a non-zero interval divides the whole days between the dates, since `x % 0` is NaN; stated by `AppProperties.IncomeOnInterval` |
| `App.IncomeInterval` | src/app/app.component.ts:113-114 | 14 days for "biweekly", 28 for any other frequency; stated by `AppProperties.IncomeOnInterval` |
| `App.ApplyIncomeItem` | src/app/app.component.ts:113-116 | adds the amount on pay days only; stated by `AppProperties.IncomeItemEffect` |
| `App.ApplyOneTimeItem` | src/app/app.component.ts:121-127 | acts only on the due date, subtracting for "expense" and adding otherwise; stated by `AppProperties.OneTimeItemEffect` |
| `App.InstallmentAmount` | src/app/app.component.ts:260-261 | `round(amount / round(30 / interval))`, non-finite for a zero divisor; stated by `AppProperties.FiniteInstallmentRange` and `AppProperties.SampleInstallments` |
| `App.CalculateAggregateExpenseChange` | src/app/app.component.ts:259-267 | subtracts the installment exactly when the interval divides the whole days from the start date; stated by `AppProperties.AggregateItemEffect` and `AppProperties.AggregateOnInterval` |
| `App.DayStep` | src/app/app.component.ts:103-133 | one day's budget, income, one-time and aggregate items in that order; stated by `AppProperties.DayStepClosedForm` |
| `App.DateList` | src/app/app.component.ts:96-99 | the day list `projectBudget` builds; stated by `AppProperties.DateListShape` |
| `App.ShiftedStart` | src/app/app.component.ts:146-158 | where the start date has moved once the list is built; stated by `AppProperties.ShiftedStartIsLastEntry` |
| `App.ProjectedBalances` | src/app/app.component.ts:94-137 | the balances `projectBudget` pushes; stated by `AppProperties.ProjectedBalancesClosedForm` |
| `App.ProjectionAt` | src/app/app.component.ts:102-137 | entry `i` of the projection is one day's step applied to entry `i - 1`, or to the starting balance for entry 0 |
| `App.Projection` | src/app/app.component.ts:102-137 | the projection has exactly one balance per date |
| `App.AppComponent.ProcessBudgetItems` | src/app/app.component.ts:105-108 | the loop over the budget items computes the in-order fold of `calculateNewBalanceForBudgetItemForDate` |
| `App.AppComponent.ProcessIncomeItems` | src/app/app.component.ts:111-117 | the loop over the income items computes the in-order fold of the interval test and the addition |
| `App.AppComponent.ProcessOneTimeItems` | src/app/app.component.ts:120-128 | the loop over the one-time items, including its `continue`, computes the in-order fold of the date test and the signed change |
| `App.AppComponent.ProcessAggregateExpenses` | src/app/app.component.ts:131-133 | the loop over the aggregate expenses computes the in-order fold of `calculateAggregateExpenseChange` |
| `App.AppComponent.ProcessDate` | src/app/app.component.ts:103-133 | one pass of the day loop applies budget, income, one-time and aggregate items in that order (`DayStep`) |
| `App.AppComponent.ProjectDateList` | src/app/app.component.ts:100-137 | the loop over `dateList` pushes exactly the projection from the starting balance, one entry per date |
| `App.AppComponent.ProjectBudget` | src/app/app.component.ts:92-139 | afterwards `dateList` is the day list and `projectedBalance` is the projection, with aggregates measured from the advanced start date; the form is unchanged |
| `App.AppComponent.constructor` | src/app/app.component.ts:17-28 | a new component holds the given form and empty `dateList` and `projectedBalance` |
| `App.JsDate.constructor` | src/app/app.component.ts:96-97 | a new date holds the given instant |
| `AppProperties.DateListShape` | src/app/app.component.ts:96-99 | the day list has `|end - start| + 1` entries, entry `i` is start + i + 1, the start date is not in it, and for end ≥ start it ends on end + 1 |
| `AppProperties.ReversedRangeCountsForward` | src/app/app.component.ts:141-158 | with the end before the start, the list has `start - end + 1` entries, all after the start date |
| `AppProperties.ShiftedStartIsLastEntry` | src/app/app.component.ts:146-158 | the start date, after the list is built, is the list's last entry: start + length |
| `AppProperties.BudgetItemsClosedForm` | src/app/app.component.ts:105-108 | the budget loop moves a finite balance by exactly minus the payments of the items whose due day of the month is the day's |
| `AppProperties.IncomeOnInterval` | src/app/app.component.ts:111-117 | the pay period is 14 days for "biweekly" and 28 otherwise, and an item pays exactly when the period divides the signed day difference from its reference date |
| `AppProperties.IncomeItemsClosedForm` | src/app/app.component.ts:111-117 | the income loop moves a finite balance by exactly the amounts of the items whose period divides the day difference |
| `AppProperties.OneTimeItemsClosedForm` | src/app/app.component.ts:120-128 | the one-time loop moves a finite balance by exactly the signed amounts of the items due that day |
| `AppProperties.AggregateOnInterval` | src/app/app.component.ts:262-263 | the aggregate test on midnights holds exactly when the non-zero interval divides the signed day difference |
| `AppProperties.AggregatesClosedForm` | src/app/app.component.ts:131-133 | with finite installments, the aggregate loop moves a finite balance by exactly minus the installments of the items whose interval divides the day difference |
| `AppProperties.DayStepClosedForm` | src/app/app.component.ts:103-133 | with finite installments, one day moves a finite balance by exactly the sum of the four kinds of change |
| `AppProperties.ProjectionClosedForm` | src/app/app.component.ts:102-137 | with finite installments, entry `i` is the starting balance plus the summed change over the first `i + 1` days |
| `AppProperties.ProjectedBalancesClosedForm` | src/app/app.component.ts:94-137 | the component's projection, entry by entry, is the starting balance plus the change so far, with aggregates measured from the advanced start |
| `AppProperties.EmptyFormIsConstant` | src/app/app.component.ts:94-137 | with no items, there are `|end - start| + 1` balances and each equals the starting balance |
| `AppProperties.NoChange` | src/app/app.component.ts:102-137 | with no items, the change over any run of days is 0 |
| `AppProperties.BudgetItemEffect` | src/app/app.component.ts:171-174 | a lone budget item subtracts its payment exactly on days with its due date's day of the month, in any month, and leaves the balance alone otherwise |
| `AppProperties.IncomeItemEffect` | src/app/app.component.ts:111-117 | a lone income item adds its amount exactly when `(day - reference) % 14` (biweekly) or `% 28` (otherwise) is 0, and otherwise changes nothing |
| `AppProperties.IncomeRecursBothWays` | src/app/app.component.ts:176-179 | every whole number of pay periods from the reference date is a pay day: the reference date itself, later days and earlier days |
| `AppProperties.OneTimeItemEffect` | src/app/app.component.ts:120-128 | a lone one-time item changes nothing except on its due date, where it subtracts for "expense" and adds for any other direction |
| `AppProperties.AggregateItemEffect` | src/app/app.component.ts:259-267 | a lone aggregate expense with a finite installment subtracts it exactly when its non-zero interval divides the days from the reference day |
| `AppProperties.AggregateCountsBackFromEnd` | src/app/app.component.ts:96-133 | entry `i` of the day list pays an aggregate exactly when its non-zero interval divides `|end - start| - i`, because the start date was advanced |
| `AppProperties.LastEntryPaysEveryAggregate` | src/app/app.component.ts:96-133 | the last entry of the day list always pays every aggregate with a non-zero interval |
| `AppProperties.FiniteInstallmentRange` | src/app/app.component.ts:260-261 | the installment is finite exactly when `-60 < interval <= 60`; beyond that, `round(30 / interval)` is 0 and the division is by zero |
| `AppProperties.SampleInstallments` | src/app/app.component.ts:215-217 | the sample aggregates give installments of 150 (600 every 7 days), 113 (225 every 14 days) and 38 (150 every 7 days) |
| `AppProperties.NonFiniteIsSticky` | src/app/app.component.ts:102-137 | once the balance is not a finite number, every later balance is not one either |
| `AppProperties.FormatIsoDate` | src/app/app.component.ts:160-165 | "yyyy-mm-dd" becomes "mm/dd/yyyy" for any three dash-free parts: the middle part, which is the month, goes first |

## Left out

- The Angular form plumbing is left out: `ngOnInit`, the `FormArray` getters, `addFormGroup`, `removeItem`, the `add…WithValues` helpers and `addHardcodedBudget`. The form reaches the model as a `FinanceForm` value given to the constructor. The sample items of `addHardcodedBudget` appear only in `SampleInstallments`.
- `enableChart` and `event.preventDefault()` are left out: they are DOM and chart rendering.
- `server.js` is not part of this model: it only serves static files.
- Parsing date strings is left out. That covers `new Date(string)`, `Date.parse` and `getDateFromString`. Form dates and item dates are day numbers, and a parsed date is the midnight of its day. Malformed dates and the NaN they would spread are not modelled.
- `toLocaleDateString` is left out. `dateList` holds day numbers, not locale-formatted labels. Two dates compare equal as strings exactly when they fall on the same day.
- Time zones and daylight saving time are left out. Every calendar reading is in UTC, and `setDate(getDate() + n)` adds exactly `n` days of milliseconds. The day-list behaviour above (`DateListShape`, `ShiftedStart`) is therefore the UTC behaviour. `new Date("yyyy-mm-dd")` gives UTC midnight, while `getDate`, `setDate` and `toLocaleDateString` work in local time. West of UTC, the start date therefore begins as the previous local evening, and the list runs from the start date through the end date. Across a spring daylight-saving change, two local midnights 14 days apart are 14 days minus one hour apart. `calcDaysDiff` floors that to 13, so a payday measured across the change comes one day late.
- The item date pipeline `getDateFromString(formatCalendarDateString(dueDate))` is not composed. `FormatCalendarDateString` is modelled and proved on its own, and the items carry the day it yields.
- Floating point is left out. Amounts are exact reals. Infinity, -Infinity and NaN are one `NonFinite` value, which is enough because no balance is ever compared.
- Form values are assumed to be numbers where the code does arithmetic on them. String concatenation through `+` on a text value is not modelled, and aggregate intervals are integers.
- `Calendar.CivilFromDays`: its inverse is not modelled, and its exactness is not proved against an independent calendar. It is checked only through its ranges, the 400-year cycle and the 2000-01-01 anchor.
- `Calendar.DayOfMonth`: only its range 1 to 31 and its 400-year cycle are proved; no lemma says that the next day's value is one more, or 1 after the month's last day.
- `Calendar.SplitYears`: its contract gives only the range of the day of the year, not that the year split is the Gregorian one.
- `Calendar.SplitMonths`: its contract gives only the ranges of the month and the day, not that the month split is the Gregorian one.
- Running the same projection twice on the same form gives the same result. This holds because the specification functions are deterministic, so no separate lemma states it.
