/** The balance projection of the expense calculator's root component.

    The form the user fills in gives a start date, an end date, a starting
    balance and four lists of cash-flow items. `ProjectBudget` turns that into
    a list of days and, for each day, the balance after that day's items.
    The pure helpers of the component are functions here; the date list is
    built by methods on a mutable `JsDate`, as the component does, and the
    projection itself is a method of `AppComponent` that fills the
    component's `dateList` and `projectedBalance` fields.
 */
module App {
  import opened Calendar
  import opened JsNumber
  import opened JsString

  /** A monthly bill, due on the day of the month of `dueDate`. */
  datatype BudgetItem = BudgetItem(title: string, payment: real, dueDate: Day)

  /** A paycheck; `frequency` is "biweekly" or anything else (taken as every four weeks). */
  datatype IncomeItem = IncomeItem(title: string, amount: real, frequency: string, recentPaymentDate: Day)

  /** A single payment; `direction` is "expense" or anything else (taken as income). */
  datatype OneTimeItem = OneTimeItem(title: string, amount: real, direction: string, dueDate: Day)

  /** A monthly total paid in installments every `interval` days. */
  datatype AggregateExpense = AggregateExpense(title: string, amount: real, interval: int)

  /** The values of the component's form. Dates are the calendar days the
      date inputs hold. */
  datatype FinanceForm = FinanceForm(
    startDate: Day,
    endDate: Day,
    startingBalance: real,
    budgetItems: seq<BudgetItem>,
    incomeItems: seq<IncomeItem>,
    oneTimeItems: seq<OneTimeItem>,
    aggregateExpenses: seq<AggregateExpense>)

  function Abs(x: int): nat {
    if x < 0 then -x else x
  }

  /** `calcDaysDiff`: the whole days between two instants, in either order. */
  function CalcDaysDiff(start: Time, end: Time): (r: nat)
    ensures r * MsPerDay <= Abs(end - start) < (r + 1) * MsPerDay
  {
    Abs(end - start) / MsPerDay
  }

  /** Component `i` of a split string, or what concatenating JavaScript's
      `undefined` produces when there is no such component. */
  function Component(components: seq<string>, i: nat): string {
    if i < |components| then components[i] else "undefined"
  }

  /** `formatCalendarDateString`: "a-b-c" becomes "b/c/a". For a date input's
      "yyyy-mm-dd" that is "mm/dd/yyyy". */
  function FormatCalendarDateString(calendarDateString: string): string {
    var components := Split(calendarDateString, '-');
    Component(components, 1) + "/" + Component(components, 2) + "/" + Component(components, 0)
  }

  /** `calculateNewBalanceForBudgetItemForDate`: pays `payment` when the
      projection day falls on the day of the month `dayOfPayment`. */
  function CalculateNewBalanceForBudgetItemForDate(currentBalance: Num, payment: real, projectionDate: Time, dayOfPayment: int): Num {
    if DayOfMonth(ToDay(projectionDate)) == dayOfPayment then Minus(currentBalance, Finite(payment)) else currentBalance
  }

  /** `dateIsOnInterval`. A day count is never negative, and on a
      non-negative left operand Dafny's `%` and JavaScript's agree; `x % 0`
      is NaN in JavaScript, which is never `=== 0`. */
  predicate DateIsOnInterval(currentDate: Time, startDate: Time, interval: int) {
    var diff := CalcDaysDiff(startDate, currentDate);
    interval != 0 && diff % interval == 0
  }

  /** The pay period of an income item: two weeks for "biweekly", four otherwise. */
  function IncomeInterval(frequency: string): int {
    7 * (if frequency == "biweekly" then 2 else 4)
  }

  /** One income item on one day. */
  function ApplyIncomeItem(balance: Num, item: IncomeItem, currentDate: Time): Num {
    if DateIsOnInterval(currentDate, Midnight(item.recentPaymentDate), IncomeInterval(item.frequency))
    then Plus(balance, item.amount)
    else balance
  }

  /** One one-time item on one day: the dates must fall on the same calendar day. */
  function ApplyOneTimeItem(balance: Num, item: OneTimeItem, currentDate: Time): Num {
    if ToDay(currentDate) != item.dueDate then balance
    else if item.direction == "expense" then Minus(balance, Finite(item.amount))
    else Plus(balance, item.amount)
  }

  /** The installment of an aggregate expense: the total divided by the
      rounded number of intervals in 30 days, rounded. An interval of 0 gives
      Infinity intervals and an installment of 0; an interval whose rounded
      count is 0 divides by zero. */
  function InstallmentAmount(item: AggregateExpense): Num {
    if item.interval == 0 then Finite(0.0)
    else
      var numIntervals := JsRound(30.0 / item.interval as real);
      if numIntervals == 0 then NonFinite
      else Finite(JsRound(item.amount / numIntervals as real) as real)
  }

  /** `calculateAggregateExpenseChange`: pays the installment on days a whole
      number of intervals away from `startDate`. */
  function CalculateAggregateExpenseChange(item: AggregateExpense, tempMainBalance: Num, currentDate: Day, startDate: Time): Num {
    var numDaysPast := CalcDaysDiff(startDate, Midnight(currentDate));
    if item.interval != 0 && numDaysPast % item.interval == 0
    then Minus(tempMainBalance, InstallmentAmount(item))
    else tempMainBalance
  }

  /** The budget items in list order, on one day. */
  function ApplyBudgetItems(balance: Num, items: seq<BudgetItem>, currentDate: Time): Num
    decreases |items|
  {
    if items == [] then balance
    else
      var last := items[|items| - 1];
      CalculateNewBalanceForBudgetItemForDate(
        ApplyBudgetItems(balance, items[..|items| - 1], currentDate), last.payment, currentDate, DayOfMonth(last.dueDate))
  }

  /** The income items in list order, on one day. */
  function ApplyIncomeItems(balance: Num, items: seq<IncomeItem>, currentDate: Time): Num
    decreases |items|
  {
    if items == [] then balance
    else ApplyIncomeItem(ApplyIncomeItems(balance, items[..|items| - 1], currentDate), items[|items| - 1], currentDate)
  }

  /** The one-time items in list order, on one day. */
  function ApplyOneTimeItems(balance: Num, items: seq<OneTimeItem>, currentDate: Time): Num
    decreases |items|
  {
    if items == [] then balance
    else ApplyOneTimeItem(ApplyOneTimeItems(balance, items[..|items| - 1], currentDate), items[|items| - 1], currentDate)
  }

  /** The aggregate expenses in list order, on one day. */
  function ApplyAggregateExpenses(balance: Num, items: seq<AggregateExpense>, date: Day, start: Time): Num
    decreases |items|
  {
    if items == [] then balance
    else CalculateAggregateExpenseChange(items[|items| - 1], ApplyAggregateExpenses(balance, items[..|items| - 1], date, start), date, start)
  }

  /** One day of the projection: budget, income, one-time and aggregate
      items, in that order. `start` is the instant aggregates are measured from. */
  function DayStep(form: FinanceForm, start: Time, balance: Num, date: Day): Num {
    var currentDate := Midnight(date);
    var afterBudget := ApplyBudgetItems(balance, form.budgetItems, currentDate);
    var afterIncome := ApplyIncomeItems(afterBudget, form.incomeItems, currentDate);
    var afterOneTime := ApplyOneTimeItems(afterIncome, form.oneTimeItems, currentDate);
    ApplyAggregateExpenses(afterOneTime, form.aggregateExpenses, date, start)
  }

  /** The balance at the end of each of `dates`, starting from `balance`. */
  function Projection(form: FinanceForm, start: Time, balance: Num, dates: seq<Day>): (r: seq<Num>)
    ensures |r| == |dates|
    decreases |dates|
  {
    if dates == [] then []
    else
      var next := DayStep(form, start, balance, dates[0]);
      [next] + Projection(form, start, next, dates[1..])
  }

  /** Entry `i` of a projection is one day's step from entry `i - 1` (from
      the starting balance for the first entry). */
  lemma {:induction false} ProjectionAt(form: FinanceForm, start: Time, balance: Num, dates: seq<Day>, i: nat)
    requires i < |dates|
    ensures Projection(form, start, balance, dates)[i]
      == DayStep(form, start, if i == 0 then balance else Projection(form, start, balance, dates)[i - 1], dates[i])
    decreases i
  {
    if i > 0 {
      var next := DayStep(form, start, balance, dates[0]);
      ProjectionAt(form, start, next, dates[1..], i - 1);
    }
  }

  /** `count` consecutive days from `first` (none for a negative count). */
  function DateRange(first: Day, count: int): seq<Day> {
    seq(if count < 0 then 0 else count, i => first + i)
  }

  /** The whole days between the form's two dates. */
  function DayCount(form: FinanceForm): nat {
    Abs(form.endDate - form.startDate)
  }

  /** The day list the component builds: the day after the start date and
      the `DayCount(form)` days after that. */
  function DateList(form: FinanceForm): seq<Day> {
    DateRange(form.startDate + 1, DayCount(form) + 1)
  }

  /** Where the start date has been moved to by the time aggregates are
      measured from it: building the day list advances it by one day per
      entry. */
  function ShiftedStart(form: FinanceForm): Day {
    form.startDate + DayCount(form) + 1
  }

  /** The balances the component projects for its form. */
  function ProjectedBalances(form: FinanceForm): seq<Num> {
    Projection(form, Midnight(ShiftedStart(form)), Finite(form.startingBalance), DateList(form))
  }

  /** Two midnights are as many whole days apart as their day numbers. */
  lemma DaysDiffOfMidnights(a: Day, b: Day)
    ensures CalcDaysDiff(Midnight(a), Midnight(b)) == Abs(b - a)
  {
    assert Abs(Midnight(b) - Midnight(a)) == Abs(b - a) * MsPerDay;
  }

  /** A JavaScript `Date`: a mutable instant. */
  class JsDate {
    var time: Time

    constructor (t: Time)
      ensures time == t
    {
      time := t;
    }
  }

  class AppComponent {
    var financeForm: FinanceForm
    var dateList: seq<Day>
    var projectedBalance: seq<Num>

    constructor (form: FinanceForm)
      ensures financeForm == form && dateList == [] && projectedBalance == []
    {
      financeForm := form;
      dateList := [];
      projectedBalance := [];
    }

    /** `addDaysToDate`: moves the given date itself forward and returns it. */
    method AddDaysToDate(startDate: JsDate, duration: int) returns (r: JsDate)
      modifies startDate
      ensures r == startDate
      ensures startDate.time == old(startDate.time) + duration * MsPerDay
    {
      startDate.time := startDate.time + duration * MsPerDay;
      r := startDate;
    }

    /** `getDateArray`: the `duration + 1` days after `startDate`, leaving
        `startDate` itself advanced past all of them. */
    method GetDateArray(startDate: JsDate, duration: int) returns (dates: seq<Day>)
      modifies startDate
      ensures dates == DateRange(ToDay(old(startDate.time)) + 1, duration + 1)
      ensures startDate.time == old(startDate.time) + |dates| * MsPerDay
    {
      ghost var first := ToDay(startDate.time) + 1;
      dates := [];
      var date := startDate;
      var i := 0;
      while i <= duration
        invariant date == startDate
        invariant 0 <= i <= (if duration < 0 then 0 else duration + 1)
        invariant |dates| == i
        invariant startDate.time == old(startDate.time) + i * MsPerDay
        invariant forall k :: 0 <= k < i ==> dates[k] == first + k
      {
        date := AddDaysToDate(date, 1);
        ToDayShift(old(startDate.time), i + 1);
        dates := dates + [ToDay(date.time)];
        i := i + 1;
      }
      assert |dates| == |DateRange(first, duration + 1)|;
    }

    /** The budget items of one day, in list order. */
    method ProcessBudgetItems(balance: Num, budgetItems: seq<BudgetItem>, currentDate: Time) returns (tempMainBalance: Num)
      ensures tempMainBalance == ApplyBudgetItems(balance, budgetItems, currentDate)
    {
      tempMainBalance := balance;
      var j := 0;
      while j < |budgetItems|
        invariant 0 <= j <= |budgetItems|
        invariant tempMainBalance == ApplyBudgetItems(balance, budgetItems[..j], currentDate)
      {
        var budgetItem := budgetItems[j];
        var paymentDay := DayOfMonth(budgetItem.dueDate);
        tempMainBalance := CalculateNewBalanceForBudgetItemForDate(tempMainBalance, budgetItem.payment, currentDate, paymentDay);
        assert budgetItems[..j + 1][..j] == budgetItems[..j];
        j := j + 1;
      }
      assert budgetItems[..j] == budgetItems;
    }

    /** The income items of one day, in list order. */
    method ProcessIncomeItems(balance: Num, incomeItems: seq<IncomeItem>, currentDate: Time) returns (tempMainBalance: Num)
      ensures tempMainBalance == ApplyIncomeItems(balance, incomeItems, currentDate)
    {
      tempMainBalance := balance;
      var j := 0;
      while j < |incomeItems|
        invariant 0 <= j <= |incomeItems|
        invariant tempMainBalance == ApplyIncomeItems(balance, incomeItems[..j], currentDate)
      {
        var incomeItem := incomeItems[j];
        var recentPaymentDate := Midnight(incomeItem.recentPaymentDate);
        var frequencyMultiplier := if incomeItem.frequency == "biweekly" then 2 else 4;
        if DateIsOnInterval(currentDate, recentPaymentDate, 7 * frequencyMultiplier) {
          tempMainBalance := Plus(tempMainBalance, incomeItem.amount);
        }
        assert incomeItems[..j + 1][..j] == incomeItems[..j];
        j := j + 1;
      }
      assert incomeItems[..j] == incomeItems;
    }

    /** The one-time items of one day, in list order. */
    method ProcessOneTimeItems(balance: Num, oneTimeItems: seq<OneTimeItem>, currentDate: Time) returns (tempMainBalance: Num)
      ensures tempMainBalance == ApplyOneTimeItems(balance, oneTimeItems, currentDate)
    {
      tempMainBalance := balance;
      var j := 0;
      while j < |oneTimeItems|
        invariant 0 <= j <= |oneTimeItems|
        invariant tempMainBalance == ApplyOneTimeItems(balance, oneTimeItems[..j], currentDate)
      {
        var oneTimeItem := oneTimeItems[j];
        assert oneTimeItems[..j + 1][..j] == oneTimeItems[..j];
        j := j + 1;
        if ToDay(currentDate) != oneTimeItem.dueDate {
          continue;
        }
        if oneTimeItem.direction == "expense" {
          tempMainBalance := Minus(tempMainBalance, Finite(oneTimeItem.amount));
        } else {
          tempMainBalance := Plus(tempMainBalance, oneTimeItem.amount);
        }
      }
      assert oneTimeItems[..j] == oneTimeItems;
    }

    /** The aggregate expenses of one day, in list order, measured from `start`. */
    method ProcessAggregateExpenses(balance: Num, aggregateExpenses: seq<AggregateExpense>, date: Day, start: Time) returns (tempMainBalance: Num)
      ensures tempMainBalance == ApplyAggregateExpenses(balance, aggregateExpenses, date, start)
    {
      tempMainBalance := balance;
      var j := 0;
      while j < |aggregateExpenses|
        invariant 0 <= j <= |aggregateExpenses|
        invariant tempMainBalance == ApplyAggregateExpenses(balance, aggregateExpenses[..j], date, start)
      {
        tempMainBalance := CalculateAggregateExpenseChange(aggregateExpenses[j], tempMainBalance, date, start);
        assert aggregateExpenses[..j + 1][..j] == aggregateExpenses[..j];
        j := j + 1;
      }
      assert aggregateExpenses[..j] == aggregateExpenses;
    }

    /** The body of the projection loop for one date: every budget, income,
        one-time and aggregate item in turn. */
    method ProcessDate(form: FinanceForm, balance: Num, date: Day, start: Time) returns (tempMainBalance: Num)
      ensures tempMainBalance == DayStep(form, start, balance, date)
    {
      var currentDate := Midnight(date);
      tempMainBalance := ProcessBudgetItems(balance, form.budgetItems, currentDate);
      tempMainBalance := ProcessIncomeItems(tempMainBalance, form.incomeItems, currentDate);
      tempMainBalance := ProcessOneTimeItems(tempMainBalance, form.oneTimeItems, currentDate);
      tempMainBalance := ProcessAggregateExpenses(tempMainBalance, form.aggregateExpenses, date, start);
    }

    /** `projectBudget`: fills `dateList` with the days and `projectedBalance`
        with the balance at the end of each of them. */
    method ProjectBudget()
      modifies this
      ensures financeForm == old(financeForm)
      ensures dateList == DateList(financeForm)
      ensures projectedBalance == ProjectedBalances(financeForm)
    {
      projectedBalance := [];
      var form := financeForm;
      var start := new JsDate(Midnight(form.startDate));
      var end := new JsDate(Midnight(form.endDate));
      var diff := CalcDaysDiff(start.time, end.time);
      DaysDiffOfMidnights(form.startDate, form.endDate);
      dateList := GetDateArray(start, diff);
      assert start.time == Midnight(ShiftedStart(form));
      assert dateList == DateList(form);
      ProjectDateList(form, start.time);
    }

    /** The loop of `projectBudget` over `dateList`: the running balance,
        from the starting balance, pushed once per date. Aggregates are
        measured from `start`, the value the start date has by then. */
    method ProjectDateList(form: FinanceForm, start: Time)
      modifies this`projectedBalance
      ensures projectedBalance == Projection(form, start, Finite(form.startingBalance), dateList)
    {
      projectedBalance := [];
      var tempMainBalance := Finite(form.startingBalance);
      ghost var expected := Projection(form, start, tempMainBalance, dateList);
      var dates := dateList;
      var k := 0;
      while k < |dates|
        invariant 0 <= k <= |dates|
        invariant |projectedBalance| == k
        invariant forall i :: 0 <= i < k ==> projectedBalance[i] == expected[i]
        invariant tempMainBalance == if k == 0 then Finite(form.startingBalance) else projectedBalance[k - 1]
      {
        var date := dates[k];
        tempMainBalance := ProcessDate(form, tempMainBalance, date, start);
        ProjectionAt(form, start, Finite(form.startingBalance), dates, k);
        projectedBalance := projectedBalance + [tempMainBalance];
        k := k + 1;
      }
    }
  }
}
