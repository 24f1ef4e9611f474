/** What the projection computes, stated on day numbers and sums, and the
    lemmas that tie the component's functions to those statements. */
module AppProperties {
  import opened Calendar
  import opened JsNumber
  import opened JsString
  import opened App

  // ---------------------------------------------------------------------
  // Day differences and divisibility

  /** `calcDaysDiff` does not depend on the order of its arguments, and two
      instants on the same midnight are 0 days apart. */
  lemma DaysDiffSymmetric(a: Time, b: Time)
    ensures CalcDaysDiff(a, b) == CalcDaysDiff(b, a)
    ensures a == b ==> CalcDaysDiff(a, b) == 0
  {
  }

  /** A whole number of days apart in either direction is the same as
      that signed difference being a multiple of `n`. */
  lemma AbsDivisible(x: int, n: int)
    requires n != 0
    ensures Abs(x) % n == 0 <==> x % n == 0
  {
    if x < 0 {
      if x % n == 0 {
        var q := x / n;
        assert x == n * q;
        assert -x == n * (-q);
        assert (-x) % n == 0 by { ModOfMultiple(n, -q); }
      } else if (-x) % n == 0 {
        var q := (-x) / n;
        assert -x == n * q;
        assert x == n * (-q);
        ModOfMultiple(n, -q);
        assert false;
      }
    }
  }

  /** A multiple of `n` leaves no remainder. */
  lemma ModOfMultiple(n: int, q: int)
    requires n != 0
    ensures (n * q) % n == 0
  {
    var x := n * q;
    var r := x % n;
    var d := q - x / n;
    assert x == n * (x / n) + r;
    assert n * d == r by {
      assert n * d == n * q - n * (x / n);
    }
    if d != 0 {
      AbsProduct(n, d);
      assert false;
    }
  }

  /** A non-zero multiple of `n` is at least `|n|` away from 0. */
  lemma AbsProduct(n: int, d: int)
    requires n != 0 && d != 0
    ensures Abs(n * d) >= Abs(n)
  {
    if n > 0 && d > 0 {
      MulMono(n, d);
    } else if n > 0 {
      MulMono(n, -d);
      assert n * d == -(n * -d);
    } else if d > 0 {
      MulMono(-n, d);
      assert n * d == -(-n * d);
    } else {
      MulMono(-n, -d);
      assert n * d == -n * -d;
    }
  }

  lemma MulMono(n: int, k: int)
    requires n > 0 && k > 0
    ensures n * k >= n
  {
    assert n * k == n * (k - 1) + n;
  }

  // ---------------------------------------------------------------------
  // The day list

  /** The day list has `|end - start| + 1` entries, entry `i` being
      `i + 1` days after the start date; the start date itself is never in
      it, and when the end date is not before the start date the list runs
      one day past the end date. */
  lemma DateListShape(form: FinanceForm)
    ensures |DateList(form)| == DayCount(form) + 1
    ensures forall i :: 0 <= i < |DateList(form)| ==> DateList(form)[i] == form.startDate + i + 1
    ensures form.startDate !in DateList(form)
    ensures form.startDate <= form.endDate ==> DateList(form)[|DateList(form)| - 1] == form.endDate + 1
  {
  }

  /** An end date before the start date still gives days counting forward
      from the start date, `start - end + 1` of them, none of them between
      the two dates. */
  lemma ReversedRangeCountsForward(form: FinanceForm)
    requires form.endDate < form.startDate
    ensures |DateList(form)| == form.startDate - form.endDate + 1
    ensures forall i :: 0 <= i < |DateList(form)| ==> DateList(form)[i] > form.startDate
  {
  }

  /** Building the day list moves the start date by one day per entry, so
      aggregates are measured from the last entry of the list. */
  lemma ShiftedStartIsLastEntry(form: FinanceForm)
    ensures ShiftedStart(form) == DateList(form)[|DateList(form)| - 1]
    ensures ShiftedStart(form) == form.startDate + |DateList(form)|
  {
    DateListShape(form);
  }

  // ---------------------------------------------------------------------
  // Reference definitions: what each kind of item changes on one day

  /** Budget items: minus the payment of every item whose due date has the
      day's day of the month. */
  function BudgetChange(items: seq<BudgetItem>, date: Day): real
    decreases |items|
  {
    if items == [] then 0.0
    else
      var item := items[|items| - 1];
      BudgetChange(items[..|items| - 1], date) + (if DayOfMonth(date) == DayOfMonth(item.dueDate) then -item.payment else 0.0)
  }

  /** Income items: the amount of every item a whole number of pay periods
      (14 days for "biweekly", 28 otherwise) before or after its reference date. */
  function IncomeChange(items: seq<IncomeItem>, date: Day): real
    decreases |items|
  {
    if items == [] then 0.0
    else
      var item := items[|items| - 1];
      var period := if item.frequency == "biweekly" then 14 else 28;
      IncomeChange(items[..|items| - 1], date) + (if (date - item.recentPaymentDate) % period == 0 then item.amount else 0.0)
  }

  /** One-time items: those due that day, out for "expense" and in otherwise. */
  function OneTimeChange(items: seq<OneTimeItem>, date: Day): real
    decreases |items|
  {
    if items == [] then 0.0
    else
      var item := items[|items| - 1];
      OneTimeChange(items[..|items| - 1], date)
        + (if date != item.dueDate then 0.0 else if item.direction == "expense" then -item.amount else item.amount)
  }

  /** An aggregate expense whose installment is a finite number. */
  predicate HasFiniteInstallment(item: AggregateExpense) {
    InstallmentAmount(item).Finite?
  }

  predicate AllFiniteInstallments(items: seq<AggregateExpense>) {
    forall i :: 0 <= i < |items| ==> HasFiniteInstallment(items[i])
  }

  /** Aggregate expenses: minus the installment of every item whose interval
      divides the days between `start` and the day. */
  function AggregateChange(items: seq<AggregateExpense>, start: Day, date: Day): real
    requires AllFiniteInstallments(items)
    decreases |items|
  {
    if items == [] then 0.0
    else
      var item := items[|items| - 1];
      assert HasFiniteInstallment(items[|items| - 1]);
      AggregateChange(items[..|items| - 1], start, date)
        + (if item.interval != 0 && (date - start) % item.interval == 0 then -InstallmentAmount(item).value else 0.0)
  }

  function DayChange(form: FinanceForm, start: Day, date: Day): real
    requires AllFiniteInstallments(form.aggregateExpenses)
  {
    BudgetChange(form.budgetItems, date) + IncomeChange(form.incomeItems, date)
      + OneTimeChange(form.oneTimeItems, date) + AggregateChange(form.aggregateExpenses, start, date)
  }

  /** The change over a run of days. */
  function CumulativeChange(form: FinanceForm, start: Day, dates: seq<Day>): real
    requires AllFiniteInstallments(form.aggregateExpenses)
    decreases |dates|
  {
    if dates == [] then 0.0 else DayChange(form, start, dates[0]) + CumulativeChange(form, start, dates[1..])
  }

  // ---------------------------------------------------------------------
  // The component's item loops against the reference definitions

  lemma {:induction false} BudgetItemsClosedForm(b: real, items: seq<BudgetItem>, date: Day)
    ensures ApplyBudgetItems(Finite(b), items, Midnight(date)) == Finite(b + BudgetChange(items, date))
    decreases |items|
  {
    if items != [] {
      BudgetItemsClosedForm(b, items[..|items| - 1], date);
    }
  }

  /** Whether an income item pays on a day, in day numbers. */
  lemma IncomeOnInterval(item: IncomeItem, date: Day)
    ensures IncomeInterval(item.frequency) == if item.frequency == "biweekly" then 14 else 28
    ensures DateIsOnInterval(Midnight(date), Midnight(item.recentPaymentDate), IncomeInterval(item.frequency))
        <==> (date - item.recentPaymentDate) % IncomeInterval(item.frequency) == 0
  {
    DaysDiffOfMidnights(item.recentPaymentDate, date);
    AbsDivisible(date - item.recentPaymentDate, IncomeInterval(item.frequency));
  }

  lemma {:induction false} IncomeItemsClosedForm(b: real, items: seq<IncomeItem>, date: Day)
    ensures ApplyIncomeItems(Finite(b), items, Midnight(date)) == Finite(b + IncomeChange(items, date))
    decreases |items|
  {
    if items != [] {
      IncomeItemsClosedForm(b, items[..|items| - 1], date);
      IncomeOnInterval(items[|items| - 1], date);
    }
  }

  lemma {:induction false} OneTimeItemsClosedForm(b: real, items: seq<OneTimeItem>, date: Day)
    ensures ApplyOneTimeItems(Finite(b), items, Midnight(date)) == Finite(b + OneTimeChange(items, date))
    decreases |items|
  {
    if items != [] {
      OneTimeItemsClosedForm(b, items[..|items| - 1], date);
    }
  }

  /** Whether an aggregate expense pays on a day, in day numbers. */
  lemma AggregateOnInterval(item: AggregateExpense, start: Day, date: Day)
    ensures (item.interval != 0 && CalcDaysDiff(Midnight(start), Midnight(date)) % item.interval == 0)
        <==> (item.interval != 0 && (date - start) % item.interval == 0)
  {
    DaysDiffOfMidnights(start, date);
    if item.interval != 0 {
      AbsDivisible(date - start, item.interval);
    }
  }

  lemma {:induction false} AggregatesClosedForm(b: real, items: seq<AggregateExpense>, start: Day, date: Day)
    requires AllFiniteInstallments(items)
    ensures ApplyAggregateExpenses(Finite(b), items, date, Midnight(start)) == Finite(b + AggregateChange(items, start, date))
    decreases |items|
  {
    if items != [] {
      assert AllFiniteInstallments(items[..|items| - 1]);
      AggregatesClosedForm(b, items[..|items| - 1], start, date);
      AggregateOnInterval(items[|items| - 1], start, date);
    }
  }

  /** With every installment finite, a day moves a finite balance by exactly
      the day's change. */
  lemma DayStepClosedForm(form: FinanceForm, start: Day, b: real, date: Day)
    requires AllFiniteInstallments(form.aggregateExpenses)
    ensures DayStep(form, Midnight(start), Finite(b), date) == Finite(b + DayChange(form, start, date))
  {
    var b1 := b + BudgetChange(form.budgetItems, date);
    var b2 := b1 + IncomeChange(form.incomeItems, date);
    var b3 := b2 + OneTimeChange(form.oneTimeItems, date);
    BudgetItemsClosedForm(b, form.budgetItems, date);
    IncomeItemsClosedForm(b1, form.incomeItems, date);
    OneTimeItemsClosedForm(b2, form.oneTimeItems, date);
    AggregatesClosedForm(b3, form.aggregateExpenses, start, date);
  }

  // ---------------------------------------------------------------------
  // The whole projection

  /** With every installment finite, entry `i` of a projection is the
      starting balance plus the change over the first `i + 1` days. */
  lemma {:induction false} ProjectionClosedForm(form: FinanceForm, start: Day, b: real, dates: seq<Day>, i: nat)
    requires AllFiniteInstallments(form.aggregateExpenses)
    requires i < |dates|
    ensures Projection(form, Midnight(start), Finite(b), dates)[i] == Finite(b + CumulativeChange(form, start, dates[..i + 1]))
    decreases i
  {
    DayStepClosedForm(form, start, b, dates[0]);
    var next := b + DayChange(form, start, dates[0]);
    assert dates[..i + 1][0] == dates[0];
    if i > 0 {
      ProjectionClosedForm(form, start, next, dates[1..], i - 1);
      assert dates[..i + 1][1..] == dates[1..][..i];
    } else {
      assert dates[..1][1..] == [];
    }
  }

  /** The component's projection, entry by entry, with every installment finite. */
  lemma ProjectedBalancesClosedForm(form: FinanceForm, i: nat)
    requires AllFiniteInstallments(form.aggregateExpenses)
    requires i < |DateList(form)|
    ensures ProjectedBalances(form)[i] == Finite(form.startingBalance + CumulativeChange(form, ShiftedStart(form), DateList(form)[..i + 1]))
  {
    ProjectionClosedForm(form, ShiftedStart(form), form.startingBalance, DateList(form), i);
  }

  /** With no items, every day's balance is the starting balance, and there
      are `|end - start| + 1` of them. */
  lemma EmptyFormIsConstant(form: FinanceForm)
    requires form.budgetItems == [] && form.incomeItems == [] && form.oneTimeItems == [] && form.aggregateExpenses == []
    ensures |ProjectedBalances(form)| == DayCount(form) + 1
    ensures forall i :: 0 <= i < |ProjectedBalances(form)| ==> ProjectedBalances(form)[i] == Finite(form.startingBalance)
  {
    forall i | 0 <= i < |ProjectedBalances(form)|
      ensures ProjectedBalances(form)[i] == Finite(form.startingBalance)
    {
      ProjectionClosedForm(form, ShiftedStart(form), form.startingBalance, DateList(form), i);
      NoChange(form, ShiftedStart(form), DateList(form)[..i + 1]);
    }
  }

  lemma {:induction false} NoChange(form: FinanceForm, start: Day, dates: seq<Day>)
    requires form.budgetItems == [] && form.incomeItems == [] && form.oneTimeItems == [] && form.aggregateExpenses == []
    ensures CumulativeChange(form, start, dates) == 0.0
    decreases |dates|
  {
    if dates != [] {
      NoChange(form, start, dates[1..]);
    }
  }

  // ---------------------------------------------------------------------
  // One item at a time

  /** A budget item pays exactly on the days whose day of the month is that
      of its due date, in every month and year. */
  lemma BudgetItemEffect(form: FinanceForm, item: BudgetItem, start: Time, b: real, date: Day)
    requires form.budgetItems == [item] && form.incomeItems == [] && form.oneTimeItems == [] && form.aggregateExpenses == []
    ensures DayStep(form, start, Finite(b), date)
      == if DayOfMonth(date) == DayOfMonth(item.dueDate) then Finite(b - item.payment) else Finite(b)
  {
    BudgetItemsClosedForm(b, [item], date);
  }

  /** An income item pays exactly on the days a whole number of pay periods
      before or after its reference date. */
  lemma IncomeItemEffect(form: FinanceForm, item: IncomeItem, start: Time, b: real, date: Day)
    requires form.budgetItems == [] && form.incomeItems == [item] && form.oneTimeItems == [] && form.aggregateExpenses == []
    ensures DayStep(form, start, Finite(b), date)
      == if (date - item.recentPaymentDate) % (if item.frequency == "biweekly" then 14 else 28) == 0
         then Finite(b + item.amount) else Finite(b)
  {
    IncomeItemsClosedForm(b, [item], date);
  }

  /** Every multiple of the pay period away from the reference date is a
      pay day: the reference date itself, later days and earlier days. */
  lemma IncomeRecursBothWays(item: IncomeItem, n: int)
    ensures DateIsOnInterval(Midnight(item.recentPaymentDate + n * IncomeInterval(item.frequency)),
                             Midnight(item.recentPaymentDate), IncomeInterval(item.frequency))
  {
    var period := IncomeInterval(item.frequency);
    IncomeOnInterval(item, item.recentPaymentDate + n * period);
    ModOfMultiple(period, n);
  }

  /** A one-time item moves the balance on its due date only: out for an
      "expense", in for any other direction. */
  lemma OneTimeItemEffect(form: FinanceForm, item: OneTimeItem, start: Time, b: real, date: Day)
    requires form.budgetItems == [] && form.incomeItems == [] && form.oneTimeItems == [item] && form.aggregateExpenses == []
    ensures DayStep(form, start, Finite(b), date)
      == if date != item.dueDate then Finite(b)
         else if item.direction == "expense" then Finite(b - item.amount)
         else Finite(b + item.amount)
  {
    OneTimeItemsClosedForm(b, [item], date);
  }

  /** An aggregate expense pays its installment exactly on the days a whole
      number of intervals from the day it is measured from. */
  lemma AggregateItemEffect(form: FinanceForm, item: AggregateExpense, start: Day, b: real, date: Day)
    requires form.budgetItems == [] && form.incomeItems == [] && form.oneTimeItems == [] && form.aggregateExpenses == [item]
    requires HasFiniteInstallment(item)
    ensures DayStep(form, Midnight(start), Finite(b), date)
      == if item.interval != 0 && (date - start) % item.interval == 0
         then Finite(b - InstallmentAmount(item).value) else Finite(b)
  {
    assert AllFiniteInstallments([item]);
    AggregatesClosedForm(b, [item], start, date);
  }

  /** Because the start date has been advanced past the whole day list,
      aggregate expenses are counted back from the end: entry `i` pays
      exactly when the interval divides `DayCount(form) - i`. */
  lemma AggregateCountsBackFromEnd(form: FinanceForm, item: AggregateExpense, balance: Num, i: nat)
    requires i < |DateList(form)|
    ensures CalculateAggregateExpenseChange(item, balance, DateList(form)[i], Midnight(ShiftedStart(form)))
      == if item.interval != 0 && (DayCount(form) - i) % item.interval == 0
         then Minus(balance, InstallmentAmount(item)) else balance
  {
    var date := DateList(form)[i];
    AggregateOnInterval(item, ShiftedStart(form), date);
    if item.interval != 0 {
      AbsDivisible(DayCount(form) - i, item.interval);
      assert date - ShiftedStart(form) == -(DayCount(form) - i);
      AbsDivisible(date - ShiftedStart(form), item.interval);
    }
  }

  /** The last entry of the day list always pays every aggregate expense
      with a non-zero interval. */
  lemma LastEntryPaysEveryAggregate(form: FinanceForm, item: AggregateExpense, balance: Num)
    requires item.interval != 0
    ensures CalculateAggregateExpenseChange(item, balance, DateList(form)[DayCount(form)], Midnight(ShiftedStart(form)))
      == Minus(balance, InstallmentAmount(item))
  {
    AggregateCountsBackFromEnd(form, item, balance, DayCount(form));
  }

  /** The installment is a finite number exactly when the interval is 0 or
      rounds to at least one installment in 30 days: `-60 < interval <= 60`. */
  lemma FiniteInstallmentRange(item: AggregateExpense)
    ensures HasFiniteInstallment(item) <==> -60 < item.interval <= 60
  {
    var i := item.interval;
    if i != 0 {
      var q := 30.0 / i as real;
      assert q * i as real == 30.0;
      if i > 60 {
        assert q < 0.5;
        assert q > 0.0;
        JsRoundUnique(q, 0);
      } else if 0 < i {
        assert q >= 0.5;
        assert JsRound(q) >= 1;
      } else if i <= -60 {
        assert q >= -0.5;
        assert q < 0.0;
        JsRoundUnique(q, 0);
      } else {
        assert q < -0.5;
        assert JsRound(q) <= -1;
      }
    }
  }

  /** The installments of the sample aggregate expenses: 600 every 7 days is
      four installments of 150, 225 every 14 days two of 113 (112.5 rounds
      up), 150 every 7 days four of 38 (37.5 rounds up). */
  lemma SampleInstallments()
    ensures InstallmentAmount(AggregateExpense("Groceries", 600.0, 7)) == Finite(150.0)
    ensures InstallmentAmount(AggregateExpense("Pathfinder Gas", 225.0, 14)) == Finite(113.0)
    ensures InstallmentAmount(AggregateExpense("Accent Gas", 150.0, 7)) == Finite(38.0)
  {
    JsRoundUnique(30.0 / 7.0, 4);
    JsRoundUnique(30.0 / 14.0, 2);
    JsRoundUnique(600.0 / 4.0, 150);
    JsRoundUnique(225.0 / 2.0, 113);
    JsRoundUnique(150.0 / 4.0, 38);
  }

  // ---------------------------------------------------------------------
  // Non-finite balances

  lemma {:induction false} NonFiniteBudget(items: seq<BudgetItem>, t: Time)
    ensures ApplyBudgetItems(NonFinite, items, t) == NonFinite
    decreases |items|
  {
    if items != [] { NonFiniteBudget(items[..|items| - 1], t); }
  }

  lemma {:induction false} NonFiniteIncome(items: seq<IncomeItem>, t: Time)
    ensures ApplyIncomeItems(NonFinite, items, t) == NonFinite
    decreases |items|
  {
    if items != [] { NonFiniteIncome(items[..|items| - 1], t); }
  }

  lemma {:induction false} NonFiniteOneTime(items: seq<OneTimeItem>, t: Time)
    ensures ApplyOneTimeItems(NonFinite, items, t) == NonFinite
    decreases |items|
  {
    if items != [] { NonFiniteOneTime(items[..|items| - 1], t); }
  }

  lemma {:induction false} NonFiniteAggregates(items: seq<AggregateExpense>, date: Day, start: Time)
    ensures ApplyAggregateExpenses(NonFinite, items, date, start) == NonFinite
    decreases |items|
  {
    if items != [] { NonFiniteAggregates(items[..|items| - 1], date, start); }
  }

  /** Once the balance is not a finite number, it stays so for every later day. */
  lemma {:induction false} NonFiniteIsSticky(form: FinanceForm, start: Time, dates: seq<Day>)
    ensures forall i :: 0 <= i < |dates| ==> Projection(form, start, NonFinite, dates)[i] == NonFinite
    decreases |dates|
  {
    if dates != [] {
      var t := Midnight(dates[0]);
      NonFiniteBudget(form.budgetItems, t);
      NonFiniteIncome(form.incomeItems, t);
      NonFiniteOneTime(form.oneTimeItems, t);
      NonFiniteAggregates(form.aggregateExpenses, dates[0], start);
      NonFiniteIsSticky(form, start, dates[1..]);
    }
  }

  // ---------------------------------------------------------------------
  // Date strings

  /** A date input's "yyyy-mm-dd" becomes "mm/dd/yyyy": the middle part is
      the month, whatever the comment in the source calls it. */
  lemma FormatIsoDate(year: string, month: string, day: string)
    requires '-' !in year && '-' !in month && '-' !in day
    ensures FormatCalendarDateString(year + "-" + month + "-" + day) == month + "/" + day + "/" + year
  {
    var parts := [year, month, day];
    assert Join(parts, '-') == year + "-" + month + "-" + day by {
      assert Join(parts[2..], '-') == day;
      assert Join(parts[1..], '-') == month + "-" + day;
    }
    SplitJoin(parts, '-');
  }
}
