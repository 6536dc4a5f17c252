/** The expense component (src/lib/engine/modules/expense.ts): every
    expense is spread evenly over a 30-day month and debited each day. */
module Expense {
  import opened Types
  import opened Graph
  import opened Fx

  /** One expense's daily share in the base currency. */
  function DailyShare(e: Types.Expense, base: Currency, rates: Rates): real
    requires PositiveRates(rates)
  {
    Convert(e.monthlyAmount / 30.0, e.currency, base, rates)
  }

  /** The day's total over all expenses. */
  function DailyExpense(expenses: seq<Types.Expense>, base: Currency, rates: Rates): real
    requires PositiveRates(rates)
  {
    if |expenses| == 0 then 0.0
    else DailyExpense(expenses[..|expenses| - 1], base, rates) + DailyShare(expenses[|expenses| - 1], base, rates)
  }

  /** The monthly amounts converted to the base currency and summed. */
  function MonthlyExpense(expenses: seq<Types.Expense>, base: Currency, rates: Rates): real
    requires PositiveRates(rates)
  {
    if |expenses| == 0 then 0.0
    else
      var e := expenses[|expenses| - 1];
      MonthlyExpense(expenses[..|expenses| - 1], base, rates) + Convert(e.monthlyAmount, e.currency, base, rates)
  }

  /** Thirty days at fixed rates debit exactly the converted monthly total. */
  lemma {:induction false} ThirtyDaysMakeAMonth(expenses: seq<Types.Expense>, base: Currency, rates: Rates)
    requires PositiveRates(rates)
    ensures 30.0 * DailyExpense(expenses, base, rates) == MonthlyExpense(expenses, base, rates)
  {
    if |expenses| > 0 {
      var e := expenses[|expenses| - 1];
      var prefix := expenses[..|expenses| - 1];
      ThirtyDaysMakeAMonth(prefix, base, rates);
      var x := e.monthlyAmount / 30.0;
      var d, share := DailyExpense(prefix, base, rates), DailyShare(e, base, rates);
      assert share == Convert(x, e.currency, base, rates);
      ConvertScale(30.0, x, e.currency, base, rates);
      assert 30.0 * x == e.monthlyAmount;
      assert Convert(30.0 * x, e.currency, base, rates) == Convert(e.monthlyAmount, e.currency, base, rates);
      assert 30.0 * (d + share) == 30.0 * d + 30.0 * share;
    }
  }

  /** Amounts that are not negative give a daily total that is not negative. */
  lemma {:induction false} DailyExpenseNonNegative(expenses: seq<Types.Expense>, base: Currency, rates: Rates)
    requires PositiveRates(rates)
    requires forall i :: 0 <= i < |expenses| ==> expenses[i].monthlyAmount >= 0.0
    ensures DailyExpense(expenses, base, rates) >= 0.0
  {
    if |expenses| > 0 {
      var e := expenses[|expenses| - 1];
      DailyExpenseNonNegative(expenses[..|expenses| - 1], base, rates);
      ConvertSign(e.monthlyAmount / 30.0, e.currency, base, rates);
    }
  }

  /** `ExpenseNode`: `prepare` totals the day's expenses, `apply` debits them. */
  class ExpenseNode {
    var dailyTotal: real

    constructor()
      ensures dailyTotal == 0.0
    {
      dailyTotal := 0.0;
    }

    method Prepare(st: DayState, input: SimulationInput)
      requires PositiveRates(st.fxRates)
      modifies this
      ensures dailyTotal == DailyExpense(input.expenses, input.baseCurrency, st.fxRates)
    {
      dailyTotal := 0.0;
      var i := 0;
      while i < |input.expenses|
        invariant 0 <= i <= |input.expenses|
        invariant dailyTotal == DailyExpense(input.expenses[..i], input.baseCurrency, st.fxRates)
      {
        var e := input.expenses[i];
        dailyTotal := dailyTotal + Convert(e.monthlyAmount / 30.0, e.currency, input.baseCurrency, st.fxRates);
        assert input.expenses[..i + 1][..i] == input.expenses[..i];
        i := i + 1;
      }
      assert input.expenses[..i] == input.expenses;
    }

    /** Debits the day's expenses and adds them to the running total. */
    method Apply(st: DayState) returns (r: DayState)
      ensures r == st.(balance := st.balance - dailyTotal, totalExpenses := st.totalExpenses + dailyTotal)
      ensures r.balance + r.totalExpenses == st.balance + st.totalExpenses
    {
      r := st.(balance := st.balance - dailyTotal, totalExpenses := st.totalExpenses + dailyTotal);
    }
  }
}
