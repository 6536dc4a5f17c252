/** The income component (src/lib/engine/modules/income.ts): each day it
    totals what the income streams pay and credits it to the balance. */
module Income {
  import opened Types
  import opened Graph
  import opened Fx

  /** The day of a 30-day month, counted from 1. */
  function DayInMonth(day: int): int {
    JsRem(day, 30) + 1
  }

  /** What one stream pays on `day`, in the base currency: a stream with
      `dayOfMonth` 0 pays a thirtieth of its monthly amount every day, any
      other stream pays the whole amount on its day of the month. */
  function StreamPays(inc: IncomeStream, day: int, base: Currency, rates: Rates): real
    requires PositiveRates(rates)
  {
    if inc.dayOfMonth == 0 then Convert(inc.monthlyAmount / 30.0, inc.currency, base, rates)
    else if DayInMonth(day) == inc.dayOfMonth then Convert(inc.monthlyAmount, inc.currency, base, rates)
    else 0.0
  }

  /** The day's total over all streams. */
  function DailyIncome(incomes: seq<IncomeStream>, day: int, base: Currency, rates: Rates): real
    requires PositiveRates(rates)
  {
    if |incomes| == 0 then 0.0
    else DailyIncome(incomes[..|incomes| - 1], day, base, rates)
         + StreamPays(incomes[|incomes| - 1], day, base, rates)
  }

  /** A stream that pays on a fixed day pays nothing on the other days. */
  lemma StreamPaysOnItsDay(inc: IncomeStream, day: int, base: Currency, rates: Rates)
    requires PositiveRates(rates) && inc.dayOfMonth != 0
    ensures DayInMonth(day) == inc.dayOfMonth ==>
              StreamPays(inc, day, base, rates) == Convert(inc.monthlyAmount, inc.currency, base, rates)
    ensures DayInMonth(day) != inc.dayOfMonth ==> StreamPays(inc, day, base, rates) == 0.0
  {
  }

  /** Amounts that are not negative give a total that is not negative. */
  lemma {:induction false} DailyIncomeNonNegative(incomes: seq<IncomeStream>, day: int, base: Currency, rates: Rates)
    requires PositiveRates(rates)
    requires forall i :: 0 <= i < |incomes| ==> incomes[i].monthlyAmount >= 0.0
    ensures DailyIncome(incomes, day, base, rates) >= 0.0
  {
    if |incomes| > 0 {
      var last := incomes[|incomes| - 1];
      DailyIncomeNonNegative(incomes[..|incomes| - 1], day, base, rates);
      ConvertSign(last.monthlyAmount / 30.0, last.currency, base, rates);
      ConvertSign(last.monthlyAmount, last.currency, base, rates);
    }
  }

  /** What one stream pays over the `n` days from `start`, at fixed rates. */
  function StreamOverDays(inc: IncomeStream, start: int, n: nat, base: Currency, rates: Rates): real
    requires PositiveRates(rates)
  {
    if n == 0 then 0.0
    else StreamOverDays(inc, start, n - 1, base, rates) + StreamPays(inc, start + n - 1, base, rates)
  }

  lemma MonthDay(k: nat, j: int)
    requires 0 <= j < 30
    ensures DayInMonth(30 * k + j) == j + 1
  {
    assert (30 * k + j) % 30 == j;
  }

  lemma RepeatSnoc(n: nat, c: real)
    requires n > 0
    ensures (n - 1) as real * c + c == n as real * c
  {
  }

  /** A spread stream pays its daily share on each of the first `n` days of a month. */
  lemma {:induction false} MonthPrefixSpread(inc: IncomeStream, k: nat, n: nat, base: Currency, rates: Rates)
    requires PositiveRates(rates) && n <= 30 && inc.dayOfMonth == 0
    ensures StreamOverDays(inc, 30 * k, n, base, rates) ==
              n as real * Convert(inc.monthlyAmount / 30.0, inc.currency, base, rates)
  {
    if n > 0 {
      var c := Convert(inc.monthlyAmount / 30.0, inc.currency, base, rates);
      MonthPrefixSpread(inc, k, n - 1, base, rates);
      assert StreamPays(inc, 30 * k + n - 1, base, rates) == c;
      RepeatSnoc(n, c);
    }
  }

  /** A stream with a fixed day pays its monthly amount once within the first
      `n` days of a month when its day is among them, else nothing. */
  lemma {:induction false} MonthPrefixFixed(inc: IncomeStream, k: nat, n: nat, base: Currency, rates: Rates)
    requires PositiveRates(rates) && n <= 30 && inc.dayOfMonth != 0
    ensures StreamOverDays(inc, 30 * k, n, base, rates) ==
              if 1 <= inc.dayOfMonth <= n then Convert(inc.monthlyAmount, inc.currency, base, rates) else 0.0
  {
    if n > 0 {
      MonthPrefixFixed(inc, k, n - 1, base, rates);
      MonthDay(k, n - 1);
      if inc.dayOfMonth == n {
        assert StreamPays(inc, 30 * k + n - 1, base, rates) == Convert(inc.monthlyAmount, inc.currency, base, rates);
      } else {
        assert StreamPays(inc, 30 * k + n - 1, base, rates) == 0.0;
      }
    }
  }

  /** At fixed rates a 30-day month starting on a multiple of 30 pays exactly
      the monthly amount, whichever valid `dayOfMonth` the stream has. */
  lemma MonthPaysMonthlyAmount(inc: IncomeStream, k: nat, base: Currency, rates: Rates)
    requires PositiveRates(rates) && 0 <= inc.dayOfMonth <= 28
    ensures StreamOverDays(inc, 30 * k, 30, base, rates) == Convert(inc.monthlyAmount, inc.currency, base, rates)
  {
    if inc.dayOfMonth == 0 {
      MonthPrefixSpread(inc, k, 30, base, rates);
      ConvertScale(30.0, inc.monthlyAmount / 30.0, inc.currency, base, rates);
      assert 30.0 * (inc.monthlyAmount / 30.0) == inc.monthlyAmount;
    } else {
      MonthPrefixFixed(inc, k, 30, base, rates);
    }
  }

  /** `IncomeNode`: `prepare` totals the day's income, `apply` credits it. */
  class IncomeNode {
    var dailyTotal: real

    constructor()
      ensures dailyTotal == 0.0
    {
      dailyTotal := 0.0;
    }

    method Prepare(day: int, st: DayState, input: SimulationInput)
      requires PositiveRates(st.fxRates)
      modifies this
      ensures dailyTotal == DailyIncome(input.incomes, day, input.baseCurrency, st.fxRates)
    {
      dailyTotal := 0.0;
      var i := 0;
      while i < |input.incomes|
        invariant 0 <= i <= |input.incomes|
        invariant dailyTotal == DailyIncome(input.incomes[..i], day, input.baseCurrency, st.fxRates)
      {
        var inc := input.incomes[i];
        var dayInMonth := JsRem(day, 30) + 1;
        if dayInMonth == inc.dayOfMonth || inc.dayOfMonth == 0 {
          if inc.dayOfMonth == 0 {
            dailyTotal := dailyTotal + Convert(inc.monthlyAmount / 30.0, inc.currency, input.baseCurrency, st.fxRates);
          } else {
            dailyTotal := dailyTotal + Convert(inc.monthlyAmount, inc.currency, input.baseCurrency, st.fxRates);
          }
        }
        assert input.incomes[..i + 1][..i] == input.incomes[..i];
        i := i + 1;
      }
      assert input.incomes[..i] == input.incomes;
    }

    /** Credits the day's income to the balance and to the running total. */
    method Apply(st: DayState) returns (r: DayState)
      ensures r == st.(balance := st.balance + dailyTotal, totalIncome := st.totalIncome + dailyTotal)
      ensures r.balance - r.totalIncome == st.balance - st.totalIncome
    {
      r := st.(balance := st.balance + dailyTotal, totalIncome := st.totalIncome + dailyTotal);
    }
  }
}
