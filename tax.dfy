/** The tax component (src/lib/engine/modules/tax.ts): once per pseudo-month,
    on day-in-month 30, the income earned and the gains realised since the
    last tax event are taxed through brackets consumed by width, in array
    order. */
module Tax {
  import opened Types
  import opened Graph

  /** A tax event happens on day-in-month 30 (`day % 30 + 1 === 30`). */
  predicate IsTaxDay(day: int) {
    JsRem(day, 30) + 1 == 30
  }

  /** For the days the engine runs (0 and up) the event day is `day mod 30 == 29`. */
  lemma TaxDayOfTheMonth(day: int)
    requires day >= 0
    ensures IsTaxDay(day) <==> day % 30 == 29
  {
  }

  /** Negative days (never simulated) are never tax days. */
  lemma NoTaxDayBeforeStart(day: int)
    requires day < 0
    ensures !IsTaxDay(day)
  {
  }

  /** The part of what is left that a bracket takes: all of it for an
      unbounded bracket, else at most the bracket's width
      `max(0, ceiling - floor)`. */
  function Slice(b: TaxBracket, remaining: real): real {
    match b.ceiling
    case Unbounded => remaining
    case Finite(c) => Min(remaining, Max(0.0, c - b.floor))
  }

  /** The tax levied on an amount at a rate. */
  function Levy(amount: real, rate: real): real {
    amount * rate
  }

  /** The bracket loop: until nothing is left or the brackets run out, each
      bracket taxes its slice at its rate. */
  function BracketTax(brackets: seq<TaxBracket>, remaining: real): real
    decreases |brackets|
  {
    if |brackets| == 0 || remaining <= 0.0 then 0.0
    else
      var taken := Slice(brackets[0], remaining);
      Levy(taken, brackets[0].rate) + BracketTax(brackets[1..], remaining - taken)
  }

  /** The total amount the bracket loop puts through a rate. */
  function AmountTaxed(brackets: seq<TaxBracket>, remaining: real): real
    decreases |brackets|
  {
    if |brackets| == 0 || remaining <= 0.0 then 0.0
    else
      var taken := Slice(brackets[0], remaining);
      taken + AmountTaxed(brackets[1..], remaining - taken)
  }

  /** The taxable amount of an event: all income since the last event plus
      the gains since then, the gains counted only when they are positive. */
  function Taxable(st: DayState, lastIncome: real, lastGains: real): real {
    (st.totalIncome - lastIncome) + Max(0.0, st.realizedGains - lastGains)
  }

  /** The fields the component keeps between days: the tax due today and the
      two watermarks of the last event. */
  datatype TaxLedger = TaxLedger(taxDue: real, lastTaxedIncome: real, lastTaxedGains: real)

  const InitialLedger := TaxLedger(0.0, 0.0, 0.0)

  /** `prepare` on the ledger.  Both watermarks advance on every event day,
      also when nothing turns out to be taxable. */
  function PrepareTax(day: int, st: DayState, brackets: seq<TaxBracket>, w: TaxLedger): TaxLedger {
    if !IsTaxDay(day) then w.(taxDue := 0.0)
    else
      var taxable := Taxable(st, w.lastTaxedIncome, w.lastTaxedGains);
      var due := if taxable <= 0.0 then 0.0 else BracketTax(brackets, taxable);
      TaxLedger(due, st.totalIncome, st.realizedGains)
  }

  /** `apply`: a positive tax due leaves the balance and is added to taxesPaid. */
  function ApplyTax(taxDue: real, st: DayState): DayState {
    if taxDue > 0.0 then st.(balance := st.balance - taxDue, taxesPaid := st.taxesPaid + taxDue)
    else st
  }

  predicate RatesAtLeastZero(brackets: seq<TaxBracket>) {
    forall i :: 0 <= i < |brackets| ==> brackets[i].rate >= 0.0
  }

  predicate RatesAtMostOne(brackets: seq<TaxBracket>) {
    forall i :: 0 <= i < |brackets| ==> 0.0 <= brackets[i].rate <= 1.0
  }

  lemma SliceBounds(b: TaxBracket, remaining: real)
    requires remaining > 0.0
    ensures 0.0 <= Slice(b, remaining) <= remaining
  {
  }

  lemma LevyBounds(amount: real, rate: real)
    requires amount >= 0.0 && 0.0 <= rate
    ensures Levy(amount, rate) >= 0.0
    ensures rate <= 1.0 ==> Levy(amount, rate) <= amount
  {
    if rate <= 1.0 {
      assert amount * rate <= amount * 1.0;
    }
  }

  /** The amount put through the rates never exceeds what was taxable, and
      is never negative. */
  lemma {:induction false} AmountTaxedBounds(brackets: seq<TaxBracket>, remaining: real)
    ensures 0.0 <= AmountTaxed(brackets, remaining) <= Max(0.0, remaining)
    decreases |brackets|
  {
    if |brackets| > 0 && remaining > 0.0 {
      var taken := Slice(brackets[0], remaining);
      SliceBounds(brackets[0], remaining);
      AmountTaxedBounds(brackets[1..], remaining - taken);
    }
  }

  /** Once an unbounded bracket is reached, all of the taxable amount is taxed. */
  lemma {:induction false} UnboundedTaxesAll(brackets: seq<TaxBracket>, remaining: real, k: int)
    requires 0 <= k < |brackets| && brackets[k].ceiling == Unbounded
    ensures AmountTaxed(brackets, remaining) == Max(0.0, remaining)
    decreases |brackets|
  {
    if remaining > 0.0 && k > 0 {
      var taken := Slice(brackets[0], remaining);
      UnboundedTaxesAll(brackets[1..], remaining - taken, k - 1);
      SliceBounds(brackets[0], remaining);
    }
  }

  /** With rates of at least 0 the tax is at least 0, and with rates of at
      most 1 it is at most the amount taxed. */
  lemma {:induction false} BracketTaxBounds(brackets: seq<TaxBracket>, remaining: real)
    requires RatesAtLeastZero(brackets)
    ensures BracketTax(brackets, remaining) >= 0.0
    ensures RatesAtMostOne(brackets) ==> BracketTax(brackets, remaining) <= AmountTaxed(brackets, remaining)
    decreases |brackets|
  {
    if |brackets| > 0 && remaining > 0.0 {
      var taken := Slice(brackets[0], remaining);
      SliceBounds(brackets[0], remaining);
      LevyBounds(taken, brackets[0].rate);
      BracketTaxBounds(brackets[1..], remaining - taken);
    }
  }

  /** A first bracket wide enough for the whole amount taxes it all at its
      own rate, whatever the later brackets are. */
  lemma WideFirstBracket(brackets: seq<TaxBracket>, remaining: real)
    requires |brackets| > 0 && remaining > 0.0
    requires Slice(brackets[0], remaining) == remaining
    ensures BracketTax(brackets, remaining) == Levy(remaining, brackets[0].rate)
  {
    assert BracketTax(brackets[1..], 0.0) == 0.0;
  }

  /** A first bracket is wide enough when it is unbounded or at least as wide
      as the amount. */
  lemma WideEnough(b: TaxBracket, remaining: real)
    requires remaining > 0.0
    requires b.ceiling.Unbounded? || (b.ceiling.Finite? && b.ceiling.bound - b.floor >= remaining)
    ensures Slice(b, remaining) == remaining
  {
  }

  /** On any other day nothing is due and the watermarks stay. */
  lemma NoTaxOffTaxDay(day: int, st: DayState, brackets: seq<TaxBracket>, w: TaxLedger)
    requires !IsTaxDay(day)
    ensures PrepareTax(day, st, brackets, w) == TaxLedger(0.0, w.lastTaxedIncome, w.lastTaxedGains)
  {
  }

  /** On an event day the watermarks move to the state's totals, nothing is
      due unless the taxable amount is positive, and with valid rates the tax
      due lies between 0 and the taxable amount. */
  lemma TaxDayLedger(day: int, st: DayState, brackets: seq<TaxBracket>, w: TaxLedger)
    requires IsTaxDay(day) && RatesAtMostOne(brackets)
    ensures var r := PrepareTax(day, st, brackets, w);
            var taxable := Taxable(st, w.lastTaxedIncome, w.lastTaxedGains);
            r.lastTaxedIncome == st.totalIncome && r.lastTaxedGains == st.realizedGains &&
            (taxable <= 0.0 ==> r.taxDue == 0.0) &&
            0.0 <= r.taxDue <= Max(0.0, taxable)
  {
    var taxable := Taxable(st, w.lastTaxedIncome, w.lastTaxedGains);
    BracketTaxBounds(brackets, taxable);
    AmountTaxedBounds(brackets, taxable);
  }

  /** Two consecutive events tax, between them, exactly the income earned
      since the first watermark: the income parts telescope. */
  lemma IncomeTelescopes(d1: int, d2: int, s1: DayState, s2: DayState, brackets: seq<TaxBracket>, w: TaxLedger)
    requires IsTaxDay(d1) && IsTaxDay(d2)
    ensures var w1 := PrepareTax(d1, s1, brackets, w);
            (s1.totalIncome - w.lastTaxedIncome) + (s2.totalIncome - w1.lastTaxedIncome) ==
              s2.totalIncome - w.lastTaxedIncome
  {
  }

  /** The same for the whole taxable amount: while realised gains do not
      fall, the taxable amounts of two consecutive events add up to the
      income and the gains since the first watermark, so neither is taxed
      twice. */
  lemma TaxableTelescopes(d1: int, d2: int, s1: DayState, s2: DayState, brackets: seq<TaxBracket>, w: TaxLedger)
    requires IsTaxDay(d1) && IsTaxDay(d2)
    requires w.lastTaxedGains <= s1.realizedGains <= s2.realizedGains
    ensures var w1 := PrepareTax(d1, s1, brackets, w);
            Taxable(s1, w.lastTaxedIncome, w.lastTaxedGains) + Taxable(s2, w1.lastTaxedIncome, w1.lastTaxedGains) ==
              Taxable(s2, w.lastTaxedIncome, w.lastTaxedGains)
  {
    assert PrepareTax(d1, s1, brackets, w).lastTaxedGains == s1.realizedGains;
  }

  /** `apply` moves the tax due from the balance to taxesPaid, so their sum
      is kept, and changes nothing else. */
  lemma ApplyTaxConserves(taxDue: real, st: DayState)
    ensures var r := ApplyTax(taxDue, st);
            r.balance + r.taxesPaid == st.balance + st.taxesPaid &&
            r.balance == st.balance - Max(0.0, taxDue) &&
            r == st.(balance := r.balance, taxesPaid := r.taxesPaid)
  {
  }

  /** The realised-gains example: a 200 gain under one bracket of 0 to
      1,000,000 at 20%, with no income, is taxed 40. */
  lemma GainsExample(day: int, st: DayState)
    requires IsTaxDay(day) && st.totalIncome == 0.0 && st.realizedGains == 200.0
    ensures PrepareTax(day, st, [TaxBracket(0.0, Ceiling.Finite(1000000.0), 0.2)], InitialLedger).taxDue == 40.0
  {
    var bs := [TaxBracket(0.0, Ceiling.Finite(1000000.0), 0.2)];
    assert Taxable(st, 0.0, 0.0) == 200.0;
    WideEnough(bs[0], 200.0);
    WideFirstBracket(bs, 200.0);
  }

  /** `TaxNode` with its three fields. */
  class TaxNode {
    var taxDue: real
    var lastTaxedIncome: real
    var lastTaxedGains: real

    constructor()
      ensures Ledger() == InitialLedger
    {
      taxDue := 0.0;
      lastTaxedIncome := 0.0;
      lastTaxedGains := 0.0;
    }

    function Ledger(): TaxLedger
      reads this
    {
      TaxLedger(taxDue, lastTaxedIncome, lastTaxedGains)
    }

    method Prepare(day: int, st: DayState, input: SimulationInput)
      modifies this
      ensures Ledger() == PrepareTax(day, st, input.taxBrackets, old(Ledger()))
    {
      taxDue := 0.0;
      var dayInMonth := JsRem(day, 30) + 1;
      if dayInMonth != 30 {
        return;
      }
      var monthlyIncome := st.totalIncome - lastTaxedIncome;
      var monthlyGains := Max(0.0, st.realizedGains - lastTaxedGains);
      lastTaxedIncome := st.totalIncome;
      lastTaxedGains := st.realizedGains;
      var taxableIncome := monthlyIncome + monthlyGains;
      if taxableIncome <= 0.0 {
        return;
      }
      var remaining := taxableIncome;
      var i := 0;
      while i < |input.taxBrackets|
        invariant 0 <= i <= |input.taxBrackets|
        invariant taxDue + BracketTax(input.taxBrackets[i..], remaining) == BracketTax(input.taxBrackets, taxableIncome)
        invariant lastTaxedIncome == st.totalIncome && lastTaxedGains == st.realizedGains
      {
        if remaining <= 0.0 {
          break;
        }
        var bracket := input.taxBrackets[i];
        assert input.taxBrackets[i..][1..] == input.taxBrackets[i + 1..];
        var taxableInBracket := Slice(bracket, remaining);
        taxDue := taxDue + Levy(taxableInBracket, bracket.rate);
        remaining := remaining - taxableInBracket;
        i := i + 1;
      }
    }

    method Apply(st: DayState) returns (r: DayState)
      ensures r == ApplyTax(taxDue, st)
    {
      r := st;
      if taxDue > 0.0 {
        r := r.(balance := r.balance - taxDue);
        r := r.(taxesPaid := r.taxesPaid + taxDue);
      }
    }
  }
}
