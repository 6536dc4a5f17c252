/** The input schemas (src/lib/validation/inputSchemas.ts) as validity
    predicates.  Currencies and asset classes are datatypes here, so the
    enum checks hold by construction. */
module Validation {
  import opened Types
  import opened Fx
  import opened Strings

  predicate ValidFx(fx: FxConfig) {
    PositiveRates(fx.baseRates) && 0.0 <= fx.volatility <= 2.0
  }

  predicate ValidAsset(a: Asset) {
    |a.id| >= 1 && |a.name| >= 1 && a.value >= 0.0 && a.volatility >= 0.0 &&
    0.0 <= a.salePenalty <= 1.0 && a.liquidityDelayDays >= 0
  }

  predicate ValidDebt(d: Debt) {
    |d.id| >= 1 && |d.name| >= 1 && d.principal >= 0.0 && d.apr >= 0.0 && d.minPayment >= 0.0 &&
    d.missedPayments >= 0
  }

  predicate ValidIncome(inc: IncomeStream) {
    |inc.id| >= 1 && |inc.name| >= 1 && inc.monthlyAmount >= 0.0 && 0 <= inc.dayOfMonth <= 28
  }

  predicate ValidExpense(e: Expense) {
    |e.id| >= 1 && |e.name| >= 1 && e.monthlyAmount >= 0.0
  }

  /** A bracket's floor and ceiling are at least 0 and its rate in [0, 1];
      the floor need not lie below the ceiling. */
  predicate ValidBracket(b: TaxBracket) {
    b.floor >= 0.0 && (b.ceiling.Finite? ==> b.ceiling.bound >= 0.0) && 0.0 <= b.rate <= 1.0
  }

  predicate ValidShock(s: ShockPreset) {
    |s.id| >= 1 && |s.name| >= 1 && s.day >= 0 && s.severity >= 0.0
  }

  /** `SimulationInputSchema`.  The name's bounds count UTF-16 code units,
      as `string.length` does; for the other strings `min(1)` only asks that
      they are not empty, which both counts agree on. */
  predicate ValidInput(input: SimulationInput) {
    && 1 <= Utf16Length(input.name) <= 100
    && 1 <= input.horizonDays <= 1825
    && ValidFx(input.fx)
    && (forall i :: 0 <= i < |input.incomes| ==> ValidIncome(input.incomes[i]))
    && (forall i :: 0 <= i < |input.expenses| ==> ValidExpense(input.expenses[i]))
    && (forall i :: 0 <= i < |input.debts| ==> ValidDebt(input.debts[i]))
    && (forall i :: 0 <= i < |input.assets| ==> ValidAsset(input.assets[i]))
    && (forall i :: 0 <= i < |input.taxBrackets| ==> ValidBracket(input.taxBrackets[i]))
    && (forall i :: 0 <= i < |input.shocks| ==> ValidShock(input.shocks[i]))
    && 0.0 <= input.cashReserveRatio <= 1.0
  }

  /** `DaySnapshotSchema`: only the day is constrained. */
  predicate ValidSnapshot(s: DaySnapshot) {
    s.day >= 0
  }

  /** What a valid input guarantees the engine: positive base rates and a
      bounded volatility (so every conversion divides by a positive rate),
      a horizon of at least one day and a reserve ratio in [0, 1]. */
  lemma ValidInputFacts(input: SimulationInput)
    requires ValidInput(input)
    ensures input.fx.baseRates.eur > 0.0 && input.fx.baseRates.pkr > 0.0
    ensures 0.0 <= input.fx.volatility <= 2.0
    ensures input.horizonDays >= 1 && 0.0 <= input.cashReserveRatio <= 1.0
    ensures forall i :: 0 <= i < |input.assets| ==> 0.0 <= input.assets[i].salePenalty <= 1.0
    ensures forall i :: 0 <= i < |input.incomes| ==> input.incomes[i].monthlyAmount >= 0.0
    ensures forall i :: 0 <= i < |input.expenses| ==> input.expenses[i].monthlyAmount >= 0.0
    ensures forall i :: 0 <= i < |input.debts| ==> input.debts[i].apr >= 0.0
    ensures forall i :: 0 <= i < |input.taxBrackets| ==> 0.0 <= input.taxBrackets[i].rate <= 1.0
  {
    forall i | 0 <= i < |input.assets|
      ensures 0.0 <= input.assets[i].salePenalty <= 1.0
    {
      assert ValidAsset(input.assets[i]);
    }
    forall i | 0 <= i < |input.incomes|
      ensures input.incomes[i].monthlyAmount >= 0.0
    {
      assert ValidIncome(input.incomes[i]);
    }
    forall i | 0 <= i < |input.expenses|
      ensures input.expenses[i].monthlyAmount >= 0.0
    {
      assert ValidExpense(input.expenses[i]);
    }
    forall i | 0 <= i < |input.debts|
      ensures input.debts[i].apr >= 0.0
    {
      assert ValidDebt(input.debts[i]);
    }
    forall i | 0 <= i < |input.taxBrackets|
      ensures 0.0 <= input.taxBrackets[i].rate <= 1.0
    {
      assert ValidBracket(input.taxBrackets[i]);
    }
  }

  /** The rejections the validation tests make: a horizon of -1, 0 or 2000,
      an empty name and a reserve ratio of 1.5 each make an input invalid,
      whatever else it holds. */
  lemma RejectedInputs(input: SimulationInput)
    ensures !ValidInput(input.(horizonDays := -1)) && !ValidInput(input.(horizonDays := 0))
    ensures !ValidInput(input.(horizonDays := 2000))
    ensures !ValidInput(input.(name := ""))
    ensures !ValidInput(input.(cashReserveRatio := 1.5))
  {
  }

  /** The horizon and name bounds are tight: changing only the horizon to 1
      or 1825, or only the name to one of 1 to 100 code units, keeps a valid
      input valid. */
  lemma AcceptedBounds(input: SimulationInput, name: string)
    requires ValidInput(input) && 1 <= Utf16Length(name) <= 100
    ensures ValidInput(input.(horizonDays := 1)) && ValidInput(input.(horizonDays := 1825))
    ensures ValidInput(input.(name := name))
    ensures ValidInput(input.(horizonDays := 730, startingCash := 10000.0))
  {
  }

  /** A name of 1 to 100 characters, none above U+FFFF, is accepted. */
  lemma BasicNameAccepted(input: SimulationInput, name: string)
    requires ValidInput(input) && 1 <= |name| <= 100
    requires forall i :: 0 <= i < |name| ==> name[i] as int <= 0xFFFF
    ensures ValidInput(input.(name := name))
  {
    Utf16LengthBasic(name);
  }

  /** A name of 51 characters above U+FFFF has a `length` of 102, so the
      schema rejects it although it has fewer than 100 characters. */
  lemma SupplementaryNameRejected(input: SimulationInput, name: string)
    requires |name| == 51 && forall i :: 0 <= i < |name| ==> name[i] as int > 0xFFFF
    ensures !ValidInput(input.(name := name))
  {
    Utf16LengthSupplementary(name);
  }
}
