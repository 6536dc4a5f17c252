/** The plain data of the Future Wallet engine: configuration, per-day
    snapshots, summaries and run results.  Money is modelled as `real`, so
    the engine's floating-point determinism holds trivially here. */
module Types {

  /** Supported currencies. */
  datatype Currency = USD | EUR | PKR

  /** Exchange rates relative to USD: units of EUR (resp. PKR) per USD. */
  datatype Rates = Rates(eur: real, pkr: real)

  /** One cost-basis tranche of an asset, oldest first in an asset's lot list. */
  datatype Lot = Lot(costBasis: real, value: real)

  datatype FxConfig = FxConfig(baseRates: Rates, volatility: real)

  datatype AssetClass = Cash | Savings | IndexFund | RealEstate | Crypto

  datatype Asset = Asset(
    id: string,
    name: string,
    assetClass: AssetClass,
    value: real,
    currency: Currency,
    expectedReturn: real,   // annual
    volatility: real,       // annual, for the quantile bands
    salePenalty: real,      // fraction lost on a sale
    liquidityDelayDays: int,
    locked: bool)

  datatype Debt = Debt(
    id: string,
    name: string,
    principal: real,
    currency: Currency,
    apr: real,
    minPayment: real,
    missedPayments: int)

  datatype IncomeStream = IncomeStream(
    id: string,
    name: string,
    monthlyAmount: real,
    currency: Currency,
    dayOfMonth: int)        // 0 means "spread over the pseudo-month"

  datatype Expense = Expense(
    id: string,
    name: string,
    monthlyAmount: real,
    currency: Currency,
    essential: bool)

  /** A bracket's upper bound; the last bracket is usually unbounded (Infinity). */
  datatype Ceiling = Finite(bound: real) | Unbounded

  datatype TaxBracket = TaxBracket(floor: real, ceiling: Ceiling, rate: real)

  datatype ShockPreset = ShockPreset(
    id: string,
    name: string,
    day: int,
    amount: real,           // negative = cost
    currency: Currency,
    enabled: bool,
    severity: real)

  datatype SimulationInput = SimulationInput(
    name: string,
    horizonDays: int,
    baseCurrency: Currency,
    fx: FxConfig,
    startingCash: real,
    incomes: seq<IncomeStream>,
    expenses: seq<Expense>,
    debts: seq<Debt>,
    assets: seq<Asset>,
    taxBrackets: seq<TaxBracket>,
    shocks: seq<ShockPreset>,
    cashReserveRatio: real)

  /** Optional runtime overrides; an absent option is an empty map or list. */
  datatype RuntimeOptions = RuntimeOptions(
    fxRatesByDay: map<int, Rates>,
    initialAssetLots: map<string, seq<Lot>>,
    liquidationOrder: seq<string>)

  const NoOptions := RuntimeOptions(map[], map[], [])

  datatype DaySnapshot = DaySnapshot(
    day: int,
    balance: real,
    nav: real,
    creditScore: real,
    balanceP5: real,
    balanceP95: real,
    navP5: real,
    navP95: real)

  datatype VibeTier = Thriving | Stable | Stressed | Crisis | Collapse

  datatype FiredShock = FiredShock(day: int, shockId: string, amount: real)

  /** A JavaScript division result that may be -Infinity (x / 0 with x < 0). */
  datatype Ratio = Finite(value: real) | MinusInfinity

  datatype Summary = Summary(
    finalBalance: real,
    finalBalanceP5: real,
    finalBalanceP95: real,
    finalNav: real,
    finalNavP5: real,
    finalNavP95: real,
    finalCreditScore: real,
    collapseProbability: real,
    collapseDay: Option<int>,
    shockResilienceIndex: real,
    shockClusteringDensity: real,
    shockIntensityAverage: real,
    recoverySlope: real,
    vibeTier: VibeTier,
    liquidityRatio: Ratio,
    deficitDays: int,
    taxesPaid: real,
    realizedGains: real,
    assetEndingValues: map<string, real>)

  datatype SimulationResult = SimulationResult(
    input: SimulationInput,
    summary: Summary,
    dailySnapshots: seq<DaySnapshot>,
    weeklySnapshots: seq<DaySnapshot>,
    firedShocks: seq<FiredShock>)

  datatype CounterfactualInsights = CounterfactualInsights(
    balanceDeltaNoShocksVsActual: real,
    navDeltaNoShocksVsActual: real)

  datatype CounterfactualResult = CounterfactualResult(
    withShocks: SimulationResult,
    withoutShocks: SimulationResult,
    insights: CounterfactualInsights)

  datatype Option<+T> = None | Some(value: T)

  /** The transcendental functions of the host (Math.sin, Math.exp,
      Math.sqrt), which the model does not compute itself. */
  datatype HostMath = HostMath(sin: real -> real, exp: real -> real, sqrt: real -> real)

  /** The only facts about the host's functions that the model relies on. */
  ghost predicate SoundMath(m: HostMath) {
    && (forall x :: -1.0 <= m.sin(x) <= 1.0)
    && (forall x :: m.exp(x) > 0.0)
  }

  /** JavaScript's `%` on integers: the remainder has the sign of the
      dividend (Dafny's `%` is never negative). */
  function JsRem(a: int, n: int): int
    requires n > 0
  {
    if a >= 0 then a % n else -((-a) % n)
  }

  /** `Math.min` and `Math.max` on two numbers. */
  function Min(a: real, b: real): real {
    if a <= b then a else b
  }

  function Max(a: real, b: real): real {
    if a >= b then a else b
  }

  /** `m.get(k) ?? 0` on a number-valued map. */
  function Get(m: map<string, real>, k: string): real {
    if k in m then m[k] else 0.0
  }
}
