/** The metrics component and the derived indicators
    (src/lib/engine/modules/metrics.ts): the daily credit-score update,
    the vibe tier and the shock resilience index. */
module Metrics {
  import opened Types
  import opened Sums
  import opened Graph

  /** `computeCreditScore`: a penalty of 5 per missed payment, a debt penalty
      of 100 per unit of debt ratio capped at 200, a history bonus of 0.01 per
      day capped at 50 and a drift of +0.5, clamped to [300, 850]. */
  function RawCreditScore(current: real, debtRatio: real, missedPayments: int, day: int): real {
    current - missedPayments as real * 5.0 - Min(debtRatio * 100.0, 200.0) + Min(day as real * 0.01, 50.0) + 0.5
  }

  function CreditScore(current: real, debtRatio: real, missedPayments: int, day: int): real {
    Max(300.0, Min(850.0, RawCreditScore(current, debtRatio, missedPayments, day)))
  }

  /** The score always lies in [300, 850], and equals the unclamped update
      whenever that lies in the range. */
  lemma CreditScoreRange(current: real, debtRatio: real, missedPayments: int, day: int)
    ensures 300.0 <= CreditScore(current, debtRatio, missedPayments, day) <= 850.0
    ensures var raw := RawCreditScore(current, debtRatio, missedPayments, day);
            300.0 <= raw <= 850.0 ==> CreditScore(current, debtRatio, missedPayments, day) == raw
    ensures var raw := RawCreditScore(current, debtRatio, missedPayments, day);
            raw < 300.0 ==> CreditScore(current, debtRatio, missedPayments, day) == 300.0
    ensures var raw := RawCreditScore(current, debtRatio, missedPayments, day);
            raw > 850.0 ==> CreditScore(current, debtRatio, missedPayments, day) == 850.0
  {
  }

  /** More missed payments, or a higher debt ratio, never raise the score;
      a higher current score never lowers it. */
  lemma CreditScoreMonotone(c1: real, c2: real, r1: real, r2: real, m1: int, m2: int, day: int)
    requires c1 <= c2 && r2 <= r1 && m2 <= m1
    ensures CreditScore(c1, r1, m1, day) <= CreditScore(c2, r2, m2, day)
  {
    assert RawCreditScore(c1, r1, m1, day) <= RawCreditScore(c2, r2, m2, day);
  }

  /** A liquidity ratio below a bound; -Infinity is below every bound. */
  predicate Below(r: Ratio, bound: real) {
    r.MinusInfinity? || r.value < bound
  }

  /** `computeVibeTier`: the first matching tier of Collapse, Crisis,
      Stressed and Thriving, else Stable. */
  function VibeTierOf(balance: real, nav: real, creditScore: real, deficitDays: int, liquidityRatio: Ratio): VibeTier {
    if deficitDays >= 90 || nav < 0.0 then Collapse
    else if deficitDays >= 30 || creditScore < 400.0 || Below(liquidityRatio, 0.05) then Crisis
    else if deficitDays >= 7 || creditScore < 550.0 || Below(liquidityRatio, 0.15) then Stressed
    else if creditScore >= 700.0 && !Below(liquidityRatio, 0.3) && balance > 0.0 then Thriving
    else Stable
  }

  /** Tiers from worst (0) to best (4). */
  function Rank(t: VibeTier): nat {
    match t
    case Collapse => 0
    case Crisis => 1
    case Stressed => 2
    case Stable => 3
    case Thriving => 4
  }

  /** Each tier in terms of the indicators: what it takes, in cascade order. */
  lemma VibeTierCases(balance: real, nav: real, creditScore: real, deficitDays: int, lr: Ratio)
    ensures var t := VibeTierOf(balance, nav, creditScore, deficitDays, lr);
            (t == Collapse <==> deficitDays >= 90 || nav < 0.0) &&
            (t == Thriving <==> deficitDays < 7 && nav >= 0.0 && creditScore >= 700.0 && !Below(lr, 0.3) && balance > 0.0) &&
            (t == Stable ==> deficitDays < 7 && nav >= 0.0 && creditScore >= 550.0 && !Below(lr, 0.15)) &&
            (t == Stressed ==> deficitDays < 30 && nav >= 0.0 && creditScore >= 400.0 && !Below(lr, 0.05)) &&
            (t == Crisis ==> deficitDays < 90 && nav >= 0.0)
  {
  }

  /** A longer deficit history or a lower credit score never gives a better
      tier. */
  lemma VibeTierMonotone(balance: real, nav: real, cs1: real, cs2: real, d1: int, d2: int, lr: Ratio)
    requires cs1 <= cs2 && d2 <= d1
    ensures Rank(VibeTierOf(balance, nav, cs1, d1, lr)) <= Rank(VibeTierOf(balance, nav, cs2, d2, lr))
  {
  }

  /** The five tier examples of the vibe tests. */
  lemma VibeExamples()
    ensures VibeTierOf(10000.0, 50000.0, 750.0, 0, Ratio.Finite(0.4)) == Thriving
    ensures VibeTierOf(5000.0, 20000.0, 650.0, 3, Ratio.Finite(0.2)) == Stable
    ensures VibeTierOf(1000.0, 5000.0, 520.0, 10, Ratio.Finite(0.1)) == Stressed
    ensures VibeTierOf(100.0, 1000.0, 380.0, 35, Ratio.Finite(0.03)) == Crisis
    ensures VibeTierOf(-5000.0, -10000.0, 350.0, 100, Ratio.Finite(0.0)) == Collapse
  {
  }

  /** The four parts of the resilience index before clamping. */
  function ResilienceSum(lr: real, debtServiceRatio: real, creditScore: real, deficitDays: int): real {
    Min(lr * 100.0, 30.0) + Max(0.0, 30.0 - debtServiceRatio * 50.0) + ((creditScore - 300.0) / 550.0) * 25.0 +
      Max(0.0, 15.0 - deficitDays as real * 0.5)
  }

  /** `computeRSI`, clamped to [0, 100].  A ratio of -Infinity makes the
      liquidity part, and so the sum, -Infinity, which clamps to 0. */
  function Rsi(lr: Ratio, debtServiceRatio: real, creditScore: real, deficitDays: int): real {
    match lr
    case MinusInfinity => 0.0
    case Finite(v) => Max(0.0, Min(100.0, ResilienceSum(v, debtServiceRatio, creditScore, deficitDays)))
  }

  /** The index lies in [0, 100]. */
  lemma RsiRange(lr: Ratio, debtServiceRatio: real, creditScore: real, deficitDays: int)
    ensures 0.0 <= Rsi(lr, debtServiceRatio, creditScore, deficitDays) <= 100.0
  {
  }

  /** With inputs in their natural ranges the parts are at most 30, 30, 25
      and 15, so the clamp to 100 never bites and the index is the sum. */
  lemma RsiUnclamped(lr: real, debtServiceRatio: real, creditScore: real, deficitDays: int)
    requires lr >= 0.0 && debtServiceRatio >= 0.0 && 300.0 <= creditScore <= 850.0 && deficitDays >= 0
    ensures Rsi(Ratio.Finite(lr), debtServiceRatio, creditScore, deficitDays) ==
            ResilienceSum(lr, debtServiceRatio, creditScore, deficitDays)
    ensures ResilienceSum(lr, debtServiceRatio, creditScore, deficitDays) <= 100.0
  {
    assert (creditScore - 300.0) / 550.0 <= 1.0;
  }

  /** The debt ratio the score uses: debts over nav when nav is positive,
      else 1. */
  function DebtRatio(totalDebts: real, nav: real): real {
    if nav > 0.0 then totalDebts / nav else 1.0
  }

  /** `MetricsNode.apply` on the state: nothing on day 0, else the new score. */
  ghost function ApplyMetrics(day: int, st: DayState): DayState {
    if day == 0 then st
    else st.(creditScore := CreditScore(st.creditScore, DebtRatio(SumValues(st.debts), Nav(st)), st.missedPayments, day))
  }

  /** Only the credit score changes, and it stays in range once a day has
      been run; on day 0 nothing changes. */
  lemma ApplyMetricsFrame(day: int, st: DayState)
    ensures var r := ApplyMetrics(day, st);
            r == st.(creditScore := r.creditScore) &&
            (day == 0 ==> r == st) &&
            (day != 0 ==> 300.0 <= r.creditScore <= 850.0)
  {
    if day != 0 {
      CreditScoreRange(st.creditScore, DebtRatio(SumValues(st.debts), Nav(st)), st.missedPayments, day);
    }
  }

  /** `MetricsNode`: it has no fields and no work in `prepare`. */
  class MetricsNode {
    constructor()
    {
    }

    method Apply(day: int, st: DayState) returns (r: DayState)
      ensures r == ApplyMetrics(day, st)
    {
      r := st;
      if day == 0 {
        return;
      }
      var totalAssets := SumMap(st.assets);
      var totalDebts := SumMap(st.debts);
      var nav := st.balance + totalAssets - totalDebts;
      var debtRatio := DebtRatio(totalDebts, nav);
      r := r.(creditScore := CreditScore(st.creditScore, debtRatio, st.missedPayments, day));
    }
  }
}
