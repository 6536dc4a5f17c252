/** What a run of the daily loop of `simulate` (src/lib/engine/simulate.ts)
    guarantees: the snapshot lists, the deficit counters, the records kept
    from day to day, and the figures of the summary. */
module RunFacts {
  import opened Types
  import opened Graph
  import opened Fx
  import Shocks
  import Metrics
  import Sums
  import Assets
  import opened Simulate
  import Validation
  import Income
  import Expenses = Expense

  // ---------------------------------------------------------------------
  // The deficit counters and the weekly list, as functions of the daily list

  predicate InDeficit(s: DaySnapshot) {
    s.balance < 0.0
  }

  /** The number of deficit days. */
  function DeficitCount(d: seq<DaySnapshot>): nat {
    if |d| == 0 then 0 else DeficitCount(d[..|d| - 1]) + (if InDeficit(d[|d| - 1]) then 1 else 0)
  }

  /** The length of the run of deficit days that ends the list. */
  function TrailingDeficits(d: seq<DaySnapshot>): nat {
    if |d| == 0 || !InDeficit(d[|d| - 1]) then 0 else TrailingDeficits(d[..|d| - 1]) + 1
  }

  /** The longest run of deficit days anywhere in the list. */
  function LongestStreak(d: seq<DaySnapshot>): nat {
    if |d| == 0 then 0
    else
      var l := LongestStreak(d[..|d| - 1]);
      var c := TrailingDeficits(d);
      if c > l then c else l
  }

  /** Days `i` up to `j` (exclusive) are all deficit days. */
  predicate AllDeficit(d: seq<DaySnapshot>, i: int, j: int)
    requires 0 <= i <= j <= |d|
  {
    forall k :: i <= k < j ==> InDeficit(d[k])
  }

  /** A run of `len` deficit days starts at day `i`. */
  predicate StreakAt(d: seq<DaySnapshot>, i: int, len: int) {
    0 <= i && 0 <= len && i + len <= |d| && AllDeficit(d, i, i + len)
  }

  /** `w` holds days 0, 7, 14, ... of `d`: one for each started week. */
  predicate WeeklyOf(w: seq<DaySnapshot>, d: seq<DaySnapshot>) {
    && |d| <= 7 * |w| < |d| + 7
    && forall j :: 0 <= j < |w| ==> 7 * j < |d| && w[j] == d[7 * j]
  }

  /** The tracker's counters and weekly list agree with its daily list. */
  predicate Bookkept(t: Tracker) {
    && t.deficitDays == DeficitCount(t.daily)
    && t.consecutiveDeficit == TrailingDeficits(t.daily)
    && t.maxDeficitStreak == LongestStreak(t.daily)
    && WeeklyOf(t.weekly, t.daily)
  }

  lemma WeeklyAppend(w: seq<DaySnapshot>, d: seq<DaySnapshot>, snap: DaySnapshot)
    requires WeeklyOf(w, d)
    ensures |d| % 7 == 0 ==> WeeklyOf(w + [snap], d + [snap])
    ensures |d| % 7 != 0 ==> WeeklyOf(w, d + [snap])
  {
    var d' := d + [snap];
    if |d| % 7 == 0 {
      assert 7 * |w| == |d|;
      assert forall j :: 0 <= j < |w| ==> d'[7 * j] == d[7 * j];
    } else {
      assert 7 * |w| != |d| by {
        assert (7 * |w|) % 7 == 0;
      }
      assert forall j :: 0 <= j < |w| ==> d'[7 * j] == d[7 * j];
    }
  }

  /** One day's bookkeeping keeps the counters and the weekly list in step
      with the daily list, which grows by the day's snapshot. */
  lemma TrackKeeps(day: int, e: Engine, t: Tracker, volatility: real, m: HostMath)
    requires Bookkept(t) && day == |t.daily|
    ensures var r := Track(day, e, t, volatility, m);
            && Bookkept(r)
            && r.daily == t.daily + [SnapshotOf(e.state, day, volatility, m)]
            && r.engine == e
  {
    var snap := SnapshotOf(e.state, day, volatility, m);
    var d' := t.daily + [snap];
    assert d'[..|d'| - 1] == t.daily;
    WeeklyAppend(t.weekly, t.daily, snap);
  }

  // ---------------------------------------------------------------------
  // The streak functions

  /** The trailing run is a run of deficits, and the day before it (if any)
      is not a deficit day. */
  lemma {:induction false} TrailingDeficitsMeans(d: seq<DaySnapshot>)
    ensures var c := TrailingDeficits(d);
            && c <= |d| && AllDeficit(d, |d| - c, |d|)
            && (c < |d| ==> !InDeficit(d[|d| - c - 1]))
  {
    if |d| > 0 && InDeficit(d[|d| - 1]) {
      var init := d[..|d| - 1];
      TrailingDeficitsMeans(init);
      assert forall k :: 0 <= k < |init| ==> init[k] == d[k];
    }
  }

  /** Any run of deficits ending at the end of the list is at most the
      trailing run. */
  lemma {:induction false} TrailingIsLongestSuffix(d: seq<DaySnapshot>, i: int)
    requires 0 <= i <= |d| && AllDeficit(d, i, |d|)
    ensures |d| - i <= TrailingDeficits(d)
  {
    if i < |d| {
      var init := d[..|d| - 1];
      assert InDeficit(d[|d| - 1]);
      assert AllDeficit(init, i, |init|) by {
        assert forall k :: i <= k < |init| ==> init[k] == d[k];
      }
      TrailingIsLongestSuffix(init, i);
    }
  }

  /** Every run of deficit days is at most the longest streak. */
  lemma {:induction false} LongestStreakBounds(d: seq<DaySnapshot>, i: int, j: int)
    requires 0 <= i <= j <= |d| && AllDeficit(d, i, j)
    ensures j - i <= LongestStreak(d)
  {
    if |d| > 0 {
      var init := d[..|d| - 1];
      if j == |d| {
        TrailingIsLongestSuffix(d, i);
      } else {
        assert AllDeficit(init, i, j) by {
          assert forall k :: i <= k < j ==> init[k] == d[k];
        }
        LongestStreakBounds(init, i, j);
      }
    }
  }

  /** ... and it is one of them. */
  lemma {:induction false} LongestStreakAttained(d: seq<DaySnapshot>)
    ensures exists i :: StreakAt(d, i, LongestStreak(d))
  {
    if |d| == 0 {
      assert StreakAt(d, 0, LongestStreak(d));
    } else {
      var init := d[..|d| - 1];
      var c := TrailingDeficits(d);
      if c > LongestStreak(init) {
        TrailingDeficitsMeans(d);
        assert StreakAt(d, |d| - c, LongestStreak(d));
      } else {
        LongestStreakAttained(init);
        var i :| StreakAt(init, i, LongestStreak(init));
        assert forall k :: 0 <= k < |init| ==> init[k] == d[k];
        assert StreakAt(d, i, LongestStreak(d));
      }
    }
  }

  /** The trailing run is no longer than the longest, which is no longer
      than the deficit-day count, which is at most the number of days. */
  lemma {:induction false} CounterOrder(d: seq<DaySnapshot>)
    ensures TrailingDeficits(d) <= LongestStreak(d) <= DeficitCount(d) <= |d|
  {
    if |d| > 0 {
      var init := d[..|d| - 1];
      CounterOrder(init);
      TrailingUnderCount(d);
    }
  }

  lemma {:induction false} TrailingUnderCount(d: seq<DaySnapshot>)
    ensures TrailingDeficits(d) <= DeficitCount(d)
  {
    if |d| > 0 && InDeficit(d[|d| - 1]) {
      TrailingUnderCount(d[..|d| - 1]);
    }
  }

  // ---------------------------------------------------------------------
  // The first deficit day

  /** `findIndex`: -1 exactly when no day is in deficit; otherwise the
      first deficit day. */
  lemma {:induction false} FirstDeficitMeans(d: seq<DaySnapshot>)
    ensures var r := FirstDeficit(d);
            && (r == -1 <==> forall k :: 0 <= k < |d| ==> !InDeficit(d[k]))
            && (r != -1 ==> 0 <= r < |d| && InDeficit(d[r]) && forall k :: 0 <= k < r ==> !InDeficit(d[k]))
  {
    if |d| > 0 && !InDeficit(d[0]) {
      FirstDeficitMeans(d[1..]);
      assert forall k :: 0 < k < |d| ==> d[k] == d[1..][k - 1];
    }
  }

  /** A streak of 90 deficit days means a deficit day exists, and the first
      one comes no later than 90 days before the end. */
  lemma CollapseDayBound(d: seq<DaySnapshot>)
    requires LongestStreak(d) >= 90
    ensures var r := FirstDeficit(d);
            0 <= r <= |d| - 90 && InDeficit(d[r]) && forall k :: 0 <= k < r ==> !InDeficit(d[k])
  {
    LongestStreakAttained(d);
    var i :| StreakAt(d, i, LongestStreak(d));
    assert InDeficit(d[i]);
    FirstDeficitMeans(d);
  }

  // ---------------------------------------------------------------------
  // The run, day by day

  /** After `n` days the daily list has one snapshot per day, and the
      counters and the weekly list agree with it. */
  lemma {:induction false} RunBookkept(n: nat, input: SimulationInput, opts: RuntimeOptions, m: HostMath)
    requires EngineReady(input, opts, m)
    ensures Bookkept(Run(n, input, opts, m)) && |Run(n, input, opts, m).daily| == n
  {
    if n > 0 {
      RunBookkept(n - 1, input, opts, m);
      RunTrackPrev(n, input, opts, m);
      TrackKeeps(n - 1, EngineAfter(n - 1, input, opts, m), Run(n - 1, input, opts, m),
                 CompositeVolatility(input.assets), m);
    }
  }

  /** Snapshot `k` is taken of the state day `k` leaves, and later days do
      not change it. */
  lemma {:induction false} RunSnapshot(n: nat, k: nat, input: SimulationInput, opts: RuntimeOptions, m: HostMath)
    requires EngineReady(input, opts, m) && k < n
    ensures |Run(n, input, opts, m).daily| == n
    ensures Run(n, input, opts, m).daily[k] ==
            SnapshotOf(Run(k + 1, input, opts, m).engine.state, k, CompositeVolatility(input.assets), m)
  {
    RunLength(n, input, opts, m);
    RunTrackPrev(n, input, opts, m);
    if k < n - 1 {
      RunSnapshot(n - 1, k, input, opts, m);
    }
  }

  /** What every day keeps: the credit score in [300, 850], taxes paid at
      least 0 and the state stamped with the last day run. */
  lemma {:induction false} RunState(n: nat, input: SimulationInput, opts: RuntimeOptions, m: HostMath)
    requires EngineReady(input, opts, m)
    ensures var st := Run(n, input, opts, m).engine.state;
            && 300.0 <= st.creditScore <= 850.0
            && st.taxesPaid >= 0.0
            && (n > 0 ==> st.day == n - 1)
  {
    if n > 0 {
      RunState(n - 1, input, opts, m);
      EngineAfterFacts(n, input, opts, m);
    }
  }

  /** The fired shocks are stamped with days already run, in day order. */
  lemma {:induction false} RunFiredDays(n: nat, input: SimulationInput, opts: RuntimeOptions, m: HostMath)
    requires EngineReady(input, opts, m)
    ensures var fs := Run(n, input, opts, m).engine.shocks.firedShocks;
            && (forall j :: 0 <= j < |fs| ==> 0 <= fs[j].day < n)
            && (forall i, j :: 0 <= i < j < |fs| ==> fs[i].day <= fs[j].day)
  {
    if n > 0 {
      RunFiredDays(n - 1, input, opts, m);
      RunState(n - 1, input, opts, m);
      EngineAfterFacts(n, input, opts, m);
      var fs, fs' := Run(n - 1, input, opts, m).engine.shocks.firedShocks, Run(n, input, opts, m).engine.shocks.firedShocks;
      assert forall j :: 0 <= j < |fs| ==> fs'[j] == fs'[..|fs|][j];
    }
  }

  /** The list of fired shocks only grows: the list after `k` days begins
      the list after `n >= k` days. */
  lemma {:induction false} FiredGrows(k: nat, n: nat, input: SimulationInput, opts: RuntimeOptions, m: HostMath)
    requires EngineReady(input, opts, m) && k <= n
    ensures var a, b := Run(k, input, opts, m).engine.shocks.firedShocks, Run(n, input, opts, m).engine.shocks.firedShocks;
            |a| <= |b| && b[..|a|] == a
  {
    if k < n {
      FiredGrows(k, n - 1, input, opts, m);
      RunState(n - 1, input, opts, m);
      EngineAfterFacts(n, input, opts, m);
      var t := Run(n - 1, input, opts, m);
      var a := Run(k, input, opts, m).engine.shocks.firedShocks;
      var b, b' := t.engine.shocks.firedShocks, Run(n, input, opts, m).engine.shocks.firedShocks;
      assert b'[..|a|] == b'[..|b|][..|a|];
    }
  }

  /** Snapshot `k` is of day `k`, with a credit score in [300, 850]. */
  lemma RunSnapshotDays(n: nat, input: SimulationInput, opts: RuntimeOptions, m: HostMath)
    requires EngineReady(input, opts, m)
    ensures var d := Run(n, input, opts, m).daily;
            |d| == n && forall k :: 0 <= k < n ==> d[k].day == k && 300.0 <= d[k].creditScore <= 850.0
  {
    RunLength(n, input, opts, m);
    forall k | 0 <= k < n
      ensures Run(n, input, opts, m).daily[k].day == k
      ensures 300.0 <= Run(n, input, opts, m).daily[k].creditScore <= 850.0
    {
      RunSnapshot(n, k, input, opts, m);
      RunState(k + 1, input, opts, m);
    }
  }

  // ---------------------------------------------------------------------
  // The summary figures

  /** The liquidity ratio is -Infinity exactly when there are assets and
      cash plus assets is 0; with assets and no deficit it lies in [0, 1];
      without assets it is 1 or 0 by the sign of the cash.  A deficit deeper
      than the assets gives a ratio above 1. */
  lemma LiquidityRatioCases(balance: real, totalAssets: real)
    ensures var lr := LiquidityRatio(balance, totalAssets);
            && (lr.MinusInfinity? <==> totalAssets > 0.0 && balance + totalAssets == 0.0)
            && (totalAssets > 0.0 && balance >= 0.0 ==> lr.Finite? && 0.0 <= lr.value <= 1.0)
            && (totalAssets <= 0.0 ==> lr == Ratio.Finite(if balance > 0.0 then 1.0 else 0.0))
            && (totalAssets > 0.0 && balance + totalAssets < 0.0 ==> lr.Finite? && lr.value > 1.0)
  {
    if totalAssets > 0.0 && balance + totalAssets != 0.0 {
      var v := balance / (balance + totalAssets);
      if balance >= 0.0 {
        assert v * (balance + totalAssets) == balance;
      }
      if balance + totalAssets < 0.0 {
        assert v * (balance + totalAssets) == balance;
        assert balance < balance + totalAssets;
      }
    }
  }

  /** With a non-negative debt-service ratio and streak the risk score is
      at least 0; with a liquidity ratio of at least 0 and a credit score of
      at least 300 as well, it is at most 1. */
  lemma RiskScoreRange(lr: real, dsr: real, streak: int, creditScore: real)
    requires dsr >= 0.0 && streak >= 0
    ensures RiskScore(lr, dsr, streak, creditScore) >= 0.0
    ensures lr >= 0.0 && creditScore >= 300.0 ==> RiskScore(lr, dsr, streak, creditScore) <= 1.0
  {
    assert Min(1.0, streak as real / 90.0) >= 0.0;
    if creditScore >= 300.0 {
      assert (650.0 - creditScore) / 350.0 <= 1.0;
    }
  }

  /** The collapse probability lies in (0, 1]; it is 1 exactly when the
      liquidity ratio is -Infinity (the host's exponential being positive). */
  lemma CollapseProbabilityRange(lr: Ratio, dsr: real, streak: int, creditScore: real, m: HostMath)
    requires SoundMath(m)
    ensures var p := CollapseProbability(lr, dsr, streak, creditScore, m);
            0.0 < p <= 1.0 && (p == 1.0 <==> lr.MinusInfinity?)
  {
    if lr.Finite? {
      var e := m.exp(-10.0 * (RiskScore(lr.value, dsr, streak, creditScore) - 0.5));
      assert e > 0.0;
      assert 1.0 / (1.0 + e) < 1.0;
    }
  }

  /** Every recovery is a rise in the balance after a deficit day. */
  lemma {:induction false} RecoveriesPositive(s: seq<DaySnapshot>)
    ensures forall i :: 0 <= i < |Recoveries(s)| ==> Recoveries(s)[i] > 0.0
  {
    if |s| >= 2 {
      RecoveriesPositive(s[..|s| - 1]);
    }
  }

  /** A day that follows a deficit day and ends higher than it. */
  predicate RecoveryAt(s: seq<DaySnapshot>, k: int) {
    1 <= k < |s| && s[k - 1].balance < 0.0 && s[k].balance > s[k - 1].balance
  }

  /** There is a recovery exactly when some day recovers from a deficit. */
  lemma {:induction false} RecoveriesExist(s: seq<DaySnapshot>)
    ensures |Recoveries(s)| > 0 <==> exists k :: RecoveryAt(s, k)
  {
    if |s| >= 2 {
      var init := s[..|s| - 1];
      RecoveriesExist(init);
      assert forall k :: RecoveryAt(init, k) ==> RecoveryAt(s, k);
      if s[|s| - 2].balance < 0.0 && s[|s| - 1].balance > s[|s| - 2].balance {
        assert RecoveryAt(s, |s| - 1);
      }
      if exists k :: RecoveryAt(s, k) {
        var k :| RecoveryAt(s, k);
        if k < |s| - 1 {
          assert RecoveryAt(init, k);
        }
      }
    } else {
      assert forall k :: !RecoveryAt(s, k);
    }
  }

  lemma {:induction false} TotalPositive(xs: seq<real>)
    requires forall i :: 0 <= i < |xs| ==> xs[i] > 0.0
    ensures |xs| > 0 ==> Total(xs) > 0.0
    ensures Total(xs) >= 0.0
  {
    if |xs| > 0 {
      TotalPositive(xs[..|xs| - 1]);
    }
  }

  /** The recovery slope is at least 0, and positive exactly when some day
      recovers from a deficit. */
  lemma RecoverySlopeSign(s: seq<DaySnapshot>)
    ensures RecoverySlopeOf(s) >= 0.0
    ensures RecoverySlopeOf(s) > 0.0 <==> exists k :: RecoveryAt(s, k)
  {
    var r := Recoveries(s);
    RecoveriesPositive(s);
    RecoveriesExist(s);
    TotalPositive(r);
    if |r| > 0 {
      var n := |r| as real;
      assert n > 0.0 && Total(r) > 0.0;
      assert Total(r) / n > 0.0;
    }
  }

  lemma {:induction false} AbsTotalAtMost(fs: seq<FiredShock>, bound: real)
    requires forall j :: 0 <= j < |fs| ==> Assets.Abs(fs[j].amount) <= bound
    ensures 0.0 <= AbsTotal(fs) <= |fs| as real * bound
  {
    if |fs| > 0 {
      AbsTotalAtMost(fs[..|fs| - 1], bound);
      assert (|fs| - 1) as real * bound + bound == |fs| as real * bound;
    }
  }

  /** The average shock intensity is at least 0, 0 without firings, and at
      most any bound on the firings' absolute amounts. */
  lemma ShockIntensityBounds(fs: seq<FiredShock>, bound: real)
    requires forall j :: 0 <= j < |fs| ==> Assets.Abs(fs[j].amount) <= bound
    ensures 0.0 <= ShockIntensity(fs) && (|fs| == 0 ==> ShockIntensity(fs) == 0.0)
    ensures |fs| > 0 ==> ShockIntensity(fs) <= bound
  {
    AbsTotalAtMost(fs, bound);
    if |fs| > 0 {
      var n := |fs| as real;
      assert AbsTotal(fs) / n <= (n * bound) / n;
    }
  }

  /** The clustering density is at least 0, and 0 exactly without firings. */
  lemma ShockDensitySign(firedCount: nat, horizonDays: int)
    ensures ShockDensity(firedCount, horizonDays) >= 0.0
    ensures ShockDensity(firedCount, horizonDays) == 0.0 <==> firedCount == 0
  {
    var d := (if horizonDays + 1 > 1 then horizonDays + 1 else 1) as real;
    assert d >= 1.0;
    if firedCount > 0 {
      assert firedCount as real / d > 0.0;
    }
  }

  lemma {:induction false} AbsTotalNonNegative(fs: seq<FiredShock>)
    ensures AbsTotal(fs) >= 0.0
  {
    if |fs| > 0 {
      AbsTotalNonNegative(fs[..|fs| - 1]);
    }
  }

  // ---------------------------------------------------------------------
  // The result of `simulate`

  /** The lists `simulate` returns: one snapshot per day 0 .. horizon, each
      stamped with its day and with a credit score in [300, 850]; the weekly
      list holds every seventh; the fired shocks are stamped with days of
      the run, in day order. */
  lemma SimulationLists(input: SimulationInput, opts: RuntimeOptions, m: HostMath)
    requires EngineReady(input, opts, m) && input.horizonDays >= 0
    ensures var r, n := SimulationOf(input, opts, m), input.horizonDays + 1;
            var d, fs := r.dailySnapshots, r.firedShocks;
            && |d| == n
            && (forall k :: 0 <= k < n ==> d[k].day == k && 300.0 <= d[k].creditScore <= 850.0)
            && WeeklyOf(r.weeklySnapshots, d)
            && (forall j :: 0 <= j < |fs| ==> 0 <= fs[j].day <= input.horizonDays)
            && (forall i, j :: 0 <= i < j < |fs| ==> fs[i].day <= fs[j].day)
  {
    var n := input.horizonDays + 1;
    RunBookkept(n, input, opts, m);
    RunSnapshotDays(n, input, opts, m);
    RunFiredDays(n, input, opts, m);
  }

  /** The summary of a run whose counters agree with its daily list: the
      final figures are the last snapshot's; the credit score, resilience
      index, collapse probability, recovery slope and shock averages lie in
      their ranges; and a collapse day is reported exactly when some deficit
      streak reached 90 days, as the first deficit day, at least 89 days
      before the last. */
  lemma SummaryFacts(st: DayState, daily: seq<DaySnapshot>, deficitDays: int, consecutiveDeficit: int,
                     maxDeficitStreak: int, fired: seq<FiredShock>, horizonDays: int, m: HostMath)
    requires |daily| > 0 && SoundMath(m)
    requires deficitDays == DeficitCount(daily) && consecutiveDeficit == TrailingDeficits(daily)
    requires maxDeficitStreak == LongestStreak(daily)
    requires 300.0 <= st.creditScore <= 850.0
    ensures var s, n := SummaryOf(st, daily, deficitDays, consecutiveDeficit, maxDeficitStreak, fired, horizonDays, m), |daily|;
            && s.finalBalance == daily[n - 1].balance && s.finalNav == daily[n - 1].nav
            && s.finalCreditScore == st.creditScore && s.taxesPaid == st.taxesPaid
            && 0.0 <= s.shockResilienceIndex <= 100.0
            && 0.0 < s.collapseProbability <= 1.0
            && s.recoverySlope >= 0.0
            && s.shockIntensityAverage >= 0.0 && s.shockClusteringDensity >= 0.0
            && (s.collapseDay.Some? <==> LongestStreak(daily) >= 90)
            && (s.collapseDay.Some? ==>
                  var c := s.collapseDay.value;
                  0 <= c <= n - 90 && InDeficit(daily[c]) && forall k :: 0 <= k < c ==> !InDeficit(daily[k]))
  {
    var lr := LiquidityRatio(st.balance, Sums.SumValues(st.assets));
    var dsr := DebtServiceRatio(st.totalDebtPayments, st.totalIncome);
    Metrics.RsiRange(lr, dsr, st.creditScore, deficitDays);
    CollapseProbabilityRange(lr, dsr, consecutiveDeficit, st.creditScore, m);
    RecoverySlopeSign(daily);
    AbsTotalNonNegative(fired);
    ShockDensitySign(|fired|, horizonDays);
    if LongestStreak(daily) >= 90 {
      CollapseDayBound(daily);
    }
  }

  /** The summary `simulate` returns: besides the facts of any summary, its
      deficit-day count is the number of deficit days, and its credit score
      and taxes paid lie in their ranges. */
  lemma SimulationSummary(input: SimulationInput, opts: RuntimeOptions, m: HostMath)
    requires EngineReady(input, opts, m) && input.horizonDays >= 0
    ensures var r, n := SimulationOf(input, opts, m), input.horizonDays + 1;
            var d, s := r.dailySnapshots, r.summary;
            && |d| == n
            && s.finalBalance == d[n - 1].balance && s.finalNav == d[n - 1].nav
            && s.deficitDays == DeficitCount(d)
            && 300.0 <= s.finalCreditScore <= 850.0
            && s.taxesPaid >= 0.0
            && 0.0 <= s.shockResilienceIndex <= 100.0
            && 0.0 < s.collapseProbability <= 1.0
            && (s.collapseDay.Some? <==> LongestStreak(d) >= 90)
            && (s.collapseDay.Some? ==>
                  var c := s.collapseDay.value;
                  0 <= c <= n - 90 && InDeficit(d[c]) && forall k :: 0 <= k < c ==> !InDeficit(d[k]))
  {
    var n := input.horizonDays + 1;
    var t := Run(n, input, opts, m);
    RunBookkept(n, input, opts, m);
    RunState(n, input, opts, m);
    SummaryFacts(t.engine.state, t.daily, t.deficitDays, t.consecutiveDeficit, t.maxDeficitStreak,
                 t.engine.shocks.firedShocks, input.horizonDays, m);
  }

  // ---------------------------------------------------------------------
  // The counterfactual

  predicate AllDisabled(shocks: seq<ShockPreset>) {
    forall i :: 0 <= i < |shocks| ==> !shocks[i].enabled
  }

  /** With every shock disabled a day fires nothing: the list of fired
      shocks and the shock impact stay as they were. */
  lemma DayStepQuiet(day: int, e: Engine, input: SimulationInput, opts: RuntimeOptions, m: HostMath)
    requires PositiveRates(RatesForDay(day, opts, input.fx, m)) && AllDisabled(input.shocks)
    ensures var r := DayStep(day, e, input, opts, m);
            r.shocks.firedShocks == e.shocks.firedShocks && r.state.shockImpact == e.state.shockImpact
  {
    var s4 := Morning(day, e.state, input, opts, m);
    var s5 := Assets.ApplyAssets(input.assets, input.baseCurrency, opts.liquidationOrder,
                                 Assets.ValuationChanges(input.assets, s4.assets),
                                 Assets.LiquidationWanted(s4, input.cashReserveRatio), s4);
    Shocks.DisabledNeverFire(input.shocks, day, input.baseCurrency, s5.fxRates);
    assert Shocks.Impact([]) == 0.0;
  }

  /** Two inputs that differ only in their shocks, all disabled in both, give
      the same day. */
  lemma DayStepIgnoresDisabled(day: int, e: Engine, x: SimulationInput, y: SimulationInput, opts: RuntimeOptions,
                               m: HostMath)
    requires PositiveRates(RatesForDay(day, opts, x.fx, m))
    requires y == x.(shocks := y.shocks) && AllDisabled(x.shocks) && AllDisabled(y.shocks)
    ensures DayStep(day, e, x, opts, m) == DayStep(day, e, y, opts, m)
  {
    var s4 := Morning(day, e.state, x, opts, m);
    assert Morning(day, e.state, y, opts, m) == s4;
    var s5 := Assets.ApplyAssets(x.assets, x.baseCurrency, opts.liquidationOrder,
                                 Assets.ValuationChanges(x.assets, s4.assets),
                                 Assets.LiquidationWanted(s4, x.cashReserveRatio), s4);
    Shocks.DisabledNeverFire(x.shocks, day, x.baseCurrency, s5.fxRates);
    Shocks.DisabledNeverFire(y.shocks, day, y.baseCurrency, s5.fxRates);
    assert Shocks.PrepareShocks(day, s5, x, e.shocks) == Shocks.PrepareShocks(day, s5, y, e.shocks);
  }

  lemma EngineAfterAgree(n: nat, x: SimulationInput, y: SimulationInput, opts: RuntimeOptions, m: HostMath)
    requires EngineReady(x, opts, m) && y == x.(shocks := y.shocks) && AllDisabled(x.shocks) && AllDisabled(y.shocks)
    requires Run(n, x, opts, m) == Run(n, y, opts, m)
    ensures EngineAfter(n, x, opts, m) == EngineAfter(n, y, opts, m)
  {
    RunEngineStep(n, x, opts, m);
    RunEngineStep(n, y, opts, m);
    DayStepIgnoresDisabled(n, Run(n, x, opts, m).engine, x, y, opts, m);
  }

  /** ... and so the same run. */
  lemma {:induction false} RunIgnoresDisabled(n: nat, x: SimulationInput, y: SimulationInput, opts: RuntimeOptions,
                                              m: HostMath)
    requires EngineReady(x, opts, m) && y == x.(shocks := y.shocks) && AllDisabled(x.shocks) && AllDisabled(y.shocks)
    ensures Run(n, x, opts, m) == Run(n, y, opts, m)
  {
    if n > 0 {
      RunIgnoresDisabled(n - 1, x, y, opts, m);
      EngineAfterAgree(n - 1, x, y, opts, m);
      RunTrackPrev(n, x, opts, m);
      RunTrackPrev(n, y, opts, m);
    }
  }

  /** With every shock disabled no shock ever fires and the shock impact
      stays 0. */
  lemma {:induction false} QuietRun(n: nat, input: SimulationInput, opts: RuntimeOptions, m: HostMath)
    requires EngineReady(input, opts, m) && AllDisabled(input.shocks)
    ensures Run(n, input, opts, m).engine.shocks.firedShocks == []
    ensures Run(n, input, opts, m).engine.state.shockImpact == 0.0
  {
    if n > 0 {
      QuietRun(n - 1, input, opts, m);
      QuietDay(n, input, opts, m);
    }
  }

  lemma QuietDay(n: nat, input: SimulationInput, opts: RuntimeOptions, m: HostMath)
    requires EngineReady(input, opts, m) && AllDisabled(input.shocks) && n > 0
    ensures var e, r := Run(n - 1, input, opts, m).engine, Run(n, input, opts, m).engine;
            r.shocks.firedShocks == e.shocks.firedShocks && r.state.shockImpact == e.state.shockImpact
  {
    RunEnginePrev(n, input, opts, m);
    DayStepQuiet(n - 1, Run(n - 1, input, opts, m).engine, input, opts, m);
  }

  /** The counterfactual run of `simulateWithCounterfactual` is the run of
      the same input with no shocks at all (only the echoed input differs),
      and it fires nothing. */
  lemma CounterfactualIsShockFree(input: SimulationInput, opts: RuntimeOptions, m: HostMath)
    requires EngineReady(input, opts, m) && input.horizonDays >= 0
    ensures var w := WithoutShocks(input);
            && SimulationOf(w, opts, m) == SimulationOf(input.(shocks := []), opts, m).(input := w)
            && SimulationOf(w, opts, m).firedShocks == []
  {
    CounterfactualRunsAgree(input, opts, m);
    QuietRun(input.horizonDays + 1, WithoutShocks(input), opts, m);
  }

  lemma CounterfactualRunsAgree(input: SimulationInput, opts: RuntimeOptions, m: HostMath)
    requires EngineReady(input, opts, m) && input.horizonDays >= 0
    ensures Run(input.horizonDays + 1, WithoutShocks(input), opts, m) == Run(input.horizonDays + 1, input.(shocks := []), opts, m)
  {
    RunIgnoresDisabled(input.horizonDays + 1, WithoutShocks(input), input.(shocks := []), opts, m);
  }

  /** When every shock is already disabled the two runs coincide and both
      deltas are 0. */
  lemma CounterfactualWithoutEnabledShocks(input: SimulationInput, opts: RuntimeOptions, m: HostMath)
    requires EngineReady(input, opts, m) && input.horizonDays >= 0 && AllDisabled(input.shocks)
    ensures SimulationOf(WithoutShocks(input), opts, m) == SimulationOf(input, opts, m)
    ensures var a, b := SimulationOf(input, opts, m), SimulationOf(WithoutShocks(input), opts, m);
            b.summary.finalBalance - a.summary.finalBalance == 0.0 && b.summary.finalNav - a.summary.finalNav == 0.0
  {
    DisableShocksFixed(input.shocks);
  }

  /** An input the schema accepts can be simulated with no runtime options
      on any sound host: the engine's preconditions hold, and every
      snapshot list has at least two days. */
  lemma ValidInputRuns(input: SimulationInput, m: HostMath)
    requires Validation.ValidInput(input) && SoundMath(m)
    ensures EngineReady(input, NoOptions, m) && input.horizonDays >= 0
    ensures |SimulationOf(input, NoOptions, m).dailySnapshots| == input.horizonDays + 1 >= 2
  {
    Validation.ValidInputFacts(input);
    SimulationLists(input, NoOptions, m);
  }

  // ---------------------------------------------------------------------
  // The FX realization example

  /** A USD profile with a EUR salary paid on the first day of the month
      and a USD rent, run for day 0 only with the EUR rate pinned at 2. */
  const FxExampleInput: SimulationInput :=
    SimulationInput("FX Realization", 0, USD, FxConfig(Rates(1.0, 280.0), 0.0), 0.0,
                    [IncomeStream("eur-salary", "EUR Salary", 3000.0, EUR, 1)],
                    [Types.Expense("usd-rent", "Rent", 3000.0, USD, true)],
                    [], [], [TaxBracket(0.0, Ceiling.Finite(1000000.0), 0.0)], [], 0.0)

  const FxExampleOptions: RuntimeOptions := RuntimeOptions(map[0 := Rates(2.0, 280.0)], map[], [])

  /** Day 0's morning converts the salary at the pinned rate: 3000 EUR is
      1500 USD, less a thirtieth of the rent, leaves 1400. */
  lemma FxRealizationMorning(m: HostMath)
    ensures RatesForDay(0, FxExampleOptions, FxExampleInput.fx, m) == Rates(2.0, 280.0)
    ensures Morning(0, Start(FxExampleInput, FxExampleOptions).engine.state, FxExampleInput, FxExampleOptions, m).balance
            == 1400.0
  {
    var rates := Rates(2.0, 280.0);
    assert Income.DailyIncome(FxExampleInput.incomes, 0, USD, rates) == 1500.0;
    assert Expenses.DailyExpense(FxExampleInput.expenses, USD, rates) == 100.0;
  }

  /** The rest of day 0 leaves the balance alone: nothing is sold, as the
      balance is positive; nothing fires; the score is not updated on day 0
      and day 0 is no tax day. */
  lemma FxRealizationDay(m: HostMath)
    ensures PositiveRates(RatesForDay(0, FxExampleOptions, FxExampleInput.fx, m))
    ensures DayStep(0, Start(FxExampleInput, FxExampleOptions).engine, FxExampleInput, FxExampleOptions, m).state.balance
            == 1400.0
  {
    FxRealizationMorning(m);
  }

  /** The example of the FX realization test: day 0's snapshot shows a
      balance of 1400. */
  lemma FxRealizationExample(m: HostMath)
    requires SoundMath(m)
    ensures var d := SimulationOf(FxExampleInput, FxExampleOptions, m).dailySnapshots;
            |d| == 1 && d[0].balance == 1400.0
  {
    FxRealizationDay(m);
    RunSnapshot(1, 0, FxExampleInput, FxExampleOptions, m);
  }
}
