/** What saving a simulation's weekly list does to it: the engine's weekly
    snapshots already lie on the weekly grid, so the store keeps every one
    of them, and they are exactly the daily snapshots on the grid. */
module SavedRuns {
  import opened Types
  import opened Simulate
  import opened RunFacts
  import opened ScenarioStore

  lemma WeekMultiple(j: int)
    requires j >= 0
    ensures JsRem(7 * j, 7) == 0
  {
  }

  /** A day strictly between two consecutive weeks is off the grid. */
  lemma BetweenWeeks(k: int, n: int)
    requires 0 <= k && 7 * k < n < 7 * k + 7
    ensures JsRem(n, 7) != 0
  {
    var r := n - 7 * k;
    assert 0 < r < 7;
    assert n == 7 * k + r;
    assert n % 7 == r;
  }

  /** Daily snapshots stamped 0, 1, 2, ... downsample to the list holding
      every seventh of them. */
  lemma {:induction false} DownsampleStamped(d: seq<DaySnapshot>, w: seq<DaySnapshot>)
    requires forall k :: 0 <= k < |d| ==> d[k].day == k
    requires WeeklyOf(w, d)
    ensures DownsampleToWeekly(d) == w
  {
    if |d| == 0 {
      assert |w| == 0;
    } else {
      var n := |d| - 1;
      var x := d[n];
      var d' := d[..n];
      assert d == d' + [x];
      DownsampleAppend(d', [x]);
      DownsampleSingle(x);
      assert x.day == n;
      var last := |w| - 1;
      assert 0 <= 7 * last <= n;
      if 7 * last == n {
        WeekMultiple(last);
        var w' := w[..last];
        assert WeeklyOf(w', d') by {
          forall j | 0 <= j < |w'|
            ensures 7 * j < |d'| && w'[j] == d'[7 * j]
          {
            assert w[j] == d[7 * j];
          }
        }
        DownsampleStamped(d', w');
        assert w[last] == d[7 * last] == x;
        assert w == w' + [x];
      } else {
        BetweenWeeks(last, n);
        assert WeeklyOf(w, d') by {
          forall j | 0 <= j < |w|
            ensures 7 * j < |d'| && w[j] == d'[7 * j]
          {
            assert 7 * j <= 7 * last < n;
          }
        }
        DownsampleStamped(d', w);
      }
    }
  }

  /** Saving a simulation's weekly snapshots stores all of them, unchanged,
      and they are what downsampling its daily snapshots gives. */
  lemma SavedWeeklyIsWhole(input: SimulationInput, opts: RuntimeOptions, m: HostMath)
    requires EngineReady(input, opts, m) && input.horizonDays >= 0
    ensures var r := SimulationOf(input, opts, m);
            DownsampleToWeekly(r.weeklySnapshots) == r.weeklySnapshots &&
            DownsampleToWeekly(r.dailySnapshots) == r.weeklySnapshots
  {
    var r := SimulationOf(input, opts, m);
    SimulationLists(input, opts, m);
    DownsampleStamped(r.dailySnapshots, r.weeklySnapshots);
    DownsampleIdempotent(r.dailySnapshots);
  }
}
