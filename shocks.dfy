/** The shock component (src/lib/engine/modules/shocks.ts): the enabled shocks
    scheduled for the day fire, each scaled by its severity and converted to
    the base currency; every firing is recorded in a list that grows across
    days. */
module Shocks {
  import opened Types
  import opened Graph
  import opened Fx

  /** A shock's amount scaled by its severity, in its own currency. */
  function Scaled(amount: real, severity: real): real {
    amount * severity
  }

  /** What a shock costs (or brings) in the base currency. */
  function ShockAmount(s: ShockPreset, base: Currency, rates: Rates): real
    requires PositiveRates(rates)
  {
    Convert(Scaled(s.amount, s.severity), s.currency, base, rates)
  }

  /** Whether a shock fires on a day. */
  predicate FiresOn(s: ShockPreset, day: int) {
    s.enabled && s.day == day
  }

  /** The firings of one day, in the order of the shock list. */
  function Firings(shocks: seq<ShockPreset>, day: int, base: Currency, rates: Rates): seq<FiredShock>
    requires PositiveRates(rates)
  {
    if |shocks| == 0 then []
    else
      var s := shocks[|shocks| - 1];
      Firings(shocks[..|shocks| - 1], day, base, rates) +
        (if FiresOn(s, day) then [FiredShock(day, s.id, ShockAmount(s, base, rates))] else [])
  }

  /** The shocks that fire on a day, in list order. */
  function Due(shocks: seq<ShockPreset>, day: int): seq<ShockPreset> {
    if |shocks| == 0 then []
    else
      var s := shocks[|shocks| - 1];
      Due(shocks[..|shocks| - 1], day) + (if FiresOn(s, day) then [s] else [])
  }

  /** Total amount of some firings. */
  function Impact(fs: seq<FiredShock>): real {
    if |fs| == 0 then 0.0 else Impact(fs[..|fs| - 1]) + fs[|fs| - 1].amount
  }

  /** A shock is due exactly when it is in the list, enabled and scheduled
      for the day. */
  lemma {:induction false} DueIsSchedule(shocks: seq<ShockPreset>, day: int)
    ensures forall s :: s in Due(shocks, day) <==> s in shocks && FiresOn(s, day)
  {
    if |shocks| > 0 {
      DueIsSchedule(shocks[..|shocks| - 1], day);
      assert shocks == shocks[..|shocks| - 1] + [shocks[|shocks| - 1]];
    }
  }

  /** The day's firings are the due shocks, one record each, stamped with the
      day and their own id and converted amount. */
  lemma {:induction false} FiringsOfDue(shocks: seq<ShockPreset>, day: int, base: Currency, rates: Rates)
    requires PositiveRates(rates)
    ensures var fs, ds := Firings(shocks, day, base, rates), Due(shocks, day);
            |fs| == |ds| &&
            forall j :: 0 <= j < |fs| ==> fs[j] == FiredShock(day, ds[j].id, ShockAmount(ds[j], base, rates))
  {
    if |shocks| > 0 {
      FiringsOfDue(shocks[..|shocks| - 1], day, base, rates);
    }
  }

  /** Without an enabled shock nothing fires. */
  lemma {:induction false} DisabledNeverFire(shocks: seq<ShockPreset>, day: int, base: Currency, rates: Rates)
    requires PositiveRates(rates)
    requires forall i :: 0 <= i < |shocks| ==> !shocks[i].enabled
    ensures Firings(shocks, day, base, rates) == []
  {
    if |shocks| > 0 {
      DisabledNeverFire(shocks[..|shocks| - 1], day, base, rates);
    }
  }

  /** Every shock with its severity set to `k` times the old one. */
  function ScaleSeverity(shocks: seq<ShockPreset>, k: real): seq<ShockPreset> {
    if |shocks| == 0 then []
    else
      var s := shocks[|shocks| - 1];
      ScaleSeverity(shocks[..|shocks| - 1], k) + [s.(severity := Times(k, s.severity))]
  }

  function Times(k: real, x: real): real {
    k * x
  }

  lemma ScaledTimes(amount: real, k: real, severity: real)
    ensures Scaled(amount, Times(k, severity)) == k * Scaled(amount, severity)
  {
    assert amount * (k * severity) == k * (amount * severity);
  }

  /** One shock: `k` times the severity gives `k` times the amount. */
  lemma ShockAmountScales(s: ShockPreset, k: real, base: Currency, rates: Rates)
    requires PositiveRates(rates)
    ensures ShockAmount(s.(severity := Times(k, s.severity)), base, rates) == Times(k, ShockAmount(s, base, rates))
  {
    ScaledTimes(s.amount, k, s.severity);
    ConvertScale(k, Scaled(s.amount, s.severity), s.currency, base, rates);
  }

  /** Totals scale with their parts. */
  lemma {:induction false} ImpactScales(fs: seq<FiredShock>, gs: seq<FiredShock>, k: real)
    requires |gs| == |fs| && forall j :: 0 <= j < |fs| ==> gs[j].amount == Times(k, fs[j].amount)
    ensures Impact(gs) == Times(k, Impact(fs))
  {
    if |fs| > 0 {
      ImpactScales(fs[..|fs| - 1], gs[..|gs| - 1], k);
    }
  }

  /** Scaling every severity by `k` scales every fired amount by `k`
      (doubling the severity doubles the amount). */
  lemma {:induction false} SeverityScalesFirings(shocks: seq<ShockPreset>, k: real, day: int, base: Currency, rates: Rates)
    requires PositiveRates(rates)
    ensures var fs, gs := Firings(shocks, day, base, rates), Firings(ScaleSeverity(shocks, k), day, base, rates);
            |gs| == |fs| && forall j :: 0 <= j < |fs| ==> gs[j] == fs[j].(amount := Times(k, fs[j].amount))
  {
    if |shocks| > 0 {
      var init, s := shocks[..|shocks| - 1], shocks[|shocks| - 1];
      SeverityScalesFirings(init, k, day, base, rates);
      var scaled := ScaleSeverity(shocks, k);
      assert scaled[..|scaled| - 1] == ScaleSeverity(init, k);
      if FiresOn(s, day) {
        ShockAmountScales(s, k, base, rates);
      }
    }
  }

  /** ... and so the day's impact by `k`. */
  lemma SeverityScalesImpact(shocks: seq<ShockPreset>, k: real, day: int, base: Currency, rates: Rates)
    requires PositiveRates(rates)
    ensures Impact(Firings(ScaleSeverity(shocks, k), day, base, rates)) == Times(k, Impact(Firings(shocks, day, base, rates)))
  {
    SeverityScalesFirings(shocks, k, day, base, rates);
    ImpactScales(Firings(shocks, day, base, rates), Firings(ScaleSeverity(shocks, k), day, base, rates), k);
  }

  /** The component's fields: the list of all firings so far and the day's
      impact. */
  datatype ShockLedger = ShockLedger(firedShocks: seq<FiredShock>, dayImpact: real)

  /** `prepare`: the day's firings are appended to the list and the day's
      impact is their total. */
  function PrepareShocks(day: int, st: DayState, input: SimulationInput, w: ShockLedger): ShockLedger
    requires PositiveRates(st.fxRates)
  {
    var fs := Firings(input.shocks, day, input.baseCurrency, st.fxRates);
    ShockLedger(w.firedShocks + fs, Impact(fs))
  }

  /** `apply`: a non-zero impact is added to the balance and to shockImpact. */
  function ApplyShocks(dayImpact: real, st: DayState): DayState {
    if dayImpact != 0.0 then st.(balance := st.balance + dayImpact, shockImpact := st.shockImpact + dayImpact)
    else st
  }

  /** The list only grows, and the day's impact is the total of what the day
      appended. */
  lemma PrepareAppends(day: int, st: DayState, input: SimulationInput, w: ShockLedger)
    requires PositiveRates(st.fxRates)
    ensures var r := PrepareShocks(day, st, input, w);
            |r.firedShocks| >= |w.firedShocks| && r.firedShocks[..|w.firedShocks|] == w.firedShocks &&
            r.dayImpact == Impact(r.firedShocks[|w.firedShocks|..]) &&
            forall j :: |w.firedShocks| <= j < |r.firedShocks| ==> r.firedShocks[j].day == day
  {
    var fs := Firings(input.shocks, day, input.baseCurrency, st.fxRates);
    var r := PrepareShocks(day, st, input, w);
    assert r.firedShocks[|w.firedShocks|..] == fs;
    FiringsOfDue(input.shocks, day, input.baseCurrency, st.fxRates);
  }

  /** `apply` keeps balance - shockImpact and changes nothing else. */
  lemma ApplyKeepsDifference(dayImpact: real, st: DayState)
    ensures var r := ApplyShocks(dayImpact, st);
            r.balance - r.shockImpact == st.balance - st.shockImpact &&
            r.balance == st.balance + dayImpact &&
            r == st.(balance := r.balance, shockImpact := r.shockImpact)
  {
  }

  /** `ShockNode`. */
  class ShockNode {
    var firedShocks: seq<FiredShock>
    var dayImpact: real

    constructor()
      ensures firedShocks == [] && dayImpact == 0.0
    {
      firedShocks := [];
      dayImpact := 0.0;
    }

    function Ledger(): ShockLedger
      reads this
    {
      ShockLedger(firedShocks, dayImpact)
    }

    method Prepare(day: int, st: DayState, input: SimulationInput)
      requires PositiveRates(st.fxRates)
      modifies this
      ensures Ledger() == PrepareShocks(day, st, input, old(Ledger()))
    {
      dayImpact := 0.0;
      ghost var before := firedShocks;
      var i := 0;
      while i < |input.shocks|
        invariant 0 <= i <= |input.shocks|
        invariant firedShocks == before + Firings(input.shocks[..i], day, input.baseCurrency, st.fxRates)
        invariant dayImpact == Impact(Firings(input.shocks[..i], day, input.baseCurrency, st.fxRates))
      {
        var shock := input.shocks[i];
        assert input.shocks[..i + 1][..i] == input.shocks[..i];
        ghost var fs := Firings(input.shocks[..i + 1], day, input.baseCurrency, st.fxRates);
        if shock.enabled && shock.day == day {
          var impact := Convert(Scaled(shock.amount, shock.severity), shock.currency, input.baseCurrency, st.fxRates);
          dayImpact := dayImpact + impact;
          firedShocks := firedShocks + [FiredShock(day, shock.id, impact)];
          assert fs == Firings(input.shocks[..i], day, input.baseCurrency, st.fxRates) + [FiredShock(day, shock.id, impact)];
          assert fs[..|fs| - 1] == Firings(input.shocks[..i], day, input.baseCurrency, st.fxRates);
        } else {
          assert fs == Firings(input.shocks[..i], day, input.baseCurrency, st.fxRates);
        }
        i := i + 1;
      }
      assert input.shocks[..i] == input.shocks;
    }

    method Apply(st: DayState) returns (r: DayState)
      ensures r == ApplyShocks(dayImpact, st)
    {
      r := st;
      if dayImpact != 0.0 {
        r := r.(balance := r.balance + dayImpact);
        r := r.(shockImpact := r.shockImpact + dayImpact);
      }
    }
  }
}
