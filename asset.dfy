/** The asset component (src/lib/engine/modules/asset.ts): daily drift of
    asset values by their expected return and, when the balance is negative,
    the sale of liquid assets with first-in first-out cost basis. */
module Assets {
  import opened Types
  import opened Graph
  import opened Fx
  import opened Strings
  import opened Sums

  // ---------------------------------------------------------------------
  // First-in first-out lots

  /** A lot whose value has fallen to this or below is dropped. */
  const Dust: real := 0.000000001

  /** The fraction of a lot of value `value` that a sale of `take` uses. */
  function TakenFraction(take: real, value: real): real {
    if value > 0.0 then take / value else 0.0
  }

  /** The cost basis that goes with a fraction of a lot. */
  function CostShare(costBasis: real, fraction: real): real {
    costBasis * fraction
  }

  /** One pass of the `consumeLotsFIFO` loop on the oldest lot: the amount
      taken, the cost basis that goes with it, and the lots left after it. */
  function StepTake(lots: seq<Lot>, remaining: real): real
    requires |lots| > 0
  {
    Min(lots[0].value, remaining)
  }

  function StepUsed(lots: seq<Lot>, remaining: real): real
    requires |lots| > 0
  {
    CostShare(lots[0].costBasis, TakenFraction(StepTake(lots, remaining), lots[0].value))
  }

  function StepRest(lots: seq<Lot>, remaining: real): seq<Lot>
    requires |lots| > 0
  {
    var reduced := Lot(lots[0].costBasis - StepUsed(lots, remaining), lots[0].value - StepTake(lots, remaining));
    if reduced.value <= Dust then lots[1..] else [reduced] + lots[1..]
  }

  /** `consumeLotsFIFO` as a function: the lots left and the cost basis sold
      when `remaining` worth is taken from the oldest lots first. */
  function ConsumeFifo(lots: seq<Lot>, remaining: real): (seq<Lot>, real)
    decreases |lots| + (if remaining > 0.0 then 1 else 0)
  {
    if remaining <= 0.0 || |lots| == 0 then (lots, 0.0)
    else
      var next := ConsumeFifo(StepRest(lots, remaining), remaining - StepTake(lots, remaining));
      (next.0, StepUsed(lots, remaining) + next.1)
  }

  /** Total cost basis of some lots. */
  function CostBasisOf(lots: seq<Lot>): real {
    if |lots| == 0 then 0.0 else CostBasisOf(lots[..|lots| - 1]) + lots[|lots| - 1].costBasis
  }

  lemma {:induction false} CostBasisCons(lot: Lot, lots: seq<Lot>)
    ensures CostBasisOf([lot] + lots) == lot.costBasis + CostBasisOf(lots)
    decreases |lots|
  {
    if |lots| > 0 {
      assert ([lot] + lots)[..|lots|] == [lot] + lots[..|lots| - 1];
      CostBasisCons(lot, lots[..|lots| - 1]);
    }
  }

  lemma CostBasisTail(lots: seq<Lot>)
    requires |lots| > 0
    ensures CostBasisOf(lots) == lots[0].costBasis + CostBasisOf(lots[1..])
  {
    CostBasisCons(lots[0], lots[1..]);
    assert [lots[0]] + lots[1..] == lots;
  }

  /** Lots with cost bases and values that are not negative. */
  predicate WellFormedLots(lots: seq<Lot>) {
    forall i :: 0 <= i < |lots| ==> lots[i].costBasis >= 0.0 && lots[i].value >= 0.0
  }

  /** A fraction taken from a lot lies between 0 and 1. */
  lemma FractionBounds(take: real, value: real)
    requires 0.0 <= take <= value || value <= 0.0
    ensures 0.0 <= TakenFraction(take, value) <= 1.0
  {
    if value > 0.0 {
      assert take / value <= value / value;
    }
  }

  lemma CostShareBounds(costBasis: real, fraction: real)
    requires costBasis >= 0.0 && 0.0 <= fraction <= 1.0
    ensures 0.0 <= CostShare(costBasis, fraction) <= costBasis
  {
  }

  /** Nothing to sell: the lots are untouched and no cost basis is used. */
  lemma FifoNothingToSell(lots: seq<Lot>, remaining: real)
    requires remaining <= 0.0
    ensures ConsumeFifo(lots, remaining) == (lots, 0.0)
  {
  }

  /** One pass takes between 0 and the whole of the oldest lot. */
  lemma StepBounds(lots: seq<Lot>, remaining: real)
    requires WellFormedLots(lots) && |lots| > 0 && remaining > 0.0
    ensures 0.0 <= StepTake(lots, remaining) <= lots[0].value
    ensures 0.0 <= StepUsed(lots, remaining) <= lots[0].costBasis
  {
    var take := StepTake(lots, remaining);
    FractionBounds(take, lots[0].value);
    CostShareBounds(lots[0].costBasis, TakenFraction(take, lots[0].value));
  }

  /** One pass keeps the lots well formed. */
  lemma StepWellFormed(lots: seq<Lot>, remaining: real)
    requires WellFormedLots(lots) && |lots| > 0 && remaining > 0.0
    ensures WellFormedLots(StepRest(lots, remaining))
  {
    StepBounds(lots, remaining);
    var rest := StepRest(lots, remaining);
    forall i | 0 <= i < |rest|
      ensures rest[i].costBasis >= 0.0 && rest[i].value >= 0.0
    {
      if |rest| == |lots| && i > 0 {
        assert rest[i] == lots[i];
      } else if |rest| < |lots| {
        assert rest[i] == lots[i + 1];
      }
    }
  }

  /** One pass creates no cost basis. */
  lemma StepCostBasis(lots: seq<Lot>, remaining: real)
    requires WellFormedLots(lots) && |lots| > 0 && remaining > 0.0
    ensures StepUsed(lots, remaining) >= 0.0
    ensures StepUsed(lots, remaining) + CostBasisOf(StepRest(lots, remaining)) <= CostBasisOf(lots)
  {
    StepBounds(lots, remaining);
    var used := StepUsed(lots, remaining);
    var reduced := Lot(lots[0].costBasis - used, lots[0].value - StepTake(lots, remaining));
    RestCostBasis(lots, reduced, used);
    if reduced.value <= Dust {
      assert StepRest(lots, remaining) == lots[1..];
    } else {
      assert StepRest(lots, remaining) == [reduced] + lots[1..];
    }
  }

  /** Dropping the oldest lot, or lowering its cost basis by `used`, leaves
      at most the old cost basis less `used`. */
  lemma RestCostBasis(lots: seq<Lot>, reduced: Lot, used: real)
    requires |lots| > 0 && 0.0 <= used <= lots[0].costBasis && reduced.costBasis == lots[0].costBasis - used
    ensures used + CostBasisOf(lots[1..]) <= CostBasisOf(lots)
    ensures used + CostBasisOf([reduced] + lots[1..]) <= CostBasisOf(lots)
  {
    CostBasisTail(lots);
    CostBasisCons(reduced, lots[1..]);
  }

  /** Cost basis is never created: what is sold plus what is left is at most
      what there was, and neither part is negative. */
  lemma {:induction false} FifoCostBasisBound(lots: seq<Lot>, remaining: real)
    requires WellFormedLots(lots)
    ensures var r := ConsumeFifo(lots, remaining);
            WellFormedLots(r.0) && r.1 >= 0.0 && r.1 + CostBasisOf(r.0) <= CostBasisOf(lots)
    decreases |lots| + (if remaining > 0.0 then 1 else 0)
  {
    if remaining > 0.0 && |lots| > 0 {
      StepCostBasis(lots, remaining);
      StepWellFormed(lots, remaining);
      FifoCostBasisBound(StepRest(lots, remaining), remaining - StepTake(lots, remaining));
    }
  }

  /** Total value of some lots. */
  function ValueOf(lots: seq<Lot>): real {
    if |lots| == 0 then 0.0 else lots[0].value + ValueOf(lots[1..])
  }

  lemma {:induction false} ValueNonNegative(lots: seq<Lot>)
    requires WellFormedLots(lots)
    ensures ValueOf(lots) >= 0.0
    decreases |lots|
  {
    if |lots| > 0 {
      assert WellFormedLots(lots[1..]) by {
        forall i | 0 <= i < |lots| - 1 ensures lots[1..][i].costBasis >= 0.0 && lots[1..][i].value >= 0.0 {
          assert lots[1..][i] == lots[i + 1];
        }
      }
      ValueNonNegative(lots[1..]);
    }
  }

  lemma ValueCons(lot: Lot, lots: seq<Lot>)
    ensures ValueOf([lot] + lots) == lot.value + ValueOf(lots)
  {
    assert ([lot] + lots)[1..] == lots;
  }

  /** One pass removes exactly the amount taken, less at most one dust lot
      when the oldest lot is dropped; a lot smaller than what is still to be
      sold goes whole. */
  lemma StepValue(lots: seq<Lot>, remaining: real)
    requires WellFormedLots(lots) && |lots| > 0 && remaining > 0.0
    ensures var rest := StepRest(lots, remaining);
            var cut := ValueOf(lots) - StepTake(lots, remaining);
            |lots| - 1 <= |rest| <= |lots| &&
            cut - (|lots| - |rest|) as real * Dust <= ValueOf(rest) <= cut &&
            (remaining > lots[0].value ==> ValueOf(rest) == cut)
  {
    StepBounds(lots, remaining);
    var used := StepUsed(lots, remaining);
    var reduced := Lot(lots[0].costBasis - used, lots[0].value - StepTake(lots, remaining));
    if reduced.value <= Dust {
      assert StepRest(lots, remaining) == lots[1..];
    } else {
      assert StepRest(lots, remaining) == [reduced] + lots[1..];
      ValueCons(reduced, lots[1..]);
    }
  }

  /** Value is conserved: a sale of `remaining` lowers the total value of the
      lots by what is sold, `remaining` or everything there is if that is
      less, apart from the residual lots of value at most `Dust` that are
      dropped, at most one per lot. */
  lemma {:induction false} FifoValueBound(lots: seq<Lot>, remaining: real)
    requires WellFormedLots(lots)
    ensures var v := ValueOf(lots);
            var sold := if remaining > 0.0 then Min(remaining, v) else 0.0;
            var left := ValueOf(ConsumeFifo(lots, remaining).0);
            v - sold - |lots| as real * Dust <= left <= v - sold
    decreases |lots| + (if remaining > 0.0 then 1 else 0)
  {
    if remaining > 0.0 && |lots| > 0 {
      StepValue(lots, remaining);
      StepWellFormed(lots, remaining);
      ValueNonNegative(lots[1..]);
      FifoValueBound(StepRest(lots, remaining), remaining - StepTake(lots, remaining));
    }
  }

  /** Only the oldest lots are touched: what is left is a suffix of the lots,
      except that its first lot may have been reduced. */
  predicate FifoRemainder(lots: seq<Lot>, left: seq<Lot>) {
    |left| <= |lots| && (|left| > 0 ==> left[1..] == lots[|lots| - |left| + 1..])
  }

  lemma {:induction false} FifoKeepsOrder(lots: seq<Lot>, remaining: real)
    ensures FifoRemainder(lots, ConsumeFifo(lots, remaining).0)
    decreases |lots| + (if remaining > 0.0 then 1 else 0)
  {
    if remaining > 0.0 && |lots| > 0 {
      var rest := StepRest(lots, remaining);
      FifoKeepsOrder(rest, remaining - StepTake(lots, remaining));
      var left := ConsumeFifo(rest, remaining - StepTake(lots, remaining)).0;
      if |left| > 0 {
        assert left[1..] == rest[|rest| - |left| + 1..];
        assert rest[1..] == lots[1..] || rest == lots[1..];
        assert lots[1..][|lots| - 1 - |left| + 1..] == lots[|lots| - |left| + 1..];
      }
    }
  }

  /** The `consumeLotsFIFO` loop. */
  method ConsumeLotsFifo(lots0: seq<Lot>, sellValue: real) returns (lots: seq<Lot>, consumedCostBasis: real)
    ensures (lots, consumedCostBasis) == ConsumeFifo(lots0, sellValue)
  {
    var remaining := sellValue;
    consumedCostBasis := 0.0;
    lots := lots0;
    while remaining > 0.0 && |lots| > 0
      invariant ConsumeFifo(lots0, sellValue) ==
                (ConsumeFifo(lots, remaining).0, consumedCostBasis + ConsumeFifo(lots, remaining).1)
      decreases |lots| + (if remaining > 0.0 then 1 else 0)
    {
      var lot := lots[0];
      var take := Min(lot.value, remaining);
      var ratio := TakenFraction(take, lot.value);
      consumedCostBasis := consumedCostBasis + CostShare(lot.costBasis, ratio);
      lot := Lot(lot.costBasis - CostShare(lot.costBasis, ratio), lot.value - take);
      ghost var rest := StepRest(lots, remaining);
      remaining := remaining - take;
      if lot.value <= Dust {
        lots := lots[1..];
      } else {
        lots := [lot] + lots[1..];
      }
      assert lots == rest;
    }
  }

  /** Two lots (cost 100 for 200 of value, then 50 for 100), 250 sold: the
      first lot goes whole and half of the second, so 125 of cost basis is
      sold and a lot worth 50 at cost 25 is left. */
  lemma FifoExample()
    ensures ConsumeFifo([Lot(100.0, 200.0), Lot(50.0, 100.0)], 250.0) == ([Lot(25.0, 50.0)], 125.0)
  {
    var lots := [Lot(100.0, 200.0), Lot(50.0, 100.0)];
    assert TakenFraction(200.0, 200.0) == 1.0;
    assert TakenFraction(50.0, 100.0) == 0.5;
    assert lots[1..] == [Lot(50.0, 100.0)];
    assert [Lot(50.0, 100.0)][1..] == [];
    assert CostShare(100.0, 1.0) == 100.0 && CostShare(50.0, 0.5) == 25.0;
    assert StepRest(lots, 250.0) == [Lot(50.0, 100.0)];
    assert StepRest([Lot(50.0, 100.0)], 50.0) == [Lot(25.0, 50.0)];
    assert ConsumeFifo([Lot(25.0, 50.0)], 0.0) == ([Lot(25.0, 50.0)], 0.0);
    assert ConsumeFifo([Lot(50.0, 100.0)], 50.0) == ([Lot(25.0, 50.0)], 25.0);
  }

  // ---------------------------------------------------------------------
  // Valuation (`prepare`) and drift (start of `apply`)

  /** A day's change in value at an annual expected return (365-day year). */
  function DailyChange(value: real, expectedReturn: real): real {
    value * (expectedReturn / 365.0)
  }

  /** The reserve that a cash reserve ratio asks for, before the 10% factor. */
  function RequiredReserve(totalAssetValue: real, cashReserveRatio: real): real {
    totalAssetValue * cashReserveRatio
  }

  /** The changes `prepare` records: one per unlocked asset, from the value
      the state holds for its id (0 when absent); a later asset with the
      same id overwrites an earlier one. */
  function ValuationChanges(assets: seq<Asset>, held: map<string, real>): map<string, real> {
    if |assets| == 0 then map[]
    else
      var m := ValuationChanges(assets[..|assets| - 1], held);
      var a := assets[|assets| - 1];
      if a.locked then m else m[a.id := DailyChange(Get(held, a.id), a.expectedReturn)]
  }

  /** Ids of the unlocked assets. */
  function UnlockedIds(assets: seq<Asset>): set<string> {
    set i | 0 <= i < |assets| && !assets[i].locked :: assets[i].id
  }

  /** Exactly the unlocked assets get a valuation change. */
  lemma {:induction false} ChangesCoverUnlocked(assets: seq<Asset>, held: map<string, real>)
    ensures ValuationChanges(assets, held).Keys == UnlockedIds(assets)
  {
    if |assets| > 0 {
      var p := assets[..|assets| - 1];
      ChangesCoverUnlocked(p, held);
      assert forall i :: 0 <= i < |p| ==> p[i] == assets[i];
      assert UnlockedIds(assets) == UnlockedIds(p) + (if assets[|assets| - 1].locked then {} else {assets[|assets| - 1].id});
    }
  }

  /** The drift loop: each input asset's value becomes its current value
      plus its recorded change (0 when none), in input order. */
  function Drift(assets: seq<Asset>, changes: map<string, real>, held: map<string, real>): map<string, real> {
    if |assets| == 0 then held
    else
      var m := Drift(assets[..|assets| - 1], changes, held);
      var a := assets[|assets| - 1];
      m[a.id := Get(m, a.id) + Get(changes, a.id)]
  }

  function AssetIdSet(assets: seq<Asset>): set<string> {
    set i | 0 <= i < |assets| :: assets[i].id
  }

  /** Drift adds every input id to the held ids and no other. */
  lemma {:induction false} DriftKeys(assets: seq<Asset>, changes: map<string, real>, held: map<string, real>)
    ensures Drift(assets, changes, held).Keys == held.Keys + AssetIdSet(assets)
  {
    if |assets| > 0 {
      var p := assets[..|assets| - 1];
      var a := assets[|assets| - 1];
      DriftKeys(p, changes, held);
      assert forall i :: 0 <= i < |p| ==> p[i] == assets[i];
      assert AssetIdSet(assets) == AssetIdSet(p) + {a.id};
    }
  }

  /** Drift changes no value that has no recorded change, so locked assets
      keep their value. */
  lemma {:induction false} DriftKeepsUnchanged(assets: seq<Asset>, changes: map<string, real>, held: map<string, real>)
    ensures forall k :: k !in changes ==> Get(Drift(assets, changes, held), k) == Get(held, k)
  {
    if |assets| > 0 {
      var p := assets[..|assets| - 1];
      var a := assets[|assets| - 1];
      DriftKeepsUnchanged(p, changes, held);
      var m := Drift(p, changes, held);
      assert Drift(assets, changes, held) == m[a.id := Get(m, a.id) + Get(changes, a.id)];
    }
  }

  /** An asset whose id appears once in the input drifts by its change alone. */
  lemma {:induction false} DriftOnce(assets: seq<Asset>, changes: map<string, real>, held: map<string, real>, k: int)
    requires 0 <= k < |assets|
    requires forall j :: 0 <= j < |assets| && j != k ==> assets[j].id != assets[k].id
    ensures Get(Drift(assets, changes, held), assets[k].id) == Get(held, assets[k].id) + Get(changes, assets[k].id)
  {
    var id := assets[k].id;
    var p := assets[..|assets| - 1];
    if k == |assets| - 1 {
      DriftSkips(p, changes, held, id);
    } else {
      DriftOnce(p, changes, held, k);
    }
  }

  /** Assets with other ids leave an id's value alone. */
  lemma {:induction false} DriftSkips(assets: seq<Asset>, changes: map<string, real>, held: map<string, real>, id: string)
    requires forall j :: 0 <= j < |assets| ==> assets[j].id != id
    ensures Get(Drift(assets, changes, held), id) == Get(held, id)
  {
    if |assets| > 0 {
      DriftSkips(assets[..|assets| - 1], changes, held, id);
    }
  }

  /** Liquidation is flagged when the balance is negative or below a tenth
      of the reserve the ratio asks for. */
  ghost predicate LiquidationWanted(st: DayState, cashReserveRatio: real) {
    st.balance < 0.0 || st.balance < RequiredReserve(SumValues(st.assets), cashReserveRatio) * 0.1
  }

  // ---------------------------------------------------------------------
  // The order of sale

  /** `Number.MAX_SAFE_INTEGER`, the position of an asset not in the order. */
  const MaxSafeInteger: int := 9007199254740991

  /** The position of `id` in the custom order; a repeated id keeps its last
      position, as a `Map` built from the list does. */
  function OrderIndex(order: seq<string>, id: string): int {
    if |order| == 0 then MaxSafeInteger
    else if order[|order| - 1] == id then |order| - 1
    else OrderIndex(order[..|order| - 1], id)
  }

  /** The comparator: custom position, then sale penalty, then id. */
  predicate SellsBefore(order: seq<string>, a: Asset, b: Asset) {
    var oa, ob := OrderIndex(order, a.id), OrderIndex(order, b.id);
    oa < ob || (oa == ob && (a.salePenalty < b.salePenalty ||
                             (a.salePenalty == b.salePenalty && LexLess(a.id, b.id))))
  }

  lemma SellsBeforeAsymmetric(order: seq<string>, a: Asset, b: Asset)
    ensures SellsBefore(order, a, b) ==> !SellsBefore(order, b, a)
  {
    LexLessAsymmetric(a.id, b.id);
  }

  lemma SellsBeforeTransitive(order: seq<string>, a: Asset, b: Asset, c: Asset)
    requires SellsBefore(order, a, b) && SellsBefore(order, b, c)
    ensures SellsBefore(order, a, c)
  {
    if LexLess(a.id, b.id) && LexLess(b.id, c.id) {
      LexLessTransitive(a.id, b.id, c.id);
    }
  }

  /** The assets that may be sold: unlocked and without a liquidity delay. */
  function Sellable(assets: seq<Asset>): seq<Asset> {
    if |assets| == 0 then []
    else
      var a := assets[|assets| - 1];
      Sellable(assets[..|assets| - 1]) + (if !a.locked && a.liquidityDelayDays == 0 then [a] else [])
  }

  lemma {:induction false} SellableFilters(assets: seq<Asset>)
    ensures forall x :: x in Sellable(assets) ==> x in assets && !x.locked && x.liquidityDelayDays == 0
    ensures forall x :: x in assets && !x.locked && x.liquidityDelayDays == 0 ==> x in Sellable(assets)
  {
    if |assets| > 0 {
      SellableFilters(assets[..|assets| - 1]);
      assert assets == assets[..|assets| - 1] + [assets[|assets| - 1]];
    }
  }

  /** Inserts after every asset that `x` does not sell before, which keeps
      equal keys in their input order. */
  function InsertForSale(order: seq<string>, x: Asset, s: seq<Asset>): seq<Asset> {
    if |s| == 0 then [x]
    else if SellsBefore(order, x, s[0]) then [x] + s
    else [s[0]] + InsertForSale(order, x, s[1..])
  }

  /** The stable sort of the sellable assets. */
  function SaleOrder(order: seq<string>, xs: seq<Asset>): seq<Asset> {
    if |xs| == 0 then []
    else InsertForSale(order, xs[|xs| - 1], SaleOrder(order, xs[..|xs| - 1]))
  }

  /** No asset is sold after one it should be sold before. */
  predicate SortedForSale(order: seq<string>, s: seq<Asset>) {
    forall i, j :: 0 <= i < j < |s| ==> !SellsBefore(order, s[j], s[i])
  }

  lemma {:induction false} InsertKeeps(order: seq<string>, x: Asset, s: seq<Asset>)
    requires SortedForSale(order, s)
    ensures multiset(InsertForSale(order, x, s)) == multiset(s) + multiset{x}
    ensures SortedForSale(order, InsertForSale(order, x, s))
  {
    if |s| > 0 {
      if SellsBefore(order, x, s[0]) {
        forall j | 0 <= j < |s|
          ensures !SellsBefore(order, s[j], x)
        {
          if SellsBefore(order, s[j], x) {
            SellsBeforeTransitive(order, s[j], x, s[0]);
            if j == 0 {
              SellsBeforeAsymmetric(order, x, s[0]);
            }
          }
        }
        assert s == [s[0]] + s[1..];
      } else {
        InsertKeeps(order, x, s[1..]);
        var t := InsertForSale(order, x, s[1..]);
        assert s == [s[0]] + s[1..];
        forall k | 0 <= k < |t|
          ensures !SellsBefore(order, t[k], s[0])
        {
          assert t[k] in multiset(t);
          assert t[k] == x || t[k] in s[1..];
        }
      }
    }
  }

  /** The order of sale is a sorted permutation of the sellable assets. */
  lemma {:induction false} SaleOrderSorted(order: seq<string>, xs: seq<Asset>)
    ensures multiset(SaleOrder(order, xs)) == multiset(xs)
    ensures SortedForSale(order, SaleOrder(order, xs))
  {
    if |xs| > 0 {
      SaleOrderSorted(order, xs[..|xs| - 1]);
      InsertKeeps(order, xs[|xs| - 1], SaleOrder(order, xs[..|xs| - 1]));
      assert xs == xs[..|xs| - 1] + [xs[|xs| - 1]];
    }
  }

  // ---------------------------------------------------------------------
  // Sales

  /** What is left of `amount` after the sale penalty. */
  function NetOfPenalty(amount: real, salePenalty: real): real {
    amount * (1.0 - salePenalty)
  }

  function Abs(x: real): real {
    if x < 0.0 then -x else x
  }

  /** The lots held for an asset id (none when absent). */
  function LotsOf(st: DayState, id: string): seq<Lot> {
    if id in st.assetLots then st.assetLots[id] else []
  }

  /** One pass of the sale loop for an asset with a positive value: sell
      enough for the proceeds, net of the penalty, to cover the deficit or
      the whole value if that is not enough; consume its lots oldest first
      and book the gain over their cost basis. */
  function SellOne(x: Asset, st: DayState, base: Currency): (r: DayState)
    requires PositiveRates(st.fxRates)
    ensures r.fxRates == st.fxRates && r.day == st.day
    ensures r.creditScore == st.creditScore && r.taxesPaid == st.taxesPaid && r.shockImpact == st.shockImpact
  {
    var cur := Get(st.assets, x.id);
    if cur <= 0.0 then st
    else
      var rates := st.fxRates;
      var deficitBase := Abs(st.balance);
      var availableNetBase := Convert(NetOfPenalty(cur, x.salePenalty), x.currency, base, rates);
      var proceedsBase := Min(availableNetBase, deficitBase);
      var proceedsInAssetCurrency := Convert(proceedsBase, base, x.currency, rates);
      var sellAmount := Min(cur, proceedsInAssetCurrency / Max(Dust, 1.0 - x.salePenalty));
      var proceeds := NetOfPenalty(sellAmount, x.salePenalty);
      var consumed := ConsumeFifo(LotsOf(st, x.id), sellAmount);
      var gainBase := Convert(proceeds - consumed.1, x.currency, base, rates);
      st.(assetLots := st.assetLots[x.id := consumed.0],
          assets := st.assets[x.id := cur - sellAmount],
          balance := st.balance + Convert(proceeds, x.currency, base, rates),
          realizedGains := st.realizedGains + gainBase)
  }

  /** The sale loop: stops as soon as the balance is no longer negative. */
  function SellAll(xs: seq<Asset>, st: DayState, base: Currency): (r: DayState)
    requires PositiveRates(st.fxRates)
    ensures r.fxRates == st.fxRates && r.day == st.day
    ensures r.creditScore == st.creditScore && r.taxesPaid == st.taxesPaid && r.shockImpact == st.shockImpact
    decreases |xs|
  {
    if |xs| == 0 || st.balance >= 0.0 then st
    else SellAll(xs[1..], SellOne(xs[0], st, base), base)
  }

  /** Converting a larger amount gives a larger result. */
  lemma ConvertMonotone(x: real, y: real, a: Currency, b: Currency, r: Rates)
    requires PositiveRates(r) && x <= y
    ensures Convert(x, a, b, r) <= Convert(y, a, b, r)
  {
    ConvertAdditive(x, y - x, a, b, r);
    ConvertSign(y - x, a, b, r);
  }

  lemma NetBounds(amount: real, salePenalty: real)
    requires amount >= 0.0 && 0.0 <= salePenalty <= 1.0
    ensures 0.0 <= NetOfPenalty(amount, salePenalty) <= amount
  {
  }

  lemma MulMonotone(x: real, y: real, f: real)
    requires x <= y && f >= 0.0
    ensures x * f <= y * f
  {
  }

  lemma ScaledDown(w: real, f: real, d: real)
    requires w >= 0.0 && 0.0 <= f <= d && d > 0.0
    ensures (w / d) * f <= w
  {
    assert (w / d) * f == w * (f / d);
    assert f / d <= 1.0;
  }

  /** Dividing by the floored `1 - penalty` and taking the penalty off again
      never gives more than was asked for. */
  lemma PenaltyRoundTrip(sell: real, wanted: real, salePenalty: real)
    requires 0.0 <= salePenalty <= 1.0 && wanted >= 0.0
    requires 0.0 <= sell <= wanted / Max(Dust, 1.0 - salePenalty)
    ensures 0.0 <= NetOfPenalty(sell, salePenalty) <= wanted
  {
    var d := Max(Dust, 1.0 - salePenalty);
    var f := 1.0 - salePenalty;
    MulMonotone(sell, wanted / d, f);
    ScaledDown(wanted, f, d);
    MulMonotone(0.0, sell, f);
  }

  /** A sale while the balance is negative raises it to at most 0 and leaves
      the asset with a value between 0 and what it had. */
  lemma SellOneBounds(x: Asset, st: DayState, base: Currency)
    requires PositiveRates(st.fxRates) && st.balance < 0.0 && 0.0 <= x.salePenalty <= 1.0
    ensures var r := SellOne(x, st, base);
            st.balance <= r.balance <= 0.0 &&
            (Get(st.assets, x.id) > 0.0 ==> 0.0 <= Get(r.assets, x.id) <= Get(st.assets, x.id))
  {
    var cur := Get(st.assets, x.id);
    if cur > 0.0 {
      var rates := st.fxRates;
      var deficitBase := Abs(st.balance);
      NetBounds(cur, x.salePenalty);
      ConvertSign(NetOfPenalty(cur, x.salePenalty), x.currency, base, rates);
      var availableNetBase := Convert(NetOfPenalty(cur, x.salePenalty), x.currency, base, rates);
      var proceedsBase := Min(availableNetBase, deficitBase);
      ConvertSign(proceedsBase, base, x.currency, rates);
      var proceedsInAssetCurrency := Convert(proceedsBase, base, x.currency, rates);
      var d := Max(Dust, 1.0 - x.salePenalty);
      assert proceedsInAssetCurrency / d >= 0.0;
      var sellAmount := Min(cur, proceedsInAssetCurrency / d);
      PenaltyRoundTrip(sellAmount, proceedsInAssetCurrency, x.salePenalty);
      var proceeds := NetOfPenalty(sellAmount, x.salePenalty);
      ConvertSign(proceeds, x.currency, base, rates);
      ConvertMonotone(proceeds, proceedsInAssetCurrency, x.currency, base, rates);
      ConvertRoundTrip(proceedsBase, base, x.currency, rates);
      assert Convert(proceeds, x.currency, base, rates) <= proceedsBase;
    }
  }

  /** Sale penalties between 0 and 1, as the input schema demands. */
  predicate ValidPenalties(xs: seq<Asset>) {
    forall i :: 0 <= i < |xs| ==> 0.0 <= xs[i].salePenalty <= 1.0
  }

  /** Liquidation lifts a negative balance towards 0 and never past it. */
  lemma {:induction false} SellAllBounds(xs: seq<Asset>, st: DayState, base: Currency)
    requires PositiveRates(st.fxRates) && ValidPenalties(xs)
    ensures SellAll(xs, st, base).balance >= st.balance
    ensures st.balance < 0.0 ==> SellAll(xs, st, base).balance <= 0.0
    decreases |xs|
  {
    if |xs| > 0 && st.balance < 0.0 {
      SellOneBounds(xs[0], st, base);
      SellAllBounds(xs[1..], SellOne(xs[0], st, base), base);
    }
  }

  /** Only the assets in the sale order can lose value. */
  lemma {:induction false} SellAllTouchesOnlySold(xs: seq<Asset>, st: DayState, base: Currency, k: string)
    requires PositiveRates(st.fxRates)
    requires forall i :: 0 <= i < |xs| ==> xs[i].id != k
    ensures Get(SellAll(xs, st, base).assets, k) == Get(st.assets, k)
    decreases |xs|
  {
    if |xs| > 0 && st.balance < 0.0 {
      SellAllTouchesOnlySold(xs[1..], SellOne(xs[0], st, base), base, k);
    }
  }

  /** Asset values that are not negative stay so. */
  lemma {:induction false} SellAllKeepsValuesNonNegative(xs: seq<Asset>, st: DayState, base: Currency)
    requires PositiveRates(st.fxRates) && ValidPenalties(xs)
    requires forall k :: k in st.assets ==> st.assets[k] >= 0.0
    ensures forall k :: k in SellAll(xs, st, base).assets ==> SellAll(xs, st, base).assets[k] >= 0.0
    decreases |xs|
  {
    if |xs| > 0 && st.balance < 0.0 {
      var s1 := SellOne(xs[0], st, base);
      SellOneBounds(xs[0], st, base);
      assert forall k :: k in s1.assets ==> s1.assets[k] >= 0.0 by {
        forall k | k in s1.assets
          ensures s1.assets[k] >= 0.0
        {
          if k == xs[0].id && Get(st.assets, k) > 0.0 {
            assert Get(s1.assets, k) == s1.assets[k];
          }
        }
      }
      SellAllKeepsValuesNonNegative(xs[1..], s1, base);
    }
  }

  /** The whole of `apply`: drift, then the sale loop when liquidation was
      flagged and the balance is negative after the drift. */
  function ApplyAssets(assets: seq<Asset>, base: Currency, order: seq<string>, changes: map<string, real>,
                       needed: bool, st: DayState): (r: DayState)
    requires PositiveRates(st.fxRates)
    ensures r.fxRates == st.fxRates && r.day == st.day
    ensures r.creditScore == st.creditScore && r.taxesPaid == st.taxesPaid && r.shockImpact == st.shockImpact
  {
    var drifted := st.(assets := Drift(assets, changes, st.assets));
    if needed && drifted.balance < 0.0 then SellAll(SaleOrder(order, Sellable(assets)), drifted, base)
    else drifted
  }

  lemma SaleOrderMembers(order: seq<string>, assets: seq<Asset>)
    ensures forall x :: x in SaleOrder(order, Sellable(assets)) ==> x in assets && !x.locked && x.liquidityDelayDays == 0
  {
    SaleOrderSorted(order, Sellable(assets));
    SellableFilters(assets);
    forall x | x in SaleOrder(order, Sellable(assets))
      ensures x in Sellable(assets)
    {
      assert x in multiset(SaleOrder(order, Sellable(assets)));
    }
  }

  /** `apply` on the balance: it never goes down, and a negative balance is
      lifted at most to 0; an asset that is locked, delayed or absent from
      the input is never sold, so its value is what the drift made it. */
  lemma ApplyAssetsEffect(assets: seq<Asset>, base: Currency, order: seq<string>, changes: map<string, real>,
                          needed: bool, st: DayState, k: string)
    requires PositiveRates(st.fxRates) && ValidPenalties(assets)
    requires forall i :: 0 <= i < |assets| && assets[i].id == k ==> assets[i].locked || assets[i].liquidityDelayDays != 0
    ensures var r := ApplyAssets(assets, base, order, changes, needed, st);
            r.balance >= st.balance && (st.balance < 0.0 ==> r.balance <= 0.0) &&
            Get(r.assets, k) == Get(Drift(assets, changes, st.assets), k)
  {
    var drifted := st.(assets := Drift(assets, changes, st.assets));
    if needed && drifted.balance < 0.0 {
      var xs := SaleOrder(order, Sellable(assets));
      SaleOrderMembers(order, assets);
      assert ValidPenalties(xs) by {
        forall i | 0 <= i < |xs|
          ensures 0.0 <= xs[i].salePenalty <= 1.0
        {
          assert xs[i] in assets;
        }
      }
      SellAllBounds(xs, drifted, base);
      assert forall i :: 0 <= i < |xs| ==> xs[i].id != k by {
        forall i | 0 <= i < |xs|
          ensures xs[i].id != k
        {
          assert xs[i] in assets;
        }
      }
      SellAllTouchesOnlySold(xs, drifted, base, k);
    }
  }

  /** `AssetNode`: records valuation changes and the liquidation flag in
      `prepare`, and drifts and sells in `apply`. */
  class AssetNode {
    const options: RuntimeOptions
    var valuationChanges: map<string, real>
    var liquidationNeeded: bool

    constructor(options: RuntimeOptions)
      ensures this.options == options && valuationChanges == map[] && !liquidationNeeded
    {
      this.options := options;
      valuationChanges := map[];
      liquidationNeeded := false;
    }

    method Prepare(st: DayState, input: SimulationInput)
      modifies this
      ensures valuationChanges == ValuationChanges(input.assets, st.assets)
      ensures liquidationNeeded == LiquidationWanted(st, input.cashReserveRatio)
    {
      valuationChanges := map[];
      liquidationNeeded := false;
      var i := 0;
      while i < |input.assets|
        invariant 0 <= i <= |input.assets|
        invariant valuationChanges == ValuationChanges(input.assets[..i], st.assets)
        invariant !liquidationNeeded
      {
        var a := input.assets[i];
        assert input.assets[..i + 1][..i] == input.assets[..i];
        if !a.locked {
          var currentValue := Get(st.assets, a.id);
          valuationChanges := valuationChanges[a.id := DailyChange(currentValue, a.expectedReturn)];
        }
        i := i + 1;
      }
      assert input.assets[..i] == input.assets;
      var totalAssetValue := SumMap(st.assets);
      var requiredReserve := RequiredReserve(totalAssetValue, input.cashReserveRatio);
      if st.balance < 0.0 || st.balance < requiredReserve * 0.1 {
        liquidationNeeded := true;
      }
    }

    method Apply(st: DayState, input: SimulationInput) returns (r: DayState)
      requires PositiveRates(st.fxRates)
      ensures r == ApplyAssets(input.assets, input.baseCurrency, options.liquidationOrder,
                               valuationChanges, liquidationNeeded, st)
    {
      r := st;
      var i := 0;
      while i < |input.assets|
        invariant 0 <= i <= |input.assets|
        invariant r == st.(assets := Drift(input.assets[..i], valuationChanges, st.assets))
      {
        var a := input.assets[i];
        assert input.assets[..i + 1][..i] == input.assets[..i];
        var currentValue := Get(r.assets, a.id);
        var change := Get(valuationChanges, a.id);
        r := r.(assets := r.assets[a.id := currentValue + change]);
        i := i + 1;
      }
      assert input.assets[..i] == input.assets;
      if liquidationNeeded && r.balance < 0.0 {
        var sellable := SaleOrder(options.liquidationOrder, Sellable(input.assets));
        ghost var drifted := r;
        var j := 0;
        while j < |sellable|
          invariant 0 <= j <= |sellable|
          invariant r.fxRates == st.fxRates
          invariant SellAll(sellable, drifted, input.baseCurrency) == SellAll(sellable[j..], r, input.baseCurrency)
        {
          if r.balance >= 0.0 {
            break;
          }
          assert sellable[j..][1..] == sellable[j + 1..];
          r := SellAsset(sellable[j], r, input.baseCurrency);
          j := j + 1;
        }
      }
    }
  }

  /** The body of the sale loop, step by step as the source computes it. */
  method SellAsset(x: Asset, st: DayState, base: Currency) returns (r: DayState)
    requires PositiveRates(st.fxRates)
    ensures r == SellOne(x, st, base)
  {
    r := st;
    var currentValue := Get(r.assets, x.id);
    if currentValue <= 0.0 {
      return;
    }
    var deficitBase := Abs(r.balance);
    var availableNetBase := Convert(NetOfPenalty(currentValue, x.salePenalty), x.currency, base, r.fxRates);
    var proceedsBase := Min(availableNetBase, deficitBase);
    var proceedsInAssetCurrency := Convert(proceedsBase, base, x.currency, r.fxRates);
    var sellAmount := Min(currentValue, proceedsInAssetCurrency / Max(Dust, 1.0 - x.salePenalty));
    var proceeds := NetOfPenalty(sellAmount, x.salePenalty);
    var lots, costBasisSold := ConsumeLotsFifo(LotsOf(st, x.id), sellAmount);
    var realizedGainInAssetCurrency := proceeds - costBasisSold;
    var realizedGainInBase := Convert(realizedGainInAssetCurrency, x.currency, base, st.fxRates);
    r := st.(assetLots := st.assetLots[x.id := lots],
             assets := st.assets[x.id := currentValue - sellAmount],
             balance := st.balance + Convert(proceeds, x.currency, base, st.fxRates),
             realizedGains := st.realizedGains + realizedGainInBase);
  }

  // ---------------------------------------------------------------------
  // The liquidation example (tests/engine/liquidation.test.ts)

  const Property := Asset("real-estate", "Property", RealEstate, 1000.0, USD, 0.0, 0.0, 0.06, 90, false)
  const SavingsAccount := Asset("savings", "Savings", Savings, 200.0, USD, 0.0, 0.0, 0.0, 0, false)
  const DeficitState := DayState(0, -100.0, map["real-estate" := 1000.0, "savings" := 200.0], map[],
                                 map["real-estate" := [Lot(1000.0, 1000.0)], "savings" := [Lot(200.0, 200.0)]],
                                 Rates(1.0, 280.0), 650.0, 0.0, 0.0, 0.0, 0, 0.0, 0.0, 0.0)

  /** With 100 of cash missing, the delayed property is not touched and the
      savings pay the whole deficit at cost, so no gain is realised. */
  lemma LiquidationExample()
    ensures var changes := ValuationChanges([Property, SavingsAccount], DeficitState.assets);
            var r := ApplyAssets([Property, SavingsAccount], USD, [], changes, true, DeficitState);
            r.balance == 0.0 && Get(r.assets, "savings") == 100.0 && Get(r.assets, "real-estate") == 1000.0 &&
            r.realizedGains == 0.0
  {
    var assets := [Property, SavingsAccount];
    var st := DeficitState;
    LiquidationValuation();
    LiquidationOrder();
    LiquidationSale();
    var changes := ValuationChanges(assets, st.assets);
    assert st.(assets := Drift(assets, changes, st.assets)) == st;
    assert ApplyAssets(assets, USD, [], changes, true, st) == SellAll([SavingsAccount], st, USD);
  }

  /** Only the savings can be sold at once: the property has a 90-day delay. */
  lemma LiquidationOrder()
    ensures SaleOrder([], Sellable([Property, SavingsAccount])) == [SavingsAccount]
  {
    var assets := [Property, SavingsAccount];
    assert Sellable(assets) == [SavingsAccount] by {
      assert assets[..1] == [Property] && [Property][..0] == [];
      assert Sellable([Property]) == [];
    }
    assert SaleOrder([], [SavingsAccount]) == [SavingsAccount] by {
      assert [SavingsAccount][..0] == [];
    }
  }

  /** In the example nothing drifts: both assets have zero expected return. */
  lemma LiquidationValuation()
    ensures var changes := ValuationChanges([Property, SavingsAccount], DeficitState.assets);
            changes == map["real-estate" := 0.0, "savings" := 0.0] &&
            Drift([Property, SavingsAccount], changes, DeficitState.assets) == DeficitState.assets
  {
    var assets := [Property, SavingsAccount];
    var st := DeficitState;
    assert "real-estate" != "savings";
    assert assets[..1] == [Property] && [Property][..0] == [];
    var changes := ValuationChanges(assets, st.assets);
    assert DailyChange(1000.0, 0.0) == 0.0 && DailyChange(200.0, 0.0) == 0.0;
    assert Get(st.assets, "real-estate") == 1000.0 && Get(st.assets, "savings") == 200.0;
    assert ValuationChanges([Property], st.assets) == map["real-estate" := 0.0];
    assert changes == map["real-estate" := 0.0, "savings" := 0.0];
    assert Drift([Property], changes, st.assets) == st.assets;
  }

  /** Selling the savings covers the 100 deficit at cost, and the loop
      stops there. */
  lemma LiquidationSale()
    ensures var s1 := SellAll([SavingsAccount], DeficitState, USD);
            s1.balance == 0.0 && Get(s1.assets, "savings") == 100.0 &&
            Get(s1.assets, "real-estate") == 1000.0 && s1.realizedGains == 0.0
  {
    var s1 := SellOne(SavingsAccount, DeficitState, USD);
    SavingsSale();
    assert SellAll([SavingsAccount], DeficitState, USD) == SellAll([], s1, USD) == s1;
  }

  lemma SavingsSale()
    ensures var s1 := SellOne(SavingsAccount, DeficitState, USD);
            s1.balance == 0.0 && Get(s1.assets, "savings") == 100.0 &&
            Get(s1.assets, "real-estate") == 1000.0 && s1.realizedGains == 0.0
  {
    assert "real-estate" != "savings";
    ConsumeSavings();
  }

  lemma ConsumeSavings()
    ensures ConsumeFifo([Lot(200.0, 200.0)], 100.0) == ([Lot(100.0, 100.0)], 100.0)
  {
    assert StepTake([Lot(200.0, 200.0)], 100.0) == 100.0;
    assert TakenFraction(100.0, 200.0) == 0.5;
    assert CostShare(200.0, 0.5) == 100.0;
    assert [Lot(200.0, 200.0)][1..] == [];
    assert StepRest([Lot(200.0, 200.0)], 100.0) == [Lot(100.0, 100.0)];
    assert ConsumeFifo([Lot(100.0, 100.0)], 0.0) == ([Lot(100.0, 100.0)], 0.0);
  }
}
