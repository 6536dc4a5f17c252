/** The debt component (src/lib/engine/modules/debt.ts): daily interest on
    every open debt and, on the first day of each 30-day month, the minimum
    payment from the cash balance when the balance covers it. */
module Debt {
  import opened Types
  import opened Graph
  import opened Fx

  /** What `prepare` leaves in the node for `apply`: the payment per debt id
      in the debt's currency and in the base currency, the interest per debt
      id, and the number of payments that could not be made. */
  datatype DebtPlan = DebtPlan(
    payments: map<string, real>,
    paymentInBase: map<string, real>,
    interest: map<string, real>,
    missed: int)

  const EmptyPlan := DebtPlan(map[], map[], map[], 0)

  /** A day's interest at an annual rate `apr` (a 365-day year). */
  function DailyInterest(principal: real, apr: real): real {
    principal * (apr / 365.0)
  }

  /** True on the first day of a 30-day month, when payments fall due. */
  predicate IsBillingDay(day: int) {
    JsRem(day, 30) + 1 == 1
  }

  /** One debt's part of `prepare`, on top of the plan built so far. */
  function PlanDebt(d: Types.Debt, day: int, st: DayState, base: Currency, p: DebtPlan): DebtPlan
    requires PositiveRates(st.fxRates)
  {
    var cur := Get(st.debts, d.id);
    if cur <= 0.0 then p
    else
      var interest := DailyInterest(cur, d.apr);
      var billed :=
        if IsBillingDay(day) then
          var payment := Min(d.minPayment, cur + interest);
          var paymentBase := Convert(payment, d.currency, base, st.fxRates);
          if st.balance >= paymentBase then
            p.(payments := p.payments[d.id := payment], paymentInBase := p.paymentInBase[d.id := paymentBase])
          else
            p.(missed := p.missed + 1, payments := p.payments[d.id := 0.0], paymentInBase := p.paymentInBase[d.id := 0.0])
        else p;
      billed.(interest := billed.interest[d.id := interest])
  }

  /** `prepare` over the debts in input order. */
  function PlanDebts(debts: seq<Types.Debt>, day: int, st: DayState, base: Currency): DebtPlan
    requires PositiveRates(st.fxRates)
  {
    if |debts| == 0 then EmptyPlan
    else PlanDebt(debts[|debts| - 1], day, st, base, PlanDebts(debts[..|debts| - 1], day, st, base))
  }

  /** One debt's part of `apply`: interest is added, a positive payment is
      subtracted from the principal and its base-currency amount from the
      balance, and the principal is floored at 0. */
  function ApplyDebt(d: Types.Debt, p: DebtPlan, st: DayState): DayState {
    var cur := Get(st.debts, d.id);
    if cur <= 0.0 then st
    else
      var newPrincipal := cur + Get(p.interest, d.id);
      var payment := Get(p.payments, d.id);
      var paid :=
        if payment > 0.0 then
          var paymentBase := Get(p.paymentInBase, d.id);
          st.(balance := st.balance - paymentBase, totalDebtPayments := st.totalDebtPayments + paymentBase)
        else st;
      var principal := if payment > 0.0 then newPrincipal - payment else newPrincipal;
      paid.(debts := paid.debts[d.id := Max(0.0, principal)])
  }

  /** `apply` over the debts in input order, before the missed count is added. */
  function ApplyDebts(debts: seq<Types.Debt>, p: DebtPlan, st: DayState): (r: DayState)
    ensures r.fxRates == st.fxRates && r.day == st.day
    ensures r.creditScore == st.creditScore && r.taxesPaid == st.taxesPaid && r.shockImpact == st.shockImpact
  {
    if |debts| == 0 then st
    else ApplyDebt(debts[|debts| - 1], p, ApplyDebts(debts[..|debts| - 1], p, st))
  }

  /** The whole of `apply`. */
  function ApplyPlan(debts: seq<Types.Debt>, p: DebtPlan, st: DayState): (r: DayState)
    ensures r.fxRates == st.fxRates && r.day == st.day
    ensures r.creditScore == st.creditScore && r.taxesPaid == st.taxesPaid && r.shockImpact == st.shockImpact
  {
    var r := ApplyDebts(debts, p, st);
    r.(missedPayments := r.missedPayments + p.missed)
  }

  /** `PlanDebt` case by case. */
  lemma PlanDebtCases(d: Types.Debt, day: int, st: DayState, base: Currency, p: DebtPlan)
    requires PositiveRates(st.fxRates)
    ensures var cur := Get(st.debts, d.id);
            var interest := DailyInterest(cur, d.apr);
            var payment := Min(d.minPayment, cur + interest);
            var paymentBase := Convert(payment, d.currency, base, st.fxRates);
            PlanDebt(d, day, st, base, p) ==
              if cur <= 0.0 then p
              else if !IsBillingDay(day) then p.(interest := p.interest[d.id := interest])
              else if st.balance >= paymentBase then
                DebtPlan(p.payments[d.id := payment], p.paymentInBase[d.id := paymentBase],
                         p.interest[d.id := interest], p.missed)
              else
                DebtPlan(p.payments[d.id := 0.0], p.paymentInBase[d.id := 0.0],
                         p.interest[d.id := interest], p.missed + 1)
  {
  }

  lemma PlanSnoc(debts: seq<Types.Debt>, i: int, day: int, st: DayState, base: Currency)
    requires PositiveRates(st.fxRates) && 0 <= i < |debts|
    ensures PlanDebts(debts[..i + 1], day, st, base) == PlanDebt(debts[i], day, st, base, PlanDebts(debts[..i], day, st, base))
  {
    assert debts[..i + 1][..i] == debts[..i];
  }

  // ---------------------------------------------------------------------
  // Properties of `prepare`

  /** Every missed payment belongs to a debt, and none is missed outside a
      billing day. */
  lemma {:induction false} MissedBounds(debts: seq<Types.Debt>, day: int, st: DayState, base: Currency)
    requires PositiveRates(st.fxRates)
    ensures 0 <= PlanDebts(debts, day, st, base).missed <= |debts|
    ensures !IsBillingDay(day) ==> PlanDebts(debts, day, st, base).missed == 0
  {
    if |debts| > 0 {
      MissedBounds(debts[..|debts| - 1], day, st, base);
    }
  }

  /** Outside billing days `prepare` schedules no payment at all. */
  lemma {:induction false} NoPaymentsOffBillingDay(debts: seq<Types.Debt>, day: int, st: DayState, base: Currency)
    requires PositiveRates(st.fxRates) && !IsBillingDay(day)
    ensures PlanDebts(debts, day, st, base).payments == map[]
    ensures PlanDebts(debts, day, st, base).paymentInBase == map[]
  {
    if |debts| > 0 {
      NoPaymentsOffBillingDay(debts[..|debts| - 1], day, st, base);
    }
  }

  /** Interest is never negative when rates and principals are not. */
  lemma {:induction false} InterestNonNegative(debts: seq<Types.Debt>, day: int, st: DayState, base: Currency)
    requires PositiveRates(st.fxRates)
    requires forall i :: 0 <= i < |debts| ==> debts[i].apr >= 0.0
    ensures forall k :: k in PlanDebts(debts, day, st, base).interest ==>
              PlanDebts(debts, day, st, base).interest[k] >= 0.0
  {
    if |debts| > 0 {
      var d := debts[|debts| - 1];
      InterestNonNegative(debts[..|debts| - 1], day, st, base);
      var cur := Get(st.debts, d.id);
      if cur > 0.0 {
        ProductNonNegative(cur, d.apr / 365.0);
        assert DailyInterest(cur, d.apr) >= 0.0;
      }
    }
  }

  lemma ProductNonNegative(a: real, b: real)
    requires a >= 0.0 && b >= 0.0
    ensures a * b >= 0.0
  {
  }

  /** Every amount in `m` is 0 or at most `balance`. */
  predicate CoveredBy(m: map<string, real>, balance: real) {
    forall k :: k in m ==> m[k] == 0.0 || m[k] <= balance
  }

  /** A payment is scheduled only when the balance before the debt
      component covers it; otherwise its amount is 0. */
  lemma {:induction false} PaymentsCovered(debts: seq<Types.Debt>, day: int, st: DayState, base: Currency)
    requires PositiveRates(st.fxRates)
    ensures CoveredBy(PlanDebts(debts, day, st, base).paymentInBase, st.balance)
  {
    if |debts| > 0 {
      PaymentsCovered(debts[..|debts| - 1], day, st, base);
      PlanDebtCases(debts[|debts| - 1], day, st, base, PlanDebts(debts[..|debts| - 1], day, st, base));
    }
  }

  // ---------------------------------------------------------------------
  // Properties of `apply`

  /** Money paid leaves the balance and enters the payment total one for one. */
  lemma {:induction false} PaymentsConserveCash(debts: seq<Types.Debt>, p: DebtPlan, st: DayState)
    ensures var r := ApplyPlan(debts, p, st);
            r.balance + r.totalDebtPayments == st.balance + st.totalDebtPayments
  {
    ConserveDebts(debts, p, st);
  }

  lemma {:induction false} ConserveDebts(debts: seq<Types.Debt>, p: DebtPlan, st: DayState)
    ensures var r := ApplyDebts(debts, p, st);
            r.balance + r.totalDebtPayments == st.balance + st.totalDebtPayments
  {
    if |debts| > 0 {
      ConserveDebts(debts[..|debts| - 1], p, st);
    }
  }

  /** `apply` touches only the balance, the principals, the payment total and
      the missed count, and adds exactly the planned number of misses. */
  lemma {:induction false} ApplyFrame(debts: seq<Types.Debt>, p: DebtPlan, st: DayState)
    ensures var r := ApplyDebts(debts, p, st);
            r == st.(balance := r.balance, debts := r.debts, totalDebtPayments := r.totalDebtPayments)
  {
    if |debts| > 0 {
      ApplyFrame(debts[..|debts| - 1], p, st);
    }
  }

  predicate NonNegativeValues(m: map<string, real>) {
    forall k :: k in m ==> m[k] >= 0.0
  }

  /** Principals stay at or above 0. */
  lemma {:induction false} PrincipalsStayNonNegative(debts: seq<Types.Debt>, p: DebtPlan, st: DayState)
    requires NonNegativeValues(st.debts)
    ensures NonNegativeValues(ApplyDebts(debts, p, st).debts)
  {
    if |debts| > 0 {
      PrincipalsStayNonNegative(debts[..|debts| - 1], p, st);
      var r0 := ApplyDebts(debts[..|debts| - 1], p, st);
      StepKeepsNonNegative(debts[|debts| - 1], p, r0);
    }
  }

  lemma StepKeepsNonNegative(d: Types.Debt, p: DebtPlan, st: DayState)
    requires NonNegativeValues(st.debts)
    ensures NonNegativeValues(ApplyDebt(d, p, st).debts)
  {
  }

  /** The ids with a principal are those that had one plus the debts seen. */
  lemma {:induction false} DebtKeys(debts: seq<Types.Debt>, p: DebtPlan, st: DayState)
    ensures ApplyDebts(debts, p, st).debts.Keys <= st.debts.Keys + set i | 0 <= i < |debts| :: debts[i].id
  {
    if |debts| > 0 {
      DebtKeys(debts[..|debts| - 1], p, st);
    }
  }

  /** With nothing scheduled and interest that is not negative, a day only
      adds interest: no principal goes down and the balance is untouched. */
  lemma {:induction false} AccrualOnly(debts: seq<Types.Debt>, p: DebtPlan, st: DayState)
    requires p.payments == map[]
    requires forall k :: k in p.interest ==> p.interest[k] >= 0.0
    ensures var r := ApplyDebts(debts, p, st);
            r.balance == st.balance && r.totalDebtPayments == st.totalDebtPayments &&
            forall k :: k in st.debts ==> k in r.debts && r.debts[k] >= st.debts[k]
  {
    if |debts| > 0 {
      AccrualOnly(debts[..|debts| - 1], p, st);
    }
  }

  /** Outside billing days a day of `prepare` and `apply` moves no cash and
      lowers no principal. */
  lemma OffBillingDayOnlyAccrues(debts: seq<Types.Debt>, day: int, st: DayState, base: Currency)
    requires PositiveRates(st.fxRates) && !IsBillingDay(day)
    requires forall i :: 0 <= i < |debts| ==> debts[i].apr >= 0.0
    ensures var r := ApplyPlan(debts, PlanDebts(debts, day, st, base), st);
            r.balance == st.balance && r.missedPayments == st.missedPayments &&
            forall k :: k in st.debts ==> k in r.debts && r.debts[k] >= st.debts[k]
  {
    var p := PlanDebts(debts, day, st, base);
    NoPaymentsOffBillingDay(debts, day, st, base);
    InterestNonNegative(debts, day, st, base);
    MissedBounds(debts, day, st, base);
    AccrualOnly(debts, p, st);
    ApplyFrame(debts, p, st);
  }

  // ---------------------------------------------------------------------
  // The node as written keeps interest in the payments map, under the key
  // `id + "_interest"`, so a debt whose id is another debt's id followed by
  // "_interest" reads that debt's interest as its own payment.

  /** The key under which the source files a debt's interest. */
  function InterestKey(id: string): string {
    id + "_interest"
  }

  function PlanDebtAsWritten(d: Types.Debt, day: int, st: DayState, base: Currency, p: DebtPlan): DebtPlan
    requires PositiveRates(st.fxRates)
  {
    var cur := Get(st.debts, d.id);
    if cur <= 0.0 then p
    else
      var interest := DailyInterest(cur, d.apr);
      var billed :=
        if IsBillingDay(day) then
          var payment := Min(d.minPayment, cur + interest);
          var paymentBase := Convert(payment, d.currency, base, st.fxRates);
          if st.balance >= paymentBase then
            p.(payments := p.payments[d.id := payment], paymentInBase := p.paymentInBase[d.id := paymentBase])
          else
            p.(missed := p.missed + 1, payments := p.payments[d.id := 0.0], paymentInBase := p.paymentInBase[d.id := 0.0])
        else p;
      billed.(payments := billed.payments[InterestKey(d.id) := interest])
  }

  function PlanDebtsAsWritten(debts: seq<Types.Debt>, day: int, st: DayState, base: Currency): DebtPlan
    requires PositiveRates(st.fxRates)
  {
    if |debts| == 0 then EmptyPlan
    else PlanDebtAsWritten(debts[|debts| - 1], day, st, base, PlanDebtsAsWritten(debts[..|debts| - 1], day, st, base))
  }

  function ApplyDebtAsWritten(d: Types.Debt, p: DebtPlan, st: DayState): DayState {
    var cur := Get(st.debts, d.id);
    if cur <= 0.0 then st
    else
      var newPrincipal := cur + Get(p.payments, InterestKey(d.id));
      var payment := Get(p.payments, d.id);
      var paid :=
        if payment > 0.0 then
          var paymentBase := Get(p.paymentInBase, d.id);
          st.(balance := st.balance - paymentBase, totalDebtPayments := st.totalDebtPayments + paymentBase)
        else st;
      var principal := if payment > 0.0 then newPrincipal - payment else newPrincipal;
      paid.(debts := paid.debts[d.id := Max(0.0, principal)])
  }

  function ApplyDebtsAsWritten(debts: seq<Types.Debt>, p: DebtPlan, st: DayState): DayState {
    if |debts| == 0 then st
    else ApplyDebtAsWritten(debts[|debts| - 1], p, ApplyDebtsAsWritten(debts[..|debts| - 1], p, st))
  }

  const ExampleA := Types.Debt("a", "A", 1000.0, USD, 0.365, 0.0, 0)
  const ExampleB := Types.Debt("a_interest", "B", 500.0, USD, 0.0, 0.0, 0)
  const ExampleState := DayState(1, 0.0, map[], map["a" := 1000.0, "a_interest" := 500.0], map[],
                                 Rates(1.0, 1.0), 650.0, 0.0, 0.0, 0.0, 0, 0.0, 0.0, 0.0)

  /** Two debts, "a" at 36.5% a year and "a_interest", on day 1 (not a
      billing day): as written, the second debt's principal drops from 500 to
      499 although nothing is paid, because it reads the first debt's
      interest of 1 as a payment.  `OffBillingDayOnlyAccrues` proves this
      cannot happen once interest has a map of its own. */
  lemma SharedKeyLowersPrincipal()
    ensures !IsBillingDay(ExampleState.day)
    ensures var r := ApplyDebtsAsWritten([ExampleA, ExampleB],
                                         PlanDebtsAsWritten([ExampleA, ExampleB], 1, ExampleState, USD), ExampleState);
            r.balance == ExampleState.balance && "a_interest" in r.debts && r.debts["a_interest"] == 499.0
  {
    var st := ExampleState;
    assert InterestKey("a") == "a_interest";
    assert InterestKey("a_interest") != "a_interest" && InterestKey("a_interest") != "a";
    assert DailyInterest(1000.0, 0.365) == 1.0;
    assert DailyInterest(500.0, 0.0) == 0.0;
    assert [ExampleA, ExampleB][..1] == [ExampleA] && [ExampleA][..0] == [];
    var pa := PlanDebtAsWritten(ExampleA, 1, st, USD, EmptyPlan);
    assert PlanDebtsAsWritten([ExampleA], 1, st, USD) == pa;
    assert pa.payments == map["a_interest" := 1.0] && pa.paymentInBase == map[];
    var p := PlanDebtAsWritten(ExampleB, 1, st, USD, pa);
    assert PlanDebtsAsWritten([ExampleA, ExampleB], 1, st, USD) == p;
    assert p.payments == map["a_interest" := 1.0][InterestKey("a_interest") := 0.0] && p.paymentInBase == map[];
    assert "a" !in p.payments && Get(p.payments, "a_interest") == 1.0;
    assert Get(st.debts, "a") == 1000.0 && Get(st.debts, "a_interest") == 500.0;
    var ra := ApplyDebtAsWritten(ExampleA, p, st);
    assert ra.debts == st.debts["a" := 1001.0] && ra.balance == st.balance;
    assert ApplyDebtsAsWritten([ExampleA], p, st) == ra;
    assert ApplyDebtsAsWritten([ExampleA, ExampleB], p, st) == ApplyDebtAsWritten(ExampleB, p, ra);
  }

  // When no debt id is another debt's id followed by "_interest", the node as
  // written and the node with its own interest map compute the same day.

  predicate NoInterestKeyClash(ids: set<string>) {
    forall a, b :: a in ids && b in ids ==> a != InterestKey(b)
  }

  /** The as-written plan `pw` and the plan `p` hold the same payments and
      the same interest for every id in `ids`. */
  predicate PlansAgree(pw: DebtPlan, p: DebtPlan, ids: set<string>) {
    && pw.paymentInBase == p.paymentInBase && pw.missed == p.missed
    && forall k :: k in ids ==>
         Get(pw.payments, k) == Get(p.payments, k) && Get(pw.payments, InterestKey(k)) == Get(p.interest, k)
  }

  lemma InterestKeyInjective(a: string, b: string)
    ensures InterestKey(a) == InterestKey(b) ==> a == b
  {
    if InterestKey(a) == InterestKey(b) {
      assert a == InterestKey(a)[..|a|];
      assert b == InterestKey(b)[..|b|];
    }
  }

  lemma PlanDebtAgrees(d: Types.Debt, day: int, st: DayState, base: Currency, pw: DebtPlan, p: DebtPlan, ids: set<string>)
    requires PositiveRates(st.fxRates) && d.id in ids && NoInterestKeyClash(ids) && PlansAgree(pw, p, ids)
    ensures PlansAgree(PlanDebtAsWritten(d, day, st, base, pw), PlanDebt(d, day, st, base, p), ids)
  {
    var cur := Get(st.debts, d.id);
    if cur > 0.0 {
      var interest := DailyInterest(cur, d.apr);
      var bw, bp := pw, p;
      if IsBillingDay(day) {
        var payment := Min(d.minPayment, cur + interest);
        var paymentBase := Convert(payment, d.currency, base, st.fxRates);
        if st.balance >= paymentBase {
          bw := pw.(payments := pw.payments[d.id := payment], paymentInBase := pw.paymentInBase[d.id := paymentBase]);
          bp := p.(payments := p.payments[d.id := payment], paymentInBase := p.paymentInBase[d.id := paymentBase]);
        } else {
          bw := pw.(missed := pw.missed + 1, payments := pw.payments[d.id := 0.0], paymentInBase := pw.paymentInBase[d.id := 0.0]);
          bp := p.(missed := p.missed + 1, payments := p.payments[d.id := 0.0], paymentInBase := p.paymentInBase[d.id := 0.0]);
        }
        SetPaymentAgrees(pw, p, ids, d.id, bw, bp);
      }
      assert PlanDebtAsWritten(d, day, st, base, pw) == bw.(payments := bw.payments[InterestKey(d.id) := interest]);
      assert PlanDebt(d, day, st, base, p) == bp.(interest := bp.interest[d.id := interest]);
      SetInterestAgrees(bw, bp, ids, d.id, interest);
    }
  }

  /** Setting the same payment for a debt in both plans keeps them in step. */
  lemma SetPaymentAgrees(pw: DebtPlan, p: DebtPlan, ids: set<string>, id: string, bw: DebtPlan, bp: DebtPlan)
    requires id in ids && NoInterestKeyClash(ids) && PlansAgree(pw, p, ids)
    requires bw.paymentInBase == bp.paymentInBase && bw.missed == bp.missed && bw.interest == pw.interest
    requires bp.interest == p.interest && id in bw.payments && id in bp.payments && bw.payments[id] == bp.payments[id]
    requires bw.payments == pw.payments[id := bw.payments[id]] && bp.payments == p.payments[id := bp.payments[id]]
    ensures PlansAgree(bw, bp, ids)
  {
    forall k | k in ids
      ensures Get(bw.payments, k) == Get(bp.payments, k) && Get(bw.payments, InterestKey(k)) == Get(bp.interest, k)
    {
      assert InterestKey(k) != id;
    }
  }

  /** Filing the same interest in both plans, under `InterestKey(id)` and
      under `id`, keeps them in step. */
  lemma SetInterestAgrees(bw: DebtPlan, bp: DebtPlan, ids: set<string>, id: string, interest: real)
    requires id in ids && NoInterestKeyClash(ids) && PlansAgree(bw, bp, ids)
    ensures PlansAgree(bw.(payments := bw.payments[InterestKey(id) := interest]), bp.(interest := bp.interest[id := interest]), ids)
  {
    forall k | k in ids
      ensures k != InterestKey(id) && (InterestKey(k) == InterestKey(id) ==> k == id)
    {
      InterestKeyInjective(k, id);
    }
  }

  lemma {:induction false} PlansAgreeWithoutClash(debts: seq<Types.Debt>, day: int, st: DayState, base: Currency, ids: set<string>)
    requires PositiveRates(st.fxRates) && NoInterestKeyClash(ids)
    requires forall i :: 0 <= i < |debts| ==> debts[i].id in ids
    ensures PlansAgree(PlanDebtsAsWritten(debts, day, st, base), PlanDebts(debts, day, st, base), ids)
    decreases |debts|
  {
    if |debts| > 0 {
      var init := debts[..|debts| - 1];
      assert forall i :: 0 <= i < |init| ==> init[i] == debts[i];
      PlansAgreeWithoutClash(init, day, st, base, ids);
      PlanDebtAgrees(debts[|debts| - 1], day, st, base,
                     PlanDebtsAsWritten(init, day, st, base), PlanDebts(init, day, st, base), ids);
    }
  }

  lemma {:induction false} ApplyAgreesWithoutClash(debts: seq<Types.Debt>, pw: DebtPlan, p: DebtPlan, ids: set<string>, st: DayState)
    requires PlansAgree(pw, p, ids)
    requires forall i :: 0 <= i < |debts| ==> debts[i].id in ids
    ensures ApplyDebtsAsWritten(debts, pw, st) == ApplyDebts(debts, p, st)
    decreases |debts|
  {
    if |debts| > 0 {
      var init := debts[..|debts| - 1];
      assert forall i :: 0 <= i < |init| ==> init[i] == debts[i];
      ApplyAgreesWithoutClash(init, pw, p, ids, st);
      assert debts[|debts| - 1].id in ids;
    }
  }

  /** Unless some debt id is another's id followed by "_interest", the node
      as written and the node with its own interest map leave the same
      balance, principals, payment total and missed count. */
  lemma AsWrittenAgreesWithoutClash(debts: seq<Types.Debt>, day: int, st: DayState, base: Currency)
    requires PositiveRates(st.fxRates)
    requires forall i, j :: 0 <= i < |debts| && 0 <= j < |debts| ==> debts[i].id != InterestKey(debts[j].id)
    ensures var pw := PlanDebtsAsWritten(debts, day, st, base);
            var r := ApplyDebtsAsWritten(debts, pw, st);
            ApplyPlan(debts, PlanDebts(debts, day, st, base), st) == r.(missedPayments := r.missedPayments + pw.missed)
  {
    var ids := set i | 0 <= i < |debts| :: debts[i].id;
    forall a, b | a in ids && b in ids
      ensures a != InterestKey(b)
    {
      var i :| 0 <= i < |debts| && debts[i].id == a;
      var j :| 0 <= j < |debts| && debts[j].id == b;
    }
    PlansAgreeWithoutClash(debts, day, st, base, ids);
    ApplyAgreesWithoutClash(debts, PlanDebtsAsWritten(debts, day, st, base), PlanDebts(debts, day, st, base), ids, st);
  }

  /** `DebtNode`, keeping interest apart from payments. */
  class DebtNode {
    var payments: map<string, real>
    var paymentInBase: map<string, real>
    var interest: map<string, real>
    var missed: int

    constructor()
      ensures payments == map[] && paymentInBase == map[] && interest == map[] && missed == 0
    {
      payments, paymentInBase, interest, missed := map[], map[], map[], 0;
    }

    function Plan(): DebtPlan
      reads this
    {
      DebtPlan(payments, paymentInBase, interest, missed)
    }

    method Prepare(day: int, st: DayState, input: SimulationInput)
      requires PositiveRates(st.fxRates)
      modifies this
      ensures Plan() == PlanDebts(input.debts, day, st, input.baseCurrency)
    {
      payments, paymentInBase, interest, missed := map[], map[], map[], 0;
      var i := 0;
      while i < |input.debts|
        invariant 0 <= i <= |input.debts|
        invariant Plan() == PlanDebts(input.debts[..i], day, st, input.baseCurrency)
      {
        var d := input.debts[i];
        ghost var before := Plan();
        PlanSnoc(input.debts, i, day, st, input.baseCurrency);
        var cur := Get(st.debts, d.id);
        if cur > 0.0 {
          var dayInterest := DailyInterest(cur, d.apr);
          var dayInMonth := JsRem(day, 30) + 1;
          if dayInMonth == 1 {
            var payment := Min(d.minPayment, cur + dayInterest);
            var paymentBase := Convert(payment, d.currency, input.baseCurrency, st.fxRates);
            if st.balance >= paymentBase {
              payments := payments[d.id := payment];
              paymentInBase := paymentInBase[d.id := paymentBase];
            } else {
              missed := missed + 1;
              payments := payments[d.id := 0.0];
              paymentInBase := paymentInBase[d.id := 0.0];
            }
            interest := interest[d.id := dayInterest];
            assert Plan() == PlanDebt(d, day, st, input.baseCurrency, before) by {
              PlanDebtCases(d, day, st, input.baseCurrency, before);
            }
          } else {
            interest := interest[d.id := dayInterest];
            assert Plan() == PlanDebt(d, day, st, input.baseCurrency, before) by {
              PlanDebtCases(d, day, st, input.baseCurrency, before);
            }
          }
        } else {
          assert Plan() == PlanDebt(d, day, st, input.baseCurrency, before) by {
            PlanDebtCases(d, day, st, input.baseCurrency, before);
          }
        }
        assert Plan() == PlanDebt(d, day, st, input.baseCurrency, before);
        i := i + 1;
      }
      assert input.debts[..i] == input.debts;
    }

    method Apply(st: DayState, input: SimulationInput) returns (r: DayState)
      ensures r == ApplyPlan(input.debts, Plan(), st)
    {
      r := st;
      var i := 0;
      while i < |input.debts|
        invariant 0 <= i <= |input.debts|
        invariant r == ApplyDebts(input.debts[..i], Plan(), st)
      {
        var d := input.debts[i];
        var cur := Get(r.debts, d.id);
        if cur > 0.0 {
          var newPrincipal := cur + Get(interest, d.id);
          var payment := Get(payments, d.id);
          if payment > 0.0 {
            newPrincipal := newPrincipal - payment;
            var paymentBase := Get(paymentInBase, d.id);
            r := r.(balance := r.balance - paymentBase, totalDebtPayments := r.totalDebtPayments + paymentBase);
          }
          r := r.(debts := r.debts[d.id := Max(0.0, newPrincipal)]);
        }
        assert input.debts[..i + 1][..i] == input.debts[..i];
        i := i + 1;
      }
      assert input.debts[..i] == input.debts;
      r := r.(missedPayments := r.missedPayments + missed);
    }
  }
}
