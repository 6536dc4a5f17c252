# Future Wallet engine and stores, modelled in Dafny

This project models the deterministic personal-finance simulator of the
Future Wallet repository and the small stores around it.

The simulator turns a financial profile into one state per day, from day 0
to the horizon. The profile holds:

- a starting cash balance;
- income streams, expenses, debts and assets, each in USD, EUR or PKR;
- tax brackets;
- scheduled shocks.

Eight components are sorted once by Kahn's algorithm over their declared
dependencies. Every day, each of them runs `prepare` and then `apply` on a
copy of the previous day's state:

- fx: the day's exchange rates, an override or a computed path;
- income and expense: monthly flows credited or spread over a 30-day
  pseudo-month;
- debt: daily interest and a payment every 30 days, or a missed payment;
- asset: drift, and first-in-first-out liquidation of lots in sale order
  when the balance is negative;
- shock: scheduled shocks fired and recorded;
- metrics: the credit score;
- tax: a monthly bracket tax on income and realised gains.

The driver then does three things:

- it counts deficit days and streaks;
- it records daily and weekly snapshots with quantile bands;
- it derives a summary: liquidity ratio, collapse probability, vibe tier,
  resilience index, recovery slope and shock statistics.

A counterfactual run repeats the simulation with every shock disabled.

Around the engine the project models:

- the input validity rules;
- the CSV export, with a reader for its format, and a proof that the export
  reads back;
- the in-memory scenario store: weekly downsampling, save, list, load, and
  the choice between remote and in-memory store;
- the in-memory share-token store and its singleton;
- the cascade that decides who the authenticated user is.

Layout, one module per source file:

- `types.dfy`, `sums.dfy` and `strings.dfy` hold the shared types and
  helpers.
- `graph.dfy` holds the topological sort and the day state.
- `fx.dfy`, `income.dfy`, `expense.dfy`, `debt.dfy`, `asset.dfy`, `tax.dfy`,
  `shocks.dfy` and `metrics.dfy` hold the components.
- `simulate.dfy` holds the driver, and `run_facts.dfy` holds its lemmas.
- `validation.dfy`, `csv.dfy`, `scenario_store.dfy`, `saved_runs.dfy`,
  `share_tokens.dfy`, `clerk.dfy` and `env.dfy` hold the smaller cores.

How the model is built:

- Components whose fields the source updates are classes.
- Their `prepare` and `apply` methods loop as the source does.
- Each such method is proved equal to a specification function on the day
  state, and the lemmas are about those functions.
- The whole run is a ghost function `Simulate.Run` of the number of days
  run.
- The imperative driver `Simulate.Simulate`, built from the component
  objects, is proved to return `Simulate.SimulationOf`.

Money is `real`. JavaScript's truncating `%` is `Types.JsRem`. The host's
`Math.sin`, `Math.exp` and `Math.sqrt` are the parameter `HostMath`, and
the model relies on only two facts about them:

- the sine lies in [-1, 1];
- the exponential is positive.

## Model

| member | source | states |
|---|---|---|
| Graph.IdSetCard | src/lib/engine/graph.ts:57-61 | the id map has at most as many keys as there are nodes, and exactly as many iff the ids are distinct |
| Graph.EdgesMember | src/lib/engine/graph.ts:64-72 | an edge (dep, id) is built exactly when some node with that id lists that dependency |
| Graph.PendingEmit | src/lib/engine/graph.ts:88-90 | emitting a node lowers each neighbour's pending count by the number of edges from it to that neighbour |
| Graph.EdgesAppend | src/lib/engine/graph.ts:64-72 | the edges of two node lists put together are the edges of the first followed by those of the second |
| Graph.InsertSorted | src/lib/engine/graph.ts:93-98 | inserting a new id before the first larger one keeps the queue strictly sorted and adds exactly that id |
| Graph.SortIds | src/lib/engine/graph.ts:81 | sorting distinct ids gives a strictly sorted queue with the same members |
| Graph.InitMaps | src/lib/engine/graph.ts:57-61 | the node, in-degree and adjacency maps have the node ids as keys, every node is filed under its id, every in-degree is 0 and every adjacency list empty |
| Graph.AddEdges | src/lib/engine/graph.ts:64-72 | the edge loop reports an unknown dependency iff some edge starts outside the ids, and then the first such edge; otherwise the in-degrees count and the adjacency lists hold exactly the built edges |
| Graph.InitialQueue | src/lib/engine/graph.ts:75-81 | the initial queue is sorted and holds exactly the ids of in-degree 0 |
| Graph.Release | src/lib/engine/graph.ts:88-100 | releasing the neighbours of the emitted node lowers their in-degrees to the new pending counts and keeps the queue sorted, holding exactly the ready ids |
| Graph.ReadyIffNoPending | src/lib/engine/graph.ts:76-91 | an id is ready (not emitted, every dependency emitted) iff it is a node id with no pending in-edge |
| Graph.StuckIsCycle | src/lib/engine/graph.ts:103-105 | a set of left-over nodes each depending on another left-over node is a dependency cycle |
| Graph.EmitNext | src/lib/engine/graph.ts:84-101 | one pass of the Kahn loop emits the smallest ready node and keeps the emitted prefix and the queue invariant |
| Graph.TopologicalSort | src/lib/engine/graph.ts:51-108 | an unknown-node error is raised iff some dependency names no node, and names the first one; a cycle error only for duplicate ids or a real cycle; otherwise the result is the Kahn order: every node once, each one the smallest ready id |
| Graph.FinishCycle | src/lib/engine/graph.ts:103-105 | when the loop stops short with distinct ids and known dependencies, the nodes left form a cycle |
| Graph.FinishOk | src/lib/engine/graph.ts:103-107 | when the loop emitted as many nodes as there are, the result is the Kahn order |
| Graph.KahnRespectsDeps | src/lib/engine/graph.ts:46-50 | in the returned order every dependency of a node comes before it |
| Graph.KahnOrderUnique | src/lib/engine/graph.ts:80-98 | the sorted-queue rule leaves no choice: two Kahn orders of the same nodes are equal |
| Graph.CycleExcludesOrder | src/lib/engine/graph.ts:103-105 | when the nodes hold a cycle, no order of them with distinct ids puts every dependency first |
| Graph.CreateInitialState | src/lib/engine/graph.ts:111-152 | the loop builds the initial day state of its specification function |
| Graph.InitialStateFacts | src/lib/engine/graph.ts:111-152 | day 0 starts with the starting cash, score 650, zero totals and the base rates; assets, lots and debts are filed under their ids with the value, lots and principal of the last entry with that id |
| Graph.InitialLotsCases | src/lib/engine/graph.ts:120-128 | a non-empty lot override for the asset is copied; otherwise the asset starts with one lot of cost basis and value equal to its value |
| Graph.AssetValuesLookup | src/lib/engine/graph.ts:117-118 | the asset map's keys are the asset ids and each holds the value of the last asset with that id |
| Graph.DebtMapLookup | src/lib/engine/graph.ts:132-134 | the debt map's keys are the debt ids and each holds the principal of the last debt with that id |
| Graph.CloneState | src/lib/engine/graph.ts:155-167 | the deep copy equals the state it copies |
| Graph.CopiesEqual | src/lib/engine/graph.ts:158-165 | copying each map entry, and each lot, gives back the same maps |
| Graph.StateToSnapshot | src/lib/engine/graph.ts:170-191 | the snapshot holds the state's day, balance and score, the given bands, and nav = balance plus asset values minus debt principals |
| Graph.NavAssetUpdate | src/lib/engine/graph.ts:177-179 | changing one asset's value changes nav by the same amount |
| Graph.NavDebtUpdate | src/lib/engine/graph.ts:177-179 | changing one debt's principal changes nav by the opposite amount |
| Sums.SumMap | src/lib/engine/graph.ts:177-179 | the loop over the map's values adds up to the order-free sum of the values |
| Sums.SumValuesUpdate | src/lib/engine/graph.ts:177-179 | setting one key changes the sum of values by the new value less the old one (0 when the key was absent) |
| Sums.SumOverNonNegative | src/lib/engine/modules/asset.ts:72-74 | a sum of non-negative values is non-negative |
| Strings.Utf16LengthBounds | src/lib/validation/inputSchemas.ts:77 | `length` counts one or two code units per character, and is 0 only for the empty string |
| Strings.Utf16LengthBasic | src/lib/validation/inputSchemas.ts:77 | without characters above U+FFFF, `length` is the number of characters |
| Strings.Utf16LengthSupplementary | src/lib/validation/inputSchemas.ts:77 | with only characters above U+FFFF, `length` is twice the number of characters |
| Strings.LexLessTotal | src/lib/engine/graph.ts:81 | the id order compares any two different strings one way or the other |
| Strings.LexLessTransitive | src/lib/engine/graph.ts:93 | the id order is transitive, so inserting before the first larger id keeps the queue sorted |
| Strings.LexLessIrreflexive | src/lib/engine/graph.ts:93 | no id is smaller than itself |
| Strings.LexLessAsymmetric | src/lib/engine/graph.ts:93 | of two ids at most one is smaller than the other |
| Strings.SupplementarySortsLast | src/lib/engine/graph.ts:81 | the model's order puts U+FFFF before U+10000, the reverse of the UTF-16 order of the source's sort |
| Fx.ConvertSameCurrency | src/lib/engine/modules/fx.ts:62 | converting into the same currency returns the amount unchanged |
| Fx.ConvertRoutes | src/lib/engine/modules/fx.ts:34-65 | every other currency pair goes through USD: divide by the source rate, then multiply by the target rate |
| Fx.ConvertByRates | src/lib/engine/modules/fx.ts:56-65 | a conversion between different currencies is the amount over the source rate times the target rate |
| Fx.ConvertRoundTrip | src/lib/engine/modules/fx.ts:56-65 | with positive rates, converting there and back returns the amount |
| Fx.ConvertScale | src/lib/engine/modules/fx.ts:56-65 | conversion is linear: converting k times an amount gives k times the converted amount |
| Fx.ConvertAdditive | src/lib/engine/modules/fx.ts:56-65 | converting a sum gives the sum of the conversions |
| Fx.ToUSDScale | src/lib/engine/modules/fx.ts:34-43 | conversion into USD scales with the amount |
| Fx.FromUSDScale | src/lib/engine/modules/fx.ts:45-54 | conversion out of USD scales with the amount |
| Fx.ToUSDAdditive | src/lib/engine/modules/fx.ts:34-43 | conversion into USD of a sum is the sum of the conversions |
| Fx.FromUSDAdditive | src/lib/engine/modules/fx.ts:45-54 | conversion out of USD of a sum is the sum of the conversions |
| Fx.ConvertSign | src/lib/engine/modules/fx.ts:56-65 | with positive rates, conversion keeps the sign of the amount |
| Fx.ZeroVolatilityIsBase | src/lib/engine/modules/fx.ts:15-29 | with volatility 0 the day's rates are the base rates exactly |
| Fx.DeterministicRatesPositive | src/lib/engine/modules/fx.ts:22-28 | positive base rates and a volatility strictly between -10 and 10 give positive rates on every day, as the sine lies in [-1, 1] |
| Fx.OverrideWins | src/lib/engine/modules/fx.ts:75-87 | an override for the day is used as is; without one the day's rates are the computed ones |
| Fx.FXNode.constructor | src/lib/engine/modules/fx.ts:71-73 | a new node keeps its options and starts with both rates at 1 |
| Fx.FXNode.Prepare | src/lib/engine/modules/fx.ts:75-87 | prepare stores the day's rates: the override when there is one, else the computed path |
| Fx.FXNode.Apply | src/lib/engine/modules/fx.ts:89-91 | apply publishes the stored rates and changes nothing else in the state |
| Income.StreamPaysOnItsDay | src/lib/engine/modules/income.ts:20-37 | a stream with a day of month pays its whole monthly amount, converted, on that day of the 30-day month, and nothing on other days |
| Income.DailyIncomeNonNegative | src/lib/engine/modules/income.ts:15-40 | with non-negative monthly amounts and positive rates the day's income is never negative |
| Income.MonthDay | src/lib/engine/modules/income.ts:20 | day 30k + j falls on day j + 1 of the pseudo-month |
| Income.MonthPrefixSpread | src/lib/engine/modules/income.ts:21-29 | a stream with day of month 0 pays a thirtieth of its amount, converted, on each of the first n days of a month |
| Income.MonthPrefixFixed | src/lib/engine/modules/income.ts:21-37 | over the first n days of a month a fixed-day stream pays its amount once if its day is among them, else nothing |
| Income.MonthPaysMonthlyAmount | src/lib/engine/modules/income.ts:15-40 | over any whole 30-day month every valid stream (day of month 0 to 28) pays exactly its monthly amount, converted |
| Income.IncomeNode.constructor | src/lib/engine/modules/income.ts:13 | a new node has a zero daily total |
| Income.IncomeNode.Prepare | src/lib/engine/modules/income.ts:15-40 | the loop leaves the day's converted income total of all streams |
| Income.IncomeNode.Apply | src/lib/engine/modules/income.ts:42-45 | the total is added to both the balance and the running income total, so their difference is unchanged |
| Expense.ThirtyDaysMakeAMonth | src/lib/engine/modules/expense.ts:15-26 | thirty days of the daily expense total are the month's converted expenses |
| Expense.DailyExpenseNonNegative | src/lib/engine/modules/expense.ts:17-25 | with non-negative monthly amounts and positive rates the daily expense is never negative |
| Expense.ExpenseNode.constructor | src/lib/engine/modules/expense.ts:13 | a new node has a zero daily total |
| Expense.ExpenseNode.Prepare | src/lib/engine/modules/expense.ts:15-26 | the loop leaves the sum of each expense's thirtieth, converted to the base currency |
| Expense.ExpenseNode.Apply | src/lib/engine/modules/expense.ts:28-31 | the total leaves the balance and joins the running expense total, so their sum is unchanged |
| Debt.PlanDebtCases | src/lib/engine/modules/debt.ts:22-53 | a debt with no principal is skipped; off the billing day only its interest is recorded; on it a payment of the smaller of the minimum and principal plus interest is planned when the balance covers it, else a missed payment of 0 is recorded |
| Debt.MissedBounds | src/lib/engine/modules/debt.ts:40-48 | at most one missed payment per debt, and none off the billing day |
| Debt.NoPaymentsOffBillingDay | src/lib/engine/modules/debt.ts:31-49 | off the billing day no payment is planned |
| Debt.InterestNonNegative | src/lib/engine/modules/debt.ts:26-28 | with non-negative APRs every accrued interest is non-negative |
| Debt.PaymentsCovered | src/lib/engine/modules/debt.ts:40-42 | every planned payment, in the base currency, was covered by the balance when it was planned |
| Debt.PaymentsConserveCash | src/lib/engine/modules/debt.ts:56-78 | paying debts moves money from the balance to the payments total: their sum is unchanged |
| Debt.ConserveDebts | src/lib/engine/modules/debt.ts:57-75 | the per-debt loop keeps balance plus payments total |
| Debt.ApplyFrame | src/lib/engine/modules/debt.ts:57-75 | the loop changes only the balance, the principals and the payments total |
| Debt.PrincipalsStayNonNegative | src/lib/engine/modules/debt.ts:74 | principals are clamped at 0, so non-negative principals stay non-negative |
| Debt.DebtKeys | src/lib/engine/modules/debt.ts:74 | the loop only writes principals of debts in the input |
| Debt.AccrualOnly | src/lib/engine/modules/debt.ts:61-74 | with no payments planned and non-negative interest, no cash moves and no principal falls |
| Debt.OffBillingDayOnlyAccrues | src/lib/engine/modules/debt.ts:17-78 | with interest kept apart from payments, a day off the billing day moves no cash, misses nothing and lowers no principal |
| Debt.AsWrittenAgreesWithoutClash | src/lib/engine/modules/debt.ts:17-78 | when no debt id is another debt's id followed by "_interest", the node as written and the node with its own interest map leave the same state: balance, principals, payment total and missed count |
| Debt.PlansAgreeWithoutClash | src/lib/engine/modules/debt.ts:17-54 | without such a clash, the as-written prepare files the same payments, base payments, missed count and interest as the corrected one |
| Debt.ApplyAgreesWithoutClash | src/lib/engine/modules/debt.ts:56-78 | apply gives the same state from two plans that agree on every debt's payment and interest |
| Debt.SharedKeyLowersPrincipal | src/lib/engine/modules/debt.ts:52-72 | as written, a debt named "a_interest" beside a debt "a" reads "a"'s interest as a payment and its principal falls from 500 to 499 on a day nothing is paid |
| Debt.DebtNode.constructor | src/lib/engine/modules/debt.ts:13-15 | a new node has empty maps and no missed payment |
| Debt.DebtNode.Prepare | src/lib/engine/modules/debt.ts:17-54 | the loop leaves the plan of its specification function: payments, base payments, interest and missed count |
| Debt.DebtNode.Apply | src/lib/engine/modules/debt.ts:56-78 | apply books the plan: principals, balance, payments total and the missed count |
| Assets.FifoNothingToSell | src/lib/engine/modules/asset.ts:13 | with nothing left to sell the loop does not run: the lots are untouched and no cost basis is sold |
| Assets.StepBounds | src/lib/engine/modules/asset.ts:14-21 | one pass takes between 0 and the oldest lot's value, and between 0 and its cost basis |
| Assets.StepWellFormed | src/lib/engine/modules/asset.ts:19-25 | one pass leaves every lot with non-negative cost basis and value |
| Assets.StepCostBasis | src/lib/engine/modules/asset.ts:17-20 | one pass creates no cost basis: what it sells plus what is left is at most what there was |
| Assets.FifoCostBasisBound | src/lib/engine/modules/asset.ts:9-29 | the whole sale never creates cost basis, sells a non-negative amount of it and leaves well-formed lots |
| Assets.FifoKeepsOrder | src/lib/engine/modules/asset.ts:13-26 | the lots left are a suffix of the old lots, the first possibly reduced: oldest lots go first |
| Assets.ConsumeLotsFifo | src/lib/engine/modules/asset.ts:9-29 | the in-place loop leaves the lots and the sold cost basis of its specification function, whose cost basis and value bounds are `Assets.FifoCostBasisBound` and `Assets.FifoValueBound` |
| Assets.FifoValueBound | src/lib/engine/modules/asset.ts:13-26 | the sale lowers the lots' total value by the amount sold, the shortfall or all there is if that is less, give or take the residual lots of at most 1e-9 it drops, one per lot at most |
| Assets.StepValue | src/lib/engine/modules/asset.ts:14-25 | one pass removes the amount taken, less at most one dropped dust lot, and a lot below the shortfall goes whole |
| Assets.ValueNonNegative | src/lib/engine/modules/asset.ts:13-26 | well-formed lots have a non-negative total value |
| Assets.FifoExample | src/lib/engine/modules/asset.ts:9-29 | selling 250 from lots (100 for 200) and (50 for 100) sells 125 of cost basis and leaves a lot of 50 at cost 25 |
| Assets.ChangesCoverUnlocked | src/lib/engine/modules/asset.ts:45-51 | a valuation change is recorded for exactly the unlocked assets |
| Assets.DriftKeys | src/lib/engine/modules/asset.ts:63-67 | the drift loop adds every input asset id to the held ids and no other |
| Assets.DriftKeepsUnchanged | src/lib/engine/modules/asset.ts:63-67 | an asset with no recorded change, such as a locked one, keeps its value |
| Assets.DriftOnce | src/lib/engine/modules/asset.ts:63-67 | an asset listed once drifts by exactly its recorded change |
| Assets.DriftSkips | src/lib/engine/modules/asset.ts:63-67 | a held value whose id is not among the assets is left alone |
| Assets.SellsBeforeAsymmetric | src/lib/engine/modules/asset.ts:77-83 | the sale comparator never puts two assets each before the other |
| Assets.SellsBeforeTransitive | src/lib/engine/modules/asset.ts:77-83 | the sale comparator (explicit order, then penalty, then id) is transitive |
| Assets.SellableFilters | src/lib/engine/modules/asset.ts:75-76 | the sellable assets are exactly the unlocked inputs with no liquidity delay |
| Assets.InsertKeeps | src/lib/engine/modules/asset.ts:77-83 | inserting one asset into a sorted sale list keeps it sorted and adds exactly that asset |
| Assets.SaleOrderSorted | src/lib/engine/modules/asset.ts:75-83 | the sale order is a permutation of the sellable assets sorted by the comparator |
| Assets.SaleOrderMembers | src/lib/engine/modules/asset.ts:75-83 | the sale order only holds unlocked inputs with no delay |
| Assets.PenaltyRoundTrip | src/lib/engine/modules/asset.ts:106-110 | grossing up for the penalty and taking it off again never yields more than was wanted |
| Assets.SellOneBounds | src/lib/engine/modules/asset.ts:86-126 | one sale raises a negative balance at most to 0 and leaves the asset a value between 0 and what it had |
| Assets.SellAllBounds | src/lib/engine/modules/asset.ts:85-127 | the sale loop never lowers the balance and lifts a negative balance at most to 0 |
| Assets.SellAllTouchesOnlySold | src/lib/engine/modules/asset.ts:85-127 | an asset not in the sale list keeps its value |
| Assets.SellAllKeepsValuesNonNegative | src/lib/engine/modules/asset.ts:106-124 | non-negative asset values stay non-negative through the sales |
| Assets.ApplyAssetsEffect | src/lib/engine/modules/asset.ts:61-129 | apply never lowers the balance, lifts a negative one at most to 0, and a locked or delayed asset ends at its drifted value |
| Assets.AssetNode.constructor | src/lib/engine/modules/asset.ts:35-38 | a new node keeps its options, with no changes recorded and no liquidation flagged |
| Assets.AssetNode.Prepare | src/lib/engine/modules/asset.ts:40-59 | prepare records each unlocked asset's daily change and flags liquidation when the balance is negative or under a tenth of the reserve |
| Assets.AssetNode.Apply | src/lib/engine/modules/asset.ts:61-129 | apply drifts every asset, then when flagged and still negative sells in sale order until the balance is not negative |
| Assets.SellAsset | src/lib/engine/modules/asset.ts:87-126 | the body of the sale loop computes the sale of its specification function |
| Assets.LiquidationExample | tests/engine/liquidation.test.ts:5-55 | with 100 missing, the delayed property keeps its 1000, the savings fall to 100 and the balance returns to 0 with no gain |
| Assets.LiquidationOrder | src/lib/engine/modules/asset.ts:75-83 | in the example only the savings can be sold, as the property has a 90-day delay |
| Assets.LiquidationValuation | src/lib/engine/modules/asset.ts:45-51 | in the example no value drifts, both returns being 0 |
| Assets.LiquidationSale | src/lib/engine/modules/asset.ts:85-127 | in the example the sale loop stops after the savings cover the deficit |
| Assets.SavingsSale | src/lib/engine/modules/asset.ts:87-126 | in the example the savings sale books 100 at cost and no gain |
| Assets.ConsumeSavings | src/lib/engine/modules/asset.ts:9-29 | half of a lot of 200 at cost 200 sells 100 of cost basis |
| Tax.TaxDayOfTheMonth | src/lib/engine/modules/tax.ts:19-21 | from day 0 on, taxes fall due exactly on days with remainder 29 modulo 30 |
| Tax.NoTaxDayBeforeStart | src/lib/engine/modules/tax.ts:20-21 | with the truncating remainder of the source, no negative day is a tax day |
| Tax.SliceBounds | src/lib/engine/modules/tax.ts:36-37 | the part taxed in one bracket lies between 0 and what remains |
| Tax.AmountTaxedBounds | src/lib/engine/modules/tax.ts:33-40 | the brackets together tax between 0 and the whole taxable amount |
| Tax.UnboundedTaxesAll | src/lib/engine/modules/tax.ts:33-40 | a bracket with no ceiling taxes everything the brackets before it left |
| Tax.BracketTaxBounds | src/lib/engine/modules/tax.ts:33-40 | with rates in [0, 1] the tax is non-negative and at most the amount taxed |
| Tax.WideFirstBracket | src/lib/engine/modules/tax.ts:33-40 | when the first bracket holds the whole amount, the tax is that amount at its rate |
| Tax.WideEnough | src/lib/engine/modules/tax.ts:36-37 | a bracket wide enough for what remains takes all of it |
| Tax.NoTaxOffTaxDay | src/lib/engine/modules/tax.ts:16-21 | off the tax day nothing is due and the taxed totals stay as they were |
| Tax.TaxDayLedger | src/lib/engine/modules/tax.ts:23-40 | on the tax day the taxed totals move to the current totals, and the tax lies between 0 and the month's taxable amount |
| Tax.IncomeTelescopes | src/lib/engine/modules/tax.ts:24-26 | the month deltas of two tax days add up to the income since the first, so no income is taxed twice |
| Tax.TaxableTelescopes | src/lib/engine/modules/tax.ts:24-29 | while realised gains do not fall, the taxable amounts of two tax days add up to the income and gains since the first, so neither is taxed twice |
| Tax.ApplyTaxConserves | src/lib/engine/modules/tax.ts:43-48 | a positive tax moves from the balance to taxes paid; nothing else changes |
| Tax.GainsExample | tests/engine/tax-realized-gains.test.ts:45-69 | a month with 200 of realised gains and one 20% bracket owes 40 |
| Tax.TaxNode.constructor | src/lib/engine/modules/tax.ts:12-14 | a new node owes nothing and has taxed nothing |
| Tax.TaxNode.Prepare | src/lib/engine/modules/tax.ts:16-41 | prepare leaves the ledger of its specification function, computed from the old ledger and the state |
| Tax.TaxNode.Apply | src/lib/engine/modules/tax.ts:43-48 | apply books the tax due when it is positive |
| Shocks.DueIsSchedule | src/lib/engine/modules/shocks.ts:19-20 | the shocks due on a day are exactly the enabled ones scheduled for that day |
| Shocks.FiringsOfDue | src/lib/engine/modules/shocks.ts:18-30 | one firing is recorded per due shock, in input order, with the day, the id and the converted amount times severity |
| Shocks.DisabledNeverFire | src/lib/engine/modules/shocks.ts:19 | when every shock is disabled nothing fires |
| Shocks.ShockAmountScales | src/lib/engine/modules/shocks.ts:21-26 | scaling a shock's severity scales its converted amount by the same factor |
| Shocks.ImpactScales | src/lib/engine/modules/shocks.ts:27 | scaling every firing's amount scales the day's impact |
| Shocks.SeverityScalesFirings | src/lib/engine/modules/shocks.ts:18-30 | scaling all severities fires the same shocks with scaled amounts |
| Shocks.SeverityScalesImpact | src/lib/engine/modules/shocks.ts:16-31 | scaling all severities scales the day's impact |
| Shocks.PrepareAppends | src/lib/engine/modules/shocks.ts:16-31 | prepare only appends to the fired list, stamps the new firings with the day, and the day's impact is their sum |
| Shocks.ApplyKeepsDifference | src/lib/engine/modules/shocks.ts:33-38 | apply adds the day's impact to both the balance and the running shock impact |
| Shocks.ShockNode.constructor | src/lib/engine/modules/shocks.ts:13-14 | a new node has fired nothing and has no impact |
| Shocks.ShockNode.Prepare | src/lib/engine/modules/shocks.ts:16-31 | prepare leaves the fired list and impact of its specification function |
| Shocks.ShockNode.Apply | src/lib/engine/modules/shocks.ts:33-38 | apply adds a non-zero impact to the balance and to the running total |
| Metrics.CreditScoreRange | src/lib/engine/modules/metrics.ts:14-27 | the score always lies in [300, 850], equals the unclamped update when that is in range, and is 300 or 850 when it falls below or above |
| Metrics.CreditScoreMonotone | src/lib/engine/modules/metrics.ts:20-26 | more missed payments or a higher debt ratio never raise the score, and a higher current score never lowers it |
| Metrics.VibeTierCases | src/lib/engine/modules/metrics.ts:32-44 | Collapse holds exactly when the deficit reaches 90 days or nav is negative; Thriving exactly when no earlier tier applies and the score, liquidity and balance are high; each other tier implies the earlier tiers' conditions fail |
| Metrics.VibeTierMonotone | src/lib/engine/modules/metrics.ts:39-43 | a longer deficit or a lower score never gives a better tier |
| Metrics.VibeExamples | tests/engine/vibe.test.ts:11-34 | the five tier examples of the tests |
| Metrics.RsiRange | src/lib/engine/modules/metrics.ts:50-62 | the resilience index lies in [0, 100], also for a ratio of minus infinity |
| Metrics.RsiUnclamped | src/lib/engine/modules/metrics.ts:56-61 | with inputs in their natural ranges the four parts add up to at most 100, so the index is their sum |
| Metrics.ApplyMetricsFrame | src/lib/engine/modules/metrics.ts:72-92 | apply changes only the credit score, changes nothing on day 0, and leaves the score in [300, 850] on later days |
| Metrics.MetricsNode.Apply | src/lib/engine/modules/metrics.ts:72-92 | apply returns the state of ApplyMetrics, so it keeps every field but the credit score and leaves it in [300, 850] after day 0 |
| Validation.ValidInputFacts | src/lib/validation/inputSchemas.ts:9-89 | a valid input has positive base rates, volatility in [0, 2], a horizon of at least one day, a reserve ratio in [0, 1], sale penalties and bracket rates in [0, 1], and non-negative amounts and APRs |
| Validation.RejectedInputs | tests/validation/inputs.test.ts:15-43 | a horizon of -1, 0 or 2000, an empty name and a reserve ratio of 1.5 each make any input invalid |
| Validation.AcceptedBounds | tests/validation/inputs.test.ts:45-54 | the horizon bounds 1 and 1825 and names of 1 to 100 UTF-16 code units are accepted, as is the modified profile of the tests |
| Validation.BasicNameAccepted | src/lib/validation/inputSchemas.ts:77 | a name of 1 to 100 characters none of which lies above U+FFFF is accepted |
| Validation.SupplementaryNameRejected | src/lib/validation/inputSchemas.ts:77 | a name of 51 characters above U+FFFF is rejected, since its `length` is 102 code units |
| Simulate.EngineIdSet | src/lib/engine/simulate.ts:62-79 | the eight components built are exactly fx, income, expense, debt, asset, tax, shock and metrics |
| Simulate.EngineNodeDeps | src/lib/engine/simulate.ts:62-79 | each component declares the dependencies of its class |
| Simulate.ReadyMeans | src/lib/engine/graph.ts:74-101 | a component is ready exactly when it is built, not yet emitted and all its dependencies are emitted |
| Simulate.LeastReady | src/lib/engine/graph.ts:74-101 | the k-th component of the engine order is ready and precedes every other ready component in id order |
| Simulate.NextStep | src/lib/engine/graph.ts:74-101 | the k-th component of the engine order is the next one Kahn's algorithm emits after the first k |
| Simulate.OrderMembers | src/lib/engine/simulate.ts:96-97 | the engine order lists each built component once and nothing else |
| Simulate.EngineOrderIsKahn | src/lib/engine/simulate.ts:96-97 | the engine order is the Kahn order of the built components |
| Simulate.EngineSortSucceeds | src/lib/engine/simulate.ts:96-97 | the dependencies name built components, the ids are distinct, no set of components is stuck in a cycle, and the sort yields the engine order |
| Simulate.EngineOrderIds | src/lib/engine/simulate.ts:96-97 | any Kahn order of the built components runs them as fx, income, expense, debt, asset, shock, metrics, tax |
| Simulate.SortEngine | src/lib/engine/simulate.ts:96-97 | sorting the built components by the topological-sort method yields fx, income, expense, debt, asset, shock, metrics, tax |
| Simulate.IdsOf | src/lib/engine/simulate.ts:124 | the loop collects the ids of the components in their order |
| Simulate.DayRatesPositive | src/lib/engine/modules/fx.ts:71-91 | every day's rates are positive for an input the engine accepts |
| Simulate.Morning | src/lib/engine/simulate.ts:119-127 | the first four components set the day and that day's rates and leave the credit score, taxes paid and shock impact alone |
| Simulate.DayStepFacts | src/lib/engine/simulate.ts:117-127 | a day keeps the credit score in [300, 850], sets the day and its rates, never lowers the taxes paid and only appends firings of that day |
| Simulate.DayStepState | src/lib/engine/simulate.ts:117-127 | a day sets the day and its rates, keeps the credit score in [300, 850] and never lowers the taxes paid |
| Simulate.DayStepFirings | src/lib/engine/simulate.ts:124-127 | a day keeps the earlier firings as a prefix and appends only firings of that day |
| Simulate.Components.constructor | src/lib/engine/simulate.ts:62-79 | each component is newly built, the fx and asset components hold the runtime options and the tax and shock ledgers start empty |
| Simulate.RunMorning | src/lib/engine/simulate.ts:119-127 | cloning the state and running fx, income, expense and debt through prepare and apply gives the morning of the specification |
| Simulate.RunDay | src/lib/engine/simulate.ts:117-127 | running the eight components in the sorted order turns the engine into the day step of the specification |
| Simulate.QuantileBandsFacts | src/lib/engine/simulate.ts:35-57 | the bands equal the value on day 0 or without volatility, and otherwise keep its sign |
| Simulate.CompositeVolatilityBounds | src/lib/engine/simulate.ts:110-114 | with assets, the value-weighted volatility lies between 0 and any bound on the asset volatilities |
| Simulate.RunSucc | src/lib/engine/simulate.ts:117-166 | the tracker after n + 1 days is the bookkeeping of day n on the engine day n leaves |
| Simulate.RunLength | src/lib/engine/simulate.ts:155 | after n days the daily list holds n snapshots |
| Simulate.RecoverySlope | src/lib/engine/simulate.ts:301-313 | the loop computes the mean of the balance gains that start from a deficit, 0 when there are none |
| Simulate.Record | src/lib/engine/simulate.ts:129-160 | the bookkeeping of a day updates the deficit counters and appends the snapshot to the daily and, every seventh day, the weekly list as the specification does |
| Simulate.Summarize | src/lib/engine/simulate.ts:168-234 | the summary is the one the specification derives from the final state and the daily list |
| Simulate.RunDays | src/lib/engine/simulate.ts:117-166 | running the remaining days from the tracker after `day` days yields the tracker after horizon + 1 days |
| Simulate.RunAll | src/lib/engine/simulate.ts:95-166 | the sorted components run over days 0 to the horizon give the tracker of the specification |
| Simulate.Simulate | src/lib/engine/simulate.ts:88-246 | simulate returns the result of the specification |
| Simulate.DisableShocks | src/lib/engine/simulate.ts:257 | every shock is kept, with only its enabled flag set to false |
| Simulate.DisableShocksFixed | src/lib/engine/simulate.ts:257 | disabling already disabled shocks changes nothing |
| Simulate.WithoutShocks | src/lib/engine/simulate.ts:254-258 | the counterfactual input differs only in its shocks, which are all disabled |
| Simulate.SimulateWithCounterfactual | src/lib/engine/simulate.ts:248-273 | both runs are the specification's runs of the input and of its shock-free copy, and the insights are the differences of their final balance and nav |
| RunFacts.WeeklyAppend | src/lib/engine/simulate.ts:158-160 | appending a snapshot keeps the weekly list equal to every seventh daily snapshot |
| RunFacts.TrackKeeps | src/lib/engine/simulate.ts:129-160 | one day's bookkeeping keeps the counters equal to the deficit count, trailing streak and longest streak of the daily list |
| RunFacts.TrailingDeficitsMeans | src/lib/engine/simulate.ts:130-136 | the trailing counter counts a run of deficit days at the end, preceded by a day without deficit |
| RunFacts.TrailingIsLongestSuffix | src/lib/engine/simulate.ts:130-136 | no longer run of deficit days ends the list |
| RunFacts.LongestStreakBounds | src/lib/engine/simulate.ts:133 | every run of deficit days is at most the longest streak |
| RunFacts.LongestStreakAttained | src/lib/engine/simulate.ts:133 | some run of deficit days has the length of the longest streak |
| RunFacts.CounterOrder | src/lib/engine/simulate.ts:105-136 | trailing streak, longest streak, deficit count and number of days never decrease in that order |
| RunFacts.FirstDeficitMeans | src/lib/engine/simulate.ts:211 | the search returns -1 exactly when no day is in deficit, else the first deficit day |
| RunFacts.CollapseDayBound | src/lib/engine/simulate.ts:210-212 | with a streak of 90 days the first deficit day lies at least 89 days before the last day |
| RunFacts.RunBookkept | src/lib/engine/simulate.ts:105-160 | after any number of days the counters and the weekly list agree with the daily list, which holds one snapshot per day |
| RunFacts.RunSnapshot | src/lib/engine/simulate.ts:147-155 | the k-th daily snapshot is the snapshot of the state after day k |
| RunFacts.RunState | src/lib/engine/simulate.ts:117-127 | after any run the credit score lies in [300, 850], the taxes paid are non-negative and the state's day is the last day run |
| RunFacts.RunFiredDays | src/lib/engine/modules/shocks.ts:16-38 | every fired shock records a day already run, and the firings are in day order |
| RunFacts.FiredGrows | src/lib/engine/modules/shocks.ts:16-38 | the firings of a shorter run are a prefix of those of a longer one |
| RunFacts.RunSnapshotDays | src/lib/engine/simulate.ts:117-155 | the k-th daily snapshot is of day k and has a credit score in [300, 850] |
| RunFacts.LiquidityRatioCases | src/lib/engine/simulate.ts:177-179 | the ratio is minus infinity exactly when there are assets and the balance cancels them, lies in [0, 1] for a non-negative balance, is above 1 when the balance is below minus the assets, and is 1 or 0 without assets |
| RunFacts.RiskScoreRange | src/lib/engine/simulate.ts:285-292 | the risk score is non-negative and at most 1 for a non-negative liquidity ratio and a score of at least 300 |
| RunFacts.CollapseProbabilityRange | src/lib/engine/simulate.ts:279-296 | the probability lies in (0, 1] and is 1 exactly for a liquidity ratio of minus infinity |
| RunFacts.RecoveriesPositive | src/lib/engine/simulate.ts:305-310 | every recovery counted is a positive gain |
| RunFacts.RecoveriesExist | src/lib/engine/simulate.ts:305-310 | recoveries are counted exactly when some day rises from a deficit |
| RunFacts.RecoverySlopeSign | src/lib/engine/simulate.ts:301-313 | the slope is non-negative and positive exactly when some day rises from a deficit |
| RunFacts.ShockIntensityBounds | src/lib/engine/simulate.ts:320-328 | the average is 0 without firings and otherwise lies between 0 and any bound on their absolute amounts |
| RunFacts.ShockDensitySign | src/lib/engine/simulate.ts:315-318 | the density is non-negative and 0 exactly when nothing fired |
| RunFacts.SimulationLists | src/lib/engine/simulate.ts:238-245 | the result holds one daily snapshot per day from 0 to the horizon with a score in [300, 850], every seventh of them as weekly snapshots, and the firings in day order within the horizon |
| RunFacts.SummaryFacts | src/lib/engine/simulate.ts:168-234 | the final figures are the last snapshot's, the indices lie in their ranges, and a collapse day is reported exactly when a deficit streak reached 90 days, as the first deficit day |
| RunFacts.SimulationSummary | src/lib/engine/simulate.ts:168-234 | the summary of a run counts its deficit days, keeps the credit score in [300, 850] and the taxes non-negative, and reports a collapse day exactly after a 90-day streak |
| RunFacts.DayStepQuiet | src/lib/engine/modules/shocks.ts:16-38 | with every shock disabled a day fires nothing and leaves the shock impact alone |
| RunFacts.DayStepIgnoresDisabled | src/lib/engine/modules/shocks.ts:16-38 | a day does not depend on which disabled shocks the input lists |
| RunFacts.RunIgnoresDisabled | src/lib/engine/simulate.ts:117-166 | two inputs that differ only in their disabled shocks run identically |
| RunFacts.QuietRun | src/lib/engine/simulate.ts:117-166 | with every shock disabled no shock fires and the shock impact stays 0 |
| RunFacts.CounterfactualIsShockFree | src/lib/engine/simulate.ts:254-261 | the counterfactual run is the run without shocks and fires nothing |
| RunFacts.CounterfactualWithoutEnabledShocks | src/lib/engine/simulate.ts:248-273 | when no shock is enabled both runs agree and both deltas are 0 |
| RunFacts.ValidInputRuns | src/lib/validation/inputSchemas.ts:76-89 | an input the schema accepts runs without options, for horizon + 1 of at least 2 days |
| RunFacts.FxRealizationMorning | src/lib/engine/modules/income.ts:15-45 | on day 0 with the EUR rate pinned at 2, a salary of 3000 EUR credits 1500 and a 3000 rent debits 100, leaving 1400 |
| RunFacts.FxRealizationDay | src/lib/engine/simulate.ts:117-127 | the later components of day 0 leave that balance of 1400 unchanged |
| RunFacts.FxRealizationExample | tests/engine/fx-realization.test.ts:28-36 | the one-day run of the test has a single snapshot, with a balance of 1400 |
| Csv.Rows | src/lib/export/toCsv.ts:24-34 | one line per daily snapshot, in order, each the line of that snapshot |
| Csv.ReadQuotedDoubled | src/lib/export/toCsv.ts:6 | reading a quoted field whose quotes were doubled gives back the field and the rest of the line |
| Csv.ReadPlainPlain | src/lib/export/toCsv.ts:8 | reading a field without commas or newlines gives back the field and the rest of the line |
| Csv.ReadFieldEscaped | src/lib/export/toCsv.ts:3-9 | reading an escaped field, whether quoted or not, gives back the original text and the rest of the line |
| Csv.ReadRecordJoined | src/lib/export/toCsv.ts:22 | reading fields escaped and joined by commas gives back the fields |
| Csv.ReadDocumentRecords | src/lib/export/toCsv.ts:36 | reading lines each ended by a newline gives back every record |
| Csv.JoinTerminated | src/lib/export/toCsv.ts:36 | lines joined by newlines plus a final newline are the lines each ended by a newline |
| Csv.HeaderPlain | src/lib/export/toCsv.ts:12-22 | no header name needs quoting |
| Csv.RowIsRecord | src/lib/export/toCsv.ts:24-34 | when numbers print without commas, quotes or newlines, a line is the escaped record of the snapshot's nine fields |
| Csv.ExportReadsBack | src/lib/export/toCsv.ts:11-37 | the export of a run with snapshots reads back as the header followed by each snapshot's nine fields, the scenario name unescaped |
| Csv.EmptyExport | src/lib/export/toCsv.ts:36 | without snapshots the export reads back as the header and one empty line |
| ScenarioStore.DownsampleToWeekly | src/lib/supabase/scenarioRepository.ts:37-39 | the result keeps only snapshots of the input, each on a day divisible by 7 |
| ScenarioStore.DownsampleAppend | src/lib/supabase/scenarioRepository.ts:37-39 | downsampling distributes over concatenation, so the order is kept |
| ScenarioStore.DownsampleSingle | src/lib/supabase/scenarioRepository.ts:38 | a single snapshot is kept exactly when its day is divisible by 7 |
| ScenarioStore.DownsampleKeepsWeekly | src/lib/supabase/scenarioRepository.ts:37-39 | a list of weekly snapshots is kept whole |
| ScenarioStore.DownsampleIdempotent | src/lib/supabase/scenarioRepository.ts:37-39 | downsampling twice is downsampling once |
| ScenarioStore.NegativeWeekKept | src/lib/supabase/scenarioRepository.ts:38 | a snapshot of day -14 is kept, the remainder of -14 by 7 being -0 |
| ScenarioStore.RecordOf | src/lib/supabase/scenarioRepository.ts:53-65 | the saved record takes the id and time given, the payload's user, name, input, summary and branch fields, and the weekly snapshots downsampled |
| ScenarioStore.OwnedBy | src/lib/supabase/scenarioRepository.ts:71-73 | list returns only records of the user |
| ScenarioStore.OwnedByMembers | src/lib/supabase/scenarioRepository.ts:71-73 | a record is listed exactly when it is stored and belongs to the user |
| ScenarioStore.OwnedByPrepend | src/lib/supabase/scenarioRepository.ts:67-73 | a newly saved record of the user comes first in the list, before the earlier ones in order |
| ScenarioStore.FindById | src/lib/supabase/scenarioRepository.ts:76 | the search finds a stored record with the id, and finds none exactly when no record has it |
| ScenarioStore.FindFirst | src/lib/supabase/scenarioRepository.ts:76 | the search returns the first record with the id |
| ScenarioStore.LoadCases | src/lib/supabase/scenarioRepository.ts:75-79 | load returns a stored record with the id and the user, null for an unknown id, and null exactly when the first record with the id is missing or belongs to someone else |
| ScenarioStore.SaveThenLoad | src/lib/supabase/scenarioRepository.ts:52-79 | a saved record with a fresh id loads back for its owner, not for anyone else, and other ids load as before |
| ScenarioStore.InMemoryScenarioStore.constructor | src/lib/supabase/scenarioRepository.ts:50 | a new store is empty |
| ScenarioStore.InMemoryScenarioStore.Save | src/lib/supabase/scenarioRepository.ts:52-69 | save returns the record of the payload and puts it in front of the stored records |
| ScenarioStore.InMemoryScenarioStore.List | src/lib/supabase/scenarioRepository.ts:71-73 | list returns the user's records in stored order |
| ScenarioStore.InMemoryScenarioStore.Load | src/lib/supabase/scenarioRepository.ts:75-79 | load returns what the specification of load gives on the stored records |
| ScenarioStore.SelectionCases | src/lib/supabase/scenarioRepository.ts:254-276 | the remote store is chosen exactly when the user token is configured or the service-role fallback is allowed; the user token wins; the fallback uses the service-role key outside production only, so in production only the user token selects it |
| ScenarioStore.SelectionExamples | tests/persistence/scenario-repository.test.ts:80-104 | the three store selections of the tests |
| ScenarioStore.ScenarioStores.constructor | src/lib/supabase/scenarioRepository.ts:248 | no in-memory store exists yet |
| ScenarioStore.ScenarioStores.CreateScenarioStore | src/lib/supabase/scenarioRepository.ts:254-283 | a remote selection returns the remote store of its configuration and leaves the singleton alone; otherwise the singleton is returned, created empty on first use and the same object after |
| SavedRuns.DownsampleStamped | src/lib/supabase/scenarioRepository.ts:37-39 | downsampling snapshots of days 0 to n - 1 gives every seventh of them |
| SavedRuns.SavedWeeklyIsWhole | tests/persistence/scenario-repository.test.ts:11-32 | saving a run's weekly snapshots keeps all of them, and downsampling its daily snapshots gives the same list |
| ShareTokens.Lookup | src/lib/shareTokens/store.ts:44-46 | a token resolves exactly when it is stored, to its stored record |
| ShareTokens.InsertThenLookup | src/lib/shareTokens/store.ts:33-46 | after create the token resolves to the user and scenario given, other tokens resolve as before, and records stay filed under their tokens |
| ShareTokens.InMemoryShareTokenStore.constructor | src/lib/shareTokens/store.ts:31 | a new store is empty |
| ShareTokens.InMemoryShareTokenStore.Create | src/lib/shareTokens/store.ts:33-42 | create returns the token and sets only that token's record |
| ShareTokens.InMemoryShareTokenStore.Resolve | src/lib/shareTokens/store.ts:44-46 | resolve returns the lookup of the token in the stored records |
| ShareTokens.ShareTokenStores.constructor | src/lib/shareTokens/store.ts:49 | no store exists yet |
| ShareTokens.ShareTokenStores.CreateShareTokenStore | src/lib/shareTokens/store.ts:49-57 | the singleton is created empty on first use and returned unchanged on every later call |
| Clerk.ResolveCases | src/lib/auth/clerk.ts:34-55 | a Clerk user wins when Clerk is configured and Clerk is ignored otherwise; in production only a Clerk user is accepted; outside production the header, the development variable and then local-dev-user are tried in order, so a user is always found; no empty id is returned |
| Clerk.ClerkExamples | tests/auth/clerk-auth.test.ts:9-66 | the configuration and fallback cases of the auth tests |

## Left out

- Floating point: money is `real`, so rounding, overflow and NaN are not modelled.
  - Infinity appears only where the code reaches it on purpose: the liquidity ratio of minus infinity, as `Types.Ratio`, and the unbounded top tax bracket.
- `Math.sin`, `Math.exp` and `Math.sqrt` are not computed. They are the `HostMath` parameter, assumed only to keep the sine in [-1, 1] and the exponential positive.
  - So the non-trivial quantile bands, the FX oscillation and the logistic collapse probability are proved only as far as those two facts allow: signs, ranges, and the volatility-0 and day-0 cases.
- `localeCompare` in the sale order's id tie-break and the default string sort in the graph are both modelled as lexicographic order on Dafny characters, which are Unicode code points (`Strings.LexLess`). Locale-specific collation is not modelled.
- Strings.LexLess: the default sort in the graph (src/lib/engine/graph.ts:81, 93) compares UTF-16 code units. For ids made of characters at or below U+FFFF the two orders agree; ids with characters above U+FFFF, which JavaScript stores as surrogate pairs, can sort differently from the source against characters in U+E000 to U+FFFF (`Strings.SupplementarySortsLast`).
- Sorting the sale list is modelled as insertion into a sorted list. The stability of `Array.prototype.sort` matters only for assets that the comparator ranks equal, which needs duplicate ids; it is not modelled.
- The day state is a value. `cloneState` is therefore a copy equal to its original, and the aliasing a shallow copy would cause is not modelled.
- The components' `prepare` methods take the state as a value. That they do not change it holds by construction and is not stated as a separate property.
- `MetricsNode.prepare` does nothing, and the model has no member for it.
- Currencies and asset classes are datatypes. The fallback in the conversions for a currency outside USD, EUR and PKR is unreachable and not modelled; so is the enum check in the schemas.
- Simulate.Simulate: requires a horizon of at least 0. A negative horizon makes the source read `dailySnapshots[-1]` and fail.
- Simulate.RunAll: requires a horizon of at least 0, for the same reason.
- Simulate.SimulateWithCounterfactual: requires a horizon of at least 0, for the same reason.
- Simulate.Simulate: like every member of the driver, it also requires positive base and override rates, a volatility strictly between -10 and 10 and a sound host (`Simulate.EngineReady`).
  - A zero rate makes the source divide by zero and carry Infinity or NaN on. A volatility of 10 or more in size can drive a computed rate to zero or below.
  - Negative base or override rates never divide by zero. The source accepts them when it is called without the schema, and runs on with negative rates; the model excludes them.
  - `RunFacts.ValidInputRuns` shows that every input the schema accepts meets these requirements.
- Income.IncomeNode.Prepare: requires positive rates in the state, for the same reasons: a zero rate divides by zero, and negative rates, which the source accepts, are excluded too.
- Expense.ExpenseNode.Prepare: requires positive rates in the state, for the same reasons: a zero rate divides by zero, and negative rates, which the source accepts, are excluded too.
- Debt.DebtNode.Prepare: requires positive rates in the state, for the same reasons: a zero rate divides by zero, and negative rates, which the source accepts, are excluded too.
- Debt.DebtNode.Prepare: files each debt's daily interest in a map of its own, not in the payments map under the key `id + "_interest"` (src/lib/engine/modules/debt.ts:52). This is the corrected behaviour of the finding below.
- Debt.DebtNode.Apply: reads the interest back from that map, not from the payments map (src/lib/engine/modules/debt.ts:62, 66). So with a debt "a" and a debt "a_interest" the model keeps the second principal at 500 where the source lowers it to 499 (`Debt.SharedKeyLowersPrincipal`).
- Simulate.Simulate: runs the debt component with the corrected interest map, so runs with a debt id equal to another debt's id plus "_interest" differ from the source in the same way. For all other debt lists `Debt.AsWrittenAgreesWithoutClash` shows the two nodes compute the same day.
- Assets.AssetNode.Apply: requires positive rates in the state, for the same reasons: a zero rate divides by zero, and negative rates, which the source accepts, are excluded too.
- Shocks.ShockNode.Prepare: requires positive rates in the state, for the same reasons: a zero rate divides by zero, and negative rates, which the source accepts, are excluded too.
- Simulate.SortEngine: the engine's component order is the one topological sort of the eight declared components.
  - `Simulate.EngineSortSucceeds` and `Simulate.EngineOrderIds` prove this against `Graph.TopologicalSort`.
  - The driver then runs the components in that order directly.
- `String(number)` in the CSV export is the parameter `NumberFormat`. The read-back lemmas assume it prints no comma, quote or newline (`Csv.PlainNumbers`).
- Ids, share tokens and timestamps (`createId`, `createToken`, `new Date().toISOString()`) are parameters.
- The Clerk lookup in `resolveAuthenticatedUserId` is a parameter: its result, with any failure mapped to null.
- ShareTokens.InMemoryShareTokenStore.Create: a token equal to one already stored overwrites that record. The source relies on random tokens never colliding, and the model does not assume it.
- Promises, `async` and the `onProgress` callback are left out. The store methods are synchronous here.
- Performance timing (`computeTimeMs`) is left out.
- The remote Supabase store, with its network `fetch`, is left out. Only its selection and configuration are modelled.
- Module-level singletons are fields of holder classes: `ScenarioStore.ScenarioStores` and `ShareTokens.ShareTokenStores`.
- `SimulationSummarySchema` and `DaySnapshotSchema` are left out beyond the day bound in `Validation.ValidSnapshot`. They validate output that the engine produces.
- `ScenarioRepository` is left out. Its methods forward to the store unchanged.
- The JSON export is left out. It wraps `JSON.stringify`.

## Findings

| source | as written | input that shows it | evidently intended | confidence | as-written member | corrected member |
|---|---|---|---|---|---|---|
| src/lib/engine/modules/debt.ts:52 | a debt's daily interest is stored in the payments map under the key `id + "_interest"`, which `apply` reads back (lines 62 and 66) | two debts, "a" (principal 1000, APR 0.365) and "a_interest" (principal 500), on day 1: "a_interest" reads "a"'s interest of 1 as its own payment and its principal falls to 499 with no cash paid | interest kept apart from payments, so that off the billing day no principal falls and no cash moves | not executed | Debt.SharedKeyLowersPrincipal | Debt.OffBillingDayOnlyAccrues |
