# ebot-mir order bookkeeping and planning, modelled in Dafny

This project models the order, fill and position bookkeeping of the ebot-mir
single-pair limit-order bot (KAS/USDC on MEXC), together with the scripts
that plan which orders to place. Every Python module of that core is one Dafny module:

- `Sync` (sync.py), the reconciler. It imports exchange trades into the fills table without duplicates. It upserts the exchange's open orders. It rewrites each order's filled quantity from the fills. It closes local open orders the exchange no longer lists. It overwrites the available cash and recomputes the weighted-average-cost position. It also holds the `--window` parser and the open-limit clamp.
- `Accounting` (accounting.py), the lot-less average-cost replay with its silent oversell clamp, plus the equity and PnL formulas.
- `Buy` (buy.py), `Sell` (sell.py), `Buckets` (buckets.py) and `Avg1` (avg1.py), the order planners. They choose a regime or tranches, fit the plan to a budget, apply the minimum-notional and six-decimal quantity rules, and record each acknowledged order.
- `Consolidate` (consolidate.py). When too many orders are open, it cancels the farthest ones and replaces consecutive pairs with merged orders.
- `Reports` (reports/core.py), the 24-hour channel (mid ± spread/4), the PnL blocks and the position synthesised from the orders table.
- `CalcBalances` (scripts/calc_balances.py), the reporting period and the fill aggregates.
- `Notify` (notify.py), Telegram message chunking, the bounded retry loop and the per-signature error cooldown.

There are also five shared modules:

- `Wrappers` holds `Option` and `Result`.
- `Numbers` holds `floor6` and `round(x, 6)` over reals.
- `Text` holds ASCII upper/lower case, `strip` and integer formatting.
- `Ledger` holds the four tables as a `Store` class. `orders`, `positions` and `capital` are maps keyed by their primary keys. `fills` is a sequence in insertion order with distinct ids.
- `Budget` holds the drop-below-minimum and scale-to-budget steps that buy.py and buckets.py share.

The outside world becomes parameters:

- The exchange's answers are inputs: the trade list, the open-order list, the balances, and one `Reply` (acknowledged with an `orderId`, or raising) per placement.
- The clock is a `nowS`/`nowMs` parameter, read once per run.
- Random micro-shifts are functions `nat -> real`.
- The non-integer power `t ** e` of buckets.py is a function parameter. Lemmas that need it require it to keep (0, 1) and to be monotone (`Buckets.PowLike`).
- Monetary values are reals.

Methods that change the store are proved against specification functions of the old state: `BuysPlaced`, `SellsPlaced`, `LadderFrom`, `BuysFrom`, `SellsFrom`, `SyncedOrders` and others. The properties are proved as lemmas about those functions.

Where a docstring or comment and the code disagree, the model follows the code:

- The in-channel BUY sizes give the *minimum* size to the deepest level, although the docstring at buy.py:110 says the reverse.
- The comment at buckets.py:90 says the grid is monotone. The per-level micro-shift can invert neighbouring levels (`Buckets.GridNotAlwaysIncreasing`).
- `place_limit_sell` checks the notional before it floors the quantity (`Sell.SellNotionalCheckedBeforeFloor`).
- The below-minimum adjustment in avg1.py can never change the quantity. The model proves that (`Avg1.ChooseQty`) and keeps the step.
- `_parse_window_to_minutes` does not clamp the default when no `--window` is given. See "Findings".

Session behaviour that is modelled explicitly:

- `SessionT` has `autoflush=False`, so the duplicate check in `sync_trades` sees only committed fills. Two trades with the same new id in one batch make the commit fail. That is an `Err` result with the fills unchanged.
- A dry-run consolidation, or an answer without an `orderId`, takes the id `<prefix><now>`. Two placements in one run then write the same key, and the later row replaces the earlier one, as `session.merge` does.

## Model

| member | source | states |
|---|---|---|
| Numbers.Floor6 | sync.py:35-36 | the result is the largest multiple of 10^-6 not above x |
| Numbers.Floor6Idempotent | buy.py:31-32 | flooring an already floored quantity changes nothing |
| Numbers.Floor6Monotone | consolidate.py:22-23 | floor6 preserves order |
| Numbers.Floor6Sign | buy.py:71-73 | floor6 of a non-negative value is non-negative, and positive exactly when the value reaches 10^-6 |
| Numbers.Round6 | avg1.py:29 | round(x, 6) is on the six-decimal grid and within half a tick of x |
| Text.Upper | sync.py:57 | str.upper() on ASCII: same length, each letter a-z mapped to A-Z and every other character kept; idempotent (Text.UpperIdempotent) |
| Text.Strip | sync.py:230 | str.strip() on ASCII white space (tab through carriage return, 0x1C..0x1F and space): the result is the slice of the text between a run of leading and a run of trailing white space, and neither starts nor ends with white space |
| Text.StripUnpadded | sync.py:230 | text that neither starts nor ends with white space is its own strip() |
| Text.StripSeparators | sync.py:230 | the separators 0x1C and 0x1F around a digit are stripped like any other white space: the strip() of "\x1c5\x1f" is "5" |
| Ledger.CancelOpenSide | buckets.py:47-57 | the local cancel for either side (buckets.py uses it for BUY here, avg1.py:43-51 for SELL): every open order of that pair and side becomes CANCELED with updated = now, every other row is unchanged, no key is added or lost, and none of that side stays open |
| Buckets.CancelBuysOnly | buckets.py:47-57 | with side BUY an open BUY of the pair becomes CANCELED with updated = now, and any other row is kept as it is |
| Avg1.CancelSellsOnly | avg1.py:43-51 | with side SELL an open SELL of the pair becomes CANCELED with updated = now, and any other row is kept as it is |
| Ledger.LastFree | sync.py:155-157 | the free balance read comes from some row of the given asset, or is 0 |
| Sync.TradeFillId | sync.py:52 | the fill id is empty exactly when id, tradeId and orderId are all empty; otherwise it is one of them |
| Sync.TradeSide | sync.py:57 | the side is upper case; an empty side falls back to BUY or SELL by isBuyer |
| Sync.TradeToFill | sync.py:58-72 | the fill keeps the trade's ids, price, qty and commission, and its ts is the trade time in ms, or the run's end when the time is 0, divided by 1000 |
| Sync.PendingFills | sync.py:51-56 | at most one fill per trade; each has a non-empty id not already committed, the run's pair and an upper-case side |
| Sync.SyncTrades | sync.py:46-77 | with distinct new ids it appends exactly the pending fills and returns their count; a repeated new id inside the batch fails the commit and leaves the fills unchanged |
| Sync.TradeIdsCovered | sync.py:52-56 | after the import, every trade with a non-empty id has its id in the fills table |
| Sync.NothingPendingWhenStored | sync.py:55-56 | trades whose ids are all stored add nothing |
| Sync.SyncTradesReplayAddsNothing | sync.py:46-77 | replaying the same trades after a commit inserts no row (idempotent import) |
| Sync.IndexByOrderId | sync.py:38-43 | the index holds exactly the non-empty order ids of the list |
| Sync.IndexByLastWins | sync.py:38-43 | for an id listed more than once, the last listing is the one indexed |
| Sync.UpsertFrame | sync.py:103-125 | after the upsert the keys are the old ones plus every listed id, and orders not listed are untouched |
| Sync.UpsertListedOnce | sync.py:112-124 | a listed order ends with the exchange price, qty, status and executedQty and updated = max(old, new), or is created as a new row when it was not stored |
| Sync.UpsertAddedFrame | sync.py:112-119 | an id that is not listed is never counted as newly added |
| Sync.UpsertKeyed | sync.py:103-125 | the upsert keeps every order stored under its own id |
| Sync.NewExOrder | sync.py:112-119 | the row created for an unknown id: the exchange's id, upper-cased side, price, origQty, executedQty and status, times in seconds (the run's time when 0), not paper, nothing reserved; its properties are stated by Sync.UpsertListedOnce |
| Sync.RefreshedOrder | sync.py:120-124 | the row refreshed for a stored id: exchange price, qty, status and executedQty, updated = max(old, new); stated by Sync.UpsertListedOnce |
| Sync.UpsertStep | sync.py:103-124 | one iteration of the upsert loop; an id already created in this batch marks a commit clash; stated by Sync.UpsertFrame and Sync.UpsertListedOnce |
| Sync.UpsertAll | sync.py:103-124 | the upsert loop over the listing; stated by Sync.UpsertFrame, Sync.UpsertListedOnce and Sync.UpsertKeyed |
| Sync.FillSum | sync.py:80-90 | one group of _fills_by_order: the summed qty of the pair's fills of one order id and side; used by Sync.ReconcileFilled |
| Sync.FilledOrderIds | sync.py:80-90 | the non-empty order ids of the pair's fills, the keys of _fills_by_order; used by Sync.ReconcileFilled |
| Sync.ReconcileFilled | sync.py:128-140 | an order with fills gets, within 1e-12, the sum of its own side's fill qty (with updated = now when rewritten); orders without fills are unchanged |
| Sync.CloseUnlisted | sync.py:143-149 | an order open before the call and not listed by the exchange becomes FILLED iff max(0, qty - filled) <= 1e-12, else CANCELED; listed orders and orders not open before are unchanged |
| Sync.SyncOpenOrders | sync.py:93-149 | the table becomes upsert, then reconcile, then close; an id that is new and listed twice fails the commit and leaves the table unchanged |
| Sync.SyncedOrders | sync.py:93-149 | the orders table after a successful sync: upsert, then reconcile, then close unlisted; stated by Sync.SyncOpenOrders and Sync.UnlistedOpenOrdersClosed |
| Sync.UnlistedOpenOrdersClosed | sync.py:143-148 | after a sync no order that was open and is no longer listed is still open |
| Sync.SyncedCapital | sync.py:158-165 | only available_usd and updated change on an existing row; a missing row is created with limit 1000 and realized PnL 0 |
| Sync.SyncBalance | sync.py:152-166 | the pair's capital row becomes the synced row and no other row changes |
| Sync.InsertFill | sync.py:172 | insertion keeps the multiset of fills plus the new one |
| Sync.InsertFillSorted | sync.py:172 | inserting into a (ts, id)-sorted list keeps it sorted |
| Sync.SortFills | sync.py:170-173 | the replay order is a permutation of the fills sorted by ts, then id |
| Sync.PairFills | sync.py:170-171 | exactly the pair's fills are selected |
| Sync.RecomputePosition | sync.py:169-196 | the position is the average-cost replay of the pair's fills in (ts, id) order and is written to the pair's row |
| Sync.RecomputedPositionSane | sync.py:174-188 | with non-negative fill quantities the position is never negative, and its avg is 0 when qty <= 1e-12 |
| Sync.ImportedFillsReplayAlike | sync.py:57 | for fills imported by sync_trades (upper-case sides), the Sync replay and the Accounting replay agree |
| Sync.ClampMinutes | sync.py:227 | the result is in 1..1440 and equals the input when already in range |
| Sync.ParseInt | sync.py:224-228 | int(text) in base 10: strip, an optional sign, digits with single underscores between them; stated by Sync.ParseWindowDigits and Sync.ParseWindowNoDigits |
| Sync.MatchWithUnit | sync.py:230-233 | the number and unit of the full match of digits and an optional s, m, h or d after strip and lower, the unit defaulting to m; the unit is always one of s, m, h, d |
| Sync.ParseWindowAsWritten | sync.py:217-244 | the parser as written, with the absent argument returning the default unclamped; compared with the corrected parser by Sync.ParseWindowToMinutes and Sync.ParseWindowAsWrittenEscapesRange |
| Sync.UnitMinutes | sync.py:236-243 | seconds round up to whole minutes, minutes pass through, hours are x60 and days are x1440 |
| Sync.ParseWindowToMinutes | sync.py:217-244 | the window is always in 1..1440, and it agrees with the code as written whenever a window is given |
| Sync.ParseWindowAsWrittenEscapesRange | sync.py:222-223 | with no --window and a default of 2000 the code as written returns 2000, outside 1..1440 |
| Sync.ParseWindowSeconds | sync.py:236-237 | "90s" gives 2 minutes |
| Sync.ParseWindowHours | sync.py:240-241 | "2h" gives 120 minutes |
| Sync.ParseWindowDays | sync.py:242-244 | "3d" is clamped to 1440 minutes |
| Sync.ParseWindowUnparsable | sync.py:232-233 | for all text that neither int() nor the unit pattern reads, the window is the clamped default |
| Sync.ParseWindowNoDigits | sync.py:224-233 | for all text without a digit, int() and the unit pattern both fail, so the window is the clamped default |
| Sync.DropUnderscoresDigits | sync.py:225 | removing underscores leaves a plain digit string as it is |
| Sync.ParseWindowDigits | sync.py:224-227 | for all text whose strip() is a non-empty run of digits, int() reads that value, the unit pattern reads the same value with unit m, and the window is that value clamped |
| Sync.ParseWindowWithUnit | sync.py:230-244 | for all text whose strip().lower() is digits followed by s, m, h or d, int() rejects it, the unit pattern reads the number and that unit, and the window is UnitMinutes of them, clamped |
| Sync.ParseWindowGarbage | sync.py:232-233 | one example: "x" with a default of 5000 gives 1440 |
| Sync.ClampOpenLimit | sync.py:262 | the open-order limit is in 10..2000, saturating at each end |
| Accounting.ReplayLoop | accounting.py:4-13 | the qty/cost loop computes the replay specification |
| Accounting.Apply | accounting.py:8-13 | one iteration of the loop: a BUY adds qty and qty*price + fee, a SELL against no position resets to zero, otherwise min(qty, held) leaves at the running average; stated by Accounting.SellClampsAtZero and Accounting.PartialSellKeepsAvg |
| Accounting.Replay | accounting.py:3-15 | the loop from an empty book over the legs in order; stated by Accounting.ReplayQtyNonNegative, Accounting.ReplayQtyAtMostBought and Accounting.AllBuysTotals |
| Accounting.ComputePositionFromFills | accounting.py:3-15 | (qty, avg) is the replay of the fills with case-insensitive BUY detection, and avg is cost/qty only above 1e-12 |
| Accounting.DictLegs | accounting.py:6-7 | each fill becomes one leg, with any side other than case-insensitive BUY treated as a sell |
| Accounting.LedgerLegs | sync.py:177 | each fill becomes one leg, with only the exact side "BUY" counted as a buy |
| Accounting.SellClampsAtZero | accounting.py:11-13 | a SELL leaves max(0, qty - sold) and never a negative quantity (silent oversell clamp) |
| Accounting.ReplayQtyNonNegative | accounting.py:4-14 | with non-negative leg quantities the replayed qty is never negative |
| Accounting.ReplayQtyAtMostBought | accounting.py:12-13 | the replayed qty never exceeds the total BUY qty |
| Accounting.AllBuysTotals | accounting.py:8-14 | for all-BUY input, qty is the sum of quantities and avg is the sum of (q*p + fee) divided by it |
| Accounting.PartialSellKeepsAvg | accounting.py:12-13 | a partial SELL leaves the average cost unchanged |
| Accounting.ReplayCostNonNegative | accounting.py:9-14 | with non-negative legs the cost and the avg stay non-negative |
| Accounting.OversellExample | accounting.py:11-14 | BUY 10@1 then SELL 4@1.5 gives (6, 1.0), and a further SELL 10@2 gives (0, 0) |
| Accounting.LedgerAndDictReplayAgree | accounting.py:6-11 | on upper-case sides the two replays (accounting.py and sync.py) give the same position |
| Accounting.EstimateEquityUsd | accounting.py:16-20 | equity is start + (last - avg) * qty when both are nonzero, else start; cash is never negative, and when positive it is equity - position value - reserve |
| Accounting.ComputePnl | accounting.py:21-26 | None without a reference; abs = (last - ref) * qty, and pct * max(1e-9, last * qty) = abs * 100 |
| Budget.DropBelow | buy.py:157 | exactly the candidates of at least the minimum survive |
| Budget.DropBelowTotal | buy.py:157-161 | dropping small candidates never raises the total, and drops nothing when all reach the minimum |
| Budget.Scaled | buy.py:173 | every size is multiplied by k, and prices are kept |
| Budget.ScaledTotal | buy.py:171-173 | scaling multiplies the total by k |
| Budget.FitToBudget | buy.py:171-173 | a plan within budget is left as it is, and fitting never adds candidates |
| Budget.FitWithinBudget | buckets.py:128-135 | after scaling and re-filtering every candidate reaches the minimum and the total is within the budget |
| Budget.FitKeepsPrices | buy.py:173 | every fitted candidate keeps a price from the input |
| Buy.BuildAbove | buy.py:90-104 | exactly [(mid, S), (upper, S)] with mid = (last + upper)/2 when last and upper are positive, else nothing; above the channel mid lies strictly between upper and last |
| Buy.BuildBelow | buy.py:123-129 | one candidate per offset, priced last * (1 - off) * (1 - jitter), with the fixed size |
| Buy.BelowPricesUnderLast | buy.py:126-127 | with offsets and jitter in [0, 1) every below-channel price is positive and at most last |
| Buy.MaxOf | buy.py:114 | the maximum is a level and bounds all levels |
| Buy.BuildInChannel | buy.py:106-121 | one candidate per level, priced last * (1 - 0.001 * lvl) * (1 - jitter), with size max(0, MAX - (MAX - MIN) * lvl / max_lvl) |
| Buy.InChannelSize | buy.py:118-120 | the in-channel size max(0, MAX - (MAX - MIN) * lvl / max_lvl), never negative |
| Buy.InChannelSizeAtMax | buy.py:118-120 | the level equal to max_lvl gets exactly max(0, MIN) |
| Buy.InChannelSizeMonotone | buy.py:118-120 | deeper levels never get larger sizes, and sizes lie in [MIN, MAX] |
| Buy.DeepestLevelGetsMin | buy.py:117-120 | the deepest configured level is sized MIN |
| Buy.InChannelSizesShrinkWithDepth | buy.py:116-120 | along the built candidates, a deeper level has a size no larger than a shallower one |
| Buy.ChooseRegime | buy.py:141-149 | above iff both bounds are positive and last > upper; below iff both are positive and last < lower; otherwise in-channel |
| Buy.Candidates | buy.py:140-149 | the candidates of the chosen regime: BuildAbove, BuildBelow or BuildInChannel; used by Buy.PlanBuys |
| Buy.PlanBuys | buy.py:152-177 | nothing without cash or without a candidate of at least the minimum; the single above-channel order at mid with all cash exactly when the regime is above and MIN <= cash < need; in every other case with cash and candidates, the candidates fitted to the cash as a ladder, or nothing when fitting leaves none; a ladder is never empty, each order is at least MIN, the total is <= cash, and every price is a candidate price |
| Buy.PlanBuysAffordable | buy.py:156-177 | when the candidates of at least MIN fit in the cash, the plan is exactly those candidates, unscaled |
| Buy.PlanBuysScaled | buy.py:169-176 | when they do not fit and the single-order rule does not apply, the plan is the candidates scaled by cash / need that still reach MIN, or nothing when none does |
| Buy.PlanSize | buy.py:179-186 | the number of exchange answers a plan consumes: 0, 1 or the ladder's length; used by Buy.PlaceBuys |
| Buy.BuyQty | buy.py:66-73 | rejected exactly when price <= 0, usd < MIN or floor6(usd/price) is 0; otherwise 0 < qty with qty * price <= usd < (qty + 10^-6) * price |
| Buy.PlaceLimitBuy | buy.py:64-86 | succeeds iff the validation passes and the exchange acknowledges, and then records a NEW GRID BUY with reserved = usd |
| Buy.BuysPlacedRows | buy.py:179-186 | every row written by the placement loop is a NEW GRID BUY of the pair with qty * price <= reserved and reserved >= MIN; no row is removed and other rows are untouched |
| Buy.PlaceBuys | buy.py:179-186 | the loop writes each planned order in turn, and a raising placement is skipped |
| Buy.BuyTick | buy.py:131-186 | one run places exactly the plan for the pair's available cash |
| Buy.PlanWithinCash | buy.py:165-177 | every planned order reaches the minimum and the plan never exceeds the available cash |
| Sell.BuildSellPrices | sell.py:121-137 | both prices are at least avg * (1 + gain); upper <= 0 is replaced by last; p_mid is the midpoint and p_upper is upper, each raised to that floor |
| Sell.ShiftSteps | sell.py:167-175 | at most three shifts; they stop at the first level whose round6 is not taken, and every skipped level is taken |
| Sell.ShiftByLinear | sell.py:174 | k micro-shifts add k * SELL_MICROSHIFT |
| Sell.ShiftedPriceUp | sell.py:167-175 | a non-negative micro-shift never lowers the price |
| Sell.ShiftIfTaken | sell.py:167-175 | the loop returns price + k * shift with k from ShiftSteps, and the input itself when its round6 is free |
| Sell.ShiftedPrice | sell.py:167-175 | the price shift_if_taken returns, price + k * step with k from Sell.ShiftSteps; stated by Sell.ShiftIfTaken and Sell.ShiftedPriceUp |
| Sell.OpenSellPrices | sell.py:163-164 | the round6 prices of the pair's open SELL rows; used by Sell.SellTick |
| Sell.Clamp01 | sell.py:181 | the split is clamped into [0, 1] |
| Sell.SplitQty | sell.py:181-183 | q_upper and q_mid are non-negative and together at most the sellable quantity |
| Sell.Fold | sell.py:203-209 | when exactly one tranche fails the notional check, its quantity moves (floored) into the other and it becomes 0; otherwise nothing changes; the total never grows |
| Sell.Tranches | sell.py:186-213 | at most two orders, each passing the notional check on the six-decimal grid at p_mid or p_upper, totalling at most the sellable quantity; when some tranche of the split passes, exactly the tranches of the folded split that pass, upper first; when both fail, only floor6(sellable) at p_mid, if that passes |
| Sell.GrowPasses | sell.py:203-209 | adding a non-negative quantity to a tranche that passes the notional check, and flooring, keeps it passing and never lowers its quantity |
| Sell.FoldPasses | sell.py:203-209 | when exactly one of two on-grid tranches passes, after the fold it still passes with no less quantity, and the emptied one fails |
| Sell.TranchesFold | sell.py:186-213 | both passing gives [upper, mid]; only upper passing gives [floor6(q_upper + q_mid) at p_upper], at least q_upper; only mid passing gives [floor6(q_mid + q_upper) at p_mid], at least q_mid |
| Sell.SellQty | sell.py:93-106 | rejected exactly when price <= 0, qty <= 0, price * qty < MIN before flooring, or floor6(qty) = 0; otherwise floor6(qty) is sent |
| Sell.SellNotionalCheckedBeforeFloor | sell.py:98-106 | a quantity whose floored notional is under the minimum can still be accepted |
| Sell.SellQtyOnGrid | sell.py:99-106 | a tranche planned by main is sent with its own quantity |
| Sell.PlaceLimitSell | sell.py:89-119 | succeeds iff the validation passes and the exchange acknowledges, and then records a NEW GRID SELL with nothing reserved |
| Sell.FreeBase | sell.py:75-87 | the free base is 0 or the free value of a row whose asset upper-cases to KAS |
| Sell.SellPlan | sell.py:148-213 | nothing without a position or free base; otherwise exactly the tranches of min(position, free) at the shifted p_mid and p_upper; every order passes the notional check, is at least avg * (1 + gain) for a non-negative shift, and the total is at most min(position, free) |
| Sell.SellPlacedRow | sell.py:108-119 | a placement writes at most one row, a NEW GRID SELL of the planned price and quantity worth at least the minimum |
| Sell.SellsPlacedRows | sell.py:212-222 | every row written by main is a valid GRID SELL of a planned tranche; no row is removed and other rows are untouched |
| Sell.PlaceSells | sell.py:212-222 | the loop writes each tranche in turn, and a failing placement is skipped |
| Sell.SellTick | sell.py:139-222 | one run places exactly the plan for the pair's position, the free base and the open SELL prices |
| Buckets.BuyListed | buckets.py:37-38 | each cancel id is the id of a listed BUY row, case-insensitively |
| Buckets.CancelAllBuys | buckets.py:35-58 | the count is the number of listed BUY ids whatever the exchange answered, and every locally open BUY of the pair becomes CANCELED |
| Buckets.Clamp | buckets.py:89 | the clamped value is in [lo, hi], and unchanged when already inside |
| Buckets.GridAt | buckets.py:84-89 | each level lies in [N, top] |
| Buckets.BuildGrid | buckets.py:75-91 | nothing when K <= 0 or top <= N, else exactly K levels, each in [N, top] |
| Buckets.SizeWeightInside | buckets.py:105 | each size weight lies strictly in (0, 1) |
| Buckets.SizeWeightShrinks | buckets.py:102-105 | the size weight falls as the index rises |
| Buckets.BuildSizes | buckets.py:93-108 | nothing when K <= 0, else K sizes, each non-negative |
| Buckets.SizesBetween | buckets.py:101-107 | with 0 <= S_top <= S_bottom every size lies in [S_top, S_bottom] |
| Buckets.SizesNonIncreasing | buckets.py:101-107 | with S_top <= S_bottom the sizes never grow along the grid |
| Buckets.GridNotAlwaysIncreasing | buckets.py:88-90 | the micro-shift can make a level lower than the one before it |
| Buckets.LadderSkips | buckets.py:139-153 | a candidate under the minimum, with no quantity, or whose placement raises is passed over without effect |
| Buckets.LadderStep | buckets.py:139-167 | one candidate of the placement loop: skipped under MIN, without qty or when the placement raises; a zero price crashes; an acknowledged placement is recorded and the loop goes on while spent < 0.999 * budget; stated by Buckets.LadderSkips and Buckets.LadderPlaces |
| Buckets.LadderFrom | buckets.py:137-169 | the placement loop from a state over the remaining candidates; stated by Buckets.LadderCounters, Buckets.LadderRows and Buckets.LadderWithinBudget |
| Buckets.PlaceRung | buckets.py:139-167 | the statements of one loop iteration give exactly Buckets.LadderStep's state and continuation |
| Buckets.LadderPlaces | buckets.py:155-167 | an acknowledged placement records one BUCKET row and adds its usd to spent; the loop stops once spent >= 0.999 * budget |
| Buckets.LadderCands | buckets.py:119-121 | only the first min(len(prices), len(sizes)) pairs are used |
| Buckets.LadderPlan | buckets.py:117-135 | nothing for empty inputs or a budget <= 0; otherwise the first min(len) pairs of at least the minimum, fitted to the budget; every candidate reaches the minimum and the total is within the budget |
| Buckets.LadderPlanAffordable | buckets.py:123-126 | when the pairs of at least the minimum fit in the budget, they are the ladder unscaled |
| Buckets.LadderPlanScaled | buckets.py:128-132 | when they need more than the budget, the ladder is those pairs scaled by budget / need that still reach the minimum |
| Buckets.LadderCounters | buckets.py:137-164 | placed grows by at most one per candidate, and spent by at most the candidates' total |
| Buckets.LadderBreaksAtBudget | buckets.py:166-167 | nothing after the placement that reaches 0.999 of the budget is sent |
| Buckets.LadderAllRaise | buckets.py:145-153 | when every placement raises, nothing is recorded and placed and spent stay 0 |
| Buckets.LadderRows | buckets.py:155-162 | every row written is a NEW BUCKET BUY of the pair with qty > 0 and reserved >= MIN; no row is removed and other rows are untouched |
| Buckets.PlaceLadder | buckets.py:110-169 | the loop computes the ladder specification: its orders, placed, spent and whether a zero price crashed it |
| Buckets.LadderWithinBudget | buckets.py:128-169 | spent never exceeds the budget, and placed never exceeds the number of candidates or grid levels |
| Buckets.AdjustRange | buckets.py:199-206 | top = 0.99 * last, falling back to 0.997 * last; N becomes 0.995 * top exactly when top <= N and is kept otherwise; so N < top whenever last > 0 |
| Buckets.FreeQuote | buckets.py:68-73 | the free quote is the free value of the last USDC row (0 when absent), never negative |
| Buckets.PercentOf | buckets.py:196 | M percent of the free balance, between 0 and the balance for M in [0, 100] |
| Buckets.BucketsRun | buckets.py:171-213 | one run cancels every open BUY, then places the ladder for the adjusted range and M percent of the free balance |
| Consolidate.Pairs | consolidate.py:25-34 | floor(n/2) pairs |
| Consolidate.PairsShape | consolidate.py:25-34 | pair i is (items[2i], items[2i+1]), so an odd trailing item is dropped |
| Consolidate.Pairwise | consolidate.py:25-34 | the iterator loop yields exactly those pairs |
| Consolidate.InsertRanked | consolidate.py:41-46 | insertion adds exactly one order to the listing |
| Consolidate.InsertRankedKeeps | consolidate.py:41-46 | insertion keeps the listing price-ordered and free of repeated ids |
| Consolidate.LoadOpen | consolidate.py:36-46 | the listing holds every open order of the side exactly once, BUYs by ascending and SELLs by descending price |
| Consolidate.CancelIds | consolidate.py:48-61 | each listed order still open becomes CANCELED with updated = now; non-open and unlisted rows are unchanged |
| Consolidate.CancelOrders | consolidate.py:48-61 | the loop cancels locally whatever the remote cancel did |
| Consolidate.MergedId | consolidate.py:71-75 | a dry run uses DRY_<side>_<now>; otherwise the exchange id, or <side>_<now> without one |
| Consolidate.BuyMerge | consolidate.py:63-83 | skipped exactly when usd < MIN, price <= 0 or floor6(usd/price) <= 0; a raising live placement crashes; otherwise a NEW CONSOLIDATE BUY with qty floor6(usd/price) > 0 and reserved = usd |
| Consolidate.SellMerge | consolidate.py:85-101 | skipped exactly when floor6(qty) <= 0 or price <= 0, with no notional check; otherwise a NEW CONSOLIDATE SELL of floor6(qty) with nothing reserved |
| Consolidate.PlaceBuy | consolidate.py:63-83 | the method's store and outcome are BuyMerge's |
| Consolidate.PlaceSell | consolidate.py:85-101 | the method's store and outcome are SellMerge's |
| Consolidate.DupIds | consolidate.py:103-112 | exactly the open SELLs of the pair priced within ±1e-6 relative of the target |
| Consolidate.PassCounts | consolidate.py:122-123 | to_cancel = min(TO_CANCEL, n), place_cnt = min(PLACE_COUNT, to_cancel div 2) |
| Consolidate.Notional | consolidate.py:129 | the total notional sum(price * qty) of the cancelled orders; stated by Consolidate.MergedBuysWithinCancelled |
| Consolidate.PerOrderUsd | consolidate.py:129 | 0 when nothing is placed, else non-negative for a non-negative total |
| Consolidate.SellTarget | consolidate.py:162-164 | the target is the pair midpoint raised to the minimum sell price |
| Consolidate.AbsorbDups | consolidate.py:166-179 | the duplicates at the target are cancelled and their quantity is summed into extra_qty |
| Consolidate.MinSellPrice | consolidate.py:144-146 | avg * (1 + gain) with a positive average, else 0 |
| Consolidate.PlaceMergedBuys | consolidate.py:131-136 | the merge loop computes the BUY pass specification |
| Consolidate.BuysFrom | consolidate.py:131-136 | the BUY merge loop from the k-th pair: one merged BUY at each midpoint sized per_order_usd, a raising placement ending the pass; stated by Consolidate.BuysWrite and Consolidate.MergedBuysWithinCancelled |
| Consolidate.PlaceMergedSells | consolidate.py:159-186 | the merge loop computes the SELL pass specification |
| Consolidate.SellPairStep | consolidate.py:160-186 | one pair of the SELL loop: duplicates at the target cancelled and their qty added, then floor6 of the sum placed at the target unless it is not positive; stated by Consolidate.MergedSellQtyAtLeastPair |
| Consolidate.SellsFrom | consolidate.py:159-186 | the SELL merge loop from the k-th pair, a raising placement ending the pass; stated by Consolidate.SellsWrite |
| Consolidate.MergeSellPair | consolidate.py:160-186 | one pass of the loop body: the store and the outcome are exactly Consolidate.SellPairStep's |
| Consolidate.ConsolidateBuys | consolidate.py:114-138 | nothing changes when disabled or open <= limit; otherwise the farthest to_cancel are cancelled and place_cnt pairs are merged at their midpoints, each sized total notional / place_cnt |
| Consolidate.ConsolidateSells | consolidate.py:140-188 | nothing changes when disabled or open <= limit; otherwise the farthest are cancelled and each pair is merged at its guarded target with the quantity of the absorbed duplicates |
| Consolidate.BuysWrite | consolidate.py:131-136 | at most one merged BUY per pair; every row changed is a merged CONSOLIDATE BUY with the shared size |
| Consolidate.MergedBuysWithinCancelled | consolidate.py:128-136 | merged BUYs number at most place_cnt <= floor(to_cancel/2), and together reserve at most the cancelled notional |
| Consolidate.SellsWrite | consolidate.py:159-186 | at most one merged SELL per pair; every row changed is a merged SELL at or above the minimum sell price, or a cancelled SELL of the pair |
| Consolidate.MergedSellQtyAtLeastPair | consolidate.py:181 | absorbing duplicates never lowers the merged quantity below floor6(a.qty + b.qty) |
| Avg1.TargetPrice | avg1.py:29 | the target is on the six-decimal grid and non-negative for a positive average |
| Avg1.SellCancelIds | avg1.py:32-40 | an id is cancelled remotely iff some listed row has the pair's symbol, a SELL side in any case and that non-empty id |
| Avg1.CancelsRemotely | avg1.py:34-37 | the test for a remote cancel: the row's symbol is the pair, its side upper-cases to SELL and its orderId is non-empty; used by Avg1.SellCancelIds |
| Avg1.RemoteSellCancels | avg1.py:32-40 | the loop sends exactly those cancels, ignoring failures |
| Avg1.ChooseQty | avg1.py:62-75 | q = floor6(min(pos, free)); skipped iff q <= 0; a zero target crashes; below the minimum it is skipped; a placed qty is q itself, so the adjustment never raises it, and it is at most pos and free with notional >= MIN |
| Avg1.Avg1 | avg1.py:22-88 | nothing happens iff qty <= 0 or avg <= 0 |
| Avg1.Avg1Run | avg1.py:16-88 | the run's ledger and outcome are Avg1's, and the remote cancels are sent only when there is a position |
| Avg1.Avg1Frame | avg1.py:43-53 | with a position every open SELL of the pair is cancelled before placement, other rows are kept, and the only open SELL left is the placed one |
| Avg1.Avg1PlacesAtTarget | avg1.py:78-88 | a SELL is placed iff there is a position, a quantity and an acknowledgement; it is NEW at round(avg * 1.01, 6), with nothing reserved or filled, at most min(pos, free), and worth at least MIN |
| Reports.Present | reports/core.py:139-141 | the non-null values of a column, each coming from a candle |
| Reports.SeqMin | reports/core.py:144 | the minimum is an element and bounds every element |
| Reports.SeqMax | reports/core.py:144 | the maximum is an element and bounds every element |
| Reports.MeanBetween | reports/core.py:145 | the mean of values in [lo, hi] lies in [lo, hi] |
| Reports.Band | reports/core.py:147-148 | 0 <= lower <= upper, a non-negative mid lies between them, and their width is spread/2 when neither is clipped |
| Reports.ChannelOf | reports/core.py:144-149 | the spread is the range max(0, max - min), never negative; mid is the mean of the mids, else the centre (min+max)/2; the band is Band(mid, spread) with 0 <= lower <= upper |
| Reports.Channel24h | reports/core.py:136-149 | None iff there are no candles or no non-null mins or maxs; otherwise the channel of the non-null min, max and mid columns |
| Reports.MidsInRange | reports/core.py:139-145 | in well-formed candles every mid lies between the overall min and max |
| Reports.ChannelBracketsMid | reports/core.py:136-149 | for well-formed non-negative candles the channel exists, mid lies in [min, max], and lower <= mid <= upper |
| Reports.WindowPnl | reports/core.py:152-158 | None without a reference or last price; abs = (last - p0) * qty and pct * max(1e-9, last * qty) = abs * 100, with the same sign |
| Reports.WindowPnlIsPriceChange | reports/core.py:155-157 | for a real position the percentage is the relative price change (last - p0)/last * 100, positive when the price rose |
| Reports.CalcPnlBlocks | reports/core.py:151-164 | the hour and day windows are WindowPnl; total abs is 0 when last is missing or avg is 0, else (last - avg) * qty; total pct is relative to max(1e-9, START_CAPITAL_USD) |
| Reports.SyntheticPosition | reports/core.py:110-119 | qty = max(0, bought - sold); avg is 0 without a position, else max(0, cost) / max(qty, 1e-12), never negative |
| Reports.SyntheticCostRecovered | reports/core.py:112-115 | for a real position avg * qty recovers the net cost, and avg = cost / qty |
| CalcBalances.PeriodFromArgs | scripts/calc_balances.py:8-13 | a truthy day count gives [now - days*86400, now], overriding from/to; otherwise they pass through |
| CalcBalances.PeriodIsWindow | scripts/calc_balances.py:9-12 | a positive day count gives a non-empty window ending now, days*86400 long |
| CalcBalances.CalcAggregates | scripts/calc_balances.py:24-44 | out/in are the sums of price * qty over BUY/SELL rows; fees and net base count only BUY and SELL rows; net after fee = in - out - fees |
| CalcBalances.Summarises | scripts/calc_balances.py:24-44 | the relation between rows and the summary: in = SELL notional, out = BUY notional, fees and base net over BUY and SELL rows only, net after fee = in - out - fees; stated by CalcBalances.CalcAggregates and CalcBalances.AggregatesAdditive |
| CalcBalances.SideSumsAppend | scripts/calc_balances.py:29-41 | the per-side sums of two row lists add up |
| CalcBalances.AggregatesAdditive | scripts/calc_balances.py:24-44 | the summary of a period split in two is the sum of the two summaries |
| CalcBalances.NotionalNonNegative | scripts/calc_balances.py:34-39 | with non-negative prices and quantities the quote flows are non-negative |
| Notify.ChunksCover | notify.py:57-62 | the chunks put back together are the text; each is 1..limit long and all but the last are exactly limit; empty text yields no chunk |
| Notify.Chunk | notify.py:57-62 | the re-slicing loop yields exactly those chunks |
| Notify.ChunksOf | notify.py:57-62 | the pieces _chunk yields: text[:limit] and then the rest; stated by Notify.ChunksCover |
| Notify.Post | notify.py:64-87 | no attempt when unconfigured; otherwise at most 1+RETRIES attempts, stopping at the first ok answer; success iff one of them came back ok |
| Notify.SendText | notify.py:89-109 | every chunk is posted, and the text counts as sent iff every chunk was delivered |
| Notify.MarkSilences | notify.py:128-141 | after marking, a signature passes the cooldown iff ERR_COOLDOWN_MIN*60 seconds have elapsed, and other signatures are unaffected |
| Notify.CooldownPassed | notify.py:128-135 | a signature never sent passes; otherwise ERR_COOLDOWN_MIN*60 seconds must have passed since it was sent; stated by Notify.MarkSilences |
| Notify.TrimDetails | notify.py:161-163 | stripped details longer than 800 are cut to their first 800 characters followed by " …"; shorter ones are kept whole |
| Notify.ErrorMessage | notify.py:153-163 | the report text: where, the exception type and text, and the trimmed details inside pre tags when details are non-empty |
| Notify.NotifyState.MarkSent | notify.py:137-141 | the signature's timestamp becomes now and no other entry changes |
| Notify.NotifyState.SendError | notify.py:143-176 | within the cooldown nothing is sent and the result is true; otherwise the report is sent, and the signature is marked only when every chunk was delivered |

## Left out

- The exchange transport in mexc_client.py (HTTP, HMAC signing, numeric formatting). Exchange answers are inputs, and a placement either answers with an `orderId` or raises.
- Background feeds and scheduling (candles.py, ebot.py, cons.py), and the five-second polling wait in `cancel_all_buys` (buckets.py:59-65): these are timing and processes, not bookkeeping.
- The SQL queries. `channel_24h` in buy.py and the `fetch_*` helpers in reports/core.py are read from the database, and only the arithmetic after them is modelled. `build_report_text` and report.py are text rendering.
- The schema and engine setup (models_trading.py, models.py), except for their columns in `Ledger`.
- Logging, the `print` lines and the scripts' argument parsing. Command-line values are parameters.
- The HTML escaping that test_notify.py expects. notify.py does not escape, and the model follows notify.py.
- The sha256 error signature: `sig` is a parameter of `SendError`.
- The reentrant lock.
- State-file read/write failures, and the backoff sleeps and error text of `_post`.
- Floating-point effects. Values are reals, so `floor6` and `round(x, 6)` are exact and IEEE rounding of the scaling is not modelled.
- Randomness and non-integer powers: they are function parameters.
- `calc_aggregates`'s try/except around a conversion error, because the rows here are already numbers or NULL.
- Notify.Chunk: requires limit > 0. With a limit of 0 or less the Python generator never ends.
- Ledger.LastFree: states only that the value comes from some row of the asset. That the last such row wins is in its body but not in its contract.
- Sell.FreeBase: states only that the value is 0 or comes from some row whose asset upper-cases to KAS, not that it is the first such row, nor that a failed conversion gives 0.
- Buckets.BuyListed: states membership one way, that every id sent belongs to a listed BUY. It does not state that every listed BUY id is sent or the order in which they are sent.
- Sync.MatchWithUnit: its own contract states only that the unit found is one of s, m, h, d; the match is pinned down by lemmas for digit runs (Sync.ParseWindowDigits), digit runs with a unit (Sync.ParseWindowWithUnit) and text without digits (Sync.ParseWindowNoDigits), not for every text.
- Text.Upper, Text.Lower and Text.Strip: ASCII only. Python's `str.upper()`, `str.lower()` and `str.strip()` also map non-ASCII letters and strip non-ASCII white space (such as U+0085, U+00A0 and U+2000..U+200A); non-ASCII characters are kept unchanged here.
- Sync.ParseInt and Sync.MatchWithUnit: ASCII digits only. Python's `int()` and the `\d` of `re` also accept other Unicode decimal digits (`int("٣")` is 3); such text is unparsable here.
- The `main` functions of sync.py (sync.py:198-215) and consolidate.py (consolidate.py:190-201) run their passes in sequence with one session, and an exception in one pass skips the later ones. Each pass is modelled, but not their sequencing as one run.
- Consolidate.ConsolidateBuys and Consolidate.ConsolidateSells: return the open listing they used, because the query leaves ties between equal prices in no fixed order.
- Avg1.Avg1: the placement is an exception when the target price is 0 (a `ZeroDivisionError` in the below-minimum step), modelled as `Crashed`.

## Findings

| source | as written | input that shows it | evidently intended | confidence | as-written member | corrected member |
|---|---|---|---|---|---|---|
| sync.py:222-223 | without `--window` the function returns `SYNC_WINDOW_MIN` unclamped | no `--window` with SYNC_WINDOW_MIN = 2000 gives 2000 | every path returns minutes in 1..1440, as the docstring says | not executed | Sync.ParseWindowAsWrittenEscapesRange | Sync.ParseWindowToMinutes |
