# Verified model of the calendar-spread trading bot

A Dafny 4.11 model of the bot's trade execution, decision engine and their
supporting algorithms, with proofs that range over every fill, every tick, every
restart and every input. `dafny verify dfyconfig.toml` checks the whole project.

| file | models |
|---|---|
| `Histories.dfy`, `Options.dfy`, `Ratios.dfy` | histories that grow at their end; optional values; shares compared without dividing |
| `Exchange.dfy` | the exchange as an adversary: orders whose fills it chooses, a clock, and a trail of every intermediate moment |
| `OrderManager.dfy` | the in-memory order registry and its agreement with the exchange |
| `Executor.dfy` | entering, closing and rolling a spread: submit, wait, cancel, flatten, unwind |
| `Outcomes.dfy` | how entry, close and roll can end, what each end leaves in the account, and calls in a row |
| `SpreadLife.dfy` | the life of one spread: an entry, any closes and rolls, whichever way each ends |
| `PriceGrid.dfy` | amount clamping and banded tick rounding |
| `Ordering.dfy` | names in alphabetical order |
| `TradeStore.dfy` | the table of trades, its row changes and its queries |
| `EngineSpec.dfy` | the decision engine as a state machine over ticks, operator commands and restarts |
| `EngineViews.dfy` | the engine seen one trade at a time |
| `EngineLadder.dfy` | counters against the history: retries, debounce, marks, alerts |
| `EngineLedger.dfy` | money against the history: closes, rolls, the day |
| `EngineBooks.dfy` | writes against calls, and the position each trade holds |
| `EngineRuns.dfy` | the invariant tying the engine's memory, the table and the history together |
| `EngineLifecycle.dfy` | what becomes of a row: open, stuck, terminal, and what operators can still do to it |
| `EngineAccounts.dfy` | what the money adds up to over any run |
| `EngineGate.dfy` | the entry and roll gates as limits on the book |
| `EngineProgress.dfy` | what one monitor tick does to each trade |
| `EngineScans.dfy` | what one scan tick submits |
| `EngineGuarantees.dfy` | what every run of the engine promises about its actions |
| `EngineHoldings.dfy` | engine and executor joined: what the account holds against what the table shows |
| `DecisionEngine.dfy` | the engine's methods as they run, proved equal to the state machine |
| `Scanner.dfy` | grouping, nearest match, filters, ranking |
| `Tracker.dfy` | reconcile escalation and cross-collateral aggregation |
| `JsonRpc.dfy` | request and reply correlation in both JSON-RPC clients (section 5 of the JSON-RPC 2.0 Specification) |
| `Backtest.dfy` | frames from records, equity curve, drawdown |
| `Feed.dfy` | subscription coverage and chunking |

## How to read the contracts

- **Amounts** are natural numbers of instrument steps and **prices** are reals. An order id is
  the order's index in the exchange's list. `Net(os, lo, hi, leg)` is what orders
  `lo..hi` have done to the account's holding of `leg`.
- **Fault model.** A failing submit places nothing; order-state queries answer
  truthfully; a cancel takes effect, though its reply may be lost or leave the
  filled amount out; crossed flatten and unwind orders fill completely or are
  refused. Refused ones are recorded in `missed`, and inventory claims are stated
  for `x.missed == old(x.missed)`. Exposure bounds hold in every case.
- **Exits the code does not make good** (a combo given up partly filled, a near-leg
  slippage, a far entry order or a far close order refused outright) are part of the model,
  with the exact inventory they leave. `Told` is what a call reports, `Stray` what
  it did besides; a call is `Clean` when it did nothing besides.
- **A roll that fails at its open stage** has bought the old near leg back and reports
  False, and the engine counts a failure and goes on with the old near leg
  (`strategy/decision.py:1020-1031`), so the next roll buys that leg a second time. Account and
  table then differ until someone trades the difference away;
  `EngineHoldings.AgreesAllAlongIffClean` says when they agree.
- **Operator commands** may name any trade. The handlers check nothing, so /close on a
  closed trade reopens its status and /close_manually rewrites its P&L;
  `EngineLifecycle` says what that breaks and what it does not.
- **The tries** (`Venue.tries`) hold every limit order ever submitted, with its limit and
  the answer; `Venue.stopped` holds the live orders cancelled on request.
- **The trail** holds the order list after every event, so `AllWithin` speaks of
  every intermediate moment.
- **The engine's environment** (quotes, status checks, executor answers, sizes,
  fees, whether an alert is delivered) is an arbitrary parameter of each tick.
  Fills have already been checked by the executor, so a close is a credit or None.
- **The history** (`log`) records what the engine did; a `Tally` is what it says
  about one trade, `Own(v)` the part of it about the trade of view `v`.

## Where the code and its own comments differ

- Roll P&L (`strategy/decision.py:1367-1369`) is described as the old near premium less
  the new bid, but the position dicts the monitor loads (`db/state.py:346-369`)
  carry no near premium, so it is minus the new bid times the quantity. The model
  follows the code.
- The day's P&L (`strategy/decision.py:1205` and `strategy/decision.py:1370`) counts a roll when it is made and
  again inside the P&L of the close that ends the trade.
- The day's P&L is never reset at midnight, only by a restart.
- A reconcile cycle with no margin on either side returns without resetting the
  escalation (`portfolio/tracker.py:922-923`), so it does not end a run.
- The drawdown starts at the first point of the equity curve, so a loss on the
  first trade is not part of it.

## Model

| member | source | states |
|---|---|---|
| Executor.Executor.EnterSpread | execution/executor.py:978-1236 | For every choice of fills, refusals, prices and lost replies: unless it is a paper or empty order the combo is tried at the difference of the limits and, unless it fills, the near and then the far leg at theirs, up to three times on transport errors; which holding each exit leaves in every leg; the account is all or nothing, as the caller is told, if and only if no combo order given up had filled in part, the near leg's fill was not adverse and the far order was not refused; legs are taken as filled only if neither sold below nor bought above its intended price by more than the allowed share of it, and a slippage exit means the strict opposite on its own leg, at the average price the exchange tells or the limit; every moment stays between flat and the full spread; nothing placed can still fill and no other leg is touched; an entry that comes to nothing has waited its time for every order it stopped |
| Executor.Executor.EnterLive | execution/executor.py:1048-1236 | The same for the live path: a combo attempt, then the individual legs on top of whatever the combo left |
| Executor.Executor.EnterLegs | execution/executor.py:1077-1236 | Leg by leg: both orders really tried, at their limits and in their order; a returned fill is exactly (-amount, +amount), at prices within the allowed share of what was intended on each side; None, leg risk and far slippage are flat in both legs; the exits that are not flat are named with what they leave; exposure bounds at every moment; no leg given up before its time unless the exchange ended it |
| Executor.Executor.EnterLegsAfter | execution/executor.py:1066-1236 | The legs after a combo that was given up: its part and theirs add up in every leg, the tries follow one another, and every stopped order has had its time |
| Executor.Executor.SellNear | execution/executor.py:1079-1128 | The near half up to the far order: over with what it leaves, or sold in full at a price that is not adverse; tried up to three times at its limit |
| Executor.Executor.EnterNear | execution/executor.py:1079-1128 | Near sell with up to three submissions: filled in full, or flat again after cancel and buy-back; never long, never beyond the amount |
| Executor.Executor.EnterFar | execution/executor.py:1130-1236 | Far buy after a full near fill: the spread, or both legs flat, or (refused outright, and only then does no further order even get tried) the near leg left short; exactness of the slippage verdict; tried up to three times at its limit |
| Executor.Executor.BuyFar | execution/executor.py:1130-1185 | The far order and the undoing of its partial fill, the near leg untouched meanwhile |
| Executor.Executor.FinishEntry | execution/executor.py:1155-1221 | What follows the far wait: near leg bought back when it failed, both legs reversed on adverse far price, otherwise the spread kept |
| Executor.AdverseExactly | execution/executor.py:539-577 | A fill is adverse exactly when the intended price is known and a sale is below it, or a purchase above it, by more than the allowed share; a better fill never is |
| Executor.Executor.UnwindBoth | execution/executor.py:1189-1219 | Both reversals restore both legs and raise no alert; if either is refused the far one is not tried after a refused near one, and the operator is told once |
| Executor.Executor.SellFarBack | execution/executor.py:1200-1201 | Selling the far leg back returns exactly the amount and leaves the near leg as it was |
| Executor.Executor.CloseNear | execution/executor.py:1155-1162 | Buying the near leg back returns exactly the amount and leaves the far leg as it was |
| Executor.BoughtBack | execution/executor.py:1155-1162 | Buying the near leg back, after any of the ways an entry can have gone, returns exactly the amount, keeps the exposure bounds and leaves nothing that can fill |
| Executor.Executor.EnterCombo | execution/executor.py:857-959 | A combo entry moves both legs together at every moment; filled it is the whole spread, given up it leaves exactly what it had filled, which the registry records as withdrawn; tried once at its limit, if there is such an instrument |
| Executor.Executor.AwaitCombo | execution/executor.py:923-944 | A combo that is not had is cancelled when it timed out, ends dead, and is shown as closed in the registry whatever it filled |
| Executor.AllOrNothing | execution/executor.py:1126-1162 | The exits after which the holding is what the caller is told are exactly those without an abandoned combo part, a near slippage or a refused far order |
| Executor.Executor.Attempt | execution/executor.py:1079-1123 | One leg order: not placed, filled in full, or dead with its fill reversed (or the refused reversal accounted for); the reversal is never seen before the order is dead; given up only when its time is over or the exchange has ended it |
| Executor.Executor.AwaitOrUndo | execution/executor.py:1110-1123 | Wait, and on failure cancel and reverse exactly what filled; given up only when its time is over or the exchange has ended it |
| Executor.Executor.CancelAndFlatten | execution/executor.py:675-753 | Returns what the dead order really filled, reverses exactly that, alerts if and only if the reversal is refused and there is a notifier, and closes the order in the registry |
| Executor.Executor.WaitForFill | execution/executor.py:594-672 | At most ceil(timeout)+1 polls; returns a fill only on the filled state or the target quantity, with the average price of that fill as the exchange tells it; gives up only at or after the deadline with fill progress that is really there, and exact when the last poll takes no time |
| Executor.Executor.Submit | execution/executor.py:1081-1105 | The same order at the same limit is submitted again after each transport error and only then, after 1 and then 3 more seconds, until the tries run out; at most one order is placed, and exactly that is registered, with its limit |
| Executor.Executor.Flatten | execution/executor.py:733-737 | A crossed order fills in full or is recorded as refused |
| Executor.Executor.Record | execution/order_manager.py:127-150 | A recorded ending is the truth about the order, hidden combo parts aside, and removes exactly that order from the open ones |
| Executor.Executor.CloseSpread | execution/executor.py:1239-1427 | A credit is returned exactly when both legs closed in full, and it is far less near at the fills' average prices; otherwise every leg is as before, except for what a near order cancelled after a refused far order had filled; exposure bounds at every moment; nothing can still fill; the one order the registry may still show open, by exit; near and then far are really tried, at their limits; the credit times the amount is the cash of the two filled orders; nothing given up before its time unless the exchange refused or ended it |
| Executor.Executor.SubmitClose | execution/executor.py:1284-1331 | Near order first; a refused far order cancels it; both stay within the amount; each is tried once at its limit, the far one only after the near one is accepted |
| Executor.Executor.AwaitBoth | execution/executor.py:1338-1365 | After both waits every order is settled and each leg is closed in full or back where it was |
| Executor.Executor.AwaitCloseNear | execution/executor.py:1338-1351 | Near close in full or reversed, the far order still live and bounded |
| Executor.Executor.AwaitCloseFar | execution/executor.py:1353-1365 | Far close in full or reversed, the near leg's holding unchanged |
| Executor.FarCloseOver | execution/executor.py:1353-1365 | The far close filled or taken back leaves the near leg alone, the far leg sold or as before, and the order list within its bounds |
| Executor.Executor.FinishClose | execution/executor.py:1333-1427 | All fill, partial and timeout combinations of two accepted orders: both closed with credit far minus near at the fills' average prices, or both as before and None |
| Executor.Executor.BookClose | execution/executor.py:1407-1427 | The credit is far less near, each at the average price the exchange tells or else its limit, times the rate, and is the cash of the two orders per unit |
| Executor.CreditIsCash | execution/executor.py:1418-1422 | The credit for all units is what the two filled orders brought in, sales positive and purchases negative |
| Executor.Executor.UnwindOne | execution/executor.py:1367-1405 | The one leg that filled is given back exactly, the other leg untouched |
| Executor.Executor.RollNearLeg | execution/executor.py:1430-1524 | True means the short moved whole to the new leg; failure at the close stage changes nothing, at the open stage leaves the old short bought back, which the caller is not told; the combined short never exceeds the position; only the two near legs are traded; the registry has no new open order on any normal return; the purchase is really tried at its limit and, once it is had and only then, the sale at its own |
| Executor.Executor.RollOut | execution/executor.py:1470-1495 | The old short is bought back in full or exactly restored |
| Executor.Executor.RollIn | execution/executor.py:1497-1522 | The new short is sold in full or exactly taken back, the old leg untouched |
| Executor.NearShapeBounded | execution/executor.py:1079-1123 | Every order list of the near half stays within flat and short the amount |
| Executor.FarShapeBounded | execution/executor.py:1130-1221 | Every order list of the far half and its reversals stays between flat and the spread, whatever order the reversals come in |
| Executor.FarShapeWatched | execution/executor.py:1130-1185 | The same at every recorded moment, not only at the end |
| Executor.ComboWatched | execution/executor.py:903-944 | At every moment a combo has moved both legs by the same amount |
| Executor.CloseShapeBounded | execution/executor.py:1284-1405 | Every order list of a close stays between the full spread and flat |
| Executor.CloseShapeWatched | execution/executor.py:1284-1405 | The same at every recorded moment |
| Executor.RollShapeBounded | execution/executor.py:1470-1522 | Every order list of a roll keeps the combined short within the position |
| Executor.RollShapeWatched | execution/executor.py:1470-1522 | The same at every recorded moment |
| Outcomes.DidBoth | execution/executor.py:978-1524 | What a call does to its two legs settles the holding of every leg |
| Outcomes.DidInItsTime | execution/executor.py:1239-1524 | Time passing before and after a call changes nothing about what it did |
| Outcomes.CleanIffNothingStrays | execution/executor.py:978-1524 | A call has done no more to any leg than it reports if and only if it abandoned no combo part, left no near sale uncovered, no part of a refused close and no roll half done |
| Outcomes.HoldsWhatWasTold | execution/executor.py:978-1524 | After any calls in a row every leg's holding is what the callers were told plus the strays, for good |
| Outcomes.NeverAstrayIffClean | execution/executor.py:978-1524 | There are no strays at any moment if and only if every call ended clean |
| SpreadLife.HoldsTheLatestSpread | execution/executor.py:978-1524 | After an entry and any closes and rolls, each ended in any of its ways, the account holds the spread on the near leg the callers know of plus the strays of the calls, nothing else, for good |
| SpreadLife.ClosedSpreadLeavesNothing | execution/executor.py:1239-1524 | After such a life a completed close leaves every leg as it was before the entry if and only if the entry abandoned no combo part, no close had its far order refused over a part-filled near one, and no roll failed at its open stage |
| SpreadLife.RetriedRollLeavesTheOldLeg | execution/executor.py:1470-1524 | The failing run: an entry, a roll whose opening sale is refused, the same roll again, a close; every call but one reports success and the account stays long the whole quantity of the old near leg |
| Exchange.Venue.Place | execution/executor.py:329-377 | A limit order is accepted under a fresh id with any first fill, lost in transport or refused; what is not accepted places nothing |
| Exchange.Venue.PlaceCrossed | execution/executor.py:733-737 | A crossed order is filled at once or refused, and a refusal is remembered |
| Exchange.Venue.OrderState | execution/executor.py:382-383 | A query answers with the order as it was at some moment of the round trip, and the average price of that fill if it has one |
| Exchange.Venue.Cancel | execution/executor.py:379-380 | A cancelled order is dead; the reply may leave its fill out |
| Exchange.NetSettled | execution/executor.py:716-733 | A holding built from settled orders survives whatever the exchange does next |
| Exchange.OthersUntouched | execution/executor.py:1079-1236 | Orders in two legs leave the holding of every other leg alone |
| Registry.OrderManager.Track | execution/order_manager.py:119-125 | Registers or replaces one order and nothing else |
| Registry.OrderManager.Update | execution/order_manager.py:127-150 | Changes only the named order, keeps what is not given, ignores unknown ids; a terminal state removes exactly that id from the open ones |
| Registry.OrderManager.OpenOrders | execution/order_manager.py:162-165 | Exactly the orders that are not terminal, in registration order |
| Registry.OrderManager.Reconcile | execution/order_manager.py:261-304 | Every open order the exchange no longer lists becomes withdrawn, nothing else changes, and a failed query changes nothing |
| Registry.OpenAmongExact | execution/order_manager.py:162-165 | The filtered list holds an order if and only if it is registered and not terminal |
| Registry.InStepExtends | execution/order_manager.py:66-92 | A registry that agrees with the exchange goes on agreeing whatever the exchange does |
| PriceGrid.ClampToStep | execution/executor.py:444-459 | The greatest multiple of the step not above the amount, or None exactly when every positive multiple below is under the minimum |
| PriceGrid.EffectiveTickSize | execution/executor.py:462-483 | The tick of the last override that applies, the base tick if none does |
| PriceGrid.TickIsLastReached | execution/executor.py:462-483 | The tick is that of the last override whose threshold the price has reached, overrides without a threshold or tick aside, and else the base tick |
| PriceGrid.RoundToTick | execution/executor.py:486-538 | Caches, the unknown-instrument default, the non-positive tick safeguard and banded rounding |
| PriceGrid.RoundedIsNearest | execution/executor.py:486-538 | Case by case: unknown instrument, unusable tick, banded tick or its fallback; the result is on that grid, nothing on it is nearer, and a tie goes away from zero |
| PriceGrid.HalfUpIsNearest | execution/executor.py:531-538 | The result is on the grid, no grid price is nearer, and a tie goes away from zero, for negative prices too |
| PriceGrid.HalfEvenIsNearest | execution/executor.py:525-526 | The default for an unknown instrument is the nearest four-decimal price, a tie going to the even one |
| PriceGrid.HalfUpStaysBetween | execution/executor.py:531-538 | Rounding never crosses a grid price |
| PriceGrid.HalfUpKeepsOrder | execution/executor.py:531-538 | Rounding on one grid keeps the order of prices |
| PriceGrid.RoundsUpToThreshold | execution/executor.py:462-483 | Rounding up within a band reaches the next threshold at most |
| PriceGrid.LandsOnGrid | execution/executor.py:462-538 | A rounded price is on the grid of the band it lands in |
| PriceGrid.RoundingIsOnGrid | execution/executor.py:486-538 | With thresholds that are multiples of the ticks on both sides: on the landing band's grid, within half an effective tick, idempotent |
| PriceGrid.OnGridIffThresholdsAre | execution/executor.py:462-538 | For any list of overrides whatever, every price is rounded to the grid of the band it lands in, and every price rounded once is at rest, if and only if each threshold and the price one unit below it are rounded to the grid |
| PriceGrid.LandsByItsThresholds | execution/executor.py:462-538 | The other half price by price: what falls below its band lands where the band's threshold does, what rises above it where the band's last price does |
| PriceGrid.SettlesIffLands | execution/executor.py:486-538 | Rounding a rounded price changes nothing if and only if it is on the grid of the band it is in |
| PriceGrid.BandsCanMissTheGrid | execution/executor.py:462-538 | Tick 5 below 13 and 6 from 13 on: 13 goes to 12, off the grid there, and then to 10 |
| PriceGrid.UnalignedBandsCanHitTheGrid | execution/executor.py:462-538 | Tick 5 below 12 and 12 from 12 on: a threshold off the grid below it, and every price lands on its grid all the same |
| TradeStore.KeepsRowsWell | db/state.py:252-284 | For each of the six row changes, exactly when it keeps 'terminal result' and 'closed status' the same thing |
| TradeStore.Store.Create | db/state.py:201-249 | A new open row under a fresh id, all others unchanged |
| TradeStore.Store.Close | db/state.py:252-284 | Fails on an unknown id, otherwise writes P&L, label, fees and closed status to that row only |
| TradeStore.Store.UpdateNearLeg | db/state.py:389-417 | Accumulates roll P&L and replaces the near leg of that row only |
| TradeStore.Store.UpdateLastSpread | db/state.py:420-431 | Stores the last spread value of that row only |
| TradeStore.Store.MarkStuck | db/state.py:584-620 | Changes only that row's status to stuck |
| TradeStore.Store.CloseManually | db/state.py:623-680 | P&L from the operator's spread less debit and entry fees, closed status, operator's label |
| TradeStore.HandPnlIs | db/state.py:644-660 | A manual close earns the operator's spread less the debit for all units less entry fees |
| TradeStore.Store.MarkReconciled | db/state.py:683-727 | Closed status always; a terminal label only if none was recorded, and recorded P&L is kept |
| TradeStore.Store.Reset | db/state.py:761-776 | Changes only that row's status to open; unknown ids change nothing |
| TradeStore.Store.CloseStatusOf | db/state.py:742-758 | The status, or None for an unknown id |
| TradeStore.Store.OpenTrades | db/state.py:434-447 | Lists exactly the open rows that are not stuck, each once, by opening date |
| TradeStore.Store.VisiblePositions | db/state.py:450-467 | Lists exactly the rows with an open result, stuck ones included, each once, by opening date |
| TradeStore.Store.StuckPositions | db/state.py:730-739 | Lists exactly the stuck rows, each once, the latest opened first |
| TradeStore.Store.LoadOpen | strategy/decision.py:1443-1458 | Lists exactly the monitored rows, each once: assets in alphabetical order, configured or legacy, and each asset's rows by opening date |
| TradeStore.Store.AllAssets | db/state.py:287-295 | The configured assets and those with open rows, each once, in alphabetical order |
| TradeStore.SlottedNext | db/state.py:434-447 | A listing by date stays one when the next row picked goes to its place |
| Ordering.AlphabeticalIsUnique | data/deribit_feed.py:290 | Names in strict alphabetical order are determined by which names there are |
| TradeStore.Store.SyncStuck | portfolio/tracker.py:598-657 | Closes exactly the stuck rows both of whose legs are gone, and nothing at all when the positions could not be fetched |
| Engine.DecisionEngine.MonitorTick | strategy/decision.py:423-501 | The tick, run step by step over the positions in their visiting order, takes the engine, table and history exactly where the state machine says |
| Engine.DecisionEngine.MonitorEach | strategy/decision.py:459-474 | The pass over the loaded positions ends where the state machine's pass does |
| Engine.DecisionEngine.ScanTick | strategy/decision.py:288-420 | The scan loop with its skips, early returns and break ends exactly where the state machine says |
| Engine.DecisionEngine.MonitorPosition | strategy/decision.py:804-1048 | One position's early returns, counters and branches against the state machine |
| Engine.DecisionEngine.QuotePosition | strategy/decision.py:865-1031 | What follows once the position's value is known: spread stored, signal or roll branch |
| Engine.DecisionEngine.CloseAtExpiry | strategy/decision.py:843-863 | The expired-near-leg branch |
| Engine.DecisionEngine.ConfirmSignal | strategy/decision.py:909-966 | Debounce, retry cap and counted close |
| Engine.DecisionEngine.RollOrClose | strategy/decision.py:983-1031 | Drain close, retry-cap close, roll attempt and their counters |
| Engine.DecisionEngine.MarkStuckAndNotify | strategy/decision.py:1050-1106 | Stuck mark, dropped counter and the deduplicated alert |
| Engine.DecisionEngine.ClosePosition | strategy/decision.py:1108-1245 | Executor call, then nothing recorded on failure or the booked close on success |
| Engine.DecisionEngine.RecordClose | strategy/decision.py:1152-1206 | Net P&L, label and close write as the state machine has them, P&L added to the day |
| Engine.DecisionEngine.TryRoll | strategy/decision.py:1247-1421 | Candidate choice, fee check, roll call, roll P&L, near-leg write and the rolled-this-tick guard |
| Engine.DecisionEngine.CheckDailyLossLimit | strategy/decision.py:1425-1439 | Halts exactly when today's P&L is at or below both the limit and its negation, that is at or below minus its size |
| Engine.DecisionEngine.DropStale | strategy/decision.py:483-492 | Keeps exactly the counters of trades still open |
| EngineProgress.EveryTickActs | strategy/decision.py:804-1048 | On every tick of an engine that is awake, each monitored trade with a known spot price, not entered or rolled just now: at near expiry it is closed for the credit, or its failure counted, or at the cap given up with one mark; otherwise, with IV known, it is evaluated once and its signal debounced, closed at the spread, counted or given up, or with no signal held, rolled to the first candidate that passes every gate and pays, or in drain mode or at the cap closed; row, own history, both counters and the flag are given in full, and in every other case nothing about it changes |
| EngineProgress.TickReadiesTheNext | strategy/decision.py:476-501 | After a tick nothing is skipped as just entered or rolled, and the engine is idle exactly when nothing is monitored |
| EngineScans.EveryScanActs | strategy/decision.py:288-420 | A scan of an engine that is awake, has funds and is not draining calls exactly the candidates whose turn comes, writes each fill at once as a new open row, and keeps those rows from the next tick; in any other state it enters nothing, and paused or halted it changes nothing |
| EngineScans.SubmittedInItsTurn | strategy/decision.py:356-417 | Whose turn comes: the k-th candidate is submitted if and only if its EV, quantity, margin and book pass, there is room under the limit after the fills before it, and none before it raised leg risk |
| Engine.DecisionEngine.Enter | strategy/decision.py:732-797 | Books a fill as a new open row under the just-entered guard, and nothing otherwise |
| Engine.DecisionEngine.HandleClose | telegram_cmd/handlers.py:559-564 | The operator's retry of any id: an existing row's status open again whatever it was, and flag and failure count dropped even for an unknown one |
| Engine.DecisionEngine.HandleCloseManually | telegram_cmd/handlers.py:620-623 | The operator's manual close of any row, open, stuck or closed, or nothing for an unknown trade |
| EngineRuns.StepKept | strategy/decision.py:288-501 | Every tick, every operator command on whatever trade, known or not, every reconciliation and restart keeps memory, table and history in agreement, for every trade |
| EngineRuns.RunKept | strategy/decision.py:288-501 | So does every run |
| EngineRuns.MonitorPositionKept | strategy/decision.py:804-1048 | Monitoring one trade keeps the agreement for it and for every other |
| EngineRuns.MonitorAllKept | strategy/decision.py:459-474 | So does a whole monitor pass |
| EngineLadder.ExpiryCounted | strategy/decision.py:843-863 | The expiry branch keeps counters and history in step and every action in order |
| EngineLadder.SignalCounted | strategy/decision.py:909-966 | So does the signal branch, the debounce counter staying below the confirmation count |
| EngineLadder.RollDueCounted | strategy/decision.py:983-1031 | So does the roll branch, the failure counter staying within the cap |
| EngineLadder.MarkCounted | strategy/decision.py:1050-1106 | Giving up marks once and, from a fresh episode, alerts exactly once if and only if there is a notifier and it delivers |
| EngineLadder.CloseCounted | strategy/decision.py:1108-1245 | A failed close changes nothing but the history, which counts it; a successful one ends the trade |
| EngineLadder.RollCounted | strategy/decision.py:1247-1421 | A roll that fails is counted, one that works clears the count, and it is only tried in order |
| EngineRuns.MonitorTickKept | strategy/decision.py:423-501 | The monitor tick with its cleanup keeps the invariant |
| EngineRuns.ScanTickKept | strategy/decision.py:288-420 | The scan tick keeps the invariant |
| EngineRuns.EnterKept | strategy/decision.py:732-797 | An entry keeps the invariant |
| EngineRuns.RetryKept | telegram_cmd/handlers.py:559-564 | An operator's retry of any trade, known or not, keeps the invariant; a live trade's pending signals survive it |
| EngineRuns.CloseByHandKept | telegram_cmd/handlers.py:620-623 | A manual close of any trade keeps the invariant |
| EngineRuns.ReconcileKept | portfolio/tracker.py:598-657 | Reconciling a stuck trade away keeps the invariant |
| EngineRuns.RestartKept | strategy/decision.py:226-236 | A restart, which loses all memory, keeps the invariant |
| EngineLedger.MonitorPaid | strategy/decision.py:1152-1421 | Whatever monitoring a trade does, the row shows what its own history of closes and rolls earned, and the day what was written |
| EngineBooks.MonitorPlaced | strategy/decision.py:804-1421 | Whatever monitoring a trade does, its row holds open exactly the position its own history leaves open, and calls and writes name that position |
| EngineViews.MonitorOnly | strategy/decision.py:804-1048 | Monitoring one trade adds nothing to the history about any other |
| EngineGuarantees.EveryActionInOrder | strategy/decision.py:843-1031 | In every run from a fresh start, at its moment: no call for a stuck or closed trade, no attempt beyond the retry cap, no stop or take-profit close without the confirming number of consecutive evaluated signals, a forced close only at the cap, no entry below the EV floor or through a failed gate; every call and write names the position the trade then holds |
| EngineGuarantees.LadderHolds | strategy/decision.py:843-1031 | Each open trade's counter is the number of failed attempts since its last reset and stays within the cap; no history ever shows more than cap + 1 failures in a row |
| EngineGuarantees.FailuresBounded | strategy/decision.py:996-1018 | At most cap + 1 failures without a reset |
| EngineGuarantees.PersistentStop | strategy/decision.py:909-966 | From zero counters, with a signal whenever it is evaluated and every close failing: after n ticks that can evaluate the trade (engine awake, spot and IV known, not just entered or rolled) exactly min(n / C, cap) close calls have been made, it is monitored while n is below (cap + 1) * C, and stuck from then on |
| EngineGuarantees.RunTakesItsChances | strategy/decision.py:865-908 | While the trade is monitored every such tick evaluates it once, and nothing else does |
| EngineViews.MonitorAllOn | strategy/decision.py:459-474 | A monitor pass does to each position what monitoring it alone does, and finds it as it was before the pass |
| EngineGuarantees.StepClimbs | strategy/decision.py:804-1048 | No event that leaves the trade alone moves it on the ladder, and each evaluation moves it one step |
| EngineLifecycle.EveryRowInOneClass | db/state.py:371-377 | Over every run, operator commands on any row included: each row is exactly one of monitored, stuck and terminal; the operators' view is the first two; terminal result and closed status agree exactly unless a retry has named the row since it was closed |
| EngineLifecycle.WhatChangesATerminalRow | telegram_cmd/handlers.py:559-623 | A terminal row stays terminal, and exactly two events change it: a retry while its status is closed, and a manual close that writes something else than is there |
| EngineLifecycle.TerminalForGood | db/state.py:198-284 | Over any run a terminal row stays terminal, and as it is unless an operator command names it |
| EngineLifecycle.RetryLoosensAClosedTrade | telegram_cmd/handlers.py:559-564 | The failing command: /close on a closed trade leaves status open under its terminal label, in no listing |
| EngineLifecycle.ManualCloseRewritesAClosedTrade | telegram_cmd/handlers.py:620-623 | /close_manually on a closed trade rewrites its P&L and label, rolls kept out of the new P&L |
| EngineLifecycle.WellKeptUnlessAClosedTradeIsRetried | db/state.py:761-776 | All through a run terminal result and closed status are the same thing for every row if and only if no retry in it names a closed trade |
| EngineLifecycle.StuckIsLeftAlone | strategy/decision.py:1050-1106 | From being stuck or closed until a retry names the trade, restarts included, nothing is called, evaluated, marked or alerted for it |
| EngineLifecycle.UnseenUntouched | strategy/decision.py:1443-1458 | No event changes a row the monitor does not see unless it names the trade |
| EngineLifecycle.RetryStartsAfresh | telegram_cmd/handlers.py:559-564 | /close on any id: flag and failure count dropped, an existing row's status open, nothing else changed |
| EngineLifecycle.ManualCloseSettles | telegram_cmd/handlers.py:620-623 | /close_manually on any row: status closed, spread, label and P&L the operator's, flag dropped, nothing else changed; nothing at all for an unknown id |
| EngineGuarantees.OneAlertAnEpisode | strategy/decision.py:1066-1104 | Between operator retries at most one stuck mark and at most one alert, restarts included |
| EngineAccounts.LedgerBalances | strategy/decision.py:1152-1206 | Today's P&L is what closes and rolls wrote since the last restart; every row shows all the roll P&L its history wrote; a row the engine closed, and no operator rewrote, carries its closing value less debit, plus that roll P&L, less both fees |
| EngineAccounts.ClosedRowsAreTheDayIffNothingRolled | strategy/decision.py:1367-1400 | Closes alone make up the day's P&L if and only if nothing was rolled since the restart |
| EngineAccounts.TableHoldsTheDay | strategy/decision.py:1152-1206 | Without a restart the day's P&L is the sum over the table of engine closes and roll P&L, plus what manual closes of closed trades took off; so the rolls of a closed trade are in the day twice |
| EngineAccounts.SharesAddUp | strategy/decision.py:1152-1206 | The totals over the history and over the trades are the same |
| EngineAccounts.ClosedForAReason | strategy/decision.py:1191-1206 | A row the engine closed, and no operator rewrote, was closed by the executor; stop, take-profit, retry cap and drain each write their own label, and an expiry a win or a loss by its P&L |
| EngineGuarantees.LossLimitIsFinal | strategy/decision.py:1425-1439 | With the day's P&L at or below minus the limit, in whichever sign it is configured, no run without a restart calls the executor again, and the first unpaused tick halts for good |
| EngineGuarantees.HaltsExactlyAtTheLimit | strategy/decision.py:1425-1439 | A tick of an engine neither paused nor halted halts it if and only if the day's P&L is at or below minus the limit, then changes nothing else and says so if there is a notifier; nothing but a tick halts it |
| EngineGuarantees.ScanLoopCapped | strategy/decision.py:356-417 | A scan never takes the monitored positions beyond the limit or, if already beyond, further |
| EngineGuarantees.PositionLimitHolds | strategy/decision.py:356-417 | Over any run the limit holds but for positions an operator puts back |
| EngineGate.GateExactly | strategy/decision.py:505-653 | A book passes the gate if and only if each leg's width is within its share of mid or an enabled absolute floor, the debit within the mid spread plus its allowed share, and each known size reaches its floor and what is traded into it; written without a division |
| EngineGate.ApprovedExactly | strategy/decision.py:356-417 | A candidate is approved if and only if it meets the EV floor, has a quantity and room, passes the margin gate and the book limits |
| EngineGate.RollableExactly | strategy/decision.py:1295-1325 | A near leg may be rolled to if and only if it is another one, far enough before the far leg where that can be told, and passes the margin gate and the book limits of a roll |
| EngineGuarantees.EveryRollChecked | strategy/decision.py:1295-1352 | Every roll submitted leaves the held near leg for another, keeps the minimum gap where expiries can be read, passed the margin gate and the book limits of a roll, and collects more than it costs |
| EngineLadder.FirstRollableIsFirst | strategy/decision.py:1295-1325 | The roll target is the first candidate that passes every gate, None exactly when none does |
| Engine.DecisionEngine.FindRoll | strategy/decision.py:1291-1325 | The candidate loop finds that target |
| EngineGuarantees.EveryEntryCovered | strategy/decision.py:603-653 | Every entry submitted had EV at least the floor and a book within every limit; with both size switches on and both snapshots present, the near bid and the far ask were quoted for its quantity |
| EngineAccounts.RunBooks | strategy/decision.py:1130-1206 | Over any run every close, roll and entry the executor reports done is written to the table at once, for the position the call was made for; nothing else is written; each close is valued at the spread just evaluated (the credit at expiry) and labelled by its cause |
| EngineBooks.MonitorBooked | strategy/decision.py:804-1421 | Whatever monitoring a trade does, calls that went through are written at once, nothing else is, and every alert follows its mark |
| EngineHoldings.AgreesAllAlongIffClean | strategy/decision.py:732-1421 | Engine and executor together: all through any run the account holds of every leg what the trades leave open plus what was settled by hand, if and only if no call abandoned a combo part, left a near sale uncovered, had its far close refused over a part-filled near one, or failed a roll at its open stage (no crossed order being refused) |
| EngineHoldings.AccountIsTheTable | strategy/decision.py:732-1421 | After any run the holding of every leg is the sum over the table's open rows, plus what was settled by hand, plus the strays of the calls, for good; so it agrees with the table exactly when the strays cancel |
| EngineHoldings.WrittenAsTold | strategy/decision.py:1108-1421 | What the engine writes adds up to what the executor's calls report |
| EngineHoldings.LeftOpenAddsUp | strategy/decision.py:1108-1421 | What is written, less what was settled by hand, adds up to what the trades' own histories leave open |
| EngineHoldings.TableIsWritten | db/state.py:371-377 | And that is what the open rows of the table stand for |
| Scanner.Scan | strategy/scanner.py:338-501 | The four nested loops, the far-leg filter and the sort compute the ranked value of the specification |
| Scanner.ScanIsExact | strategy/scanner.py:403-500 | A candidate is returned if and only if it passes every filter, written out with its figures, and some pair of targets places it: each leg within tolerance of its target and the first of those closest to it, the far leg after the near; the order is the one stable rank order |
| Scanner.FoundExactly | strategy/scanner.py:387-480 | The same for what is collected before ranking, for an entry or for a roll |
| Scanner.GroupChain | strategy/scanner.py:112-129 | Groups exactly the parsed snapshots of each strike and type in chain order, keys in order of first appearance |
| Scanner.GroupedExactly | strategy/scanner.py:112-129 | Grouping loses nothing and mixes nothing |
| Scanner.FindNearest | strategy/scanner.py:438-460 | Finds the specification's nearest match |
| Scanner.NearestIsFirstOfTheClosest | strategy/scanner.py:438-460 | The match lies between target less tolerance and target plus tolerance, none in reach is closer on either side, and of equals it is the first; None exactly when none is in reach |
| Scanner.GapIsDistance | strategy/scanner.py:438-460 | The distance is that from the target on either side, and reach is within the tolerance of it |
| Scanner.NearestExactly | strategy/scanner.py:438-460 | An entry is the match if and only if it is such, and there is only one |
| Scanner.RankedIsStableSort | strategy/scanner.py:486-498 | In-cap before above-cap, scores descending in each tier, same candidates, ties in discovery order |
| Scanner.StableSortIsUnique | strategy/scanner.py:498 | These conditions leave only one result |
| Scanner.CandidatesAreSound | strategy/scanner.py:172-335 | Every result: near DTE positive and below far DTE, debit positive and far ask less near bid, score times debit the EV net of fees, POP in [0, 1], both sides quoted on both legs, open interest met, legs listed in the chain under its strike and type; an entry result meets tenor, moneyness, contango and POP; a roll result keeps the position's far leg, asset, strike and type; both legs lie within tolerance of a pair of targets |
| Scanner.EvaluatedIsFiltered | strategy/scanner.py:172-335 | A pair is accepted if and only if it passes every filter that applies, written out, and then carries the contango, debit, POP and fee-net score of its own legs |
| Scanner.RollRelaxes | strategy/scanner.py:387-480 | An entry candidate with the position's asset, strike, type and far leg is in the roll scan if and only if its contango is not below the roll's -1e9 sentinel |
| Scanner.AssetHitsExactly | strategy/scanner.py:403-472 | What the asset, group and target loops collect, as an if and only if |
| Scanner.ScanAsset | strategy/scanner.py:422-472 | The group loop against its specification |
| Scanner.ScanGroup | strategy/scanner.py:436-472 | The near-target loop against its specification |
| Scanner.ScanFar | strategy/scanner.py:446-472 | The far-target loop against its specification |
| Tracker.Reconciler.Reconcile | portfolio/tracker.py:912-1030 | One cycle alerts exactly when the history says so: an actionable mismatch, delivered, the run long enough and not yet escalated; counters are those of the history |
| Tracker.VerdictsExactly | portfolio/tracker.py:919-945 | The verdicts without the division: no margin at all, apart by at most a tenth of the larger, collateral only, and a mismatch in every other case |
| Tracker.CentsAreNearest | portfolio/tracker.py:990 | The fingerprint's margin is the nearest hundredth, a half going to the even one |
| Tracker.RunReachesBack | portfolio/tracker.py:986-1018 | The run a history ends in reaches back to the last cycle that ends one; its length is the mismatches since, and it is escalated exactly when an alert was sent since |
| Tracker.SendsExactly | portfolio/tracker.py:981-1018 | A cycle alerts if and only if it is a mismatch, a notifier is there and delivers, the run is long enough, and none was sent since the run began |
| Tracker.AlertsAtTheNthCycle | portfolio/tracker.py:981-1018 | With a working notifier the alert comes at the N-th mismatch of a run with one fingerprint and at no other |
| Tracker.NoSecondAlertInARun | portfolio/tracker.py:981-1018 | Whatever the notifier does, two alerts with one fingerprint are separated by a cycle that ended the run |
| Tracker.DriftLeavesAlerts | portfolio/tracker.py:971-981 | Histories alike in instruments, table margin and verdicts alert in the same cycles however the exchange's margin drifts |
| Tracker.DriftLeavesRuns | portfolio/tracker.py:971-981 | And their runs are the same |
| Tracker.EscalatedOnceLongEnough | portfolio/tracker.py:981-1018 | With a working notifier a run is escalated exactly once it is long enough |
| Tracker.Aggregate | portfolio/tracker.py:335-420 | Equity and floating P&L are summed; margin, maintenance and available funds are the largest single figure on a cross-collateral account counted once, otherwise summed; cash never negative |
| Tracker.FiguresInUsd | portfolio/tracker.py:335-413 | Each figure is the currency's own, at its own spot |
| Tracker.LargestIsGreatest | portfolio/tracker.py:401-413 | The largest of the figures is one of them and none is larger |
| Tracker.RepeatedFigure | portfolio/tracker.py:393-413 | One account-wide figure repeated by n currencies: counted once it is that figure, added up it is n times it |
| JsonRpc.OrderClient.SendRequest | execution/executor.py:182-190 | Each request gets the next id, never used before, and waits |
| JsonRpc.OrderClient.Pump | execution/executor.py:163-180 | A reply completes exactly the open future of its id and nothing else |
| JsonRpc.OrderClient.TimeOut | execution/executor.py:190 | A timeout completes an open future and leaves the table entry |
| JsonRpc.FeedClient.SendRequest | data/deribit_feed.py:428-445 | Each request gets the next id, never used before, and waits |
| JsonRpc.FeedClient.HandleMessage | data/deribit_feed.py:349-365 | A reply completes exactly the open future of its id and nothing else |
| JsonRpc.FeedClient.GiveUp | data/deribit_feed.py:447-450 | The caller that timed out removes exactly its own entry |
| JsonRpc.ClientsAgree | data/deribit_feed.py:447-450 | On the same events both clients answer every caller alike; their tables differ exactly in the reaped requests without a reply |
| JsonRpc.CompletedForGood | execution/executor.py:171 | A completed future never changes, whatever follows |
| JsonRpc.AnsweredByItsOwnReply | execution/executor.py:168-178 | A request is answered with r if and only if a reply bearing its id and carrying r comes while it waits |
| JsonRpc.ReachedOnce | data/deribit_feed.py:357-363 | At most one event ever reaches a request |
| JsonRpc.RepliesMayCross | data/deribit_feed.py:357-363 | Replies to different requests may arrive in either order |
| JsonRpc.LateReplyIsNothing | execution/executor.py:170-171 | Late, duplicate and unsolicited replies change nothing for anyone |
| Backtest.FromRecords | backtest/loader.py:44-82 | Frames are non-empty, one moment each, moments strictly ascending; concatenated they are the stable sort by time of exactly the well-formed rows; every other row is counted as skipped |
| Backtest.GroupRows | backtest/loader.py:54-75 | Each bucket is exactly the well-formed rows of its moment in file order, and the rest are counted as skipped |
| Backtest.WellFormedOneByOne | backtest/loader.py:54-75 | The well-formed rows are the rows that parse, each in its place |
| Backtest.FramesAreRight | backtest/loader.py:77 | Buckets in ascending order of moment form such frames |
| Backtest.StableSortIsUnique | backtest/loader.py:77 | Time order and file order within a moment leave only one result |
| Backtest.Cumulative | backtest/engine.py:304-308 | The k-th point is the total of the first k + 1 trades |
| Backtest.MaxDrawdown | backtest/engine.py:311-323 | One pass finds the largest fall from any point to any later one |
| Backtest.DrawdownIsWorstBlock | backtest/engine.py:304-323 | It is the largest loss over a contiguous block of trades after the first, or zero |
| Backtest.OpeningLossIsMissed | backtest/engine.py:311-323 | Measured from the opening balance the drawdown is the same if and only if every loss of a run of trades from the first is matched by some trades in a row after the first that lose at least as much |
| Backtest.LosingFirstTrade | backtest/engine.py:311-323 | One losing first trade: no drawdown on the curve, its whole loss from the opening balance |
| Feed.DeribitFeed.SubscribeAll | data/deribit_feed.py:247-270 | On every connect exactly the day-window lists and then the uncovered open-position legs in alphabetical order are subscribed, so that every open-position leg is covered; chunks within the limit |
| Feed.ListedExactly | data/deribit_feed.py:259-263 | What is listed is exactly what the lists of the feed's assets name |
| Feed.DeribitFeed.OpenPositionExtras | data/deribit_feed.py:272-294 | Exactly the non-empty provided names no list covers, each once and in alphabetical order; a missing or failing provider gives none |
| Feed.DeribitFeed.SubscribeTickers | data/deribit_feed.py:340-347 | The calls made are the chunks of the names in order |
| Feed.ChunksConserve | data/deribit_feed.py:344-347 | Chunks concatenate to the names, none empty, none over 500 |

## Left out

- HTTP, WebSocket, Telegram, SMTP, argument parsing, logging and the SQL engine: I/O. The table of rows and the exchange are kept as state.
- Black-Scholes, break-evens, POP and EV: the scanner takes an uninterpreted pricing function, the monitor a status and a spread value.
- `check_calendar_status`, IV and quote lookup in the monitor: one tick's answers are parameters, a missing spot or IV included.
- The margin gate and the portfolio refresh: their verdicts are parameters of a tick; the fee computation is taken not to fail.
- The sizer beyond its position limit: the quantity is a parameter.
- How limit prices are worked out from quotes, and the prices of crossed flatten and unwind orders; the split of a combo's net fill into leg prices.
- `CalendarExecutor`'s synchronous wrappers, which turn slippage and minimum-amount errors into None or False.
- The engine's status messages, unrealised P&L, session P&L, fee counters, uptime and entry, close and roll notifications.
- Database errors inside a tick: every write is taken to succeed.
- The re-entry cooldown and the recorded close prices.
- Threads and the tick lock: ticks are serialised.
- How the SQL engine orders rows opened on the same date: a listing is any order by date.
- Upper-casing of asset names, and asset-name parsing beyond the text before the first dash.
- `find_stuck`, `summary` and order ages in the order registry.
- Reconnects, the watchdog and ticker parsing in the feed; JSON-RPC ids that are not integers; sends that fail.
- NaN timestamps, Sharpe ratio and the replay loop of the backtest.
- Registry.OrderManager.Update: does not capture that a tracked order handed out earlier is the same object and sees the change, because tracked orders are values here.
- Executor.Executor.RollNearLeg: takes the new near leg to differ from the old one, because the engine skips the held near leg before calling it (`strategy/decision.py:1295-1298`).
- Executor.Executor.CloseSpread: takes the quantity to be positive, because a row's quantity is one that filled.
- EngineHoldings.AccountIsTheTable: the engine's quantities count instrument steps there, as order amounts do, because step sizes differ by instrument; what operators trade by hand on the exchange is not among the account's orders.
- EngineHoldings.AgreesAllAlongIffClean: is stated for runs in which no crossed reversal is refused, because what such an exit leaves depends on which of its reversals had gone through.
- SpreadLife.ClosedSpreadLeavesNothing: takes the new near leg of a roll to differ from the far leg, because roll candidates expire before it.
