/**
 The decision engine as a state machine: what each tick, operator command and
 restart does to the engine's memory, to the table of trades and to the history
 of everything the engine has done.  Quotes, fees and the executor's answers are
 chosen by the environment.
 */
module EngineSpec {
  import opened Histories
  import opened Options
  import opened TradeStore

  datatype BotState = Idle | Scanning | Ranking | Entering | Monitoring | Halted

  datatype Config = Config(
    retryCap: nat, confirmTicks: int, rollTriggerDays: int, maxPositions: nat, minEv: real, lossLimit: real,
    minRollGap: int, drain: bool, drainAndNew: bool, hasNotifier: bool, gate: GateConfig)

  // ---- The liquidity gate -------------------------------------------------

  datatype GateConfig = GateConfig(
    maxLegSpreadPct: real, maxEntryPremium: real, spreadAbsUsd: real, spreadAbsTicks: real,
    minBidSize: real, minAskSize: real, sizeForQty: bool, sizeData: bool)

  // Quoted sizes are None when the cache holds no snapshot of the leg.
  datatype Quotes = Quotes(
    nearBid: real, nearAsk: real, farBid: real, farAsk: real, netDebit: real, tickUsd: real,
    nearSizes: Option<(real, real)>, farSizes: Option<(real, real)>)

  function Mid(bid: real, ask: real): real {
    if bid > 0.0 && ask > 0.0 then (bid + ask) / 2.0 else 0.0
  }

  predicate TooWide(g: GateConfig, bid: real, ask: real, tickUsd: real) {
    var mid := Mid(bid, ask);
    var width := ask - bid;
    && mid > 0.0 && width / mid > g.maxLegSpreadPct
    && !(g.spreadAbsUsd > 0.0 && width <= g.spreadAbsUsd)
    && !(g.spreadAbsTicks > 0.0 && tickUsd > 0.0 && width <= g.spreadAbsTicks * tickUsd)
  }

  predicate Overpriced(g: GateConfig, q: Quotes) {
    var mid := Mid(q.farBid, q.farAsk) - Mid(q.nearBid, q.nearAsk);
    mid > 0.0 && (q.netDebit - mid) / mid > g.maxEntryPremium
  }

  predicate TooThin(g: GateConfig, size: Option<real>, floor: real, needed: real) {
    && size.Some?
    && if size.value <= 0.0 then g.sizeData else size.value < (if needed > floor then needed else floor)
  }

  function BidOf(sizes: Option<(real, real)>): Option<real> {
    if sizes.Some? then Some(sizes.value.0) else None
  }

  function AskOf(sizes: Option<(real, real)>): Option<real> {
    if sizes.Some? then Some(sizes.value.1) else None
  }

  predicate PassesLiquidityGate(g: GateConfig, q: Quotes, orderQty: real, isRoll: bool) {
    var qty := if g.sizeForQty then orderQty else 0.0;
    && !TooWide(g, q.nearBid, q.nearAsk, q.tickUsd)
    && !TooWide(g, q.farBid, q.farAsk, q.tickUsd)
    && !Overpriced(g, q)
    && !TooThin(g, BidOf(q.nearSizes), g.minBidSize, qty)
    && !TooThin(g, AskOf(q.nearSizes), g.minAskSize, 0.0)
    && !TooThin(g, BidOf(q.farSizes), g.minBidSize, 0.0)
    && !TooThin(g, AskOf(q.farSizes), g.minAskSize, if isRoll then 0.0 else qty)
  }

  // ---- Rolls --------------------------------------------------------------

  type Fee = x: real | x >= 0.0 witness 0.0

  // A near leg the roll scan found, its book, the days between it and the far leg
  // when both expiries can be read, the margin gate's verdict and what rolling to
  // it would cost.
  datatype RollCandidate = RollCandidate(near: string, quotes: Quotes, gapDays: Option<int>, marginOk: bool, cost: Fee)

  predicate Rollable(cfg: Config, held: Option<string>, qty: real, c: RollCandidate) {
    && Some(c.near) != held
    && (c.gapDays.Some? ==> c.gapDays.value >= cfg.minRollGap)
    && PassesLiquidityGate(cfg.gate, c.quotes, qty, true)
    && c.marginOk
  }

  // The first candidate that passes every gate.
  function FirstRollable(cfg: Config, held: Option<string>, qty: real, cs: seq<RollCandidate>): Option<RollCandidate> {
    if cs == [] then None
    else if Rollable(cfg, held, qty, cs[0]) then Some(cs[0])
    else FirstRollable(cfg, held, qty, cs[1..])
  }

  // The premium a roll collects has to exceed what it costs.
  predicate PaysOff(c: RollCandidate, qty: real) {
    c.quotes.nearBid * qty > c.cost
  }

  // ---- State --------------------------------------------------------------

  datatype Memory = Memory(
    state: BotState, paused: bool, todayPnl: real,
    failures: map<nat, nat>, pending: map<nat, nat>,
    justEntered: set<nat>, rolled: set<nat>, notified: set<nat>)

  const Fresh := Memory(Idle, false, 0.0, map[], map[], {}, {}, {})

  datatype Cause = NearExpired | StopLoss | TakeProfit | RollCap | DrainClose

  // What a trade holds.
  datatype Position = Position(near: Option<string>, far: Option<string>, qty: real)

  function PositionOf(r: Row): Position {
    Position(r.near, r.far, r.qty)
  }

  // What a close was for, what it cost, and what was made of it.
  datatype Closing = Closing(value: real, closeFees: real, pnl: real, result: Label)

  // Everything the engine does that can be seen from outside, what operators do
  // to its trades, and the table writes that carry money or positions.
  datatype Action =
    | Evaluated(id: nat, signal: bool, spread: real)
    | CloseCall(id: nat, held: Position, cause: Cause, credit: Option<real>)
    | RollCall(id: nat, held: Position, to: RollCandidate, done: bool)
    | NoRoll(id: nat)
    | EnterCall(candidate: Candidate)
    | Marked(id: nat)
    | StuckAlert(id: nat)
    | HaltAlert
    | WroteOpen(id: nat, held: Position)
    | WroteClose(id: nat, held: Position, closing: Closing)
    | WroteRoll(id: nat, held: Position, newNear: string, rollPnl: real)
    | WasReset(id: nat)
    | ClosedByHand(id: nat, was: Option<Position>)
    | WasReconciled(id: nat, was: Option<Position>)
    | Restarted

  predicate CallsExecutor(a: Action) {
    a.CloseCall? || a.RollCall? || a.EnterCall?
  }

  datatype World = World(mem: Memory, rows: seq<Row>, log: History<Action>)

  function Note(w: World, a: Action): World {
    w.(log := Then(w.log, a))
  }

  // ---- The engine as it concerns one trade --------------------------------

  function Entry(m: map<nat, nat>, id: nat): Option<nat> {
    if id in m then Some(m[id]) else None
  }

  function SetEntry(m: map<nat, nat>, id: nat, n: Option<nat>): map<nat, nat> {
    if Entry(m, id) == n then m else if n.Some? then m[id := n.value] else m - {id}
  }

  function SetMember(s: set<nat>, id: nat, member: bool): set<nat> {
    if (id in s) == member then s else if member then s + {id} else s - {id}
  }

  // One trade's row, counters and flags, with the day's P&L and the history.
  datatype View = View(
    id: nat, row: Row, failures: Option<nat>, pending: Option<nat>,
    entered: bool, rolled: bool, notified: bool, day: real, log: History<Action>)

  function ViewOf(w: World, id: nat): View
    requires id < |w.rows|
  {
    View(id, w.rows[id], Entry(w.mem.failures, id), Entry(w.mem.pending, id),
         id in w.mem.justEntered, id in w.mem.rolled, id in w.mem.notified, w.mem.todayPnl, w.log)
  }

  function PutView(w: World, v: View): (r: World)
    requires v.id < |w.rows|
    ensures |r.rows| == |w.rows|
  {
    World(
      w.mem.(failures := SetEntry(w.mem.failures, v.id, v.failures),
             pending := SetEntry(w.mem.pending, v.id, v.pending),
             justEntered := SetMember(w.mem.justEntered, v.id, v.entered),
             rolled := SetMember(w.mem.rolled, v.id, v.rolled),
             notified := SetMember(w.mem.notified, v.id, v.notified), todayPnl := v.day),
      w.rows[v.id := v.row], v.log)
  }

  function Count(n: Option<nat>): nat {
    if n.Some? then n.value else 0
  }

  function Say(v: View, a: Action): (r: View)
    ensures r.id == v.id
  {
    v.(log := Then(v.log, a))
  }

  // ---- Monitoring one position --------------------------------------------

  datatype Signal = Stop | Profit | Hold

  // One tick's environment for one position: the market, what the executor
  // would answer, and whether an alert would get through.
  datatype Tick = Tick(
    spotKnown: bool, nearDaysLeft: int, ivKnown: bool, signal: Signal, spread: real,
    credit: Option<real>, closeFees: real, rolls: seq<RollCandidate>, rollDone: bool, alertSent: bool)

  function Gross(r: Row, value: real): real {
    value - r.netDebit * r.qty
  }

  function NetPnl(r: Row, value: real, closeFees: real): real {
    Gross(r, value) + r.rollPnl - r.openFees - closeFees
  }

  function ResultOf(cause: Cause, pnl: real): Label {
    match cause
    case DrainClose => ClosedDrain
    case RollCap => ClosedRollFailed
    case TakeProfit => WinAutoTp
    case StopLoss => LossAutoStop
    case NearExpired => if pnl >= 0.0 then WinAutoTp else LossAutoStop
  }

  // The position was closed for `value`.
  function RecordClose(v: View, cause: Cause, value: real, closeFees: real): (r: View)
    ensures r.id == v.id
  {
    var pnl := NetPnl(v.row, value, closeFees);
    var result := ResultOf(cause, pnl);
    Say(v, WroteClose(v.id, PositionOf(v.row), Closing(value, closeFees, pnl, result))).(
      row := ClosedRow(v.row, pnl, result, closeFees), day := v.day + pnl, failures := None, pending := None)
  }

  // Reports whether the close failed.
  function ClosePosition(v: View, cause: Cause, spread: Option<real>, t: Tick): (r: (View, bool))
    ensures r.0.id == v.id
  {
    var called := Say(v, CloseCall(v.id, PositionOf(v.row), cause, t.credit));
    if t.credit.None? then (called, true)
    else (RecordClose(called, cause, if spread.Some? then spread.value else t.credit.value, t.closeFees), false)
  }

  function MarkStuckAndNotify(cfg: Config, v: View, t: Tick): (r: View)
    ensures r.id == v.id
  {
    var marked := Say(v, Marked(v.id)).(row := StuckRow(v.row), failures := None);
    if !v.notified && !Stuck(v.row) && cfg.hasNotifier && t.alertSent then
      Say(marked, StuckAlert(v.id)).(notified := true)
    else marked
  }

  // The position dict the engine rolls carries no entry premium, so the price
  // the old near leg was sold at counts as zero.
  function RollPnl(r: Row, newBid: real): real {
    (0.0 - newBid) * r.qty
  }

  function RecordRoll(v: View, newNear: string, pnl: real): (r: View)
    ensures r.id == v.id
  {
    Say(v, WroteRoll(v.id, PositionOf(v.row), newNear, pnl)).(
      row := RolledRow(v.row, newNear, pnl), day := v.day + pnl, rolled := true)
  }

  // The near leg to roll to, if there is one worth rolling to.
  function RollTarget(cfg: Config, r: Row, t: Tick): Option<RollCandidate> {
    var c := FirstRollable(cfg, r.near, r.qty, t.rolls);
    if c.Some? && PaysOff(c.value, r.qty) then c else None
  }

  // Reports whether the roll was done.
  function TryRoll(cfg: Config, v: View, t: Tick): (r: (View, bool))
    ensures r.0.id == v.id
  {
    var target := RollTarget(cfg, v.row, t);
    if target.None? then (Say(v, NoRoll(v.id)), false)
    else
      var c := target.value;
      var called := Say(v, RollCall(v.id, PositionOf(v.row), c, t.rollDone));
      if !t.rollDone then (called, false)
      else (RecordRoll(called, c.near, RollPnl(v.row, c.quotes.nearBid)), true)
  }

  // A close whose failure counts towards the retry cap.
  function CloseOrCount(v: View, cause: Cause, spread: Option<real>, t: Tick): (r: View)
    ensures r.id == v.id
  {
    var (closed, failed) := ClosePosition(v, cause, spread, t);
    closed.(failures := if failed then Some(Count(v.failures) + 1) else None)
  }

  function OnExpiry(cfg: Config, v: View, t: Tick): (r: View)
    ensures r.id == v.id
  {
    if Count(v.failures) >= cfg.retryCap then MarkStuckAndNotify(cfg, v, t)
    else CloseOrCount(v, NearExpired, None, t)
  }

  function OnSignal(cfg: Config, v: View, t: Tick): (r: View)
    ensures r.id == v.id
  {
    var seen := Count(v.pending) + 1;
    if seen < cfg.confirmTicks then v.(pending := Some(seen))
    else
      var confirmed := v.(pending := None);
      if Count(v.failures) >= cfg.retryCap then MarkStuckAndNotify(cfg, confirmed, t)
      else CloseOrCount(confirmed, if t.signal.Stop? then StopLoss else TakeProfit, Some(t.spread), t)
  }

  predicate RollDue(cfg: Config, r: Row, nearDaysLeft: int) {
    var atEntry := if r.nearDays == 0 then nearDaysLeft else r.nearDays;
    nearDaysLeft <= cfg.rollTriggerDays && nearDaysLeft < atEntry
  }

  function OnRollDue(cfg: Config, v: View, t: Tick): (r: View)
    ensures r.id == v.id
  {
    if cfg.drain || cfg.drainAndNew then ClosePosition(v, DrainClose, Some(t.spread), t).0
    else if Count(v.failures) >= cfg.retryCap then
      var (closed, failed) := ClosePosition(v, RollCap, Some(t.spread), t);
      if failed then MarkStuckAndNotify(cfg, closed, t) else closed
    else
      var (tried, done) := TryRoll(cfg, v, t);
      tried.(failures := if done then None else Some(Count(v.failures) + 1))
  }

  // The position's value is known: look for a signal, then for a due roll.
  function OnQuote(cfg: Config, v: View, t: Tick): (r: View)
    ensures r.id == v.id
  {
    var seen := Say(v, Evaluated(v.id, !t.signal.Hold?, t.spread)).(row := v.row.(lastSpread := t.spread));
    if !t.signal.Hold? then OnSignal(cfg, seen, t)
    else
      var held := seen.(pending := None);
      if RollDue(cfg, v.row, t.nearDaysLeft) then OnRollDue(cfg, held, t) else held
  }

  function Monitor(cfg: Config, v: View, t: Tick): (r: View)
    ensures r.id == v.id
  {
    if v.entered || v.rolled || !t.spotKnown then v
    else if t.nearDaysLeft <= 0 then OnExpiry(cfg, v, t)
    else if !t.ivKnown then v
    else OnQuote(cfg, v, t)
  }

  function MonitorPosition(cfg: Config, w: World, id: nat, t: Tick): (r: World)
    requires id < |w.rows|
    ensures |r.rows| == |w.rows|
  {
    PutView(w, Monitor(cfg, ViewOf(w, id), t))
  }

  function MonitorAll(cfg: Config, w: World, ids: seq<nat>, env: nat -> Tick): (r: World)
    requires forall id :: id in ids ==> id < |w.rows|
    ensures |r.rows| == |w.rows|
  {
    if ids == [] then w
    else
      var init, last := ids[..|ids| - 1], ids[|ids| - 1];
      assert last in ids && forall id :: id in init ==> id in ids;
      MonitorPosition(cfg, MonitorAll(cfg, w, init, env), last, env(last))
  }

  // ---- Ticks --------------------------------------------------------------

  predicate Breached(cfg: Config, w: World) {
    w.mem.todayPnl <= -(if cfg.lossLimit < 0.0 then -cfg.lossLimit else cfg.lossLimit)
  }

  function Halt(cfg: Config, w: World): World {
    var halted := w.(mem := w.mem.(state := Halted));
    if cfg.hasNotifier then Note(halted, HaltAlert) else halted
  }

  function MonitoredIds(rows: seq<Row>): set<nat> {
    set id | 0 <= id < |rows| && Monitored(rows[id])
  }

  function Restrict(m: map<nat, nat>, ids: set<nat>): map<nat, nat> {
    map id | id in m && id in ids :: m[id]
  }

  function Settle(w: World): World {
    var ids := MonitoredIds(w.rows);
    w.(mem := w.mem.(
       justEntered := {}, rolled := {},
       failures := Restrict(w.mem.failures, ids), pending := Restrict(w.mem.pending, ids),
       state := if ids == {} then Idle else Monitoring))
  }

  // order lists the monitored rows, in the order they are visited.
  function MonitorTick(cfg: Config, w: World, order: seq<nat>, env: nat -> Tick): World
    requires Lists(order, w.rows)
  {
    if w.mem.paused || w.mem.state.Halted? then w
    else if Breached(cfg, w) then Halt(cfg, w)
    else if order == [] then
      w.(mem := w.mem.(state := Idle, justEntered := {}, rolled := {}, failures := map[], pending := map[]))
    else Settle(MonitorAll(cfg, w.(mem := w.mem.(state := Monitoring)), order, env))
  }

  datatype EnterAnswer = Fill(row: Row) | Rejected | LegRiskRaised

  // A ranked candidate: its score, its legs, the quantity the sizer would give it
  // were the position limit not reached, the book, the margin gate's verdict and
  // what the executor would answer.
  datatype Candidate = Candidate(
    ev: real, near: string, far: string, qty: real, quotes: Quotes, marginOk: bool, answer: EnterAnswer)

  // With `open` positions known to the scan, the first thing the sizer checks.
  predicate Approved(cfg: Config, c: Candidate, open: nat) {
    && c.ev >= cfg.minEv && open < cfg.maxPositions && c.qty > 0.0
    && PassesLiquidityGate(cfg.gate, c.quotes, c.qty, false) && c.marginOk
  }

  // The row a fill becomes.
  function EnteredRow(c: Candidate, filled: Row): Row {
    filled.(near := Some(c.near), far := Some(c.far), result := Open, status := StatusOpen, rollPnl := 0.0, pnl := None)
  }

  function Enter(w: World, c: Candidate): World {
    var called := Note(w.(mem := w.mem.(state := Entering)), EnterCall(c));
    match c.answer
    case Fill(row) =>
      var id, entry := |w.rows|, EnteredRow(c, row);
      var written := Note(called.(rows := called.rows + [entry]), WroteOpen(id, PositionOf(entry)));
      written.(mem := written.mem.(justEntered := written.mem.justEntered + {id}))
    case _ => called
  }

  function Rest(w: World, open: nat): World {
    w.(mem := w.mem.(state := if open == 0 then Idle else Monitoring))
  }

  // `open` counts the positions known to the scan.
  function ScanLoop(cfg: Config, w: World, cs: seq<Candidate>, open: nat): World
    decreases |cs|
  {
    if cs == [] then Rest(w, open)
    else if !Approved(cfg, cs[0], open) then ScanLoop(cfg, w, cs[1..], open)
    else
      var entered := Enter(w, cs[0]);
      var open' := if cs[0].answer.Fill? then open + 1 else open;
      if cs[0].answer.LegRiskRaised? then entered
      else if Breached(cfg, entered) then Halt(cfg, entered)
      else if open' >= cfg.maxPositions then Rest(entered, open')
      else ScanLoop(cfg, entered, cs[1..], open')
  }

  function ScanTick(cfg: Config, w: World, order: seq<nat>, cs: seq<Candidate>, fundsKnownEmpty: bool): World
    requires Lists(order, w.rows)
  {
    if w.mem.paused || w.mem.state.Halted? then w
    else if Breached(cfg, w) then Halt(cfg, w)
    else if fundsKnownEmpty then w.(mem := w.mem.(state := Idle))
    else if cfg.drain && !cfg.drainAndNew then Rest(w, |order|)
    else if cs == [] then w.(mem := w.mem.(state := Idle))
    else ScanLoop(cfg, w.(mem := w.mem.(state := Ranking)), cs, |order|)
  }

  // ---- Runs ---------------------------------------------------------------

  datatype Event =
    | MonitorEvent(order: seq<nat>, env: nat -> Tick)
    | ScanEvent(order: seq<nat>, candidates: seq<Candidate>, fundsKnownEmpty: bool)
    | Pause
    | Resume
    | Restart
    | OperatorRetry(id: nat)
    | OperatorClose(id: nat, spread: real)
    | Reconcile(id: nat)

  // Ticks visit the monitored rows and the reconciler goes through the stuck
  // ones; operators may name any trade, known or not.
  ghost predicate Enabled(w: World, e: Event) {
    match e
    case MonitorEvent(order, _) => Lists(order, w.rows)
    case ScanEvent(order, _, _) => Lists(order, w.rows)
    case Reconcile(id) => id < |w.rows| && Stuck(w.rows[id])
    case _ => true
  }

  ghost function Step(cfg: Config, w: World, e: Event): World
    requires Enabled(w, e)
  {
    match e
    case MonitorEvent(order, env) => MonitorTick(cfg, w, order, env)
    case ScanEvent(order, cs, fundsKnownEmpty) => ScanTick(cfg, w, order, cs, fundsKnownEmpty)
    case Pause => w.(mem := w.mem.(paused := true))
    case Resume => w.(mem := w.mem.(paused := false))
    case Restart => Note(w.(mem := Fresh), Restarted)
    case OperatorRetry(id) => Retry(w, id)
    case OperatorClose(id, spread) => CloseByHand(w, id, spread)
    case Reconcile(id) => PutView(w, Reconciled(ViewOf(w, id)))
  }

  // What of a trade is open, if anything.
  function OpenPosition(r: Row): Option<Position> {
    if r.result.IsOpen() then Some(PositionOf(r)) else None
  }

  function Retried(v: View): (r: View)
    ensures r.id == v.id
  {
    Say(v, WasReset(v.id)).(row := ResetRow(v.row), notified := false, failures := None)
  }

  // An unknown trade has no row to reset; its flag and counter go all the same.
  function Retry(w: World, id: nat): World {
    if id < |w.rows| then PutView(w, Retried(ViewOf(w, id)))
    else w.(mem := w.mem.(notified := w.mem.notified - {id}, failures := w.mem.failures - {id}))
  }

  const ByOperator := Titled("Manual")

  function HandClosed(v: View, spread: real): (r: View)
    ensures r.id == v.id
  {
    Say(v, ClosedByHand(v.id, OpenPosition(v.row))).(
      row := ManuallyClosedRow(v.row, spread, ByOperator), notified := false)
  }

  function CloseByHand(w: World, id: nat, spread: real): World {
    if id < |w.rows| then PutView(w, HandClosed(ViewOf(w, id), spread)) else w
  }

  function Reconciled(v: View): (r: View)
    ensures r.id == v.id
  {
    Say(v, WasReconciled(v.id, OpenPosition(v.row))).(row := ReconciledRow(v.row))
  }

  // es takes w to w'.
  ghost predicate Run(cfg: Config, w: World, es: seq<Event>, w': World)
    decreases |es|
  {
    if es == [] then w == w'
    else Enabled(w, es[0]) && Run(cfg, Step(cfg, w, es[0]), es[1..], w')
  }
}
