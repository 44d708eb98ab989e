/**
 What one monitor tick does to each trade, told from the trade's row, counters and
 own history before and after.
 */
module EngineProgress {
  import opened Histories
  import opened Options
  import opened TradeStore
  import opened EngineSpec
  import opened EngineViews
  import opened EngineLadder
  import opened EngineGate

  // A trade as it stands between ticks; one that is not monitored has no counters.
  datatype Trade = Trade(row: Row, own: History<Action>, failures: Option<nat>, pending: Option<nat>, notified: bool)

  function TradeIn(v: View): Trade {
    if Monitored(v.row) then Trade(v.row, Own(v), v.failures, v.pending, v.notified)
    else Trade(v.row, Own(v), None, None, v.notified)
  }

  function TradeOf(w: World, id: nat): Trade
    requires id < |w.rows|
  {
    TradeIn(ViewOf(w, id))
  }

  // Ticks do something: not paused, not halted, and the day's P&L above minus the
  // limit, which may be configured with either sign.
  predicate Awake(cfg: Config, w: World) {
    && !w.mem.paused && !w.mem.state.Halted?
    && (w.mem.todayPnl > cfg.lossLimit || w.mem.todayPnl > -cfg.lossLimit)
  }

  // The monitor looks at the trade: it was not entered or rolled just now, and its
  // spot price is known.
  predicate LookedAt(w: World, id: nat, t: Tick) {
    id !in w.mem.justEntered && id !in w.mem.rolled && t.spotKnown
  }

  // ---- What can become of a trade -----------------------------------------

  function HeldIn(r: Row): Position {
    Position(r.near, r.far, r.qty)
  }

  // The close is called and fails; so many failures are counted after it.
  predicate CloseFails(id: nat, a: Trade, b: Trade, cause: Cause, failures: Option<nat>) {
    b == a.(own := Then(a.own, CloseCall(id, HeldIn(a.row), cause, None)), failures := failures)
  }

  // A close at `value`: less the debit paid, plus all the rolls, minus both fees.
  function Earned(r: Row, value: real, closeFees: real): real {
    value - r.netDebit * r.qty + r.rollPnl - r.openFees - closeFees
  }

  // The close is called and goes through, and the row is booked for `value`.
  predicate Closes(id: nat, a: Trade, b: Trade, cause: Cause, value: real, title: Label, t: Tick) {
    var pnl := Earned(a.row, value, t.closeFees);
    var called := Then(a.own, CloseCall(id, HeldIn(a.row), cause, t.credit));
    && b.own == Then(called, WroteClose(id, HeldIn(a.row), Closing(value, t.closeFees, pnl, title)))
    && b.row == a.row.(dated := true, pnl := Some(pnl), result := title, closeFees := t.closeFees,
                       status := StatusClosed)
    && b.failures.None? && b.pending.None? && b.notified == a.notified
  }

  // The trade is given up: marked stuck, with an alert if one can and need be sent.
  predicate GivenUp(cfg: Config, id: nat, a: Trade, b: Trade, t: Tick) {
    var alerted := !a.notified && cfg.hasNotifier && t.alertSent;
    var marked := Then(a.own, Marked(id));
    && b.own == (if alerted then Then(marked, StuckAlert(id)) else marked)
    && b.row == a.row.(status := StatusStuck)
    && b.failures.None? && b.pending.None? && b.notified == (a.notified || alerted)
  }

  // The near expiry has come: one more try at closing, or the end of trying.
  predicate Expires(cfg: Config, id: nat, a: Trade, b: Trade, t: Tick) {
    if Count(a.failures) >= cfg.retryCap then GivenUp(cfg, id, a, b, t)
    else if t.credit.None? then CloseFails(id, a, b, NearExpired, Some(Count(a.failures) + 1))
    else
      var won := b.row.pnl.Some? && b.row.pnl.value >= 0.0;
      Closes(id, a, b, NearExpired, t.credit.value, if won then WinAutoTp else LossAutoStop, t)
  }

  // What a trade is once its spread has been evaluated.
  function Evaluation(id: nat, a: Trade, t: Tick): Trade {
    a.(own := Then(a.own, Evaluated(id, !t.signal.Hold?, t.spread)), row := a.row.(lastSpread := t.spread))
  }

  // A stop or take-profit was seen once more.
  predicate Signals(cfg: Config, id: nat, a: Trade, b: Trade, t: Tick) {
    var seen := Evaluation(id, a, t);
    var cause := if t.signal.Stop? then StopLoss else TakeProfit;
    var title := if t.signal.Stop? then LossAutoStop else WinAutoTp;
    if Count(a.pending) + 1 < cfg.confirmTicks then b == seen.(pending := Some(Count(a.pending) + 1))
    else if Count(a.failures) >= cfg.retryCap then GivenUp(cfg, id, seen, b, t)
    else if t.credit.None? then CloseFails(id, seen.(pending := None), b, cause, Some(Count(a.failures) + 1))
    else Closes(id, seen, b, cause, t.spread, title, t)
  }

  // A roll is due when the near leg is near enough its expiry and nearer than it
  // was on entry, if that is recorded.
  predicate DueToRoll(cfg: Config, r: Row, days: int) {
    days <= cfg.rollTriggerDays && r.nearDays != 0 && days < r.nearDays
  }

  // The first candidate that may be rolled to, if it is one that pays.
  predicate RollsTo(cfg: Config, r: Row, rolls: seq<RollCandidate>, k: nat) {
    && k < |rolls| && MayRollTo(cfg, r.near, r.qty, rolls[k])
    && (forall j :: 0 <= j < k ==> !MayRollTo(cfg, r.near, r.qty, rolls[j]))
    && rolls[k].quotes.nearBid * r.qty > rolls[k].cost
  }

  predicate NothingToRollTo(cfg: Config, r: Row, rolls: seq<RollCandidate>) {
    forall k: nat :: k < |rolls| ==> !RollsTo(cfg, r, rolls, k)
  }

  // The engine books a roll at minus the new premium it takes in.
  function BookedForRoll(r: Row, bid: real): real {
    -(bid * r.qty)
  }

  predicate Rolls(id: nat, a: Trade, b: Trade, to: RollCandidate, t: Tick) {
    var called := Then(a.own, RollCall(id, HeldIn(a.row), to, t.rollDone));
    var pnl := BookedForRoll(a.row, to.quotes.nearBid);
    if !t.rollDone then b == a.(own := called, failures := Some(Count(a.failures) + 1))
    else b == a.(own := Then(called, WroteRoll(id, HeldIn(a.row), to.near, pnl)), failures := None,
                 row := a.row.(near := Some(to.near), result := NearLegRolled, rollPnl := a.row.rollPnl + pnl))
  }

  ghost predicate RollTried(cfg: Config, id: nat, a: Trade, b: Trade, t: Tick) {
    || (NothingToRollTo(cfg, a.row, t.rolls)
        && b == a.(own := Then(a.own, NoRoll(id)), failures := Some(Count(a.failures) + 1)))
    || exists k: nat :: RollsTo(cfg, a.row, t.rolls, k) && Rolls(id, a, b, t.rolls[k], t)
  }

  // No signal was seen: the debounce starts afresh, and a due roll is tried, or in
  // drain mode or at the retry cap the position is closed instead.
  ghost predicate Holds(cfg: Config, id: nat, a: Trade, b: Trade, t: Tick) {
    var seen := Evaluation(id, a, t).(pending := None);
    if !DueToRoll(cfg, a.row, t.nearDaysLeft) then b == seen
    else if cfg.drain || cfg.drainAndNew then
      if t.credit.None? then CloseFails(id, seen, b, DrainClose, a.failures)
      else Closes(id, seen, b, DrainClose, t.spread, ClosedDrain, t)
    else if Count(a.failures) >= cfg.retryCap then
      if t.credit.None? then
        GivenUp(cfg, id, seen.(own := Then(seen.own, CloseCall(id, HeldIn(a.row), RollCap, None))), b, t)
      else Closes(id, seen, b, RollCap, t.spread, ClosedRollFailed, t)
    else RollTried(cfg, id, seen, b, t)
  }

  // ---- One trade ----------------------------------------------------------

  predicate Looking(v: View, t: Tick) {
    Monitored(v.row) && !v.entered && !v.rolled && t.spotKnown
  }

  lemma MarkGivesUp(cfg: Config, v: View, a: Trade, t: Tick)
    requires a.row == v.row && a.own == Own(v) && a.notified == v.notified && v.row.status != StatusStuck
    ensures GivenUp(cfg, v.id, a, TradeIn(MarkStuckAndNotify(cfg, v, t)), t)
  {
    var marked := Say(v, Marked(v.id));
    assert Own(marked) == Then(Own(v), Marked(v.id));
  }

  lemma NoTryFails(v: View, cause: Cause, spread: Option<real>, t: Tick)
    requires Monitored(v.row) && t.credit.None?
    ensures var a := TradeIn(v);
            && CloseFails(v.id, a, TradeIn(ClosePosition(v, cause, spread, t).0), cause, a.failures)
            && CloseFails(v.id, a, TradeIn(CloseOrCount(v, cause, spread, t)), cause, Some(Count(v.failures) + 1))
  {
    var u := ClosePosition(v, cause, spread, t).0;
    assert Own(u) == Then(Own(v), CloseCall(v.id, HeldIn(v.row), cause, None));
    assert Own(CloseOrCount(v, cause, spread, t)) == Own(u);
  }

  lemma NetSame(r: Row, value: real, fees: real)
    ensures NetPnl(r, value, fees) == Earned(r, value, fees)
  {
  }

  lemma BookedAs(v: View, cause: Cause, spread: Option<real>, t: Tick, title: Label)
    requires t.credit.Some? && var value := if spread.Some? then spread.value else t.credit.value;
               title == ResultOf(cause, NetPnl(v.row, value, t.closeFees)) && !title.IsOpen()
    ensures var value := if spread.Some? then spread.value else t.credit.value;
            && Closes(v.id, TradeIn(v), TradeIn(ClosePosition(v, cause, spread, t).0), cause, value, title, t)
            && Closes(v.id, TradeIn(v), TradeIn(CloseOrCount(v, cause, spread, t)), cause, value, title, t)
  {
    var value := if spread.Some? then spread.value else t.credit.value;
    var called := Say(v, CloseCall(v.id, HeldIn(v.row), cause, t.credit));
    var u := ClosePosition(v, cause, spread, t).0;
    NetSame(v.row, value, t.closeFees);
    assert Own(called) == Then(Own(v), called.log.last);
    assert Own(u) == Then(Own(called), u.log.last);
    assert Own(CloseOrCount(v, cause, spread, t)) == Own(u);
  }

  lemma ExpiryOf(cfg: Config, v: View, t: Tick)
    requires Looking(v, t) && t.nearDaysLeft <= 0
    ensures Expires(cfg, v.id, TradeIn(v), TradeIn(Monitor(cfg, v, t)), t)
  {
    if Count(v.failures) >= cfg.retryCap {
      MarkGivesUp(cfg, v, TradeIn(v), t);
    } else if t.credit.None? {
      NoTryFails(v, NearExpired, None, t);
    } else {
      BookedAs(v, NearExpired, None, t, ResultOf(NearExpired, NetPnl(v.row, t.credit.value, t.closeFees)));
    }
  }

  lemma SignalOf(cfg: Config, v: View, t: Tick)
    requires Looking(v, t) && t.nearDaysLeft > 0 && t.ivKnown && !t.signal.Hold?
    ensures Signals(cfg, v.id, TradeIn(v), TradeIn(Monitor(cfg, v, t)), t)
  {
    var e := Evaluated(v.id, true, t.spread);
    var seen := Say(v, e).(row := v.row.(lastSpread := t.spread));
    assert Own(seen) == Then(Own(v), e);
    var confirmed := seen.(pending := None);
    var cause := if t.signal.Stop? then StopLoss else TakeProfit;
    assert Own(confirmed) == Own(seen);
    assert TradeIn(seen) == Evaluation(v.id, TradeIn(v), t);
    assert TradeIn(confirmed) == TradeIn(seen).(pending := None);
    if Count(v.pending) + 1 < cfg.confirmTicks {
      assert Own(seen.(pending := Some(Count(v.pending) + 1))) == Own(seen);
    } else if Count(v.failures) >= cfg.retryCap {
      MarkGivesUp(cfg, confirmed, TradeIn(seen), t);
    } else if t.credit.None? {
      NoTryFails(confirmed, cause, Some(t.spread), t);
    } else {
      BookedAs(confirmed, cause, Some(t.spread), t, if t.signal.Stop? then LossAutoStop else WinAutoTp);
    }
  }

  lemma NothingFound(cfg: Config, r: Row, t: Tick)
    requires RollTarget(cfg, r, t).None?
    ensures NothingToRollTo(cfg, r, t.rolls)
  {
    var k := FirstRollableIsFirst(cfg, r.near, r.qty, t.rolls);
    forall j | 0 <= j < |t.rolls|
      ensures Rollable(cfg, r.near, r.qty, t.rolls[j]) <==> MayRollTo(cfg, r.near, r.qty, t.rolls[j])
    {
      RollableExactly(cfg, r.near, r.qty, t.rolls[j]);
    }
    forall j: nat | j < |t.rolls| ensures !RollsTo(cfg, r, t.rolls, j) {
      if j > k { assert MayRollTo(cfg, r.near, r.qty, t.rolls[k]); }
    }
  }

  lemma CandidateFound(cfg: Config, r: Row, t: Tick) returns (k: nat)
    requires RollTarget(cfg, r, t).Some?
    ensures RollsTo(cfg, r, t.rolls, k) && t.rolls[k] == RollTarget(cfg, r, t).value
  {
    k := FirstRollableIsFirst(cfg, r.near, r.qty, t.rolls);
    forall j | 0 <= j < |t.rolls|
      ensures Rollable(cfg, r.near, r.qty, t.rolls[j]) <==> MayRollTo(cfg, r.near, r.qty, t.rolls[j])
    {
      RollableExactly(cfg, r.near, r.qty, t.rolls[j]);
    }
  }

  lemma RollCalled(cfg: Config, v: View, t: Tick, c: RollCandidate)
    requires Monitored(v.row) && RollTarget(cfg, v.row, t) == Some(c)
    ensures var u := TryRoll(cfg, v, t);
            var b := TradeIn(u.0.(failures := if u.1 then None else Some(Count(v.failures) + 1)));
            Rolls(v.id, TradeIn(v), b, c, t)
  {
    var u := TryRoll(cfg, v, t);
    var called := Say(v, RollCall(v.id, HeldIn(v.row), c, t.rollDone));
    assert Own(called) == Then(Own(v), called.log.last);
    RollPays(v.row, c.quotes.nearBid);
    if t.rollDone { assert Own(u.0) == Then(Own(called), u.0.log.last); }
    assert Own(u.0.(failures := if u.1 then None else Some(Count(v.failures) + 1))) == Own(u.0);
  }

  lemma TriedRoll(cfg: Config, v: View, t: Tick)
    requires Monitored(v.row)
    ensures var u := TryRoll(cfg, v, t);
            var b := TradeIn(u.0.(failures := if u.1 then None else Some(Count(v.failures) + 1)));
            RollTried(cfg, v.id, TradeIn(v), b, t)
  {
    var target := RollTarget(cfg, v.row, t);
    if target.None? {
      NothingFound(cfg, v.row, t);
      var r := Say(v, NoRoll(v.id)).(failures := Some(Count(v.failures) + 1));
      assert Own(r) == Then(Own(v), NoRoll(v.id));
    } else {
      var k := CandidateFound(cfg, v.row, t);
      RollCalled(cfg, v, t, target.value);
    }
  }

  lemma RollPays(r: Row, bid: real)
    ensures RollPnl(r, bid) == BookedForRoll(r, bid)
  {
  }

  lemma HoldOf(cfg: Config, v: View, t: Tick)
    requires Looking(v, t) && t.nearDaysLeft > 0 && t.ivKnown && t.signal.Hold?
    ensures Holds(cfg, v.id, TradeIn(v), TradeIn(Monitor(cfg, v, t)), t)
  {
    var e := Evaluated(v.id, false, t.spread);
    var held := Say(v, e).(row := v.row.(lastSpread := t.spread), pending := None);
    assert Own(held) == Then(Own(v), e);
    assert TradeIn(held) == Evaluation(v.id, TradeIn(v), t).(pending := None);
    if !DueToRoll(cfg, v.row, t.nearDaysLeft) {
    } else if cfg.drain || cfg.drainAndNew {
      if t.credit.None? { NoTryFails(held, DrainClose, Some(t.spread), t); }
      else { BookedAs(held, DrainClose, Some(t.spread), t, ClosedDrain); }
    } else if Count(v.failures) >= cfg.retryCap {
      if t.credit.None? {
        NoTryFails(held, RollCap, Some(t.spread), t);
        MarkGivesUp(cfg, ClosePosition(held, RollCap, Some(t.spread), t).0,
                    TradeIn(ClosePosition(held, RollCap, Some(t.spread), t).0), t);
      } else {
        BookedAs(held, RollCap, Some(t.spread), t, ClosedRollFailed);
      }
    } else {
      TriedRoll(cfg, held, t);
    }
  }

  // ---- A whole tick -------------------------------------------------------

  // What is left to check is on or above minus the limit in the configured sign.
  lemma AwakeIsNotBreached(cfg: Config, w: World)
    ensures Awake(cfg, w) <==> !w.mem.paused && !w.mem.state.Halted? && !Breached(cfg, w)
  {
  }

  // A tick does to each listed trade what looking at it once does.
  lemma TickOn(cfg: Config, w: World, order: seq<nat>, env: nat -> Tick, id: nat) returns (before: View)
    requires Lists(order, w.rows) && id in order && Awake(cfg, w)
    ensures before == ViewOf(w, id).(day := before.day, log := before.log) && Own(before) == Own(ViewOf(w, id))
    ensures var r := Step(cfg, w, MonitorEvent(order, env));
            id < |r.rows| && TradeOf(r, id) == TradeIn(Monitor(cfg, before, env(id)))
  {
    AwakeIsNotBreached(cfg, w);
    var start := w.(mem := w.mem.(state := Monitoring));
    var k :| 0 <= k < |order| && order[k] == id;
    MonitorAllOn(cfg, start, order, env, k);
    before := ViewOf(EngineViews.Reached(cfg, start, order, env, k), id);
    var all := MonitorAll(cfg, start, order, env);
    assert id in MonitoredIds(all.rows) <==> Monitored(all.rows[id]);
    assert TradeOf(Settle(all), id) == TradeOf(all, id);
  }

  // On every tick of an engine that is awake, every monitored trade the monitor
  // looks at is evaluated, closed, rolled, counted or given up as its row, its
  // counters and the tick call for; a trade it does not look at stays as it was.
  lemma EveryTickActs(cfg: Config, w: World, order: seq<nat>, env: nat -> Tick, id: nat)
    requires Lists(order, w.rows) && id in order && Awake(cfg, w)
    ensures var r, t := Step(cfg, w, MonitorEvent(order, env)), env(id);
            && id < |r.rows|
            && var a, b := TradeOf(w, id), TradeOf(r, id);
               if !LookedAt(w, id, t) then b == a
               else if t.nearDaysLeft <= 0 then Expires(cfg, id, a, b, t)
               else if !t.ivKnown then b == a
               else if t.signal.Hold? then Holds(cfg, id, a, b, t)
               else Signals(cfg, id, a, b, t)
  {
    var t := env(id);
    var before := TickOn(cfg, w, order, env, id);
    assert TradeIn(before) == TradeOf(w, id);
    if LookedAt(w, id, t) {
      if t.nearDaysLeft <= 0 {
        ExpiryOf(cfg, before, t);
      } else if t.ivKnown {
        if t.signal.Hold? { HoldOf(cfg, before, t); } else { SignalOf(cfg, before, t); }
      }
    }
  }

  // A tick of an engine that is awake lets the monitor look at everything the next
  // time, and leaves it idle exactly when nothing is monitored any more.
  lemma TickReadiesTheNext(cfg: Config, w: World, order: seq<nat>, env: nat -> Tick)
    requires Lists(order, w.rows) && Awake(cfg, w)
    ensures var r := Step(cfg, w, MonitorEvent(order, env));
            && r.mem.justEntered == {} && r.mem.rolled == {} && |r.rows| == |w.rows|
            && r.mem.state == (if exists id :: 0 <= id < |r.rows| && Monitored(r.rows[id]) then Monitoring else Idle)
  {
    AwakeIsNotBreached(cfg, w);
    var r := Step(cfg, w, MonitorEvent(order, env));
    if order == [] {
      forall id | 0 <= id < |w.rows| ensures !Monitored(w.rows[id]) { assert id !in order; }
    } else {
      var all := MonitorAll(cfg, w.(mem := w.mem.(state := Monitoring)), order, env);
      if id :| 0 <= id < |r.rows| && Monitored(r.rows[id]) { assert id in MonitoredIds(all.rows); }
    }
  }
}
