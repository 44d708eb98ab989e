/** The decision engine, step by step as it runs, proved against EngineSpec. */
module Engine {
  import opened Histories
  import opened Options
  import opened TradeStore
  import opened EngineSpec
  import opened EngineViews

  lemma DroppedOutside(m: map<nat, nat>, id: nat, ids: set<nat>)
    requires id !in ids
    ensures Restrict(m - {id}, ids) == Restrict(m, ids)
  {
  }

  // What is put down for a trade is found there and can be put down again.
  lemma Onward(w: World, u: View, v: View)
    requires u.id == v.id < |w.rows|
    ensures ViewOf(PutView(w, u), u.id) == u && PutView(PutView(w, u), v) == PutView(w, v)
  {
    ViewAfter(w, u, u.id);
    PutAgain(w, u, v);
  }

  lemma RestrictedAlready(m: map<nat, nat>, ids: set<nat>)
    requires m.Keys <= ids
    ensures Restrict(m, ids) == m
  {
  }

  class DecisionEngine {
    const cfg: Config
    const assets: seq<string>
    const store: Store
    var state: BotState
    var paused: bool
    var todayPnl: real
    var failures: map<nat, nat>
    var pending: map<nat, nat>
    var justEntered: set<nat>
    var rolled: set<nat>
    var notified: set<nat>
    // Everything the engine has done, restarts of the process included.
    ghost var log: History<Action>

    ghost function Now(): World
      reads this, store
    {
      World(Memory(state, paused, todayPnl, failures, pending, justEntered, rolled, notified), store.rows, log)
    }

    // A process starts: the table and what was done before survive, memory does not.
    constructor (cfg: Config, assets: seq<string>, store: Store, ghost history: History<Action>)
      ensures this.cfg == cfg && this.assets == assets && this.store == store
      ensures Now() == World(Fresh, store.rows, if history.Nothing? then Nothing else Then(history, Restarted))
    {
      this.cfg, this.assets, this.store := cfg, assets, store;
      state, paused, todayPnl := Idle, false, 0.0;
      failures, pending := map[], map[];
      justEntered, rolled, notified := {}, {}, {};
      log := if history.Nothing? then Nothing else Then(history, Restarted);
    }

    method Pause()
      modifies this
      ensures Now() == old(Now()).(mem := old(Now()).mem.(paused := true))
    {
      paused := true;
    }

    method Resume()
      modifies this
      ensures Now() == old(Now()).(mem := old(Now()).mem.(paused := false))
    {
      paused := false;
    }

    // ---- Operator commands ------------------------------------------------

    // For a trade that does not exist there is no row to reset.
    method HandleClose(id: nat)
      modifies this, store
      ensures Now() == Retry(old(Now()), id)
    {
      SetEntryIs(failures, id, None);
      SetMemberIs(notified, id, false);
      store.Reset(id);
      if id < |store.rows| { log := Then(log, WasReset(id)); }
      notified := notified - {id};
      failures := failures - {id};
    }

    method HandleCloseManually(id: nat, spread: real) returns (found: bool)
      modifies this, store
      ensures found <==> id < |old(store.rows)|
      ensures Now() == CloseByHand(old(Now()), id, spread)
    {
      ghost var was := if id < |store.rows| then OpenPosition(store.rows[id]) else None;
      SetMemberIs(notified, id, false);
      found := store.CloseManually(id, spread, ByOperator);
      if found {
        log := Then(log, ClosedByHand(id, was));
        notified := notified - {id};
      }
    }

    // ---- Counters ---------------------------------------------------------

    method CountFailures(id: nat, n: Option<nat>)
      requires id < |store.rows|
      modifies this`failures
      ensures Now() == PutView(old(Now()), ViewOf(old(Now()), id).(failures := n))
    {
      SetEntryIs(failures, id, n);
      failures := if n.Some? then failures[id := n.value] else failures - {id};
    }

    method CountSignals(id: nat, n: Option<nat>)
      requires id < |store.rows|
      modifies this`pending
      ensures Now() == PutView(old(Now()), ViewOf(old(Now()), id).(pending := n))
    {
      SetEntryIs(pending, id, n);
      pending := if n.Some? then pending[id := n.value] else pending - {id};
    }

    ghost method Remember(id: nat, a: Action)
      requires id < |store.rows|
      modifies this`log
      ensures Now() == PutView(old(Now()), Say(ViewOf(old(Now()), id), a))
    {
      log := Then(log, a);
    }

    // ---- Closing, rolling, giving up --------------------------------------

    method MarkStuckAndNotify(id: nat, t: Tick)
      requires id < |store.rows|
      modifies this, store
      ensures Now() == PutView(old(Now()), EngineSpec.MarkStuckAndNotify(cfg, ViewOf(old(Now()), id), t))
    {
      SetEntryIs(failures, id, None);
      SetMemberIs(notified, id, true);
      var status := store.CloseStatusOf(id);
      var already := status == Some(StatusStuck);
      var _ := store.MarkStuck(id);
      log := Then(log, Marked(id));
      failures := failures - {id};
      if id !in notified && !already && cfg.hasNotifier {
        if t.alertSent {
          log := Then(log, StuckAlert(id));
          notified := notified + {id};
        }
      }
    }

    // The executor closed the position: write it down.
    method RecordClose(id: nat, cause: Cause, value: real, closeFees: real)
      requires id < |store.rows|
      modifies this, store
      ensures Now() == PutView(old(Now()), EngineSpec.RecordClose(ViewOf(old(Now()), id), cause, value, closeFees))
    {
      SetEntryIs(failures, id, None);
      SetEntryIs(pending, id, None);
      var row := store.rows[id];
      var gross := Gross(row, value);
      var pnl := gross + row.rollPnl - row.openFees - closeFees;
      var result :=
        if cause.DrainClose? then ClosedDrain
        else if cause.RollCap? then ClosedRollFailed
        else if cause.TakeProfit? then WinAutoTp
        else if cause.StopLoss? then LossAutoStop
        else if pnl >= 0.0 then WinAutoTp else LossAutoStop;
      assert pnl == NetPnl(row, value, closeFees) && result == ResultOf(cause, pnl);
      var _ := store.Close(id, pnl, result, closeFees);
      log := Then(log, WroteClose(id, PositionOf(row), Closing(value, closeFees, pnl, result)));
      todayPnl := todayPnl + pnl;
      failures := failures - {id};
      pending := pending - {id};
    }

    method ClosePosition(id: nat, cause: Cause, spread: Option<real>, t: Tick) returns (failed: bool)
      requires id < |store.rows|
      modifies this, store
      ensures Now() == PutView(old(Now()), EngineSpec.ClosePosition(ViewOf(old(Now()), id), cause, spread, t).0)
      ensures failed == EngineSpec.ClosePosition(ViewOf(old(Now()), id), cause, spread, t).1
    {
      ghost var w, v := Now(), ViewOf(Now(), id);
      ghost var called := Say(v, CloseCall(id, PositionOf(v.row), cause, t.credit));
      Remember(id, called.log.last);
      if t.credit.None? { return true; }
      var value := if spread.Some? then spread.value else t.credit.value;
      Onward(w, called, EngineSpec.RecordClose(called, cause, value, t.closeFees));
      RecordClose(id, cause, value, t.closeFees);
      return false;
    }

    // A failed close counts towards the cap; a close that works clears the count.
    method CloseAndCount(id: nat, cause: Cause, spread: Option<real>, t: Tick)
      requires id < |store.rows|
      modifies this, store
      ensures Now() == PutView(old(Now()), CloseOrCount(ViewOf(old(Now()), id), cause, spread, t))
    {
      ghost var w, v := Now(), ViewOf(Now(), id);
      var count := if id in failures then failures[id] else 0;
      var failed := ClosePosition(id, cause, spread, t);
      Onward(w, EngineSpec.ClosePosition(v, cause, spread, t).0, CloseOrCount(v, cause, spread, t));
      CountFailures(id, if failed then Some(count + 1) else None);
    }

    // Looks through the roll candidates for the first that passes every gate.
    method FindRoll(held: Option<string>, qty: real, candidates: seq<RollCandidate>) returns (c: Option<RollCandidate>)
      ensures c == FirstRollable(cfg, held, qty, candidates)
    {
      var k := 0;
      while k < |candidates|
        invariant k <= |candidates|
        invariant FirstRollable(cfg, held, qty, candidates) == FirstRollable(cfg, held, qty, candidates[k..])
      {
        assert candidates[k..][1..] == candidates[k + 1..];
        var next := candidates[k];
        k := k + 1;
        if Some(next.near) == held { continue; }
        if next.gapDays.Some? && next.gapDays.value < cfg.minRollGap { continue; }
        if !PassesLiquidityGate(cfg.gate, next.quotes, qty, true) { continue; }
        if !next.marginOk { continue; }
        return Some(next);
      }
      return None;
    }

    method TryRoll(id: nat, t: Tick) returns (done: bool)
      requires id < |store.rows|
      modifies this, store
      ensures Now() == PutView(old(Now()), EngineSpec.TryRoll(cfg, ViewOf(old(Now()), id), t).0)
      ensures done == EngineSpec.TryRoll(cfg, ViewOf(old(Now()), id), t).1
    {
      SetMemberIs(rolled, id, true);
      var row := store.rows[id];
      var c := FindRoll(row.near, row.qty, t.rolls);
      if c.None? || c.value.quotes.nearBid * row.qty <= c.value.cost {
        log := Then(log, NoRoll(id));
        return false;
      }
      log := Then(log, RollCall(id, PositionOf(row), c.value, t.rollDone));
      if t.rollDone {
        var pnl := RollPnl(row, c.value.quotes.nearBid);
        var _ := store.UpdateNearLeg(id, c.value.near, pnl);
        assert store.rows[id] == RolledRow(row, c.value.near, pnl);
        log := Then(log, WroteRoll(id, PositionOf(row), c.value.near, pnl));
        todayPnl := todayPnl + pnl;
        rolled := rolled + {id};
      }
      return t.rollDone;
    }

    // ---- Monitoring one position ------------------------------------------

    method CloseAtExpiry(id: nat, t: Tick)
      requires id < |store.rows|
      modifies this, store
      ensures Now() == PutView(old(Now()), OnExpiry(cfg, ViewOf(old(Now()), id), t))
    {
      var count := if id in failures then failures[id] else 0;
      if count >= cfg.retryCap {
        MarkStuckAndNotify(id, t);
        return;
      }
      CloseAndCount(id, NearExpired, None, t);
    }

    method ConfirmSignal(id: nat, t: Tick)
      requires id < |store.rows|
      modifies this, store
      ensures Now() == PutView(old(Now()), OnSignal(cfg, ViewOf(old(Now()), id), t))
    {
      ghost var w, v := Now(), ViewOf(Now(), id);
      var seen := (if id in pending then pending[id] else 0) + 1;
      if seen < cfg.confirmTicks {
        CountSignals(id, Some(seen));
        return;
      }
      CountSignals(id, None);
      Onward(w, v.(pending := None), OnSignal(cfg, v, t));
      var count := if id in failures then failures[id] else 0;
      if count >= cfg.retryCap {
        MarkStuckAndNotify(id, t);
        return;
      }
      CloseAndCount(id, if t.signal.Stop? then StopLoss else TakeProfit, Some(t.spread), t);
    }

    method RollOrClose(id: nat, t: Tick)
      requires id < |store.rows|
      modifies this, store
      ensures Now() == PutView(old(Now()), OnRollDue(cfg, ViewOf(old(Now()), id), t))
    {
      ghost var w, v := Now(), ViewOf(Now(), id);
      if cfg.drain || cfg.drainAndNew {
        var _ := ClosePosition(id, DrainClose, Some(t.spread), t);
        return;
      }
      var count := if id in failures then failures[id] else 0;
      if count >= cfg.retryCap {
        var failed := ClosePosition(id, RollCap, Some(t.spread), t);
        if failed {
          Onward(w, EngineSpec.ClosePosition(v, RollCap, Some(t.spread), t).0, OnRollDue(cfg, v, t));
          MarkStuckAndNotify(id, t);
        }
        return;
      }
      var done := TryRoll(id, t);
      Onward(w, EngineSpec.TryRoll(cfg, v, t).0, OnRollDue(cfg, v, t));
      CountFailures(id, if done then None else Some(count + 1));
    }

    method MonitorPosition(id: nat, t: Tick)
      requires id < |store.rows|
      modifies this, store
      ensures Now() == EngineSpec.MonitorPosition(cfg, old(Now()), id, t)
    {
      ghost var w, v := Now(), ViewOf(Now(), id);
      PutBack(w, id);
      if id in justEntered { return; }
      if id in rolled { return; }
      if !t.spotKnown { return; }
      if t.nearDaysLeft <= 0 {
        CloseAtExpiry(id, t);
        return;
      }
      if !t.ivKnown { return; }
      QuotePosition(id, t);
    }

    // The position's value is known.
    method QuotePosition(id: nat, t: Tick)
      requires id < |store.rows|
      modifies this, store
      ensures Now() == PutView(old(Now()), OnQuote(cfg, ViewOf(old(Now()), id), t))
    {
      ghost var w, v := Now(), ViewOf(Now(), id);
      var row := store.rows[id];
      store.UpdateLastSpread(id, t.spread);
      log := Then(log, Evaluated(id, !t.signal.Hold?, t.spread));
      ghost var seen := v.(row := row.(lastSpread := t.spread), log := log);
      assert Now() == PutView(w, seen);
      if !t.signal.Hold? {
        Onward(w, seen, OnSignal(cfg, seen, t));
        ConfirmSignal(id, t);
        return;
      }
      ghost var held := seen.(pending := None);
      Onward(w, seen, held);
      CountSignals(id, None);
      var nearDaysAtEntry := if row.nearDays == 0 then t.nearDaysLeft else row.nearDays;
      if t.nearDaysLeft <= cfg.rollTriggerDays && t.nearDaysLeft < nearDaysAtEntry {
        Onward(w, held, OnRollDue(cfg, held, t));
        RollOrClose(id, t);
      }
    }

    // ---- Ticks ------------------------------------------------------------

    method CheckDailyLossLimit() returns (breached: bool)
      modifies this
      ensures breached <==> old(todayPnl) <= cfg.lossLimit && old(todayPnl) <= -cfg.lossLimit
      ensures breached == Breached(cfg, old(Now()))
      ensures Now() == if breached then Halt(cfg, old(Now())) else old(Now())
    {
      breached := todayPnl <= -(if cfg.lossLimit < 0.0 then -cfg.lossLimit else cfg.lossLimit);
      if breached {
        state := Halted;
        if cfg.hasNotifier { log := Then(log, HaltAlert); }
      }
    }

    // Drop the counters of trades that are no longer open.
    method DropStale(ids: set<nat>)
      modifies `failures, `pending
      ensures failures == Restrict(old(failures), ids) && pending == Restrict(old(pending), ids)
    {
      var stale := (failures.Keys + pending.Keys) - ids;
      while stale != {}
        invariant failures.Keys + pending.Keys <= ids + stale && stale !! ids
        invariant Restrict(failures, ids) == Restrict(old(failures), ids)
        invariant Restrict(pending, ids) == Restrict(old(pending), ids)
        decreases |stale|
      {
        var id :| id in stale;
        DroppedOutside(failures, id, ids);
        DroppedOutside(pending, id, ids);
        failures := failures - {id};
        pending := pending - {id};
        stale := stale - {id};
      }
      RestrictedAlready(failures, ids);
      RestrictedAlready(pending, ids);
    }

    method MonitorEach(positions: seq<nat>, env: nat -> Tick)
      requires forall id :: id in positions ==> id < |store.rows|
      modifies this, store
      ensures Now() == MonitorAll(cfg, old(Now()), positions, env)
    {
      ghost var start := Now();
      for k := 0 to |positions|
        invariant forall id :: id in positions[..k] ==> id in positions
        invariant Now() == MonitorAll(cfg, start, positions[..k], env)
      {
        assert positions[..k + 1][..k] == positions[..k];
        assert positions[k] in positions;
        MonitorPosition(positions[k], env(positions[k]));
      }
      assert positions[..|positions|] == positions;
    }

    // `order` is how the monitored rows were listed.
    method MonitorTick(env: nat -> Tick) returns (ghost order: seq<nat>)
      modifies this, store
      ensures InVisitOrder(order, old(store.rows))
      ensures Lists(order, old(store.rows)) && Now() == EngineSpec.MonitorTick(cfg, old(Now()), order, env)
    {
      var positions := store.LoadOpen(assets);
      order := positions;
      if paused || state.Halted? { return; }
      var breached := CheckDailyLossLimit();
      if breached { return; }
      if positions == [] {
        state := Idle;
        justEntered, rolled := {}, {};
        failures, pending := map[], map[];
        return;
      }
      state := Monitoring;
      MonitorEach(positions, env);
      justEntered, rolled := {}, {};
      var open := store.LoadOpen(assets);
      var ids := set id | id in open;
      assert ids == MonitoredIds(store.rows);
      DropStale(ids);
      state := if open == [] then Idle else Monitoring;
      assert open == [] <==> ids == {} by {
        if open != [] { assert open[0] in ids; }
      }
    }

    // Submit one entry and book what the executor answers.
    method Enter(c: Candidate) returns (filled: bool)
      modifies this, store
      ensures filled == c.answer.Fill? && Now() == EngineSpec.Enter(old(Now()), c)
    {
      state := Entering;
      log := Then(log, EnterCall(c));
      filled := c.answer.Fill?;
      if filled {
        var entry := EnteredRow(c, c.answer.row);
        var id := store.Create(entry);
        log := Then(log, WroteOpen(id, PositionOf(entry)));
        justEntered := justEntered + {id};
      }
    }

    method ScanTick(candidates: seq<Candidate>, fundsKnownEmpty: bool) returns (ghost order: seq<nat>)
      modifies this, store
      ensures Lists(order, old(store.rows)) && InVisitOrder(order, old(store.rows))
      ensures Now() == EngineSpec.ScanTick(cfg, old(Now()), order, candidates, fundsKnownEmpty)
    {
      var positions := store.LoadOpen(assets);
      order := positions;
      if paused || state.Halted? { return; }
      var breached := CheckDailyLossLimit();
      if breached { return; }
      if fundsKnownEmpty {
        state := Idle;
        return;
      }
      var open: nat := |positions|;
      if cfg.drain && !cfg.drainAndNew {
        state := if open == 0 then Idle else Monitoring;
        return;
      }
      state := Scanning;
      if candidates == [] {
        state := Idle;
        return;
      }
      state := Ranking;
      ghost var start := Now();
      var k := 0;
      while k < |candidates|
        invariant k <= |candidates|
        invariant ScanLoop(cfg, Now(), candidates[k..], open) == ScanLoop(cfg, start, candidates, |positions|)
      {
        var c := candidates[k];
        assert candidates[k..][0] == c && candidates[k..][1..] == candidates[k + 1..];
        k := k + 1;
        if !Approved(cfg, c, open) { continue; }
        var filled := Enter(c);
        if c.answer.LegRiskRaised? { return; }
        if filled { open := open + 1; }
        breached := CheckDailyLossLimit();
        if breached { return; }
        if open >= cfg.maxPositions { break; }
      }
      state := if open == 0 then Idle else Monitoring;
    }
  }
}
