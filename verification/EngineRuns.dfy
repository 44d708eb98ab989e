/**
 The invariant of the engine: memory, table and history agree about every trade,
 through ticks, operator commands, reconciliation and restarts.
 */
module EngineRuns {
  import opened Histories
  import opened Options
  import opened TradeStore
  import opened EngineSpec
  import opened EngineViews
  import opened EngineLadder
  import opened EngineLedger
  import opened EngineBooks

  ghost predicate Fit(cfg: Config, v: View) {
    Counted(cfg, v) && Paid(v) && Placed(v)
  }

  // A trade that is not in the table yet.
  ghost predicate Absent(w: World, id: nat) {
    Unmentioned(w.log, id) && id !in w.mem.failures && id !in w.mem.pending && id !in w.mem.notified
  }

  ghost predicate Historied(cfg: Config, day: real, h: History<Action>) {
    Orderly(cfg, h) && Booked(h) && AllInPlace(h) && Balanced(day, h)
  }

  ghost predicate Whole(cfg: Config, w: World) {
    && Historied(cfg, w.mem.todayPnl, w.log)
    && (forall id: nat :: id < |w.rows| ==> Fit(cfg, ViewOf(w, id)))
    && (forall id: nat :: id >= |w.rows| ==> Absent(w, id))
  }

  // Between ticks, besides, no signal is pending for a stuck trade.
  ghost predicate Inv(cfg: Config, w: World) {
    Whole(cfg, w) && forall id :: 0 <= id < |w.rows| && Stuck(w.rows[id]) ==> id !in w.mem.pending
  }

  lemma FitAlike(cfg: Config, a: View, b: View)
    requires Alike(a, b) && Fit(cfg, a)
    ensures Fit(cfg, b)
  {
  }

  // One trade changes and the history goes on about it.
  lemma PutKept(cfg: Config, w: World, v: View)
    requires Whole(cfg, w) && v.id < |w.rows| && OnlyAbout(w.log, v.log, v.id)
    requires Fit(cfg, v) && Historied(cfg, v.day, v.log)
    ensures Whole(cfg, PutView(w, v))
  {
    var r := PutView(w, v);
    forall id: nat | id < |r.rows| ensures Fit(cfg, ViewOf(r, id)) {
      ViewAfter(w, v, id);
      if id != v.id {
        PutAlike(w, v, id);
        FitAlike(cfg, ViewOf(w, id), ViewOf(r, id));
      }
    }
    forall id: nat | id >= |r.rows| ensures Absent(r, id) {
      assert Absent(w, id);
      OthersSilent(w.log, v.log, v.id, id);
      EntryAfter(w.mem.failures, v.id, v.failures, id);
      EntryAfter(w.mem.pending, v.id, v.pending, id);
    }
  }

  // ---- The monitor tick ---------------------------------------------------

  lemma MonitorFit(cfg: Config, v: View, t: Tick)
    requires Fit(cfg, v) && Monitored(v.row) && Historied(cfg, v.day, v.log)
    ensures var r := Monitor(cfg, v, t); Fit(cfg, r) && Historied(cfg, r.day, r.log)
  {
    MonitorCounted(cfg, v, t);
    MonitorPaid(cfg, v, t);
    MonitorBooked(cfg, v, t);
    MonitorPlaced(cfg, v, t);
  }

  lemma MonitorPositionKept(cfg: Config, w: World, id: nat, t: Tick)
    requires Whole(cfg, w) && id < |w.rows| && Monitored(w.rows[id])
    ensures Whole(cfg, MonitorPosition(cfg, w, id, t))
  {
    var v := ViewOf(w, id);
    assert Fit(cfg, v);
    MonitorFit(cfg, v, t);
    MonitorOnly(cfg, v, t);
    PutKept(cfg, w, Monitor(cfg, v, t));
  }

  lemma {:induction false} MonitorAllKept(cfg: Config, w: World, ids: seq<nat>, env: nat -> Tick)
    requires Whole(cfg, w)
    requires forall i, j :: 0 <= i < j < |ids| ==> ids[i] != ids[j]
    requires forall id :: id in ids ==> id < |w.rows| && Monitored(w.rows[id])
    ensures Whole(cfg, MonitorAll(cfg, w, ids, env))
  {
    if ids != [] {
      var init, last := ids[..|ids| - 1], ids[|ids| - 1];
      assert last in ids && last !in init && forall id :: id in init ==> id in ids;
      MonitorAllKept(cfg, w, init, env);
      MonitorAllElsewhere(cfg, w, init, env, last);
      var mid := MonitorAll(cfg, w, init, env);
      assert ViewOf(mid, last).row == ViewOf(w, last).row;
      MonitorPositionKept(cfg, mid, last, env(last));
    }
  }

  // The invariant does not look at the state, the pause flag or the per-tick sets.
  lemma Overlooked(cfg: Config, w: World, r: World)
    requires Whole(cfg, w) && r.rows == w.rows && r.log == w.log && r.mem.todayPnl == w.mem.todayPnl
    requires r.mem.failures == w.mem.failures && r.mem.pending == w.mem.pending && r.mem.notified == w.mem.notified
    ensures Whole(cfg, r)
  {
    forall id: nat | id < |r.rows| ensures Fit(cfg, ViewOf(r, id)) { assert Fit(cfg, ViewOf(w, id)); }
    forall id: nat | id >= |r.rows| ensures Absent(r, id) { assert Absent(w, id); }
  }

  lemma SettleKept(cfg: Config, w: World)
    requires Whole(cfg, w)
    ensures Inv(cfg, Settle(w))
  {
    var r := Settle(w);
    forall id: nat | id < |r.rows| ensures Fit(cfg, ViewOf(r, id)) {
      assert Fit(cfg, ViewOf(w, id));
      assert id in MonitoredIds(w.rows) <==> Monitored(w.rows[id]);
    }
    forall id: nat | id >= |r.rows| ensures Absent(r, id) { assert Absent(w, id); }
    forall id | 0 <= id < |r.rows| && Stuck(r.rows[id]) ensures id !in r.mem.pending {
      assert id !in MonitoredIds(w.rows);
    }
  }

  // With nothing monitored, forgetting every counter is settling.
  lemma NothingMonitored(w: World, order: seq<nat>)
    requires Lists(order, w.rows) && order == []
    ensures w.(mem := w.mem.(state := Idle, justEntered := {}, rolled := {}, failures := map[], pending := map[])) ==
            Settle(w)
  {
    forall id: nat | id < |w.rows| ensures !Monitored(w.rows[id]) { assert id !in order; }
    assert MonitoredIds(w.rows) == {};
  }

  lemma HaltKept(cfg: Config, w: World)
    requires Inv(cfg, w)
    ensures Inv(cfg, Halt(cfg, w))
  {
    var r := Halt(cfg, w);
    forall id: nat | id < |r.rows| ensures Fit(cfg, ViewOf(r, id)) {
      assert Fit(cfg, ViewOf(w, id));
      assert Own(ViewOf(r, id)) == Own(ViewOf(w, id));
    }
    forall id: nat | id >= |r.rows| ensures Absent(r, id) { assert Absent(w, id); }
  }

  lemma MonitorTickKept(cfg: Config, w: World, order: seq<nat>, env: nat -> Tick)
    requires Inv(cfg, w) && Lists(order, w.rows)
    ensures Inv(cfg, MonitorTick(cfg, w, order, env))
  {
    if w.mem.paused || w.mem.state.Halted? {
    } else if Breached(cfg, w) {
      HaltKept(cfg, w);
    } else if order == [] {
      NothingMonitored(w, order);
      SettleKept(cfg, w);
    } else {
      var start := w.(mem := w.mem.(state := Monitoring));
      Overlooked(cfg, w, start);
      MonitorAllKept(cfg, start, order, env);
      SettleKept(cfg, MonitorAll(cfg, start, order, env));
    }
  }

  // ---- The scan tick ------------------------------------------------------

  lemma EnteredFit(cfg: Config, v: View)
    requires v.log.Then? && Unmentioned(v.log.past, v.id) && v.log.last == WroteOpen(v.id, PositionOf(v.row))
    requires v.row.result.Open? && v.row.status.StatusOpen? && v.row.rollPnl == 0.0
    requires v.failures.None? && v.pending.None? && !v.notified
    ensures Fit(cfg, v)
  {
    BlankTally(v.log.past, v.id);
    BlankMoney(v.log.past, v.id);
    BlankHeld(v.log.past, v.id);
    assert Own(v) == Then(Of(v.log.past, v.id), v.log.last);
  }

  lemma EnterKept(cfg: Config, w: World, c: Candidate, open: nat)
    requires Inv(cfg, w) && Approved(cfg, c, open)
    ensures Inv(cfg, Enter(w, c))
  {
    var r, n := Enter(w, c), |w.rows|;
    assert Absent(w, n);
    BlankHeld(w.log, n);
    var called := Then(w.log, EnterCall(c));
    assert Orderly(cfg, called) && AllInPlace(called) && Balanced(w.mem.todayPnl, called);
    forall id: nat | id < |r.rows| ensures Fit(cfg, ViewOf(r, id)) {
      if id < n {
        assert Fit(cfg, ViewOf(w, id));
        assert Own(ViewOf(r, id)) == Own(ViewOf(w, id)) by { assert Of(called, id) == Of(w.log, id); }
      } else {
        EnteredFit(cfg, ViewOf(r, id));
      }
    }
    forall id: nat | id >= |r.rows| ensures Absent(r, id) {
      assert Absent(w, id);
      assert Unmentioned(called, id);
    }
    if c.answer.Fill? { assert Answers(w.log, EnterCall(c), r.log.last); }
  }

  lemma {:induction false} ScanLoopKept(cfg: Config, w: World, cs: seq<Candidate>, open: nat)
    requires Inv(cfg, w)
    ensures Inv(cfg, ScanLoop(cfg, w, cs, open))
    decreases |cs|
  {
    if cs == [] {
      Overlooked(cfg, w, Rest(w, open));
    } else if !Approved(cfg, cs[0], open) {
      ScanLoopKept(cfg, w, cs[1..], open);
    } else {
      var entered := Enter(w, cs[0]);
      var open' := if cs[0].answer.Fill? then open + 1 else open;
      EnterKept(cfg, w, cs[0], open);
      if cs[0].answer.LegRiskRaised? {
      } else if Breached(cfg, entered) {
        HaltKept(cfg, entered);
      } else if open' >= cfg.maxPositions {
        Overlooked(cfg, entered, Rest(entered, open'));
      } else {
        ScanLoopKept(cfg, entered, cs[1..], open');
      }
    }
  }

  lemma ScanTickKept(cfg: Config, w: World, order: seq<nat>, cs: seq<Candidate>, fundsKnownEmpty: bool)
    requires Inv(cfg, w) && Lists(order, w.rows)
    ensures Inv(cfg, ScanTick(cfg, w, order, cs, fundsKnownEmpty))
  {
    var r := ScanTick(cfg, w, order, cs, fundsKnownEmpty);
    if w.mem.paused || w.mem.state.Halted? {
    } else if Breached(cfg, w) {
      HaltKept(cfg, w);
    } else if fundsKnownEmpty || (cfg.drain && !cfg.drainAndNew) || cs == [] {
      Overlooked(cfg, w, r);
    } else {
      var ranking := w.(mem := w.mem.(state := Ranking));
      Overlooked(cfg, w, ranking);
      ScanLoopKept(cfg, ranking, cs, |order|);
    }
  }

  // ---- Operators, the reconciler and restarts -----------------------------

  // What one command does to one trade keeps the invariant.
  lemma CommandKept(cfg: Config, w: World, v: View)
    requires Inv(cfg, w) && v.id < |w.rows| && OnlyAbout(w.log, v.log, v.id)
    requires Fit(cfg, v) && Historied(cfg, v.day, v.log) && !Stuck(v.row)
    ensures Inv(cfg, PutView(w, v))
  {
    PutKept(cfg, w, v);
    var r := PutView(w, v);
    forall id | 0 <= id < |r.rows| && Stuck(r.rows[id]) ensures id !in r.mem.pending {
      assert id != v.id && Stuck(w.rows[id]);
      EntryAfter(w.mem.pending, v.id, v.pending, id);
    }
  }

  lemma RetryKept(cfg: Config, w: World, id: nat)
    requires Inv(cfg, w)
    ensures Inv(cfg, Retry(w, id))
  {
    if id < |w.rows| {
      var v := ViewOf(w, id);
      assert Fit(cfg, v);
      RetriedCounted(cfg, v);
      RetriedPaid(v);
      RetriedPlaced(v);
      assert OnlyAbout(w.log, Retried(v).log, id);
      CommandKept(cfg, w, Retried(v));
    } else {
      assert Absent(w, id);
      assert w.mem.notified - {id} == w.mem.notified && w.mem.failures - {id} == w.mem.failures;
    }
  }

  lemma CloseByHandKept(cfg: Config, w: World, id: nat, spread: real)
    requires Inv(cfg, w)
    ensures Inv(cfg, CloseByHand(w, id, spread))
  {
    if id < |w.rows| {
      var v := ViewOf(w, id);
      assert Fit(cfg, v);
      HandClosedCounted(cfg, v, spread);
      HandClosedPaid(v, spread);
      HandClosedPlaced(v, spread);
      assert OnlyAbout(w.log, HandClosed(v, spread).log, id);
      CommandKept(cfg, w, HandClosed(v, spread));
    }
  }

  lemma ReconcileKept(cfg: Config, w: World, id: nat)
    requires Inv(cfg, w) && Enabled(w, Reconcile(id))
    ensures Inv(cfg, Step(cfg, w, Reconcile(id)))
  {
    var v := ViewOf(w, id);
    assert Fit(cfg, v);
    ReconciledCounted(cfg, v);
    ReconciledPaid(v);
    ReconciledPlaced(v);
    assert OnlyAbout(w.log, Reconciled(v).log, id);
    CommandKept(cfg, w, Reconciled(v));
  }

  lemma RestartFit(cfg: Config, v: View)
    requires Fit(cfg, v)
    ensures Fit(cfg, Say(v, Restarted).(failures := None, pending := None, entered := false, rolled := false,
                                        notified := false, day := 0.0))
  {
    RestartedCounted(cfg, v);
    var r := Say(v, Restarted).(failures := None, pending := None, entered := false, rolled := false,
                                notified := false, day := 0.0);
    assert Own(r) == Then(Own(v), Restarted);
  }

  lemma RestartKept(cfg: Config, w: World)
    requires Inv(cfg, w)
    ensures Inv(cfg, Step(cfg, w, Restart))
  {
    var r := Step(cfg, w, Restart);
    forall id: nat | id < |r.rows| ensures Fit(cfg, ViewOf(r, id)) {
      assert Fit(cfg, ViewOf(w, id));
      RestartFit(cfg, ViewOf(w, id));
    }
    forall id: nat | id >= |r.rows| ensures Absent(r, id) { assert Absent(w, id); }
  }

  // Whatever happens next, memory, table and history go on agreeing.
  lemma StepKept(cfg: Config, w: World, e: Event)
    requires Inv(cfg, w) && Enabled(w, e)
    ensures Inv(cfg, Step(cfg, w, e))
  {
    match e
    case MonitorEvent(order, env) => MonitorTickKept(cfg, w, order, env);
    case ScanEvent(order, cs, empty) => ScanTickKept(cfg, w, order, cs, empty);
    case Pause => Overlooked(cfg, w, Step(cfg, w, e));
    case Resume => Overlooked(cfg, w, Step(cfg, w, e));
    case Restart => RestartKept(cfg, w);
    case OperatorRetry(id) => RetryKept(cfg, w, id);
    case OperatorClose(id, spread) => CloseByHandKept(cfg, w, id, spread);
    case Reconcile(id) => ReconcileKept(cfg, w, id);
  }

  lemma {:induction false} RunKept(cfg: Config, w: World, es: seq<Event>, w': World)
    requires Inv(cfg, w) && Run(cfg, w, es, w')
    ensures Inv(cfg, w')
    decreases |es|
  {
    if es != [] {
      StepKept(cfg, w, es[0]);
      RunKept(cfg, Step(cfg, w, es[0]), es[1..], w');
    }
  }

  const Start := World(Fresh, [], Nothing)
}
