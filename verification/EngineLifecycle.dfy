/** What becomes of a trade's row over any run. */
module EngineLifecycle {
  import opened Histories
  import opened Options
  import opened TradeStore
  import opened EngineSpec
  import opened EngineViews
  import opened EngineLadder
  import opened EngineBooks
  import opened EngineRuns

  ghost predicate Names(e: Event, id: nat) {
    match e
    case OperatorRetry(i) => i == id
    case OperatorClose(i, _) => i == id
    case Reconcile(i) => i == id
    case _ => false
  }

  lemma {:induction false} ScanLoopElsewhere(cfg: Config, w: World, cs: seq<Candidate>, open: nat, id: nat)
    requires id < |w.rows|
    ensures var r := ScanLoop(cfg, w, cs, open); w.rows <= r.rows && Of(r.log, id) == Of(w.log, id)
    decreases |cs|
  {
    if cs != [] {
      if !Approved(cfg, cs[0], open) {
        ScanLoopElsewhere(cfg, w, cs[1..], open, id);
      } else {
        var entered := Enter(w, cs[0]);
        var open' := if cs[0].answer.Fill? then open + 1 else open;
        EnterElsewhere(w, cs[0], id);
        if !cs[0].answer.LegRiskRaised? && !Breached(cfg, entered) && open' < cfg.maxPositions {
          ScanLoopElsewhere(cfg, entered, cs[1..], open', id);
        }
      }
    }
  }

  lemma EnterElsewhere(w: World, c: Candidate, id: nat)
    requires id < |w.rows|
    ensures w.rows <= Enter(w, c).rows && Of(Enter(w, c).log, id) == Of(w.log, id)
  {
    assert Of(Then(w.log, EnterCall(c)), id) == Of(w.log, id);
  }

  lemma ScanTickElsewhere(cfg: Config, w: World, order: seq<nat>, cs: seq<Candidate>, fundsKnownEmpty: bool, id: nat)
    requires Lists(order, w.rows) && id < |w.rows|
    ensures var r := ScanTick(cfg, w, order, cs, fundsKnownEmpty);
            w.rows <= r.rows && Of(r.log, id) == Of(w.log, id)
  {
    ScanLoopElsewhere(cfg, w.(mem := w.mem.(state := Ranking)), cs, |order|, id);
  }

  lemma MonitorTickElsewhere(cfg: Config, w: World, order: seq<nat>, env: nat -> Tick, id: nat)
    requires Lists(order, w.rows) && id < |w.rows| && !Monitored(w.rows[id])
    ensures var r := MonitorTick(cfg, w, order, env);
            |r.rows| == |w.rows| && r.rows[id] == w.rows[id] && Of(r.log, id) == Of(w.log, id)
  {
    assert id !in order;
    if !(w.mem.paused || w.mem.state.Halted? || Breached(cfg, w) || order == []) {
      var start := w.(mem := w.mem.(state := Monitoring));
      MonitorAllElsewhere(cfg, start, order, env, id);
      var all := MonitorAll(cfg, start, order, env);
      assert ViewOf(all, id).row == ViewOf(start, id).row && ViewOf(all, id).log == all.log;
    }
  }

  lemma CommandElsewhere(w: World, v: View, id: nat)
    requires v.id < |w.rows| && id < |w.rows| && id != v.id && OnlyAbout(w.log, v.log, v.id)
    ensures var r := PutView(w, v); r.rows[id] == w.rows[id] && Of(r.log, id) == Of(w.log, id)
  {
    OthersSilent(w.log, v.log, v.id, id);
  }

  // An event that does not name a trade the monitor does not see leaves its row
  // alone, and nothing but a restart is said of it.
  lemma UnseenUntouched(cfg: Config, w: World, e: Event, id: nat)
    requires Enabled(w, e) && id < |w.rows| && !Monitored(w.rows[id]) && !Names(e, id)
    ensures var r := Step(cfg, w, e);
            && id < |r.rows| && r.rows[id] == w.rows[id]
            && Of(r.log, id) == (if e.Restart? then Then(Of(w.log, id), Restarted) else Of(w.log, id))
  {
    match e
    case MonitorEvent(order, env) => MonitorTickElsewhere(cfg, w, order, env, id);
    case ScanEvent(order, cs, empty) => ScanTickElsewhere(cfg, w, order, cs, empty, id);
    case OperatorRetry(i) =>
      if i < |w.rows| { CommandElsewhere(w, Retried(ViewOf(w, i)), id); }
    case OperatorClose(i, spread) =>
      if i < |w.rows| { CommandElsewhere(w, HandClosed(ViewOf(w, i), spread), id); }
    case Reconcile(i) => CommandElsewhere(w, Reconciled(ViewOf(w, i)), id);
    case _ =>
  }

  // ---- Terminal rows ------------------------------------------------------

  predicate Terminal(r: Row) {
    !r.result.IsOpen()
  }

  // A terminal row stays terminal, and exactly two events change it: an
  // operator's retry while its status is closed, and an operator's manual close
  // that writes something else than is there.
  lemma WhatChangesATerminalRow(cfg: Config, w: World, e: Event, id: nat)
    requires Inv(cfg, w) && Enabled(w, e) && id < |w.rows| && Terminal(w.rows[id])
    ensures var r := Step(cfg, w, e);
            && id < |r.rows| && Terminal(r.rows[id])
            && (r.rows[id] != w.rows[id] <==>
                  || (e.OperatorRetry? && e.id == id && w.rows[id].status == StatusClosed)
                  || (e.OperatorClose? && e.id == id
                      && w.rows[id] != ManuallyClosedRow(w.rows[id], e.spread, ByOperator)))
  {
    assert Fit(cfg, ViewOf(w, id));
    if !Names(e, id) { UnseenUntouched(cfg, w, e, id); }
  }

  // /close on a closed trade sets its status back to open under its terminal label.
  lemma RetryLoosensAClosedTrade(cfg: Config, w: World, id: nat)
    requires Inv(cfg, w) && id < |w.rows| && Terminal(w.rows[id]) && WellKept(w.rows[id])
    ensures var r := Step(cfg, w, OperatorRetry(id)).rows[id];
            r == w.rows[id].(status := StatusOpen) && !WellKept(r) && !Monitored(r) && !Visible(r)
  {
  }

  // /close_manually on a closed trade rewrites its P&L and label.
  lemma ManualCloseRewritesAClosedTrade(cfg: Config, w: World, id: nat, spread: real)
    requires Inv(cfg, w) && id < |w.rows| && Terminal(w.rows[id])
    ensures var was, r := w.rows[id], Step(cfg, w, OperatorClose(id, spread)).rows[id];
            && r.pnl == Some(spread - was.netDebit * was.qty - was.openFees)
            && r.result == ByOperator && r.rollPnl == was.rollPnl && WellKept(r)
  {
    HandPnlIs(w.rows[id], spread);
    assert Step(cfg, w, OperatorClose(id, spread)).rows[id] == ManuallyClosedRow(w.rows[id], spread, ByOperator);
  }

  // What /close does, for any id: the flag and the failure count go, and an existing
  // row's status is open again, whatever it was; nothing else changes.
  lemma RetryStartsAfresh(cfg: Config, w: World, id: nat)
    ensures var r := Step(cfg, w, OperatorRetry(id));
            && r.mem == w.mem.(notified := w.mem.notified - {id}, failures := w.mem.failures - {id})
            && |r.rows| == |w.rows|
            && (forall i :: 0 <= i < |w.rows| ==>
                  r.rows[i] == if i == id then w.rows[i].(status := StatusOpen) else w.rows[i])
            && r.log == if id < |w.rows| then Then(w.log, WasReset(id)) else w.log
  {
    SetEntryIs(w.mem.failures, id, None);
    SetMemberIs(w.mem.notified, id, false);
  }

  // What /close_manually does: the one row is closed at the operator's spread, and
  // its flag goes; for an unknown id nothing happens.
  lemma ManualCloseSettles(cfg: Config, w: World, id: nat, spread: real)
    ensures var r := Step(cfg, w, OperatorClose(id, spread));
            if id >= |w.rows| then r == w
            else
              var was := w.rows[id];
              var open := was.result.Open? || was.result.FarLegOnly? || was.result.NearLegRolled?;
              && r.mem == w.mem.(notified := w.mem.notified - {id})
              && r.rows == w.rows[id := r.rows[id]]
              && r.rows[id] == was.(status := StatusClosed, manualSpread := Some(spread), dated := true,
                                    pnl := r.rows[id].pnl, result := Titled("Manual"))
              && r.rows[id].pnl == Some(spread - was.netDebit * was.qty - was.openFees)
              && r.log == Then(w.log, ClosedByHand(id, if open then Some(Position(was.near, was.far, was.qty))
                                                       else None))
  {
    if id < |w.rows| {
      SetMemberIs(w.mem.notified, id, false);
      HandPnlIs(w.rows[id], spread);
    }
  }

  ghost predicate NoCommandNames(es: seq<Event>, id: nat) {
    forall e :: e in es ==> !((e.OperatorRetry? || e.OperatorClose?) && e.id == id)
  }

  // Over any run a terminal row stays terminal, and it stays as it is unless an
  // operator names it.
  lemma {:induction false} TerminalForGood(cfg: Config, w: World, es: seq<Event>, w': World, id: nat)
    requires Inv(cfg, w) && Run(cfg, w, es, w') && id < |w.rows| && Terminal(w.rows[id])
    ensures id < |w'.rows| && Terminal(w'.rows[id])
    ensures NoCommandNames(es, id) ==> w'.rows[id] == w.rows[id]
    decreases |es|
  {
    if es != [] {
      StepKept(cfg, w, es[0]);
      WhatChangesATerminalRow(cfg, w, es[0], id);
      TerminalForGood(cfg, Step(cfg, w, es[0]), es[1..], w', id);
    }
  }

  // In every reachable table each row is exactly one of monitored, stuck and
  // terminal; what operators see is the first two; and terminal is what the close
  // status calls closed, but for a row a retry named after it was closed.
  lemma EveryRowInOneClass(cfg: Config, es: seq<Event>, w: World, id: nat)
    requires Run(cfg, Start, es, w) && id < |w.rows|
    ensures var r := w.rows[id];
            && (if Monitored(r) then 1 else 0) + (if Stuck(r) then 1 else 0) + (if Terminal(r) then 1 else 0) == 1
            && (Visible(r) <==> Monitored(r) || Stuck(r))
            && (WellKept(r) <==> !Loose(Of(w.log, id)))
  {
    RunKept(cfg, Start, es, w);
    assert Fit(cfg, ViewOf(w, id));
  }

  ghost predicate WellKeptThroughout(cfg: Config, w: World, es: seq<Event>)
    decreases |es|
  {
    && AllWellKept(w.rows)
    && (es == [] || (Enabled(w, es[0]) && WellKeptThroughout(cfg, Step(cfg, w, es[0]), es[1..])))
  }

  // Some retry in the run names a trade that is closed at the time.
  ghost predicate RetriesAClosedTrade(cfg: Config, w: World, es: seq<Event>)
    decreases |es|
  {
    && es != [] && Enabled(w, es[0])
    && ((es[0].OperatorRetry? && es[0].id < |w.rows| && Terminal(w.rows[es[0].id]))
        || RetriesAClosedTrade(cfg, Step(cfg, w, es[0]), es[1..]))
  }

  // The table is well kept at every moment of a run exactly when no retry in it
  // names a closed trade.
  lemma {:induction false} WellKeptUnlessAClosedTradeIsRetried(cfg: Config, w: World, es: seq<Event>, w': World)
    requires Inv(cfg, w) && AllWellKept(w.rows) && Run(cfg, w, es, w')
    ensures WellKeptThroughout(cfg, w, es) <==> !RetriesAClosedTrade(cfg, w, es)
    decreases |es|
  {
    if es != [] {
      var r := Step(cfg, w, es[0]);
      StepKept(cfg, w, es[0]);
      StepWellKept(cfg, w, es[0]);
      if AllWellKept(r.rows) { WellKeptUnlessAClosedTradeIsRetried(cfg, r, es[1..], w'); }
    }
  }

  lemma StepWellKept(cfg: Config, w: World, e: Event)
    requires Inv(cfg, w) && AllWellKept(w.rows) && Enabled(w, e)
    ensures AllWellKept(Step(cfg, w, e).rows) <==>
            !(e.OperatorRetry? && e.id < |w.rows| && Terminal(w.rows[e.id]))
  {
    var r := Step(cfg, w, e);
    StepKept(cfg, w, e);
    if e.OperatorRetry? && e.id < |w.rows| && Terminal(w.rows[e.id]) {
      RetryLoosensAClosedTrade(cfg, w, e.id);
    } else {
      forall id | 0 <= id < |r.rows| ensures WellKept(r.rows[id]) {
        RowWellKept(cfg, w, e, id);
      }
    }
  }

  lemma RowWellKept(cfg: Config, w: World, e: Event, id: nat)
    requires Inv(cfg, w) && AllWellKept(w.rows) && Enabled(w, e) && Inv(cfg, Step(cfg, w, e))
    requires id < |Step(cfg, w, e).rows| && !(e.OperatorRetry? && e.id < |w.rows| && Terminal(w.rows[e.id]))
    ensures WellKept(Step(cfg, w, e).rows[id])
  {
    var r := Step(cfg, w, e);
    assert Fit(cfg, ViewOf(r, id));
    if id < |w.rows| && Terminal(w.rows[id]) {
      assert WellKept(w.rows[id]);
      WhatChangesATerminalRow(cfg, w, e, id);
    } else if id < |w.rows| {
      assert Fit(cfg, ViewOf(w, id));
      if Terminal(r.rows[id]) { OpenRowsCloseWell(cfg, w, e, id); }
    } else {
      assert Absent(w, id);
      if Terminal(r.rows[id]) { NewRowsAreOpen(cfg, w, e, id); }
    }
  }

  // A row that leaves the open ones does so with a closed status.
  lemma OpenRowsCloseWell(cfg: Config, w: World, e: Event, id: nat)
    requires Inv(cfg, w) && Enabled(w, e) && id < |w.rows| && !Terminal(w.rows[id])
    requires Inv(cfg, Step(cfg, w, e)) && id < |Step(cfg, w, e).rows| && Terminal(Step(cfg, w, e).rows[id])
    ensures Step(cfg, w, e).rows[id].status == StatusClosed
  {
    assert Fit(cfg, ViewOf(w, id));
    match e
    case MonitorEvent(order, env) =>
      if Monitored(w.rows[id]) {
        assert id in order;
        var k :| 0 <= k < |order| && order[k] == id;
        var start := w.(mem := w.mem.(state := Monitoring));
        MonitorAllOn(cfg, start, order, env, k);
        MonitorClosesWell(cfg, ViewOf(Reached(cfg, start, order, env, k), id), env(id));
      } else {
        MonitorTickElsewhere(cfg, w, order, env, id);
      }
    case ScanEvent(order, cs, empty) => ScanTickElsewhere(cfg, w, order, cs, empty, id);
    case OperatorRetry(i) => if i != id { UnseenOrSeen(cfg, w, e, id); }
    case OperatorClose(i, spread) => if i != id { UnseenOrSeen(cfg, w, e, id); }
    case Reconcile(i) => if i != id { UnseenOrSeen(cfg, w, e, id); }
    case _ =>
  }

  lemma UnseenOrSeen(cfg: Config, w: World, e: Event, id: nat)
    requires Enabled(w, e) && id < |w.rows| && !Names(e, id)
    requires e.OperatorRetry? || e.OperatorClose? || e.Reconcile?
    ensures Step(cfg, w, e).rows[id] == w.rows[id]
  {
  }

  lemma MonitorClosesWell(cfg: Config, v: View, t: Tick)
    requires v.row.result.IsOpen()
    ensures var r := Monitor(cfg, v, t); Terminal(r.row) ==> r.row.status == StatusClosed
  {
  }

  lemma NewRowsAreOpen(cfg: Config, w: World, e: Event, id: nat)
    requires Enabled(w, e) && |w.rows| <= id < |Step(cfg, w, e).rows|
    ensures !Terminal(Step(cfg, w, e).rows[id])
  {
    match e
    case ScanEvent(order, cs, empty) => ScannedRowsAreOpen(cfg, w.(mem := w.mem.(state := Ranking)), cs, |order|, id);
    case _ =>
  }

  lemma {:induction false} ScannedRowsAreOpen(cfg: Config, w: World, cs: seq<Candidate>, open: nat, id: nat)
    ensures var r := ScanLoop(cfg, w, cs, open);
            && w.rows <= r.rows && (|w.rows| <= id < |r.rows| ==> !Terminal(r.rows[id]))
    decreases |cs|
  {
    if cs != [] {
      if !Approved(cfg, cs[0], open) {
        ScannedRowsAreOpen(cfg, w, cs[1..], open, id);
      } else {
        var entered := Enter(w, cs[0]);
        var open' := if cs[0].answer.Fill? then open + 1 else open;
        if !cs[0].answer.LegRiskRaised? && !Breached(cfg, entered) && open' < cfg.maxPositions {
          ScannedRowsAreOpen(cfg, entered, cs[1..], open', id);
        }
      }
    }
  }

  // ---- Stuck trades -------------------------------------------------------

  // The executor calls, evaluations, marks and alerts a trade's own history shows.
  function Footprint(own: History<Action>): (nat, nat, nat, nat) {
    var t := TallyOf(own);
    (t.calls, t.evaluated, t.marks, t.alerts)
  }

  // From the moment a trade is stuck, until an operator retries it, nothing is
  // done about it: no executor call, no evaluation, no second mark or alert,
  // restarts included.  The same goes for a closed trade.
  lemma {:induction false} StuckIsLeftAlone(cfg: Config, w: World, es: seq<Event>, w': World, id: nat)
    requires Inv(cfg, w) && Run(cfg, w, es, w') && id < |w.rows| && !Monitored(w.rows[id])
    requires OperatorRetry(id) !in es
    ensures Footprint(Of(w'.log, id)) == Footprint(Of(w.log, id))
    ensures id < |w'.rows| && !Monitored(w'.rows[id])
    decreases |es|
  {
    if es != [] {
      StepKept(cfg, w, es[0]);
      StuckStep(cfg, w, es[0], id);
      StuckIsLeftAlone(cfg, Step(cfg, w, es[0]), es[1..], w', id);
    }
  }

  lemma StuckStep(cfg: Config, w: World, e: Event, id: nat)
    requires Enabled(w, e) && id < |w.rows| && !Monitored(w.rows[id]) && e != OperatorRetry(id)
    ensures var r := Step(cfg, w, e);
            id < |r.rows| && !Monitored(r.rows[id]) && Footprint(Of(r.log, id)) == Footprint(Of(w.log, id))
  {
    if !Names(e, id) { UnseenUntouched(cfg, w, e, id); }
  }
}
