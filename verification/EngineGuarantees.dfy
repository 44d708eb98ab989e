/** What the decision engine promises over every run. */
module EngineGuarantees {
  import opened Histories
  import opened Options
  import opened TradeStore
  import opened EngineSpec
  import opened EngineViews
  import opened EngineLadder
  import opened EngineLedger
  import opened EngineBooks
  import opened EngineRuns
  import opened EngineLifecycle
  import opened EngineProgress
  import opened EngineGate

  // ---- Every action -------------------------------------------------------

  lemma {:induction false} InOrderThroughout(cfg: Config, h: History<Action>, past: History<Action>, a: Action)
    requires Orderly(cfg, h) && AllInPlace(h) && Moment(h, past, a)
    ensures InOrder(cfg, past, a) && InPlace(past, a)
  {
    if !(h.past == past && h.last == a) { InOrderThroughout(cfg, h.past, past, a); }
  }

  // Every action of every run from a fresh start is in order at its moment, and
  // calls and writes name the position the trade then holds.
  lemma EveryActionInOrder(cfg: Config, es: seq<Event>, w: World, past: History<Action>, a: Action)
    requires Run(cfg, Start, es, w) && Moment(w.log, past, a)
    ensures InOrder(cfg, past, a) && InPlace(past, a)
  {
    RunKept(cfg, Start, es, w);
    InOrderThroughout(cfg, w.log, past, a);
  }

  // No trade ever has more than retryCap + 1 failures without a reset.
  lemma {:induction false} FailuresBounded(cfg: Config, h: History<Action>, id: nat)
    requires Orderly(cfg, h)
    ensures TallyOf(Of(h, id)).failures <= cfg.retryCap + 1
  {
    if h.Then? { FailuresBounded(cfg, h.past, id); }
  }

  lemma {:induction false} OrderlyBefore(cfg: Config, past: History<Action>, h: History<Action>)
    requires Orderly(cfg, h) && Continues(past, h)
    ensures Orderly(cfg, past)
  {
    if h != past { OrderlyBefore(cfg, past, h.past); }
  }

  // The counter of a monitored trade is the failures its history shows, within the
  // cap; at no moment does a history show more than the cap plus one.
  lemma LadderHolds(cfg: Config, es: seq<Event>, w: World, id: nat, past: History<Action>)
    requires Run(cfg, Start, es, w) && Continues(past, w.log)
    ensures id < |w.rows| && Monitored(w.rows[id]) ==>
              Count(Entry(w.mem.failures, id)) == TallyOf(Of(w.log, id)).failures <= cfg.retryCap
    ensures TallyOf(Of(past, id)).failures <= cfg.retryCap + 1
  {
    RunKept(cfg, Start, es, w);
    if id < |w.rows| { assert Fit(cfg, ViewOf(w, id)); }
    OrderlyBefore(cfg, past, w.log);
    FailuresBounded(cfg, past, id);
  }

  // Between two operator retries a trade is marked stuck at most once and its
  // operator is told at most once, restarts included.
  lemma {:induction false} OneAlertAnEpisode(cfg: Config, h: History<Action>, id: nat)
    requires Orderly(cfg, h)
    ensures TallyOf(Of(h, id)).alerts <= TallyOf(Of(h, id)).marks <= 1
  {
    if h.Then? { OneAlertAnEpisode(cfg, h.past, id); }
  }

  // ---- The retry ladder under a persistent signal --------------------------

  // Trade id shows a stop or take-profit whenever it is evaluated, every close
  // of it fails, and neither a restart nor an operator interferes.
  ghost predicate Persists(e: Event, id: nat) {
    && !e.Restart? && !Names(e, id)
    && (e.MonitorEvent? ==> Hopeless(e.env(id)))
  }

  predicate Hopeless(t: Tick) {
    t.nearDaysLeft > 0 && !t.signal.Hold? && t.credit.None?
  }

  // Where on the ladder a trade with this row and tally is, counting from `from`.
  predicate OnLadder(cfg: Config, r: Row, t: Tally, from: Tally) {
    if Monitored(r) then
      && t.calls == from.calls + t.failures
      && t.evaluated == from.evaluated + t.failures * Confirm(cfg) + t.signals
    else
      && Stuck(r) && t.calls == from.calls + cfg.retryCap
      && t.evaluated == from.evaluated + (cfg.retryCap + 1) * Confirm(cfg)
  }

  ghost predicate Climbs(cfg: Config, v: View, from: Tally) {
    OnLadder(cfg, v.row, TallyOf(Own(v)), from)
  }

  lemma RungsAdd(c: nat, f: nat)
    ensures (f + 1) * c == f * c + c
  {
  }

  // The signal is confirmed: a close attempt, or the end of the ladder.
  lemma ConfirmedClimbs(cfg: Config, v: View, cause: Cause, t: Tick, from: Tally)
    requires Ready(cfg, v) && Hopeless(t) && cause in {StopLoss, TakeProfit}
    requires Count(v.failures) == TallyOf(Own(v)).failures <= cfg.retryCap
    requires TallyOf(Own(v)).signals == Confirm(cfg) && Climbs(cfg, v, from)
    ensures if Count(v.failures) >= cfg.retryCap then Climbs(cfg, MarkStuckAndNotify(cfg, v, t), from)
            else Climbs(cfg, CloseOrCount(v, cause, Some(t.spread), t), from)
  {
    RungsAdd(Confirm(cfg), Count(v.failures));
    if Count(v.failures) >= cfg.retryCap {
      MarkCounted(cfg, v, t);
    } else {
      CloseCounted(cfg, v, cause, Some(t.spread), t);
    }
  }

  lemma MonitorClimbs(cfg: Config, v: View, t: Tick, from: Tally)
    requires Counted(cfg, v) && Orderly(cfg, v.log) && Monitored(v.row) && Hopeless(t) && Climbs(cfg, v, from)
    ensures Climbs(cfg, Monitor(cfg, v, t), from)
  {
    if !(v.entered || v.rolled || !t.spotKnown || !t.ivKnown) {
      var e := Evaluated(v.id, true, t.spread);
      var seen := Say(v, e).(row := v.row.(lastSpread := t.spread));
      assert Own(seen) == Then(Own(v), e);
      if Count(v.pending) + 1 >= cfg.confirmTicks {
        ConfirmedClimbs(cfg, seen.(pending := None), if t.signal.Stop? then StopLoss else TakeProfit, t, from);
      }
    }
  }

  lemma PassClimbs(cfg: Config, w: World, ids: seq<nat>, env: nat -> Tick, k: nat, from: Tally)
    requires Whole(cfg, w) && k < |ids| && ids[k] < |w.rows|
    requires forall i, j :: 0 <= i < j < |ids| ==> ids[i] != ids[j]
    requires forall i :: i in ids ==> i < |w.rows| && Monitored(w.rows[i])
    requires Hopeless(env(ids[k])) && Climbs(cfg, ViewOf(w, ids[k]), from)
    ensures Climbs(cfg, ViewOf(MonitorAll(cfg, w, ids, env), ids[k]), from)
  {
    var id, reached := ids[k], Reached(cfg, w, ids, env, k);
    assert forall i :: i in ids[..k] ==> i in ids;
    MonitorAllKept(cfg, w, ids[..k], env);
    MonitorAllOn(cfg, w, ids, env, k);
    assert id in ids && Fit(cfg, ViewOf(reached, id));
    MonitorClimbs(cfg, ViewOf(reached, id), env(id), from);
  }

  lemma MonitorTickClimbs(cfg: Config, w: World, order: seq<nat>, env: nat -> Tick, id: nat, from: Tally)
    requires Inv(cfg, w) && Lists(order, w.rows) && id in order && Hopeless(env(id))
    requires Climbs(cfg, ViewOf(w, id), from)
    ensures Climbs(cfg, ViewOf(MonitorTick(cfg, w, order, env), id), from)
  {
    var r := MonitorTick(cfg, w, order, env);
    if w.mem.paused || w.mem.state.Halted? {
    } else if Breached(cfg, w) {
      assert Own(ViewOf(r, id)) == Own(ViewOf(w, id));
    } else {
      var start := w.(mem := w.mem.(state := Monitoring));
      var k :| 0 <= k < |order| && order[k] == id;
      Overlooked(cfg, w, start);
      PassClimbs(cfg, start, order, env, k, from);
      var all := MonitorAll(cfg, start, order, env);
      assert r.log == all.log && r.rows == all.rows;
    }
  }

  lemma StepClimbs(cfg: Config, w: World, e: Event, id: nat, from: Tally)
    requires Inv(cfg, w) && Enabled(w, e) && id < |w.rows| && Persists(e, id) && Climbs(cfg, ViewOf(w, id), from)
    ensures id < |Step(cfg, w, e).rows| && Climbs(cfg, ViewOf(Step(cfg, w, e), id), from)
  {
    if !Monitored(w.rows[id]) {
      UnseenUntouched(cfg, w, e, id);
    } else {
      match e
      case MonitorEvent(order, env) => MonitorTickClimbs(cfg, w, order, env, id, from);
      case ScanEvent(order, cs, empty) => ScanTickElsewhere(cfg, w, order, cs, empty, id);
      case OperatorRetry(i) => if i < |w.rows| { CommandElsewhere(w, Retried(ViewOf(w, i)), id); }
      case OperatorClose(i, spread) => if i < |w.rows| { CommandElsewhere(w, HandClosed(ViewOf(w, i), spread), id); }
      case Reconcile(i) => CommandElsewhere(w, Reconciled(ViewOf(w, i)), id);
      case _ =>
    }
  }

  lemma {:induction false} RunClimbs(cfg: Config, w: World, es: seq<Event>, w': World, id: nat, from: Tally)
    requires Inv(cfg, w) && Run(cfg, w, es, w') && id < |w.rows| && Climbs(cfg, ViewOf(w, id), from)
    requires forall e :: e in es ==> Persists(e, id)
    ensures id < |w'.rows| && Climbs(cfg, ViewOf(w', id), from)
    decreases |es|
  {
    if es != [] {
      StepKept(cfg, w, es[0]);
      StepClimbs(cfg, w, es[0], id, from);
      RunClimbs(cfg, Step(cfg, w, es[0]), es[1..], w', id, from);
    }
  }

  // What s evaluations have led to.
  predicate AtRung(cfg: Config, r: Row, s: int, calls: int) {
    var rungs := (cfg.retryCap + 1) * Confirm(cfg);
    && 0 <= s <= rungs
    && calls == (if s / Confirm(cfg) < cfg.retryCap then s / Confirm(cfg) else cfg.retryCap)
    && (Stuck(r) <==> s == rungs) && (Monitored(r) <==> s < rungs)
  }

  // What n ticks that could evaluate the trade have led to.
  predicate ClimbedTo(cfg: Config, r: Row, n: nat, calls: int) {
    var c := if cfg.confirmTicks > 1 then cfg.confirmTicks else 1;
    && calls == (if n / c < cfg.retryCap then n / c else cfg.retryCap)
    && (Stuck(r) <==> n >= (cfg.retryCap + 1) * c) && (Monitored(r) <==> n < (cfg.retryCap + 1) * c)
  }

  // A tick in which the monitor can evaluate the trade: the engine is awake, the
  // trade was not entered or rolled just now, and its spot price and IV are known.
  ghost predicate Evaluates(cfg: Config, w: World, e: Event, id: nat) {
    e.MonitorEvent? && Awake(cfg, w) && LookedAt(w, id, e.env(id)) && e.env(id).ivKnown
  }

  // How many of a run's ticks are such.
  ghost function Chances(cfg: Config, w: World, es: seq<Event>, id: nat): nat
    decreases |es|
  {
    if es == [] || !Enabled(w, es[0]) then 0
    else (if Evaluates(cfg, w, es[0], id) then 1 else 0) + Chances(cfg, Step(cfg, w, es[0]), es[1..], id)
  }

  // From zero counters, under a signal that persists and a close that always
  // fails: after n ticks that can evaluate the trade there have been min(n / C, CAP)
  // close calls, and it is stuck exactly once n has come to (CAP + 1) * C, being
  // monitored until then.  Other ticks and other trades do not matter.
  lemma PersistentStop(cfg: Config, w: World, es: seq<Event>, w': World, id: nat)
    requires Inv(cfg, w) && id < |w.rows| && Monitored(w.rows[id])
    requires Count(Entry(w.mem.failures, id)) == 0 && Count(Entry(w.mem.pending, id)) == 0
    requires Run(cfg, w, es, w') && forall e :: e in es ==> Persists(e, id)
    ensures var n, calls := Chances(cfg, w, es, id), TallyOf(Of(w'.log, id)).calls - TallyOf(Of(w.log, id)).calls;
            id < |w'.rows| && ClimbedTo(cfg, w'.rows[id], n, calls)
  {
    FootOfTheLadder(cfg, w, id);
    RunClimbs(cfg, w, es, w', id, TallyOf(Of(w.log, id)));
    RunTakesItsChances(cfg, w, es, w', id);
    RunKept(cfg, w, es, w');
    EndOfTheRun(cfg, w', id, TallyOf(Of(w.log, id)), Chances(cfg, w, es, id));
  }

  lemma EndOfTheRun(cfg: Config, w: World, id: nat, from: Tally, n: nat)
    requires Inv(cfg, w) && id < |w.rows| && Climbs(cfg, ViewOf(w, id), from)
    requires var now := TallyOf(Of(w.log, id));
             now.evaluated <= from.evaluated + n && (Monitored(w.rows[id]) ==> now.evaluated == from.evaluated + n)
    ensures ClimbedTo(cfg, w.rows[id], n, TallyOf(Of(w.log, id)).calls - from.calls)
  {
    var now := TallyOf(Of(w.log, id));
    OnARung(cfg, w, id, from);
    RungsByChances(cfg, w.rows[id], now.evaluated - from.evaluated, n, now.calls - from.calls);
  }

  lemma RungsByChances(cfg: Config, r: Row, s: int, n: nat, calls: int)
    requires AtRung(cfg, r, s, calls) && s <= n && (Monitored(r) ==> s == n)
    ensures ClimbedTo(cfg, r, n, calls)
  {
    if !Monitored(r) {
      DividingKeepsOrder(s, n, Confirm(cfg));
      Quotient(Confirm(cfg), cfg.retryCap + 1, 0, cfg.retryCap + 1);
    }
  }

  lemma DividingKeepsOrder(a: nat, b: nat, c: nat)
    requires a <= b && c > 0
    ensures a / c <= b / c
  {
    var x, y := a / c, b / c;
    if x > y { ScalingKeepsOrder(y + 1, x, c); }
  }

  // While the trade is monitored each chance is taken; afterwards none is.
  lemma StepTakesItsChance(cfg: Config, w: World, e: Event, id: nat)
    requires Inv(cfg, w) && Enabled(w, e) && Persists(e, id) && id < |w.rows|
    ensures id < |Step(cfg, w, e).rows|
    ensures TallyOf(Of(Step(cfg, w, e).log, id)).evaluated ==
            TallyOf(Of(w.log, id)).evaluated + if Monitored(w.rows[id]) && Evaluates(cfg, w, e, id) then 1 else 0
    ensures Monitored(Step(cfg, w, e).rows[id]) ==> Monitored(w.rows[id])
  {
    if !Monitored(w.rows[id]) {
      UnseenUntouched(cfg, w, e, id);
    } else if e.MonitorEvent? {
      assert id in e.order;
      TickTakesItsChance(cfg, w, e.order, e.env, id);
    } else {
      match e
      case ScanEvent(order, cs, empty) => ScanTickElsewhere(cfg, w, order, cs, empty, id);
      case OperatorRetry(i) => if i < |w.rows| { CommandElsewhere(w, Retried(ViewOf(w, i)), id); }
      case OperatorClose(i, spread) => if i < |w.rows| { CommandElsewhere(w, HandClosed(ViewOf(w, i), spread), id); }
      case Reconcile(i) => CommandElsewhere(w, Reconciled(ViewOf(w, i)), id);
      case _ =>
    }
  }

  lemma TickTakesItsChance(cfg: Config, w: World, order: seq<nat>, env: nat -> Tick, id: nat)
    requires Lists(order, w.rows) && id in order && Hopeless(env(id))
    ensures var e := MonitorEvent(order, env);
            && id < |Step(cfg, w, e).rows|
            && TallyOf(Of(Step(cfg, w, e).log, id)).evaluated ==
               TallyOf(Of(w.log, id)).evaluated + if Evaluates(cfg, w, e, id) then 1 else 0
  {
    AwakeIsNotBreached(cfg, w);
    var e := MonitorEvent(order, env);
    if Awake(cfg, w) {
      EveryTickActs(cfg, w, order, env, id);
      var a, b := TradeOf(w, id), TradeOf(Step(cfg, w, e), id);
      if Evaluates(cfg, w, e, id) { SignalEvaluatesOnce(cfg, id, a, b, env(id)); }
    } else if !w.mem.paused && !w.mem.state.Halted? {
      assert Of(Step(cfg, w, e).log, id) == Of(w.log, id);
    }
  }

  lemma SignalEvaluatesOnce(cfg: Config, id: nat, a: Trade, b: Trade, t: Tick)
    requires Signals(cfg, id, a, b, t) && t.credit.None?
    ensures TallyOf(b.own).evaluated == TallyOf(a.own).evaluated + 1
  {
    var seen := Evaluation(id, a, t);
    assert TallyOf(seen.own).evaluated == TallyOf(a.own).evaluated + 1;
    assert TallyOf(Then(seen.own, Marked(id))).evaluated == TallyOf(seen.own).evaluated;
  }

  lemma {:induction false} RunTakesItsChances(cfg: Config, w: World, es: seq<Event>, w': World, id: nat)
    requires Inv(cfg, w) && Run(cfg, w, es, w') && id < |w.rows| && forall e :: e in es ==> Persists(e, id)
    ensures id < |w'.rows| && (Monitored(w'.rows[id]) ==> Monitored(w.rows[id]))
    ensures var was, now := TallyOf(Of(w.log, id)).evaluated, TallyOf(Of(w'.log, id)).evaluated;
            && now <= was + Chances(cfg, w, es, id)
            && (Monitored(w'.rows[id]) ==> now == was + Chances(cfg, w, es, id))
    decreases |es|
  {
    if es != [] {
      StepKept(cfg, w, es[0]);
      StepTakesItsChance(cfg, w, es[0], id);
      RunTakesItsChances(cfg, Step(cfg, w, es[0]), es[1..], w', id);
    }
  }

  lemma FootOfTheLadder(cfg: Config, w: World, id: nat)
    requires Inv(cfg, w) && id < |w.rows| && Monitored(w.rows[id])
    requires Count(Entry(w.mem.failures, id)) == 0 && Count(Entry(w.mem.pending, id)) == 0
    ensures Climbs(cfg, ViewOf(w, id), TallyOf(Of(w.log, id)))
  {
    assert Fit(cfg, ViewOf(w, id));
  }

  lemma OnARung(cfg: Config, w: World, id: nat, from: Tally)
    requires Inv(cfg, w) && id < |w.rows| && Climbs(cfg, ViewOf(w, id), from)
    ensures var t := TallyOf(Of(w.log, id)); AtRung(cfg, w.rows[id], t.evaluated - from.evaluated, t.calls - from.calls)
  {
    assert Fit(cfg, ViewOf(w, id));
    LadderInRungs(cfg, w.rows[id], TallyOf(Of(w.log, id)), from);
  }

  lemma LadderInRungs(cfg: Config, r: Row, t: Tally, from: Tally)
    requires OnLadder(cfg, r, t, from) && (Monitored(r) ==> t.failures <= cfg.retryCap && t.signals < Confirm(cfg))
    ensures AtRung(cfg, r, t.evaluated - from.evaluated, t.calls - from.calls)
  {
    if Monitored(r) {
      Quotient(Confirm(cfg), t.failures, t.signals, cfg.retryCap);
    } else {
      Quotient(Confirm(cfg), cfg.retryCap + 1, 0, cfg.retryCap + 1);
    }
  }

  lemma ScalingKeepsOrder(a: int, b: int, c: nat)
    ensures a <= b ==> a * c <= b * c
  {
  }

  lemma Quotient(c: nat, f: nat, g: nat, cap: nat)
    requires g < c && f <= cap
    ensures (f * c + g) / c == f
    ensures f * c + g < (cap + 1) * c
  {
    var d := (f * c + g) / c;
    assert f * c + g == d * c + (f * c + g) % c;
    ScalingKeepsOrder(d + 1, f, c);
    ScalingKeepsOrder(f + 1, d, c);
    ScalingKeepsOrder(f + 1, cap + 1, c);
  }

  // ---- Halt ---------------------------------------------------------------

  // Nothing since `past` has called the executor.
  predicate QuietSince(past: History<Action>, h: History<Action>) {
    h == past || (h.Then? && !CallsExecutor(h.last) && QuietSince(past, h.past))
  }

  lemma {:induction false} QuietThroughout(a: History<Action>, b: History<Action>, c: History<Action>)
    requires QuietSince(a, b) && QuietSince(b, c)
    ensures QuietSince(a, c)
  {
    if c != b { QuietThroughout(a, b, c.past); }
  }

  lemma QuietStep(cfg: Config, w: World, e: Event)
    requires Enabled(w, e) && !e.Restart? && (Breached(cfg, w) || w.mem.state.Halted?)
    ensures var r := Step(cfg, w, e);
            && QuietSince(w.log, r.log) && r.mem.todayPnl == w.mem.todayPnl
            && (w.mem.state.Halted? ==> r.mem.state.Halted?)
            && ((e.MonitorEvent? || e.ScanEvent?) && !w.mem.paused ==> r.mem.state.Halted?)
  {
    assert QuietSince(w.log, w.log);
  }

  // A tick of an engine that is neither paused nor halted halts it exactly when the
  // day's P&L is at or below minus the limit l; it then calls and changes nothing,
  // and says so if there is anyone to tell.  Nothing but a tick halts the engine.
  lemma HaltsExactlyAtTheLimit(cfg: Config, w: World, e: Event, l: real)
    requires Enabled(w, e) && l >= 0.0 && (l == cfg.lossLimit || l == -cfg.lossLimit) && !w.mem.state.Halted?
    ensures var r := Step(cfg, w, e);
            && (r.mem.state.Halted? <==> (e.MonitorEvent? || e.ScanEvent?) && !w.mem.paused && w.mem.todayPnl <= -l)
            && (r.mem.state.Halted? ==>
                  && r.rows == w.rows && r.mem == w.mem.(state := Halted)
                  && r.log == if cfg.hasNotifier then Then(w.log, HaltAlert) else w.log)
  {
    match e
    case ScanEvent(order, cs, empty) =>
      if !Breached(cfg, w) { ScanLoopHalts(cfg, w.(mem := w.mem.(state := Ranking)), cs, |order|); }
    case _ =>
  }

  lemma {:induction false} ScanLoopHalts(cfg: Config, w: World, cs: seq<Candidate>, open: nat)
    requires !w.mem.state.Halted? && !Breached(cfg, w)
    ensures !ScanLoop(cfg, w, cs, open).mem.state.Halted?
    decreases |cs|
  {
    if cs != [] {
      if !Approved(cfg, cs[0], open) {
        ScanLoopHalts(cfg, w, cs[1..], open);
      } else {
        var entered := Enter(w, cs[0]);
        var open' := if cs[0].answer.Fill? then open + 1 else open;
        if !cs[0].answer.LegRiskRaised? && open' < cfg.maxPositions { ScanLoopHalts(cfg, entered, cs[1..], open'); }
      }
    }
  }

  // From any world at or over the loss limit l, no run without a restart calls the
  // executor again; its first tick while not paused halts the engine, for good.
  lemma {:induction false} LossLimitIsFinal(cfg: Config, w: World, es: seq<Event>, w': World, l: real)
    requires Run(cfg, w, es, w') && Restart !in es
    requires l >= 0.0 && (l == cfg.lossLimit || l == -cfg.lossLimit)
    requires w.mem.todayPnl <= -l || w.mem.state.Halted?
    ensures QuietSince(w.log, w'.log)
    ensures w.mem.state.Halted? ==> w'.mem.state.Halted?
    ensures es != [] && (es[0].MonitorEvent? || es[0].ScanEvent?) && !w.mem.paused ==> w'.mem.state.Halted?
    decreases |es|
  {
    if es != [] {
      assert es[0] in es;
      QuietStep(cfg, w, es[0]);
      var r := Step(cfg, w, es[0]);
      LossLimitIsFinal(cfg, r, es[1..], w', l);
      QuietThroughout(w.log, r.log, w'.log);
    }
  }

  // ---- The position limit -------------------------------------------------

  function Members(s: seq<nat>): set<nat> {
    set x | x in s
  }

  lemma {:induction false} DistinctCount(s: seq<nat>)
    requires forall i, j :: 0 <= i < j < |s| ==> s[i] != s[j]
    ensures |Members(s)| == |s|
  {
    if s == [] {
      assert Members(s) == {};
    } else {
      var init, last := s[..|s| - 1], s[|s| - 1];
      DistinctCount(init);
      assert s == init + [last] && last !in Members(init);
      assert Members(s) == Members(init) + {last};
    }
  }

  lemma ListedCount(order: seq<nat>, rows: seq<Row>)
    requires Lists(order, rows)
    ensures |MonitoredIds(rows)| == |order|
  {
    DistinctCount(order);
    assert MonitoredIds(rows) == Members(order);
  }

  lemma {:induction false} SubsetIsSmaller(a: set<nat>, b: set<nat>)
    requires a <= b
    ensures |a| <= |b|
  {
    if a != {} {
      var x :| x in a;
      SubsetIsSmaller(a - {x}, b - {x});
    }
  }

  function Larger(a: nat, b: nat): nat {
    if a < b then b else a
  }

  // A scan stops at the limit, wherever it starts.
  lemma {:induction false} ScanLoopCapped(cfg: Config, w: World, cs: seq<Candidate>, open: nat)
    requires |MonitoredIds(w.rows)| == open
    ensures |MonitoredIds(ScanLoop(cfg, w, cs, open).rows)| <= Larger(open, cfg.maxPositions)
    decreases |cs|
  {
    if cs != [] {
      if !Approved(cfg, cs[0], open) {
        ScanLoopCapped(cfg, w, cs[1..], open);
      } else {
        var c, entered := cs[0], Enter(w, cs[0]);
        var open' := if c.answer.Fill? then open + 1 else open;
        if c.answer.Fill? {
          assert MonitoredIds(entered.rows) == MonitoredIds(w.rows) + {|w.rows|};
        }
        if !c.answer.LegRiskRaised? && !Breached(cfg, entered) && open' < cfg.maxPositions {
          ScanLoopCapped(cfg, entered, cs[1..], open');
        }
      }
    }
  }

  function Retries(es: seq<Event>): nat {
    if es == [] then 0 else (if es[0].OperatorRetry? then 1 else 0) + Retries(es[1..])
  }

  lemma MonitoringAddsNone(cfg: Config, w: World, e: Event)
    requires Enabled(w, e) && e.MonitorEvent?
    ensures |MonitoredIds(Step(cfg, w, e).rows)| <= |MonitoredIds(w.rows)|
  {
    var r := Step(cfg, w, e);
    assert |r.rows| == |w.rows|;
    forall id | id in MonitoredIds(r.rows) ensures id in MonitoredIds(w.rows) {
      if !Monitored(w.rows[id]) { UnseenUntouched(cfg, w, e, id); }
    }
    SubsetIsSmaller(MonitoredIds(r.rows), MonitoredIds(w.rows));
  }

  lemma StepCapped(cfg: Config, w: World, e: Event)
    requires Enabled(w, e)
    ensures |MonitoredIds(Step(cfg, w, e).rows)| <= Larger(|MonitoredIds(w.rows)|, cfg.maxPositions) + Retries([e])
  {
    var r := Step(cfg, w, e);
    match e
    case ScanEvent(order, cs, empty) =>
      ListedCount(order, w.rows);
      ScanLoopCapped(cfg, w.(mem := w.mem.(state := Ranking)), cs, |order|);
    case OperatorRetry(id) =>
      assert MonitoredIds(r.rows) <= MonitoredIds(w.rows) + {id};
      SubsetIsSmaller(MonitoredIds(r.rows), MonitoredIds(w.rows) + {id});
    case MonitorEvent(_, _) => MonitoringAddsNone(cfg, w, e);
    case _ =>
      assert MonitoredIds(r.rows) <= MonitoredIds(w.rows);
      SubsetIsSmaller(MonitoredIds(r.rows), MonitoredIds(w.rows));
  }

  // Over any run the monitored positions stay within the limit, but for those an
  // operator puts back.
  lemma {:induction false} PositionLimitHolds(cfg: Config, w: World, es: seq<Event>, w': World)
    requires Run(cfg, w, es, w')
    ensures |MonitoredIds(w'.rows)| <= Larger(|MonitoredIds(w.rows)|, cfg.maxPositions) + Retries(es)
    decreases |es|
  {
    if es != [] {
      StepCapped(cfg, w, es[0]);
      assert Retries(es) == Retries([es[0]]) + Retries(es[1..]);
      PositionLimitHolds(cfg, Step(cfg, w, es[0]), es[1..], w');
    }
  }

  // ---- Entries and rolls --------------------------------------------------

  // Every entry ever submitted was worth it, the book within every limit.
  lemma EveryEntryCovered(cfg: Config, es: seq<Event>, w: World, past: History<Action>, c: Candidate)
    requires Run(cfg, Start, es, w) && Moment(w.log, past, EnterCall(c))
    ensures c.ev >= cfg.minEv && c.qty > 0.0 && c.marginOk && Tradable(cfg.gate, c.quotes, c.qty, false)
    ensures cfg.gate.sizeForQty && cfg.gate.sizeData && c.quotes.nearSizes.Some? && c.quotes.farSizes.Some? ==>
              c.quotes.nearSizes.value.0 >= c.qty && c.quotes.farSizes.value.1 >= c.qty
  {
    EveryActionInOrder(cfg, es, w, past, EnterCall(c));
    GateExactly(cfg.gate, c.quotes, c.qty, false);
  }

  // Every roll ever submitted leaves the held near leg for another, far enough
  // before the far leg where that can be told, for more premium than it costs, and
  // within the limits that apply to what it trades.
  lemma EveryRollChecked(cfg: Config, es: seq<Event>, w: World, past: History<Action>, a: Action)
    requires Run(cfg, Start, es, w) && Moment(w.log, past, a) && a.RollCall?
    ensures Held(Of(past, a.id)) == Some(a.held) && Some(a.to.near) != a.held.near && a.to.marginOk
    ensures a.to.gapDays.Some? ==> a.to.gapDays.value >= cfg.minRollGap
    ensures a.to.quotes.nearBid * a.held.qty > a.to.cost
    ensures Tradable(cfg.gate, a.to.quotes, a.held.qty, true)
  {
    EveryActionInOrder(cfg, es, w, past, a);
    GateExactly(cfg.gate, a.to.quotes, a.held.qty, true);
  }
}
