/**
 The retry ladder: the engine's counters are what the history says, and every
 action is in order at its moment.
 */
module EngineLadder {
  import opened Histories
  import opened Options
  import opened TradeStore
  import opened EngineSpec
  import opened EngineViews

  // What a trade's own history says: failed close and roll attempts since the last
  // reset; stop or take-profit signals in a row, not yet spent on a close attempt;
  // stuck marks and stuck alerts since an operator last retried it; and, over the
  // whole history, the executor calls made for it and the times it was evaluated.
  datatype Tally = Tally(failures: nat, signals: nat, marks: nat, alerts: nat, calls: nat, evaluated: nat)

  const NoTally := Tally(0, 0, 0, 0, 0, 0)

  function Tallied(t: Tally, a: Action): Tally {
    match a
    case Restarted => t.(failures := 0, signals := 0)
    case Evaluated(_, signal, _) => t.(signals := if signal then t.signals + 1 else 0, evaluated := t.evaluated + 1)
    case CloseCall(_, _, cause, credit) =>
      if credit.Some? then t.(failures := 0, signals := 0, calls := t.calls + 1)
      else t.(failures := if cause == DrainClose then t.failures else t.failures + 1,
              signals := if cause in {StopLoss, TakeProfit} then 0 else t.signals,
              calls := t.calls + 1)
    case RollCall(_, _, _, done) => t.(failures := if done then 0 else t.failures + 1, calls := t.calls + 1)
    case NoRoll(_) => t.(failures := t.failures + 1)
    case Marked(_) => t.(failures := 0, signals := 0, marks := t.marks + 1)
    case StuckAlert(_) => t.(alerts := t.alerts + 1)
    case WasReset(_) => t.(failures := 0, marks := 0, alerts := 0)
    case _ => t
  }

  function TallyOf(own: History<Action>): Tally {
    if own.Nothing? then NoTally else Tallied(TallyOf(own.past), own.last)
  }

  lemma {:induction false} BlankTally(h: History<Action>, id: nat)
    requires Unmentioned(h, id)
    ensures TallyOf(Of(h, id)) == NoTally
  {
    if h.Then? { BlankTally(h.past, id); }
  }

  function Confirm(cfg: Config): nat {
    if cfg.confirmTicks > 1 then cfg.confirmTicks else 1
  }

  // When an action is in order, given what happened before.
  predicate InOrder(cfg: Config, past: History<Action>, a: Action) {
    match a
    case CloseCall(id, _, cause, _) =>
      var t := TallyOf(Of(past, id));
      // never for a stuck trade, never beyond the retry budget, and a stop or
      // take-profit only on enough consecutive signals
      && t.marks == 0
      && (match cause
          case RollCap => t.failures == cfg.retryCap
          case DrainClose => t.failures <= cfg.retryCap
          case _ => t.failures < cfg.retryCap)
      && (cause in {StopLoss, TakeProfit} ==> t.signals >= Confirm(cfg))
    case RollCall(id, held, to, _) =>
      var t := TallyOf(Of(past, id));
      t.marks == 0 && t.failures < cfg.retryCap && Rollable(cfg, held.near, held.qty, to) && PaysOff(to, held.qty)
    case NoRoll(id) => TallyOf(Of(past, id)).failures < cfg.retryCap
    case Marked(id) => TallyOf(Of(past, id)).marks == 0
    case StuckAlert(id) => TallyOf(Of(past, id)).marks == 1 && TallyOf(Of(past, id)).alerts == 0
    case WroteRoll(_, _, _, pnl) => pnl < 0.0
    case EnterCall(c) =>
      c.ev >= cfg.minEv && c.qty > 0.0 && PassesLiquidityGate(cfg.gate, c.quotes, c.qty, false) && c.marginOk
    case _ => true
  }

  predicate Orderly(cfg: Config, h: History<Action>) {
    h.Nothing? || (Orderly(cfg, h.past) && InOrder(cfg, h.past, h.last))
  }

  // ---- Memory, row and history of one trade agree --------------------------

  ghost predicate Counted(cfg: Config, v: View) {
    var t := TallyOf(Own(v));
    && t.alerts <= t.marks <= 1
    && (Monitored(v.row) ==>
          && Count(v.failures) == t.failures <= cfg.retryCap
          && Count(v.pending) == t.signals < Confirm(cfg)
          && !v.notified && t.marks == 0)
    && (Stuck(v.row) ==> t.failures == 0 && t.signals == 0 && t.marks == 1 && v.failures.None?)
  }

  // A monitored trade apart from its counters.
  ghost predicate Ready(cfg: Config, v: View) {
    Monitored(v.row) && !v.notified && TallyOf(Own(v)).marks == 0 && TallyOf(Own(v)).alerts == 0 && Orderly(cfg, v.log)
  }

  lemma CloseCounted(cfg: Config, v: View, cause: Cause, spread: Option<real>, t: Tick)
    requires Ready(cfg, v) && InOrder(cfg, v.log, CloseCall(v.id, PositionOf(v.row), cause, t.credit))
    ensures var (r, failed) := ClosePosition(v, cause, spread, t);
            var was := TallyOf(Own(v));
            && Orderly(cfg, r.log) && failed == t.credit.None?
            && (failed ==>
                  && r == v.(log := r.log)
                  && TallyOf(Own(r)) == was.(
                       failures := if cause == DrainClose then was.failures else was.failures + 1,
                       signals := if cause in {StopLoss, TakeProfit} then 0 else was.signals,
                       calls := was.calls + 1))
            && (!failed ==> Counted(cfg, r) && !r.row.result.IsOpen() && !Stuck(r.row))
  {
    var called := Say(v, CloseCall(v.id, PositionOf(v.row), cause, t.credit));
    assert Orderly(cfg, called.log);
    assert Own(called) == Then(Own(v), called.log.last);
  }

  lemma MarkCounted(cfg: Config, v: View, t: Tick)
    requires Ready(cfg, v)
    ensures var r := MarkStuckAndNotify(cfg, v, t);
            var was := TallyOf(Own(v));
            && Orderly(cfg, r.log) && Counted(cfg, r) && Stuck(r.row) && r.pending == v.pending
            && TallyOf(Own(r)) == was.(failures := 0, signals := 0, marks := 1,
                                       alerts := if cfg.hasNotifier && t.alertSent then 1 else 0)
  {
    var marked := Say(v, Marked(v.id));
    assert Orderly(cfg, marked.log);
    assert Own(marked) == Then(Own(v), Marked(v.id));
  }

  lemma CloseOrCountCounted(cfg: Config, v: View, cause: Cause, spread: Option<real>, t: Tick)
    requires Ready(cfg, v) && InOrder(cfg, v.log, CloseCall(v.id, PositionOf(v.row), cause, t.credit))
    requires cause in {NearExpired, StopLoss, TakeProfit}
    requires Count(v.failures) == TallyOf(Own(v)).failures
    requires Count(v.pending) == (if cause == NearExpired then TallyOf(Own(v)).signals else 0) < Confirm(cfg)
    ensures var r := CloseOrCount(v, cause, spread, t); Orderly(cfg, r.log) && Counted(cfg, r)
  {
    CloseCounted(cfg, v, cause, spread, t);
  }

  lemma ExpiryCounted(cfg: Config, v: View, t: Tick)
    requires Counted(cfg, v) && Monitored(v.row) && Orderly(cfg, v.log)
    ensures var r := OnExpiry(cfg, v, t); Orderly(cfg, r.log) && Counted(cfg, r)
  {
    if Count(v.failures) >= cfg.retryCap {
      MarkCounted(cfg, v, t);
    } else {
      CloseOrCountCounted(cfg, v, NearExpired, None, t);
    }
  }

  // The signal has just been seen.
  lemma SignalCounted(cfg: Config, v: View, t: Tick)
    requires Ready(cfg, v)
    requires Count(v.failures) == TallyOf(Own(v)).failures <= cfg.retryCap
    requires Count(v.pending) + 1 == TallyOf(Own(v)).signals <= Confirm(cfg)
    ensures var r := OnSignal(cfg, v, t); Orderly(cfg, r.log) && Counted(cfg, r)
  {
    var confirmed := v.(pending := None);
    if Count(v.pending) + 1 >= cfg.confirmTicks {
      if Count(v.failures) >= cfg.retryCap {
        MarkCounted(cfg, confirmed, t);
      } else {
        CloseOrCountCounted(cfg, confirmed, if t.signal.Stop? then StopLoss else TakeProfit, Some(t.spread), t);
      }
    }
  }

  // What comes in for the new leg is booked as a loss.
  lemma RollsCost(r: Row, c: RollCandidate)
    requires PaysOff(c, r.qty)
    ensures RollPnl(r, c.quotes.nearBid) < 0.0
  {
    var b, q := c.quotes.nearBid, r.qty;
    assert (0.0 - b) * q == 0.0 - b * q;
  }

  lemma {:induction false} FirstRollableIsFirst(cfg: Config, held: Option<string>, qty: real, cs: seq<RollCandidate>)
    returns (k: nat)
    ensures k <= |cs| && forall j :: 0 <= j < k ==> !Rollable(cfg, held, qty, cs[j])
    ensures var c := FirstRollable(cfg, held, qty, cs);
            if c.None? then k == |cs| else k < |cs| && cs[k] == c.value && Rollable(cfg, held, qty, cs[k])
  {
    k := 0;
    if cs != [] && !Rollable(cfg, held, qty, cs[0]) {
      var n := FirstRollableIsFirst(cfg, held, qty, cs[1..]);
      k := n + 1;
    }
  }

  lemma RollCounted(cfg: Config, v: View, t: Tick)
    requires Ready(cfg, v) && TallyOf(Own(v)).failures < cfg.retryCap
    ensures var (r, done) := TryRoll(cfg, v, t);
            && Ready(cfg, r) && r.failures == v.failures && r.pending == v.pending
            && TallyOf(Own(r)).signals == TallyOf(Own(v)).signals
            && TallyOf(Own(r)).failures == (if done then 0 else TallyOf(Own(v)).failures + 1)
  {
    var target := RollTarget(cfg, v.row, t);
    if target.None? {
      assert Own(Say(v, NoRoll(v.id))) == Then(Own(v), NoRoll(v.id));
    } else {
      var _ := FirstRollableIsFirst(cfg, v.row.near, v.row.qty, t.rolls);
      var called := Say(v, RollCall(v.id, PositionOf(v.row), target.value, t.rollDone));
      assert Orderly(cfg, called.log);
      assert Own(called) == Then(Own(v), called.log.last);
      RollsCost(v.row, target.value);
    }
  }

  lemma RollDueCounted(cfg: Config, v: View, t: Tick)
    requires Counted(cfg, v) && Monitored(v.row) && Orderly(cfg, v.log)
    ensures var r := OnRollDue(cfg, v, t); Orderly(cfg, r.log) && Counted(cfg, r)
  {
    if cfg.drain || cfg.drainAndNew {
      CloseCounted(cfg, v, DrainClose, Some(t.spread), t);
    } else if Count(v.failures) >= cfg.retryCap {
      CloseCounted(cfg, v, RollCap, Some(t.spread), t);
      var (closed, failed) := ClosePosition(v, RollCap, Some(t.spread), t);
      if failed { MarkCounted(cfg, closed, t); }
    } else {
      RollCounted(cfg, v, t);
    }
  }

  lemma QuoteCounted(cfg: Config, v: View, t: Tick)
    requires Counted(cfg, v) && Monitored(v.row) && Orderly(cfg, v.log)
    ensures var r := OnQuote(cfg, v, t); Orderly(cfg, r.log) && Counted(cfg, r)
  {
    var e := Evaluated(v.id, !t.signal.Hold?, t.spread);
    var seen := Say(v, e).(row := v.row.(lastSpread := t.spread));
    assert Own(seen) == Then(Own(v), e);
    if !t.signal.Hold? {
      SignalCounted(cfg, seen, t);
    } else if RollDue(cfg, v.row, t.nearDaysLeft) {
      RollDueCounted(cfg, seen.(pending := None), t);
    }
  }

  lemma MonitorCounted(cfg: Config, v: View, t: Tick)
    requires Counted(cfg, v) && Monitored(v.row) && Orderly(cfg, v.log)
    ensures var r := Monitor(cfg, v, t); Orderly(cfg, r.log) && Counted(cfg, r)
  {
    if v.entered || v.rolled || !t.spotKnown {
    } else if t.nearDaysLeft <= 0 {
      ExpiryCounted(cfg, v, t);
    } else if t.ivKnown {
      QuoteCounted(cfg, v, t);
    }
  }

  // ---- What operators and the reconciler do -------------------------------

  lemma RetriedCounted(cfg: Config, v: View)
    requires Counted(cfg, v) && Orderly(cfg, v.log) && (Stuck(v.row) ==> v.pending.None?)
    ensures var r := Retried(v); Orderly(cfg, r.log) && Counted(cfg, r) && !Stuck(r.row)
  {
    assert Own(Retried(v)) == Then(Own(v), WasReset(v.id));
  }

  lemma HandClosedCounted(cfg: Config, v: View, spread: real)
    requires Counted(cfg, v) && Orderly(cfg, v.log)
    ensures var r := HandClosed(v, spread); Orderly(cfg, r.log) && Counted(cfg, r) && !Stuck(r.row)
  {
    assert TallyOf(Own(HandClosed(v, spread))) == TallyOf(Own(v));
  }

  lemma ReconciledCounted(cfg: Config, v: View)
    requires Counted(cfg, v) && Orderly(cfg, v.log)
    ensures var r := Reconciled(v); Orderly(cfg, r.log) && Counted(cfg, r) && !Stuck(r.row)
  {
    assert TallyOf(Own(Reconciled(v))) == TallyOf(Own(v));
  }

  // A restart empties counters and flags.
  lemma RestartedCounted(cfg: Config, v: View)
    requires Counted(cfg, v)
    ensures Counted(cfg, Say(v, Restarted).(failures := None, pending := None, entered := false, rolled := false,
                                            notified := false, day := 0.0))
  {
    assert Own(Say(v, Restarted)) == Then(Own(v), Restarted);
  }
}
