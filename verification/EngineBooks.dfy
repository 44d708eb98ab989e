/**
 The table and the history: every close, roll and entry the executor reports done
 is written at once, nothing else is, and each trade's row holds open exactly the
 position its own history says.
 */
module EngineBooks {
  import opened Histories
  import opened Options
  import opened TradeStore
  import opened EngineSpec
  import opened EngineViews

  // ---- Calls and writes ---------------------------------------------------

  // What has to stand just before a call: an evaluation with a signal before a
  // stop or profit, one without before anything a roll leads to.
  predicate Prompted(past: History<Action>, call: Action) {
    match call
    case CloseCall(id, _, cause, _) =>
      cause == NearExpired ||
      (past.Then? && past.last.Evaluated? && past.last.id == id
       && (past.last.signal <==> cause in {StopLoss, TakeProfit}))
    case RollCall(id, _, _, _) => past.Then? && past.last.Evaluated? && past.last.id == id && !past.last.signal
    case _ => true
  }

  // The spread just evaluated.
  function JustSeen(past: History<Action>): real {
    if past.Then? && past.last.Evaluated? then past.last.spread else 0.0
  }

  // The label each cause of a close writes.
  predicate LabelFits(cause: Cause, pnl: real, result: Label) {
    && (cause == StopLoss ==> result == LossAutoStop)
    && (cause == TakeProfit ==> result == WinAutoTp)
    && (cause == RollCap ==> result == ClosedRollFailed)
    && (cause == DrainClose ==> result == ClosedDrain)
    && (cause == NearExpired ==> result == if pnl >= 0.0 then WinAutoTp else LossAutoStop)
  }

  // The write a call that went through leads to.
  predicate Answers(past: History<Action>, call: Action, write: Action) {
    match write
    case WroteClose(id, held, c) =>
      && call.CloseCall? && call.id == id && call.held == held && call.credit.Some?
      && LabelFits(call.cause, c.pnl, c.result)
      && c.value == if call.cause == NearExpired then call.credit.value else JustSeen(past)
    case WroteRoll(id, held, newNear, pnl) =>
      && call.RollCall? && call.id == id && call.held == held && call.done
      && newNear == call.to.near && pnl == (0.0 - call.to.quotes.nearBid) * held.qty
    case WroteOpen(_, held) =>
      && call.EnterCall? && call.candidate.answer.Fill?
      && held == Position(Some(call.candidate.near), Some(call.candidate.far), call.candidate.answer.row.qty)
    case _ => false
  }

  predicate WentThrough(call: Action) {
    match call
    case CloseCall(_, _, _, credit) => credit.Some?
    case RollCall(_, _, _, done) => done
    case EnterCall(c) => c.answer.Fill?
    case _ => false
  }

  predicate Writes(a: Action) {
    a.WroteClose? || a.WroteRoll? || a.WroteOpen?
  }

  // Each call that went through is followed by its write and each write preceded
  // by its call; an alert follows its mark.
  predicate Booked(h: History<Action>) {
    if h.Nothing? then true
    else if Writes(h.last) then
      && h.past.Then? && Answers(h.past.past, h.past.last, h.last)
      && Prompted(h.past.past, h.past.last) && Booked(h.past.past)
    else
      && !WentThrough(h.last) && Prompted(h.past, h.last) && Booked(h.past)
      && (h.last.StuckAlert? ==> h.past.Then? && h.past.last == Marked(h.last.id))
  }

  lemma CloseBooked(v: View, cause: Cause, spread: Option<real>, t: Tick)
    requires Booked(v.log) && Prompted(v.log, CloseCall(v.id, PositionOf(v.row), cause, t.credit))
    requires spread == if cause == NearExpired then None else Some(JustSeen(v.log))
    ensures Booked(ClosePosition(v, cause, spread, t).0.log) && Booked(CloseOrCount(v, cause, spread, t).log)
  {
    var called := Say(v, CloseCall(v.id, PositionOf(v.row), cause, t.credit));
    if t.credit.Some? {
      var r := ClosePosition(v, cause, spread, t).0;
      assert r.log.past == called.log && Answers(v.log, called.log.last, r.log.last);
    }
  }

  lemma MarkBooked(cfg: Config, v: View, t: Tick)
    requires Booked(v.log)
    ensures Booked(MarkStuckAndNotify(cfg, v, t).log)
  {
    assert Booked(Then(v.log, Marked(v.id)));
  }

  lemma RollBooked(cfg: Config, v: View, t: Tick)
    requires Booked(v.log) && v.log.Then? && v.log.last.Evaluated? && v.log.last.id == v.id && !v.log.last.signal
    ensures Booked(TryRoll(cfg, v, t).0.log)
  {
    var target := RollTarget(cfg, v.row, t);
    if target.Some? && t.rollDone {
      var call := RollCall(v.id, PositionOf(v.row), target.value, t.rollDone);
      var r := TryRoll(cfg, v, t).0;
      assert r.log.past == Then(v.log, call) && Answers(v.log, call, r.log.last);
    }
  }

  lemma SignalBooked(cfg: Config, v: View, t: Tick)
    requires Booked(v.log) && !t.signal.Hold? && v.log.Then? && v.log.last == Evaluated(v.id, true, t.spread)
    ensures Booked(OnSignal(cfg, v, t).log)
  {
    var confirmed := v.(pending := None);
    MarkBooked(cfg, confirmed, t);
    CloseBooked(confirmed, if t.signal.Stop? then StopLoss else TakeProfit, Some(t.spread), t);
  }

  lemma RollDueBooked(cfg: Config, v: View, t: Tick)
    requires Booked(v.log) && v.log.Then? && v.log.last == Evaluated(v.id, false, t.spread)
    ensures Booked(OnRollDue(cfg, v, t).log)
  {
    if cfg.drain || cfg.drainAndNew {
      CloseBooked(v, DrainClose, Some(t.spread), t);
    } else if Count(v.failures) >= cfg.retryCap {
      CloseBooked(v, RollCap, Some(t.spread), t);
      if t.credit.None? { MarkBooked(cfg, ClosePosition(v, RollCap, Some(t.spread), t).0, t); }
    } else {
      RollBooked(cfg, v, t);
    }
  }

  lemma MonitorBooked(cfg: Config, v: View, t: Tick)
    requires Booked(v.log)
    ensures Booked(Monitor(cfg, v, t).log)
  {
    if v.entered || v.rolled || !t.spotKnown {
    } else if t.nearDaysLeft <= 0 {
      MarkBooked(cfg, v, t);
      CloseBooked(v, NearExpired, None, t);
    } else if t.ivKnown {
      var seen := Say(v, Evaluated(v.id, !t.signal.Hold?, t.spread)).(row := v.row.(lastSpread := t.spread));
      if t.signal.Hold? {
        RollDueBooked(cfg, seen.(pending := None), t);
      } else {
        SignalBooked(cfg, seen, t);
      }
    }
  }

  // ---- What each trade holds ----------------------------------------------

  // The position a trade's own history leaves open.
  function Held(own: History<Action>): Option<Position> {
    if own.Nothing? then None
    else match own.last
         case WroteOpen(_, held) => Some(held)
         case WroteRoll(_, held, newNear, _) => Some(held.(near := Some(newNear)))
         case WroteClose(_, _, _) => None
         case ClosedByHand(_, _) => None
         case WasReconciled(_, _) => None
         case _ => Held(own.past)
  }

  // A retry has named the trade after it was closed, and no closing since.
  function Loose(own: History<Action>): bool {
    if own.Nothing? then false
    else match own.last
         case WasReset(_) => Held(own.past).None?
         case WroteOpen(_, _) => false
         case WroteClose(_, _, _) => false
         case ClosedByHand(_, _) => false
         case WasReconciled(_, _) => false
         case _ => Loose(own.past)
  }

  lemma {:induction false} BlankHeld(h: History<Action>, id: nat)
    requires Unmentioned(h, id)
    ensures Held(Of(h, id)).None? && !Loose(Of(h, id))
  {
    if h.Then? { BlankHeld(h.past, id); }
  }

  // Calls and writes name the position the trade holds at their moment.
  predicate InPlace(past: History<Action>, a: Action) {
    match a
    case CloseCall(id, held, _, _) => Held(Of(past, id)) == Some(held)
    case RollCall(id, held, _, _) => Held(Of(past, id)) == Some(held)
    case WroteClose(id, held, _) => Held(Of(past, id)) == Some(held)
    case WroteRoll(id, held, _, _) => Held(Of(past, id)) == Some(held)
    case WroteOpen(id, _) => Unmentioned(past, id)
    case ClosedByHand(id, was) => Held(Of(past, id)) == was
    case WasReconciled(id, was) => Held(Of(past, id)) == was
    case _ => true
  }

  predicate AllInPlace(h: History<Action>) {
    h.Nothing? || (AllInPlace(h.past) && InPlace(h.past, h.last))
  }

  // The row is open with the held position; a terminal row is never stuck, and
  // its status is closed unless it is loose.
  ghost predicate Placed(v: View) {
    && Held(Own(v)) == OpenPosition(v.row)
    && (if v.row.result.IsOpen() then v.row.status != StatusClosed && !Loose(Own(v))
        else v.row.status == if Loose(Own(v)) then StatusOpen else StatusClosed)
  }

  lemma RecordClosePlaced(v: View, cause: Cause, value: real, fees: real)
    requires Placed(v) && AllInPlace(v.log) && v.row.result.IsOpen()
    ensures var r := RecordClose(v, cause, value, fees); Placed(r) && AllInPlace(r.log)
  {
    var r := RecordClose(v, cause, value, fees);
    assert Own(r) == Then(Own(v), r.log.last);
  }

  lemma ClosePlaced(v: View, cause: Cause, spread: Option<real>, t: Tick)
    requires Placed(v) && AllInPlace(v.log) && v.row.result.IsOpen()
    ensures var r := ClosePosition(v, cause, spread, t).0; Placed(r) && AllInPlace(r.log)
    ensures var r := CloseOrCount(v, cause, spread, t); Placed(r) && AllInPlace(r.log)
    ensures t.credit.None? ==> ClosePosition(v, cause, spread, t).0.row == v.row
  {
    var called := Say(v, CloseCall(v.id, PositionOf(v.row), cause, t.credit));
    assert Own(called) == Then(Own(v), called.log.last);
    if t.credit.Some? {
      RecordClosePlaced(called, cause, if spread.Some? then spread.value else t.credit.value, t.closeFees);
    }
    var r := ClosePosition(v, cause, spread, t).0;
    assert Placed(r) ==> Placed(CloseOrCount(v, cause, spread, t)) by {
      assert Own(CloseOrCount(v, cause, spread, t)) == Own(r);
    }
  }

  lemma MarkPlaced(cfg: Config, v: View, t: Tick)
    requires Placed(v) && AllInPlace(v.log) && v.row.result.IsOpen()
    ensures var r := MarkStuckAndNotify(cfg, v, t); Placed(r) && AllInPlace(r.log)
  {
    var marked := Say(v, Marked(v.id));
    assert Held(Own(marked)) == Held(Own(v)) && Loose(Own(marked)) == Loose(Own(v)) && AllInPlace(marked.log);
    var told := Say(marked, StuckAlert(v.id));
    assert Held(Own(told)) == Held(Own(v)) && Loose(Own(told)) == Loose(Own(v));
  }

  lemma RollPlaced(cfg: Config, v: View, t: Tick)
    requires Placed(v) && AllInPlace(v.log) && v.row.result.IsOpen()
    ensures var r := TryRoll(cfg, v, t).0; Placed(r) && AllInPlace(r.log)
  {
    var target := RollTarget(cfg, v.row, t);
    if target.None? {
      var r := Say(v, NoRoll(v.id));
      assert Held(Own(r)) == Held(Own(v)) && Loose(Own(r)) == Loose(Own(v));
    } else {
      var called := Say(v, RollCall(v.id, PositionOf(v.row), target.value, t.rollDone));
      assert Held(Own(called)) == Held(Own(v)) && Loose(Own(called)) == Loose(Own(v)) && AllInPlace(called.log);
      var r := TryRoll(cfg, v, t).0;
      if t.rollDone { assert Own(r) == Then(Own(called), r.log.last); }
    }
  }

  lemma SignalPlaced(cfg: Config, v: View, t: Tick)
    requires Placed(v) && AllInPlace(v.log) && v.row.result.IsOpen()
    ensures var r := OnSignal(cfg, v, t); Placed(r) && AllInPlace(r.log)
  {
    var confirmed := v.(pending := None);
    MarkPlaced(cfg, confirmed, t);
    ClosePlaced(confirmed, if t.signal.Stop? then StopLoss else TakeProfit, Some(t.spread), t);
  }

  lemma RollDuePlaced(cfg: Config, v: View, t: Tick)
    requires Placed(v) && AllInPlace(v.log) && v.row.result.IsOpen()
    ensures var r := OnRollDue(cfg, v, t); Placed(r) && AllInPlace(r.log)
  {
    if cfg.drain || cfg.drainAndNew {
      ClosePlaced(v, DrainClose, Some(t.spread), t);
    } else if Count(v.failures) >= cfg.retryCap {
      ClosePlaced(v, RollCap, Some(t.spread), t);
      if t.credit.None? { MarkPlaced(cfg, ClosePosition(v, RollCap, Some(t.spread), t).0, t); }
    } else {
      RollPlaced(cfg, v, t);
      var tried := TryRoll(cfg, v, t).0;
      assert Own(OnRollDue(cfg, v, t)) == Own(tried);
    }
  }

  lemma MonitorPlaced(cfg: Config, v: View, t: Tick)
    requires Placed(v) && AllInPlace(v.log) && v.row.result.IsOpen()
    ensures var r := Monitor(cfg, v, t); Placed(r) && AllInPlace(r.log)
  {
    if v.entered || v.rolled || !t.spotKnown {
    } else if t.nearDaysLeft <= 0 {
      MarkPlaced(cfg, v, t);
      ClosePlaced(v, NearExpired, None, t);
    } else if t.ivKnown {
      var seen := Say(v, Evaluated(v.id, !t.signal.Hold?, t.spread)).(row := v.row.(lastSpread := t.spread));
      assert Held(Own(seen)) == Held(Own(v)) && Loose(Own(seen)) == Loose(Own(v));
      SignalPlaced(cfg, seen, t);
      RollDuePlaced(cfg, seen.(pending := None), t);
    }
  }

  lemma RetriedPlaced(v: View)
    requires Placed(v) && AllInPlace(v.log)
    ensures Placed(Retried(v)) && AllInPlace(Retried(v).log)
  {
    assert Own(Retried(v)) == Then(Own(v), WasReset(v.id));
  }

  lemma HandClosedPlaced(v: View, spread: real)
    requires Placed(v) && AllInPlace(v.log)
    ensures Placed(HandClosed(v, spread)) && AllInPlace(HandClosed(v, spread).log)
  {
    assert Own(HandClosed(v, spread)) == Then(Own(v), HandClosed(v, spread).log.last);
  }

  lemma ReconciledPlaced(v: View)
    requires Placed(v) && AllInPlace(v.log)
    ensures Placed(Reconciled(v)) && AllInPlace(Reconciled(v).log)
  {
    assert Own(Reconciled(v)) == Then(Own(v), Reconciled(v).log.last);
  }
}
