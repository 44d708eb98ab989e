/**
 The money: what the day's P&L is made of and what a trade's row says it earned.
 */
module EngineLedger {
  import opened Histories
  import opened Options
  import opened TradeStore
  import opened EngineSpec
  import opened EngineViews

  // What closes wrote since the last restart, and what rolls did.
  function CloseSum(h: History<Action>): real {
    if h.Nothing? then 0.0
    else match h.last
         case Restarted => 0.0
         case WroteClose(_, _, c) => CloseSum(h.past) + c.pnl
         case _ => CloseSum(h.past)
  }

  function RollSum(h: History<Action>): real {
    if h.Nothing? then 0.0
    else match h.last
         case Restarted => 0.0
         case WroteRoll(_, _, _, pnl) => RollSum(h.past) + pnl
         case _ => RollSum(h.past)
  }

  // A trade's own history of money: the P&L its rolls wrote, the engine's closing
  // write, if any, and whether an operator closed it by hand after that.
  datatype Money = Money(rolls: real, closed: Option<Closing>, byHand: bool)

  const NoMoney := Money(0.0, None, false)

  function MoneyOf(own: History<Action>): Money {
    if own.Nothing? then NoMoney
    else
      var m := MoneyOf(own.past);
      match own.last
      case WroteRoll(_, _, _, pnl) => m.(rolls := m.rolls + pnl)
      case WroteClose(_, _, c) => m.(closed := Some(c), byHand := false)
      case ClosedByHand(_, _) => m.(byHand := true)
      case _ => m
  }

  lemma {:induction false} BlankMoney(h: History<Action>, id: nat)
    requires Unmentioned(h, id)
    ensures MoneyOf(Of(h, id)) == NoMoney
  {
    if h.Then? { BlankMoney(h.past, id); }
  }

  // The row carries what the closing write says.
  predicate Carries(r: Row, c: Closing) {
    && r.pnl == Some(c.pnl) && r.closeFees == c.closeFees && r.result == c.result
    && c.pnl == NetPnl(r, c.value, c.closeFees)
  }

  ghost predicate Paid(v: View) {
    var m := MoneyOf(Own(v));
    && v.row.rollPnl == m.rolls
    && (v.row.result.IsOpen() ==> m.closed.None? && !m.byHand)
    && (m.closed.Some? && !m.byHand ==> Carries(v.row, m.closed.value))
  }

  predicate Balanced(day: real, h: History<Action>) {
    day == CloseSum(h) + RollSum(h)
  }

  // What a closed row brought does not depend on its being closed.
  lemma ClosingKeepsNet(r: Row, pnl: real, result: Label, fees: real, value: real)
    ensures NetPnl(ClosedRow(r, pnl, result, fees), value, fees) == NetPnl(r, value, fees)
  {
  }

  lemma RecordClosePaid(v: View, cause: Cause, value: real, fees: real)
    requires Paid(v) && v.row.result.IsOpen() && Balanced(v.day, v.log)
    ensures var r := RecordClose(v, cause, value, fees); Paid(r) && Balanced(r.day, r.log)
  {
    var pnl := NetPnl(v.row, value, fees);
    var r := RecordClose(v, cause, value, fees);
    assert Own(r) == Then(Own(v), r.log.last);
    ClosingKeepsNet(v.row, pnl, ResultOf(cause, pnl), fees, value);
  }

  lemma ClosePaid(v: View, cause: Cause, spread: Option<real>, t: Tick)
    requires Paid(v) && v.row.result.IsOpen() && Balanced(v.day, v.log)
    ensures var r := ClosePosition(v, cause, spread, t).0; Paid(r) && Balanced(r.day, r.log)
    ensures var r := CloseOrCount(v, cause, spread, t); Paid(r) && Balanced(r.day, r.log)
  {
    var called := Say(v, CloseCall(v.id, PositionOf(v.row), cause, t.credit));
    assert Own(called) == Then(Own(v), called.log.last);
    if t.credit.Some? {
      var value := if spread.Some? then spread.value else t.credit.value;
      RecordClosePaid(called, cause, value, t.closeFees);
      var closed := RecordClose(called, cause, value, t.closeFees);
      assert Own(closed.(failures := None)) == Own(closed);
    }
  }

  lemma MarkPaid(cfg: Config, v: View, t: Tick)
    requires Paid(v) && v.row.result.IsOpen() && Balanced(v.day, v.log)
    ensures var r := MarkStuckAndNotify(cfg, v, t); Paid(r) && Balanced(r.day, r.log)
  {
    var marked := Say(v, Marked(v.id));
    assert Own(marked) == Then(Own(v), Marked(v.id)) && Balanced(marked.day, marked.log);
    var told := Say(marked, StuckAlert(v.id));
    assert Own(told) == Then(Own(marked), StuckAlert(v.id)) && Balanced(told.day, told.log);
    assert MoneyOf(Own(told)) == MoneyOf(Own(marked)) == MoneyOf(Own(v));
  }

  lemma RollPaid(cfg: Config, v: View, t: Tick)
    requires Paid(v) && v.row.result.IsOpen() && Balanced(v.day, v.log)
    ensures var r := TryRoll(cfg, v, t).0; Paid(r) && Balanced(r.day, r.log)
  {
    var target := RollTarget(cfg, v.row, t);
    if target.None? {
      assert MoneyOf(Own(Say(v, NoRoll(v.id)))) == MoneyOf(Own(v));
    } else {
      var called := Say(v, RollCall(v.id, PositionOf(v.row), target.value, t.rollDone));
      assert MoneyOf(Own(called)) == MoneyOf(Own(v));
      var pnl := RollPnl(v.row, target.value.quotes.nearBid);
      var r := RecordRoll(called, target.value.near, pnl);
      assert Own(r) == Then(Own(called), r.log.last);
    }
  }

  lemma SignalPaid(cfg: Config, v: View, t: Tick)
    requires Paid(v) && v.row.result.IsOpen() && Balanced(v.day, v.log)
    ensures var r := OnSignal(cfg, v, t); Paid(r) && Balanced(r.day, r.log)
  {
    var confirmed := v.(pending := None);
    MarkPaid(cfg, confirmed, t);
    ClosePaid(confirmed, if t.signal.Stop? then StopLoss else TakeProfit, Some(t.spread), t);
  }

  lemma RollDuePaid(cfg: Config, v: View, t: Tick)
    requires Paid(v) && v.row.result.IsOpen() && Balanced(v.day, v.log)
    ensures var r := OnRollDue(cfg, v, t); Paid(r) && Balanced(r.day, r.log)
  {
    if cfg.drain || cfg.drainAndNew {
      ClosePaid(v, DrainClose, Some(t.spread), t);
    } else if Count(v.failures) >= cfg.retryCap {
      ClosePaid(v, RollCap, Some(t.spread), t);
      if t.credit.None? { MarkPaid(cfg, ClosePosition(v, RollCap, Some(t.spread), t).0, t); }
    } else {
      RollPaid(cfg, v, t);
      assert Own(OnRollDue(cfg, v, t)) == Own(TryRoll(cfg, v, t).0);
    }
  }

  lemma MonitorPaid(cfg: Config, v: View, t: Tick)
    requires Paid(v) && v.row.result.IsOpen() && Balanced(v.day, v.log)
    ensures var r := Monitor(cfg, v, t); Paid(r) && Balanced(r.day, r.log)
  {
    if v.entered || v.rolled || !t.spotKnown {
    } else if t.nearDaysLeft <= 0 {
      MarkPaid(cfg, v, t);
      ClosePaid(v, NearExpired, None, t);
    } else if t.ivKnown {
      var seen := Say(v, Evaluated(v.id, !t.signal.Hold?, t.spread)).(row := v.row.(lastSpread := t.spread));
      assert MoneyOf(Own(seen)) == MoneyOf(Own(v));
      SignalPaid(cfg, seen, t);
      RollDuePaid(cfg, seen.(pending := None), t);
    }
  }

  lemma RetriedPaid(v: View)
    requires Paid(v) && Balanced(v.day, v.log)
    ensures Paid(Retried(v)) && Balanced(Retried(v).day, Retried(v).log)
  {
    assert MoneyOf(Own(Retried(v))) == MoneyOf(Own(v));
  }

  lemma HandClosedPaid(v: View, spread: real)
    requires Paid(v) && Balanced(v.day, v.log)
    ensures Paid(HandClosed(v, spread)) && Balanced(HandClosed(v, spread).day, HandClosed(v, spread).log)
  {
    assert Own(HandClosed(v, spread)) == Then(Own(v), HandClosed(v, spread).log.last);
  }

  lemma ReconciledPaid(v: View)
    requires Paid(v) && Balanced(v.day, v.log) && Stuck(v.row) && v.row.result.IsOpen()
    ensures Paid(Reconciled(v)) && Balanced(Reconciled(v).day, Reconciled(v).log)
  {
    assert MoneyOf(Own(Reconciled(v))) == MoneyOf(Own(v));
  }
}
