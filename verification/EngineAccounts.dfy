/** What the money in the table and in the day's P&L amounts to over any run. */
module EngineAccounts {
  import opened Histories
  import opened Options
  import opened TradeStore
  import opened EngineSpec
  import opened EngineViews
  import opened EngineLadder
  import opened EngineLedger
  import opened EngineBooks
  import opened EngineRuns

  // Today's P&L is what closes and rolls wrote since the last restart; a row shows
  // all its rolls wrote; and a row the engine closed, unless an operator closed it
  // again by hand, carries what it was closed for less what it cost, plus all its
  // roll P&L, minus both fees.
  lemma LedgerBalances(cfg: Config, es: seq<Event>, w: World, id: nat)
    requires Run(cfg, Start, es, w) && id < |w.rows|
    ensures w.mem.todayPnl == CloseSum(w.log) + RollSum(w.log)
    ensures var m, r := MoneyOf(Of(w.log, id)), w.rows[id];
            && r.rollPnl == m.rolls
            && (m.closed.Some? && !m.byHand ==>
                  && r.pnl == Some(m.closed.value.pnl)
                  && m.closed.value.pnl ==
                       m.closed.value.value - r.netDebit * r.qty + m.rolls - r.openFees - r.closeFees)
  {
    RunKept(cfg, Start, es, w);
    assert Fit(cfg, ViewOf(w, id));
  }

  predicate RolledSinceRestart(h: History<Action>) {
    h.Then? && !h.last.Restarted? && (h.last.WroteRoll? || RolledSinceRestart(h.past))
  }

  lemma {:induction false} RollsLose(cfg: Config, h: History<Action>)
    requires Orderly(cfg, h)
    ensures if RolledSinceRestart(h) then RollSum(h) < 0.0 else RollSum(h) == 0.0
  {
    if h.Then? { RollsLose(cfg, h.past); }
  }

  // Closed rows alone account for the day exactly when nothing was rolled since
  // the restart: the engine books a roll at minus the premium it collects, which
  // the fee check makes positive, so each one moves the total.
  lemma ClosedRowsAreTheDayIffNothingRolled(cfg: Config, es: seq<Event>, w: World)
    requires Run(cfg, Start, es, w)
    ensures w.mem.todayPnl == CloseSum(w.log) <==> !RolledSinceRestart(w.log)
  {
    RunKept(cfg, Start, es, w);
    RollsLose(cfg, w.log);
  }

  // ---- Sums over the trades -----------------------------------------------

  function Sum(n: nat, f: nat -> real): real {
    if n == 0 then 0.0 else Sum(n - 1, f) + f(n - 1)
  }

  lemma {:induction false} SumSame(n: nat, f: nat -> real, g: nat -> real)
    requires forall id :: 0 <= id < n ==> f(id) == g(id)
    ensures Sum(n, f) == Sum(n, g)
  {
    if n > 0 { SumSame(n - 1, f, g); }
  }

  // One trade's part moves, the others stay.
  lemma {:induction false} SumMoves(n: nat, f: nat -> real, g: nat -> real, k: nat)
    requires k < n && forall id :: 0 <= id < n && id != k ==> f(id) == g(id)
    ensures Sum(n, g) == Sum(n, f) + g(k) - f(k)
  {
    if k == n - 1 {
      SumSame(n - 1, f, g);
    } else {
      SumMoves(n - 1, f, g, k);
    }
  }

  lemma {:induction false} SumAdds(n: nat, f: nat -> real, g: nat -> real, h: nat -> real)
    requires forall id :: 0 <= id < n ==> h(id) == f(id) + g(id)
    ensures Sum(n, h) == Sum(n, f) + Sum(n, g)
  {
    if n > 0 { SumAdds(n - 1, f, g, h); }
  }

  lemma {:induction false} SumOfNothing(n: nat, f: nat -> real)
    requires forall id :: 0 <= id < n ==> f(id) == 0.0
    ensures Sum(n, f) == 0.0
  {
    if n > 0 { SumOfNothing(n - 1, f); }
  }

  // What the history says one trade has contributed to the day.
  function Share(h: History<Action>, id: nat): real {
    var m := MoneyOf(Of(h, id));
    m.rolls + if m.closed.Some? then m.closed.value.pnl else 0.0
  }

  function Shares(h: History<Action>): nat -> real {
    (id: nat) => Share(h, id)
  }

  // A trade that holds a position has not been closed.
  lemma {:induction false} HeldIsNotClosed(h: History<Action>, id: nat)
    requires AllInPlace(h) && Held(Of(h, id)).Some?
    ensures MoneyOf(Of(h, id)).closed.None?
  {
    if h.last.WroteOpen? && h.last.id == id {
      BlankMoney(h.past, id);
    } else {
      HeldIsNotClosed(h.past, id);
    }
  }

  predicate NeverRestarted(h: History<Action>) {
    h.Nothing? || (!h.last.Restarted? && NeverRestarted(h.past))
  }

  lemma {:induction false} SharesAddUp(h: History<Action>, n: nat)
    requires AllInPlace(h) && NeverRestarted(h) && forall id: nat :: id >= n ==> Unmentioned(h, id)
    ensures Sum(n, Shares(h)) == CloseSum(h) + RollSum(h)
  {
    var g := Shares(h);
    if h.Nothing? {
      SumOfNothing(n, g);
    } else {
      var f, a := Shares(h.past), h.last;
      forall id: nat | id >= n ensures Unmentioned(h.past, id) { assert Unmentioned(h, id); }
      SharesAddUp(h.past, n);
      if a.WroteClose? || a.WroteRoll? {
        assert a.id >= n ==> Unmentioned(h, a.id);
        HeldIsNotClosed(h.past, a.id);
        assert Of(h, a.id) == Then(Of(h.past, a.id), a);
        SumMoves(n, f, g, a.id);
      } else {
        SumSame(n, f, g);
      }
    }
  }

  // ---- The table and the day ----------------------------------------------

  function PnlOf(r: Row): real {
    if r.pnl.Some? then r.pnl.value else 0.0
  }

  // What the table shows of each trade: its rolls, and its P&L if the engine
  // closed it.
  function Shown(w: World): nat -> real {
    (id: nat) =>
      if id >= |w.rows| then 0.0
      else w.rows[id].rollPnl + if MoneyOf(Of(w.log, id)).closed.Some? then PnlOf(w.rows[id]) else 0.0
  }

  // What an operator's later manual close has taken off it.
  function Overwritten(w: World): nat -> real {
    (id: nat) =>
      var m := MoneyOf(Of(w.log, id));
      if id < |w.rows| && m.closed.Some? && m.byHand then m.closed.value.pnl - PnlOf(w.rows[id]) else 0.0
  }

  lemma ShownOrOverwritten(w: World, id: nat)
    requires id < |w.rows| && Paid(ViewOf(w, id))
    ensures Share(w.log, id) == Shown(w)(id) + Overwritten(w)(id)
  {
  }

  // Without a restart the day's P&L is the sum over the table of rolls and engine
  // closes, but for what manual closes have overwritten: nothing the engine earned
  // or lost is missing, and each closed row counts its own rolls a second time.
  lemma TableHoldsTheDay(cfg: Config, es: seq<Event>, w: World)
    requires Run(cfg, Start, es, w) && NeverRestarted(w.log)
    ensures w.mem.todayPnl == Sum(|w.rows|, Shown(w)) + Sum(|w.rows|, Overwritten(w))
  {
    RunKept(cfg, Start, es, w);
    var n := |w.rows|;
    forall id: nat | id >= n ensures Unmentioned(w.log, id) { assert Absent(w, id); }
    SharesAddUp(w.log, n);
    forall id: nat | id < n ensures Shares(w.log)(id) == Shown(w)(id) + Overwritten(w)(id) {
      assert Fit(cfg, ViewOf(w, id));
      ShownOrOverwritten(w, id);
    }
    SumAdds(n, Shown(w), Overwritten(w), Shares(w.log));
  }

  // ---- Why a row was closed -----------------------------------------------

  lemma {:induction false} ClosingIsLogged(h: History<Action>, id: nat) returns (past: History<Action>, write: Action)
    requires MoneyOf(Of(h, id)).closed.Some?
    ensures Moment(h, past, write) && write.WroteClose? && write.id == id
    ensures write.closing == MoneyOf(Of(h, id)).closed.value
  {
    if h.last.WroteClose? && h.last.id == id {
      past, write := h.past, h.last;
    } else {
      past, write := ClosingIsLogged(h.past, id);
    }
  }

  // At the moment of a write its call has just been made.
  lemma {:induction false} WritesAnswerCalls(h: History<Action>, past: History<Action>, a: Action)
    requires Booked(h) && Moment(h, past, a) && Writes(a)
    ensures past.Then? && Answers(past.past, past.last, a) && Prompted(past.past, past.last)
    ensures Moment(h, past.past, past.last)
  {
    if !(h.past == past && h.last == a) {
      if Writes(h.last) {
        assert !Writes(h.past.last);
        WritesAnswerCalls(h.past.past, past, a);
      } else {
        WritesAnswerCalls(h.past, past, a);
      }
    }
  }

  // A call that went through is written at once.
  lemma {:induction false} CallsAreWritten(h: History<Action>, past: History<Action>, a: Action) returns (write: Action)
    requires Booked(h) && Moment(h, past, a) && WentThrough(a)
    ensures Moment(h, Then(past, a), write) && Answers(past, a, write)
  {
    if h.past == Then(past, a) && Writes(h.last) {
      write := h.last;
    } else if Writes(h.last) {
      write := CallsAreWritten(h.past.past, past, a);
    } else {
      write := CallsAreWritten(h.past, past, a);
    }
  }

  // Over any run every call the executor reports done is written at once, and
  // nothing is written that was not so reported and prompted.
  lemma RunBooks(cfg: Config, es: seq<Event>, w: World, past: History<Action>, a: Action)
    requires Run(cfg, Start, es, w) && Moment(w.log, past, a)
    ensures WentThrough(a) ==> exists write :: Moment(w.log, Then(past, a), write) && Answers(past, a, write)
    ensures Writes(a) ==> past.Then? && Answers(past.past, past.last, a) && Prompted(past.past, past.last)
  {
    RunKept(cfg, Start, es, w);
    if WentThrough(a) {
      var write := CallsAreWritten(w.log, past, a);
    }
    if Writes(a) { WritesAnswerCalls(w.log, past, a); }
  }

  // A row the engine closed was closed by the executor, and its label says why.
  lemma ClosedForAReason(cfg: Config, es: seq<Event>, w: World, id: nat) returns (past: History<Action>, call: Action)
    requires Run(cfg, Start, es, w) && id < |w.rows|
    requires var m := MoneyOf(Of(w.log, id)); m.closed.Some? && !m.byHand
    ensures Moment(w.log, past, call) && call.CloseCall? && call.id == id && call.credit.Some?
    ensures w.rows[id].pnl.Some?
    ensures match call.cause
            case StopLoss => w.rows[id].result == LossAutoStop
            case TakeProfit => w.rows[id].result == WinAutoTp
            case RollCap => w.rows[id].result == ClosedRollFailed
            case DrainClose => w.rows[id].result == ClosedDrain
            case NearExpired => w.rows[id].result == if w.rows[id].pnl.value >= 0.0 then WinAutoTp else LossAutoStop
  {
    RunKept(cfg, Start, es, w);
    assert Fit(cfg, ViewOf(w, id));
    var at, write := ClosingIsLogged(w.log, id);
    WritesAnswerCalls(w.log, at, write);
    past, call := at.past, at.last;
  }
}
