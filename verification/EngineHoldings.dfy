/**
 The engine and the executor together: what the account holds over any run whose
 calls end as the order protocols let them.
 */
module EngineHoldings {
  import opened Histories
  import opened Options
  import opened TradeStore
  import opened EngineSpec
  import opened EngineViews
  import opened EngineBooks
  import opened EngineRuns
  import opened EngineAccounts
  import Exchange
  import Outcomes

  // ---- Calls and their outcomes -------------------------------------------

  // The protocol call an engine call stands for, and the answer the engine gets.
  // Quantities count instrument steps, as order amounts do.
  predicate Answered(a: Action, c: Outcomes.Call) {
    match a
    case EnterCall(t) =>
      && c.Enter? && c.near == t.near && c.far == t.far && (t.answer.Fill? <==> Outcomes.Done(c))
      && (t.answer.Fill? ==> t.answer.row.qty == c.q as real)
    case CloseCall(_, held, _, credit) =>
      && c.Close? && held == Position(Some(c.near), Some(c.far), c.q as real)
      && (credit.Some? <==> Outcomes.Done(c))
    case RollCall(_, held, to, done) =>
      && c.Roll? && held.near == Some(c.oldNear) && held.qty == c.q as real && c.newNear == to.near
      && (done <==> Outcomes.Done(c))
    case _ => false
  }

  // The deeds are the outcomes of the engine's calls, one each, in their order.
  predicate AllAnswered(h: History<Action>, ds: History<Outcomes.Deed>) {
    if h.Nothing? then ds.Nothing?
    else if CallsExecutor(h.last) then
      ds.Then? && Answered(h.last, ds.last.call) && AllAnswered(h.past, ds.past)
    else AllAnswered(h.past, ds)
  }

  // What a position stands for in one leg.
  function Stake(p: Position, leg: string): real {
    (if p.near == Some(leg) then -p.qty else 0.0) + (if p.far == Some(leg) then p.qty else 0.0)
  }

  function StakeOf(p: Option<Position>, leg: string): real {
    if p.Some? then Stake(p.value, leg) else 0.0
  }

  // What the engine's own writes, together, say has been built up of a leg.
  function Written(h: History<Action>, leg: string): real {
    if h.Nothing? then 0.0
    else Written(h.past, leg) +
         match h.last
         case WroteOpen(_, held) => Stake(held, leg)
         case WroteRoll(_, held, newNear, _) => Stake(held.(near := Some(newNear)), leg) - Stake(held, leg)
         case WroteClose(_, held, _) => -Stake(held, leg)
         case _ => 0.0
  }

  // What the table gave up without the engine closing it: operators' manual closes
  // and trades reconciled away.
  function ByHand(h: History<Action>, leg: string): real {
    if h.Nothing? then 0.0
    else ByHand(h.past, leg) +
         match h.last
         case ClosedByHand(_, was) => StakeOf(was, leg)
         case WasReconciled(_, was) => StakeOf(was, leg)
         case _ => 0.0
  }

  // A write says what its call was told.
  lemma WritesWhatWasTold(past: History<Action>, call: Action, write: Action, c: Outcomes.Call, leg: string)
    requires Answers(past, call, write) && Answered(call, c)
    ensures Written(Then(Then(past, call), write), leg) == Written(past, leg) + Outcomes.Told(c, leg) as real
  {
    assert Written(Then(past, call), leg) == Written(past, leg);
    assert Outcomes.Done(c);
  }

  // The engine's writes are what its callers were told.
  lemma {:induction false} WrittenAsTold(h: History<Action>, ds: History<Outcomes.Deed>, leg: string)
    requires Booked(h) && AllAnswered(h, ds)
    ensures Written(h, leg) == Outcomes.AllTold(ds, leg) as real
  {
    if h.Nothing? {
    } else if Writes(h.last) {
      var past, call := h.past.past, h.past.last;
      WrittenAsTold(past, ds.past, leg);
      WritesWhatWasTold(past, call, h.last, ds.last.call, leg);
    } else if CallsExecutor(h.last) {
      WrittenAsTold(h.past, ds.past, leg);
    } else {
      WrittenAsTold(h.past, ds, leg);
    }
  }

  // ---- Writes and rows ----------------------------------------------------

  // What each trade's own history leaves open of a leg.
  function LeftOpen(h: History<Action>, leg: string): nat -> real {
    (id: nat) => StakeOf(Held(Of(h, id)), leg)
  }

  // The trade an action changes the position of.
  predicate Moves(a: Action) {
    Writes(a) || a.ClosedByHand? || a.WasReconciled?
  }

  lemma MovesOne(h: History<Action>, leg: string)
    requires h.Then? && Moves(h.last) && InPlace(h.past, h.last)
    ensures var f, g, id := LeftOpen(h.past, leg), LeftOpen(h, leg), h.last.id;
            Written(h, leg) - ByHand(h, leg) == Written(h.past, leg) - ByHand(h.past, leg) + g(id) - f(id)
  {
    if h.last.WroteOpen? { BlankHeld(h.past, h.last.id); }
  }

  lemma {:induction false} LeftOpenAddsUp(h: History<Action>, n: nat, leg: string)
    requires AllInPlace(h) && forall id: nat :: id >= n ==> Unmentioned(h, id)
    ensures Sum(n, LeftOpen(h, leg)) == Written(h, leg) - ByHand(h, leg)
  {
    var g := LeftOpen(h, leg);
    if h.Nothing? {
      SumOfNothing(n, g);
    } else {
      var f := LeftOpen(h.past, leg);
      forall id: nat | id >= n ensures Unmentioned(h.past, id) { assert Unmentioned(h, id); }
      LeftOpenAddsUp(h.past, n, leg);
      if Moves(h.last) {
        assert h.last.id >= n ==> Unmentioned(h, h.last.id);
        MovesOne(h, leg);
        SumMoves(n, f, g, h.last.id);
      } else {
        SumSame(n, f, g);
      }
    }
  }

  // What the open rows of the table stand for in one leg.
  function InTable(rows: seq<Row>, leg: string): real {
    Sum(|rows|, (id: nat) => if id < |rows| then StakeOf(OpenPosition(rows[id]), leg) else 0.0)
  }

  lemma TableIsWritten(cfg: Config, es: seq<Event>, w: World, leg: string)
    requires Run(cfg, Start, es, w)
    ensures InTable(w.rows, leg) == Written(w.log, leg) - ByHand(w.log, leg)
  {
    RunKept(cfg, Start, es, w);
    var n := |w.rows|;
    forall id: nat | id >= n ensures Unmentioned(w.log, id) { assert Absent(w, id); }
    LeftOpenAddsUp(w.log, n, leg);
    var rows := (id: nat) => if id < n then StakeOf(OpenPosition(w.rows[id]), leg) else 0.0;
    forall id: nat | id < n ensures LeftOpen(w.log, leg)(id) == rows(id) { assert Fit(cfg, ViewOf(w, id)); }
    SumSame(n, LeftOpen(w.log, leg), rows);
  }

  // ---- The account --------------------------------------------------------

  // After any run the account's orders have built up of each leg, for good, what
  // the open rows stand for, what was settled by hand, and the strays of calls that
  // did more than they reported; so it agrees with the table in that leg exactly
  // when the strays cancel, and does in every leg when no call left any.
  lemma AccountIsTheTable(cfg: Config, es: seq<Event>, w: World, start: seq<Exchange.Order>,
                          ds: History<Outcomes.Deed>, leg: string)
    requires Run(cfg, Start, es, w)
    requires Exchange.AllSound(start) && Outcomes.Carried(start, ds) && AllAnswered(w.log, ds)
    ensures var end := Outcomes.Latest(start, ds);
            var held := Outcomes.Holding(start, end, leg) as real;
            && Exchange.AllSettled(end, |start|)
            && held == InTable(w.rows, leg) + ByHand(w.log, leg) + Outcomes.Strays(ds, leg) as real
            && (held == InTable(w.rows, leg) + ByHand(w.log, leg) <==> Outcomes.Strays(ds, leg) == 0)
            && (Outcomes.AllProper(ds) && Outcomes.AllClean(ds) ==> held == InTable(w.rows, leg) + ByHand(w.log, leg))
  {
    RunKept(cfg, Start, es, w);
    TableIsWritten(cfg, es, w, leg);
    WrittenAsTold(w.log, ds, leg);
    Outcomes.HoldsWhatWasTold(start, ds, leg);
    if Outcomes.AllProper(ds) && Outcomes.AllClean(ds) { Outcomes.NeverAstrayIffClean(ds); }
  }

  // At this moment the account holds of every leg what the histories of trades
  // below n leave open, and what was settled by hand.
  ghost predicate Agrees(start: seq<Exchange.Order>, h: History<Action>, ds: History<Outcomes.Deed>, n: nat) {
    forall leg :: Outcomes.Holding(start, Outcomes.Latest(start, ds), leg) as real ==
                  Sum(n, LeftOpen(h, leg)) + ByHand(h, leg)
  }

  // It does after every action, a call and its write counting as one.
  ghost predicate AgreesAllAlong(start: seq<Exchange.Order>, h: History<Action>, ds: History<Outcomes.Deed>, n: nat)
  {
    && Agrees(start, h, ds, n)
    && if h.Nothing? then true
       else if Writes(h.last) then h.past.Then? && ds.Then? && AgreesAllAlong(start, h.past.past, ds.past, n)
       else if CallsExecutor(h.last) then ds.Then? && AgreesAllAlong(start, h.past, ds.past, n)
       else AgreesAllAlong(start, h.past, ds, n)
  }

  ghost predicate Below(h: History<Action>, n: nat) {
    forall id: nat :: id >= n ==> Unmentioned(h, id)
  }

  lemma BelowBefore(h: History<Action>, n: nat)
    requires h.Then? && Below(h, n)
    ensures Below(h.past, n)
  {
    forall id: nat | id >= n ensures Unmentioned(h.past, id) { assert Unmentioned(h, id); }
  }

  lemma AgreesIffNothingAstray(start: seq<Exchange.Order>, h: History<Action>, ds: History<Outcomes.Deed>, n: nat)
    requires Booked(h) && AllInPlace(h) && Below(h, n) && AllAnswered(h, ds)
    requires Exchange.AllSound(start) && Outcomes.Carried(start, ds)
    ensures Agrees(start, h, ds, n) <==> Outcomes.NothingAstray(ds)
  {
    forall leg
      ensures Outcomes.Holding(start, Outcomes.Latest(start, ds), leg) as real ==
              Sum(n, LeftOpen(h, leg)) + ByHand(h, leg) + Outcomes.Strays(ds, leg) as real
    {
      LeftOpenAddsUp(h, n, leg);
      WrittenAsTold(h, ds, leg);
      Outcomes.HoldsWhatWasTold(start, ds, leg);
    }
    var end := Outcomes.Latest(start, ds);
    if Agrees(start, h, ds, n) {
      forall leg ensures Outcomes.Strays(ds, leg) == 0 {
        assert Outcomes.Holding(start, end, leg) as real == Sum(n, LeftOpen(h, leg)) + ByHand(h, leg);
      }
    }
  }

  lemma {:induction false} AgreesAllAlongIffNeverAstray(start: seq<Exchange.Order>, h: History<Action>,
                                                        ds: History<Outcomes.Deed>, n: nat)
    requires Booked(h) && AllInPlace(h) && Below(h, n) && AllAnswered(h, ds)
    requires Exchange.AllSound(start) && Outcomes.Carried(start, ds)
    ensures AgreesAllAlong(start, h, ds, n) <==> Outcomes.NeverAstray(ds)
  {
    AgreesIffNothingAstray(start, h, ds, n);
    if h.Then? {
      BelowBefore(h, n);
      if Writes(h.last) {
        BelowBefore(h.past, n);
        AgreesAllAlongIffNeverAstray(start, h.past.past, ds.past, n);
      } else if CallsExecutor(h.last) {
        AgreesAllAlongIffNeverAstray(start, h.past, ds.past, n);
      } else {
        AgreesAllAlongIffNeverAstray(start, h.past, ds, n);
      }
    }
  }

  // All through any run the account and the trades agree in every leg exactly when
  // no call gave up a part-filled combo, left a near sale uncovered, had its far
  // close refused over a part-filled near one, or failed a roll at its open stage.
  lemma AgreesAllAlongIffClean(cfg: Config, es: seq<Event>, w: World, start: seq<Exchange.Order>,
                               ds: History<Outcomes.Deed>)
    requires Run(cfg, Start, es, w) && Exchange.AllSound(start) && Outcomes.Carried(start, ds)
    requires AllAnswered(w.log, ds) && Outcomes.AllProper(ds)
    ensures AgreesAllAlong(start, w.log, ds, |w.rows|) <==> Outcomes.AllClean(ds)
  {
    RunKept(cfg, Start, es, w);
    forall id: nat | id >= |w.rows| ensures Unmentioned(w.log, id) { assert Absent(w, id); }
    AgreesAllAlongIffNeverAstray(start, w.log, ds, |w.rows|);
    Outcomes.NeverAstrayIffClean(ds);
  }
}
