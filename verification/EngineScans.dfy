/** What one scan tick submits, told from the candidates it is given. */
module EngineScans {
  import opened Histories
  import opened Options
  import opened TradeStore
  import opened EngineSpec
  import opened EngineGate
  import opened EngineProgress

  function Fills(cs: seq<Candidate>): nat {
    if cs == [] then 0 else Fills(cs[..|cs| - 1]) + if cs[|cs| - 1].answer.Fill? then 1 else 0
  }

  predicate RiskRaised(cs: seq<Candidate>) {
    exists c :: c in cs && c.answer.LegRiskRaised?
  }

  // The candidates submitted out of cs, with `open` positions to begin with: each
  // in its turn if it is worth it, there is room, and no leg risk has been raised.
  function Submitted(cfg: Config, cs: seq<Candidate>, open: nat): seq<Candidate> {
    if cs == [] then []
    else
      var before, c := Submitted(cfg, cs[..|cs| - 1], open), cs[|cs| - 1];
      if Worthy(cfg, c) && open + Fills(before) < cfg.maxPositions && !RiskRaised(before) then before + [c] else before
  }

  // What submitting them leaves in the history: each call, and each fill written at
  // once as the next row.
  function Entered(h: History<Action>, rows: nat, cs: seq<Candidate>): History<Action> {
    if cs == [] then h
    else
      var init, c := cs[..|cs| - 1], cs[|cs| - 1];
      var called := Then(Entered(h, rows, init), EnterCall(c));
      if c.answer.Fill? then
        Then(called, WroteOpen(rows + Fills(init), Position(Some(c.near), Some(c.far), c.answer.row.qty)))
      else called
  }

  // The rows that fills become.
  function Opened(cs: seq<Candidate>): seq<Row> {
    if cs == [] then []
    else
      var c := cs[|cs| - 1];
      Opened(cs[..|cs| - 1]) +
      if c.answer.Fill? then
        [c.answer.row.(near := Some(c.near), far := Some(c.far), result := Open, status := StatusOpen,
                       rollPnl := 0.0, pnl := None)]
      else []
  }

  // ---- One candidate after another ----------------------------------------

  function NewIds(from: nat, n: nat): set<nat> {
    if n == 0 then {} else NewIds(from, n - 1) + {from + n - 1}
  }

  lemma {:induction false} NewIdsAre(from: nat, n: nat, id: nat)
    ensures id in NewIds(from, n) <==> from <= id < from + n
  {
    if n > 0 { NewIdsAre(from, n - 1, id); }
  }

  // `now` is what submitting `taken` has made of w; `count` positions are open.
  ghost predicate Reflects(w: World, taken: seq<Candidate>, open: nat, now: World, count: nat) {
    && now.log == Entered(w.log, |w.rows|, taken) && now.rows == w.rows + Opened(taken)
    && now.mem == w.mem.(state := now.mem.state, justEntered := w.mem.justEntered + NewIds(|w.rows|, Fills(taken)))
    && count == open + Fills(taken)
  }

  lemma {:induction false} OpenedCount(cs: seq<Candidate>)
    ensures |Opened(cs)| == Fills(cs)
  {
    if cs != [] { OpenedCount(cs[..|cs| - 1]); }
  }

  lemma EnteredNext(h: History<Action>, rows: nat, cs: seq<Candidate>, c: Candidate)
    ensures var called := Then(Entered(h, rows, cs), EnterCall(c));
            Entered(h, rows, cs + [c]) ==
            if c.answer.Fill? then
              Then(called, WroteOpen(rows + Fills(cs), Position(Some(c.near), Some(c.far), c.answer.row.qty)))
            else called
    ensures Fills(cs + [c]) == Fills(cs) + if c.answer.Fill? then 1 else 0
    ensures Opened(cs + [c]) == Opened(cs) + if c.answer.Fill? then [EnteredRow(c, c.answer.row)] else []
  {
    assert (cs + [c])[..|cs|] == cs;
  }

  lemma EnterReflected(w: World, taken: seq<Candidate>, open: nat, now: World, count: nat, c: Candidate)
    requires Reflects(w, taken, open, now, count)
    ensures Reflects(w, taken + [c], open, Enter(now, c), if c.answer.Fill? then count + 1 else count)
  {
    OpenedCount(taken);
    EnteredNext(w.log, |w.rows|, taken, c);
    var old', new' := NewIds(|w.rows|, Fills(taken)), {|w.rows| + Fills(taken)};
    assert w.mem.justEntered + old' + new' == w.mem.justEntered + (old' + new');
  }

  // The next candidate, in its turn or not.
  lemma Turn(cfg: Config, cs: seq<Candidate>, open: nat, k: nat)
    requires k < |cs| && !RiskRaised(Submitted(cfg, cs[..k], open))
    ensures var taken, c := Submitted(cfg, cs[..k], open), cs[k];
            var next, turn := Submitted(cfg, cs[..k + 1], open), Approved(cfg, c, open + Fills(taken));
            next == (if turn then taken + [c] else taken) && (RiskRaised(next) <==> turn && c.answer.LegRiskRaised?)
  {
    var taken, c := Submitted(cfg, cs[..k], open), cs[k];
    assert cs[..k + 1][..k] == cs[..k];
    ApprovedExactly(cfg, c, open + Fills(taken));
  }

  // Once there is no room or a leg risk is raised, nothing more is submitted.
  lemma {:induction false} NothingMore(cfg: Config, cs: seq<Candidate>, open: nat, k: nat)
    requires k <= |cs|
    requires var taken := Submitted(cfg, cs[..k], open);
             k == |cs| || RiskRaised(taken) || open + Fills(taken) >= cfg.maxPositions
    ensures Submitted(cfg, cs, open) == Submitted(cfg, cs[..k], open)
  {
    if k == |cs| {
      assert cs[..k] == cs;
    } else {
      var init := cs[..|cs| - 1];
      assert init[..k] == cs[..k];
      NothingMore(cfg, init, open, k);
    }
  }

  // Where the loop stops, nothing more would have been submitted.
  lemma StopReflected(cfg: Config, w: World, cs: seq<Candidate>, open: nat, k: nat, now: World, count: nat)
    requires k <= |cs| && Reflects(w, Submitted(cfg, cs[..k], open), open, now, count)
    requires k == |cs| || RiskRaised(Submitted(cfg, cs[..k], open)) || count >= cfg.maxPositions
    ensures var all := Submitted(cfg, cs, open);
            && Reflects(w, all, open, now, open + Fills(all))
            && Reflects(w, all, open, Rest(now, count), open + Fills(all))
  {
    NothingMore(cfg, cs, open, k);
  }

  lemma LoopTakes(cfg: Config, now: World, cs: seq<Candidate>, k: nat, count: nat)
    requires k < |cs| && Approved(cfg, cs[k], count) && !Breached(cfg, now)
    ensures var c, entered := cs[k], Enter(now, cs[k]);
            var count' := if c.answer.Fill? then count + 1 else count;
            ScanLoop(cfg, now, cs[k..], count) ==
            if c.answer.LegRiskRaised? then entered
            else if count' >= cfg.maxPositions then Rest(entered, count')
            else ScanLoop(cfg, entered, cs[k + 1..], count')
  {
    assert cs[k..][0] == cs[k] && cs[k..][1..] == cs[k + 1..];
  }

  lemma {:induction false} LoopReflected(cfg: Config, w: World, cs: seq<Candidate>, open: nat, k: nat, now: World,
                                         count: nat)
    requires k <= |cs| && !Breached(cfg, w) && !RiskRaised(Submitted(cfg, cs[..k], open))
    requires Reflects(w, Submitted(cfg, cs[..k], open), open, now, count)
    ensures var all := Submitted(cfg, cs, open);
            Reflects(w, all, open, ScanLoop(cfg, now, cs[k..], count), open + Fills(all))
    decreases |cs| - k, 1
  {
    if k == |cs| {
      StopReflected(cfg, w, cs, open, k, now, count);
    } else {
      Turn(cfg, cs, open, k);
      if Approved(cfg, cs[k], count) {
        LoopTakes(cfg, now, cs, k, count);
        TakenReflected(cfg, w, cs, open, k, now, count, ScanLoop(cfg, now, cs[k..], count));
      } else {
        assert cs[k..][1..] == cs[k + 1..];
        LoopReflected(cfg, w, cs, open, k + 1, now, count);
      }
    }
  }

  // The next candidate is taken: the loop enters it and stops or goes on.
  lemma {:induction false} TakenReflected(cfg: Config, w: World, cs: seq<Candidate>, open: nat, k: nat, now: World,
                                          count: nat, end: World)
    requires k < |cs| && !Breached(cfg, w) && Reflects(w, Submitted(cfg, cs[..k], open), open, now, count)
    requires var next := Submitted(cfg, cs[..k + 1], open);
             next == Submitted(cfg, cs[..k], open) + [cs[k]] && (RiskRaised(next) <==> cs[k].answer.LegRiskRaised?)
    requires var c, entered := cs[k], Enter(now, cs[k]);
             var count' := if c.answer.Fill? then count + 1 else count;
             end == if c.answer.LegRiskRaised? then entered
                    else if count' >= cfg.maxPositions then Rest(entered, count')
                    else ScanLoop(cfg, entered, cs[k + 1..], count')
    ensures var all := Submitted(cfg, cs, open); Reflects(w, all, open, end, open + Fills(all))
    decreases |cs| - k, 0
  {
    var c := cs[k];
    var entered, count' := Enter(now, c), if c.answer.Fill? then count + 1 else count;
    EnterReflected(w, Submitted(cfg, cs[..k], open), open, now, count, c);
    if c.answer.LegRiskRaised? || count' >= cfg.maxPositions {
      StopReflected(cfg, w, cs, open, k + 1, entered, count');
    } else {
      LoopReflected(cfg, w, cs, open, k + 1, entered, count');
    }
  }

  // ---- A whole scan -------------------------------------------------------

  // A scan of an engine that is awake, has funds as far as is known and is not
  // draining submits exactly the candidates whose turn comes: each is called, each
  // fill becomes an open row written at once, and the new rows are left alone by the
  // next monitor tick.  In any other state a scan enters nothing.
  lemma EveryScanActs(cfg: Config, w: World, order: seq<nat>, cs: seq<Candidate>, fundsKnownEmpty: bool)
    requires Lists(order, w.rows)
    ensures var r := Step(cfg, w, ScanEvent(order, cs, fundsKnownEmpty));
            var taken := Submitted(cfg, cs, |order|);
            if Awake(cfg, w) && !fundsKnownEmpty && !(cfg.drain && !cfg.drainAndNew) then
              && r.log == Entered(w.log, |w.rows|, taken) && r.rows == w.rows + Opened(taken)
              && r.mem == w.mem.(state := r.mem.state, justEntered := r.mem.justEntered)
              && (forall id: nat :: id in r.mem.justEntered <==>
                    id in w.mem.justEntered || |w.rows| <= id < |r.rows|)
            else r.rows == w.rows && r.mem == w.mem.(state := r.mem.state)
                 && (r.log == w.log || r.log == Then(w.log, HaltAlert))
    ensures w.mem.paused || w.mem.state.Halted? ==> Step(cfg, w, ScanEvent(order, cs, fundsKnownEmpty)) == w
  {
    AwakeIsNotBreached(cfg, w);
    if Awake(cfg, w) && !fundsKnownEmpty && !(cfg.drain && !cfg.drainAndNew) {
      var ranking := w.(mem := w.mem.(state := Ranking));
      assert cs[..0] == [] && cs[0..] == cs && w.rows + Opened([]) == w.rows;
      assert w.mem.justEntered + {} == w.mem.justEntered;
      LoopReflected(cfg, ranking, cs, |order|, 0, ranking, |order|);
      var taken := Submitted(cfg, cs, |order|);
      OpenedCount(taken);
      forall id: nat ensures id in NewIds(|w.rows|, Fills(taken)) <==> |w.rows| <= id < |w.rows| + Fills(taken) {
        NewIdsAre(|w.rows|, Fills(taken), id);
      }
    }
  }

  // Which candidates those are: the k-th, and no other by its turn, exactly when it
  // meets every condition written out here.
  lemma SubmittedInItsTurn(cfg: Config, cs: seq<Candidate>, open: nat, k: nat)
    requires k < |cs|
    ensures var before, c := Submitted(cfg, cs[..k], open), cs[k];
            Submitted(cfg, cs[..k + 1], open) ==
            if && c.ev >= cfg.minEv && c.qty > 0.0 && c.marginOk && Tradable(cfg.gate, c.quotes, c.qty, false)
               && open + Fills(before) < cfg.maxPositions
               && forall b :: b in before ==> !b.answer.LegRiskRaised?
            then before + [c] else before
  {
    assert cs[..k + 1][..k] == cs[..k];
  }
}
