/**
 The engine seen one trade at a time: what monitoring one trade leaves alone, and
 the part of the history that is about one trade.
 */
module EngineViews {
  import opened Histories
  import opened Options
  import opened TradeStore
  import opened EngineSpec

  // ---- Reading and writing one trade --------------------------------------

  lemma EntryAfter(m: map<nat, nat>, id: nat, n: Option<nat>, i: nat)
    ensures Entry(SetEntry(m, id, n), i) == if i == id then n else Entry(m, i)
  {
  }

  lemma SetEntryIs(m: map<nat, nat>, id: nat, n: Option<nat>)
    ensures SetEntry(m, id, n) == if n.Some? then m[id := n.value] else m - {id}
  {
  }

  lemma SetEntryAgain(m: map<nat, nat>, id: nat, a: Option<nat>, b: Option<nat>)
    ensures SetEntry(SetEntry(m, id, a), id, b) == SetEntry(m, id, b)
  {
    SetEntryIs(m, id, a);
    SetEntryIs(m, id, b);
    SetEntryIs(SetEntry(m, id, a), id, b);
    if b.None? && a.Some? { assert m[id := a.value] - {id} == m - {id}; }
  }

  lemma SetMemberIs(s: set<nat>, id: nat, member: bool)
    ensures SetMember(s, id, member) == if member then s + {id} else s - {id}
  {
  }

  // What is written for one trade is what is read back, and other trades only see
  // the day's P&L and the history move.
  lemma ViewAfter(w: World, v: View, i: nat)
    requires v.id < |w.rows| && i < |w.rows|
    ensures ViewOf(PutView(w, v), i) == if i == v.id then v else ViewOf(w, i).(day := v.day, log := v.log)
  {
    EntryAfter(w.mem.failures, v.id, v.failures, i);
    EntryAfter(w.mem.pending, v.id, v.pending, i);
  }

  lemma PutAgain(w: World, u: View, v: View)
    requires u.id == v.id < |w.rows|
    ensures PutView(PutView(w, u), v) == PutView(w, v)
  {
    SetEntryAgain(w.mem.failures, v.id, u.failures, v.failures);
    SetEntryAgain(w.mem.pending, v.id, u.pending, v.pending);
    SetMemberAgain(w.mem.justEntered, v.id, u.entered, v.entered);
    SetMemberAgain(w.mem.rolled, v.id, u.rolled, v.rolled);
    SetMemberAgain(w.mem.notified, v.id, u.notified, v.notified);
    assert w.rows[v.id := u.row][v.id := v.row] == w.rows[v.id := v.row];
  }

  lemma SetMemberAgain(s: set<nat>, id: nat, a: bool, b: bool)
    ensures SetMember(SetMember(s, id, a), id, b) == SetMember(s, id, b)
  {
    if a && !b { assert s + {id} - {id} == s - {id}; }
    if !a && b { assert s - {id} + {id} == s + {id}; }
  }

  lemma PutBack(w: World, id: nat)
    requires id < |w.rows|
    ensures PutView(w, ViewOf(w, id)) == w
  {
    assert w.rows[id := w.rows[id]] == w.rows;
  }

  // ---- One trade's own history --------------------------------------------

  // The trade an action is about; a restart is about all of them.
  predicate About(a: Action, id: nat) {
    match a
    case EnterCall(_) => false
    case HaltAlert => false
    case Restarted => true
    case _ => a.id == id
  }

  function Of(h: History<Action>, id: nat): History<Action> {
    if h.Nothing? then Nothing
    else if About(h.last, id) then Then(Of(h.past, id), h.last)
    else Of(h.past, id)
  }

  function Own(v: View): History<Action> {
    Of(v.log, v.id)
  }

  // Nothing but restarts concerns this trade.
  predicate Unmentioned(h: History<Action>, id: nat) {
    h.Nothing? || ((h.last.Restarted? || !About(h.last, id)) && Unmentioned(h.past, id))
  }

  // h goes on from `past` with actions about trade `id` only.
  predicate OnlyAbout(past: History<Action>, h: History<Action>, id: nat) {
    h == past || (h.Then? && !h.last.Restarted? && About(h.last, id) && OnlyAbout(past, h.past, id))
  }

  lemma {:induction false} OthersSilent(past: History<Action>, h: History<Action>, id: nat, i: nat)
    requires OnlyAbout(past, h, id) && i != id
    ensures Of(h, i) == Of(past, i)
    ensures Unmentioned(past, i) ==> Unmentioned(h, i)
  {
    if h != past { OthersSilent(past, h.past, id, i); }
  }

  lemma MarkOnly(cfg: Config, v: View, t: Tick)
    ensures OnlyAbout(v.log, MarkStuckAndNotify(cfg, v, t).log, v.id)
  {
    assert OnlyAbout(v.log, Then(v.log, Marked(v.id)), v.id);
  }

  lemma CloseOnly(v: View, cause: Cause, spread: Option<real>, t: Tick)
    ensures OnlyAbout(v.log, ClosePosition(v, cause, spread, t).0.log, v.id)
  {
    assert OnlyAbout(v.log, Then(v.log, CloseCall(v.id, PositionOf(v.row), cause, t.credit)), v.id);
  }

  lemma RollOnly(cfg: Config, v: View, t: Tick)
    ensures OnlyAbout(v.log, TryRoll(cfg, v, t).0.log, v.id)
  {
    var target := RollTarget(cfg, v.row, t);
    if target.Some? {
      assert OnlyAbout(v.log, Then(v.log, RollCall(v.id, PositionOf(v.row), target.value, t.rollDone)), v.id);
    }
  }

  lemma {:induction false} OnlyAboutThen(a: History<Action>, b: History<Action>, c: History<Action>, id: nat)
    requires OnlyAbout(a, b, id) && OnlyAbout(b, c, id)
    ensures OnlyAbout(a, c, id)
  {
    if c != b { OnlyAboutThen(a, b, c.past, id); }
  }

  lemma SignalOnly(cfg: Config, v: View, t: Tick)
    ensures OnlyAbout(v.log, OnSignal(cfg, v, t).log, v.id)
  {
    var confirmed := v.(pending := None);
    MarkOnly(cfg, confirmed, t);
    CloseOnly(confirmed, if t.signal.Stop? then StopLoss else TakeProfit, Some(t.spread), t);
  }

  lemma RollDueOnly(cfg: Config, v: View, t: Tick)
    ensures OnlyAbout(v.log, OnRollDue(cfg, v, t).log, v.id)
  {
    if cfg.drain || cfg.drainAndNew {
      CloseOnly(v, DrainClose, Some(t.spread), t);
    } else if Count(v.failures) >= cfg.retryCap {
      CloseOnly(v, RollCap, Some(t.spread), t);
      var (closed, failed) := ClosePosition(v, RollCap, Some(t.spread), t);
      if failed {
        MarkOnly(cfg, closed, t);
        OnlyAboutThen(v.log, closed.log, MarkStuckAndNotify(cfg, closed, t).log, v.id);
      }
    } else {
      RollOnly(cfg, v, t);
    }
  }

  lemma QuoteOnly(cfg: Config, v: View, t: Tick)
    ensures OnlyAbout(v.log, OnQuote(cfg, v, t).log, v.id)
  {
    var seen := Say(v, Evaluated(v.id, !t.signal.Hold?, t.spread)).(row := v.row.(lastSpread := t.spread));
    assert OnlyAbout(v.log, seen.log, v.id);
    SignalOnly(cfg, seen, t);
    RollDueOnly(cfg, seen.(pending := None), t);
    OnlyAboutThen(v.log, seen.log, OnQuote(cfg, v, t).log, v.id);
  }

  // Monitoring one trade adds nothing about any other to the history.
  lemma MonitorOnly(cfg: Config, v: View, t: Tick)
    ensures OnlyAbout(v.log, Monitor(cfg, v, t).log, v.id)
  {
    MarkOnly(cfg, v, t);
    CloseOnly(v, NearExpired, None, t);
    QuoteOnly(cfg, v, t);
  }

  // ---- Other trades -------------------------------------------------------

  // a and b differ in the day's P&L and in what happened to other trades only.
  ghost predicate Alike(a: View, b: View) {
    b == a.(day := b.day, log := b.log) && Own(b) == Own(a)
  }

  lemma PutAlike(w: World, v: View, i: nat)
    requires v.id < |w.rows| && i < |w.rows| && i != v.id && OnlyAbout(w.log, v.log, v.id)
    ensures Alike(ViewOf(w, i), ViewOf(PutView(w, v), i))
  {
    ViewAfter(w, v, i);
    OthersSilent(w.log, v.log, v.id, i);
  }

  lemma {:induction false} MonitorAllElsewhere(cfg: Config, w: World, ids: seq<nat>, env: nat -> Tick, i: nat)
    requires forall id :: id in ids ==> id < |w.rows|
    requires i !in ids && i < |w.rows|
    ensures Alike(ViewOf(w, i), ViewOf(MonitorAll(cfg, w, ids, env), i))
  {
    if ids != [] {
      var init, last := ids[..|ids| - 1], ids[|ids| - 1];
      assert last in ids && i !in init && forall id :: id in init ==> id in ids;
      MonitorAllElsewhere(cfg, w, init, env, i);
      var mid := MonitorAll(cfg, w, init, env);
      MonitorOnly(cfg, ViewOf(mid, last), env(last));
      PutAlike(mid, Monitor(cfg, ViewOf(mid, last), env(last)), i);
    }
  }

  // The world a monitor pass has reached when it comes to its k-th trade.
  function Reached(cfg: Config, w: World, ids: seq<nat>, env: nat -> Tick, k: nat): (r: World)
    requires k <= |ids| && forall id :: id in ids ==> id < |w.rows|
    ensures |r.rows| == |w.rows|
  {
    assert forall id :: id in ids[..k] ==> id in ids;
    MonitorAll(cfg, w, ids[..k], env)
  }

  // A monitor pass does to each listed trade what monitoring it alone does, and
  // finds it as it was before the pass.
  lemma {:induction false} MonitorAllOn(cfg: Config, w: World, ids: seq<nat>, env: nat -> Tick, k: nat)
    requires k < |ids| && ids[k] < |w.rows| && forall id :: id in ids ==> id < |w.rows|
    requires forall i, j :: 0 <= i < j < |ids| ==> ids[i] != ids[j]
    ensures var before := ViewOf(Reached(cfg, w, ids, env, k), ids[k]);
            && Alike(ViewOf(w, ids[k]), before)
            && Alike(Monitor(cfg, before, env(ids[k])), ViewOf(MonitorAll(cfg, w, ids, env), ids[k]))
  {
    var init, last, id := ids[..|ids| - 1], ids[|ids| - 1], ids[k];
    assert last in ids && forall i :: i in init ==> i in ids;
    var mid := MonitorAll(cfg, w, init, env);
    MonitorOnly(cfg, ViewOf(mid, last), env(last));
    if k == |ids| - 1 {
      MonitorAllElsewhere(cfg, w, init, env, id);
      ViewAfter(mid, Monitor(cfg, ViewOf(mid, id), env(id)), id);
    } else {
      assert init[..k] == ids[..k] && init[k] == id != last;
      MonitorAllOn(cfg, w, init, env, k);
      PutAlike(mid, Monitor(cfg, ViewOf(mid, last), env(last)), id);
    }
  }
}
