/**
 The life of one spread: what the account holds of every leg after an entry and
 any closes and rolls, whichever way each of them ended.
 */
module SpreadLife {
  import opened Exchange
  import opened Histories
  import opened Options
  import opened Outcomes

  // The near leg the trade is on as far as the callers were told, if it is open.
  function Near(ds: History<Deed>): Option<string> {
    if ds.Nothing? then None
    else if !Done(ds.last.call) then Near(ds.past)
    else match ds.last.call
         case Enter(near, _, _, _, _) => Some(near)
         case Close(_, _, _, _, _) => None
         case Roll(_, newNear, _, _) => Some(newNear)
  }

  // The calls of one trade of size q against `far`: an entry that went through,
  // then closes and rolls of the legs the trade is on.  The caller carries on with
  // the old near leg after a roll that failed, wherever it failed.
  predicate Life(ds: History<Deed>, far: string, q: nat) {
    && ds.Then? && Proper(ds.last.call) && ds.last.call.q == q
    && match ds.last.call
       case Enter(_, f, _, _, _) => f == far && Done(ds.last.call) && ds.past.Nothing?
       case Close(near, f, _, _, _) => f == far && Life(ds.past, far, q) && Near(ds.past) == Some(near)
       case Roll(oldNear, newNear, _, _) => newNear != far && Life(ds.past, far, q) && Near(ds.past) == Some(oldNear)
  }

  function Worth(near: Option<string>, far: string, q: int, leg: string): int {
    if near.Some? then Spread(leg, near.value, far, q) else 0
  }

  lemma {:induction false} ToldTheLatestSpread(ds: History<Deed>, far: string, q: nat, leg: string)
    requires Life(ds, far, q)
    ensures AllTold(ds, leg) == Worth(Near(ds), far, q, leg)
  {
    if ds.past.Then? { ToldTheLatestSpread(ds.past, far, q, leg); }
  }

  // After any such life the account holds the spread on the latest near leg and
  // the strays, nothing of any other leg, and no order of its history can still
  // fill.
  lemma HoldsTheLatestSpread(start: seq<Order>, ds: History<Deed>, far: string, q: nat, leg: string)
    requires AllSound(start) && Carried(start, ds) && Life(ds, far, q)
    ensures var end := Latest(start, ds);
            && AllSettled(end, |start|)
            && Holding(start, end, leg) == Worth(Near(ds), far, q, leg) + Strays(ds, leg)
  {
    HoldsWhatWasTold(start, ds, leg);
    ToldTheLatestSpread(ds, far, q, leg);
  }

  // What the combo given up on entry had filled.
  function Abandoned(ds: History<Deed>): nat {
    if ds.Nothing? then 0
    else if ds.last.call.Enter? then ds.last.call.abandoned
    else Abandoned(ds.past)
  }

  // The far leg shows an abandoned combo, and without one strays only add up.
  lemma {:induction false} StraysAddUp(ds: History<Deed>, far: string, q: nat, leg: string)
    requires Life(ds, far, q)
    ensures Near(ds) != Some(far) && Strays(ds, far) == Abandoned(ds)
    ensures Abandoned(ds) == 0 ==> Strays(ds, leg) >= 0
  {
    if ds.past.Then? { StraysAddUp(ds.past, far, q, leg); }
  }

  lemma {:induction false} NothingCancels(ds: History<Deed>, far: string, q: nat)
    requires Life(ds, far, q) && NothingAstray(ds)
    ensures AllClean(ds)
  {
    StraysAddUp(ds, far, q, far);
    if ds.past.Then? {
      forall leg ensures Strays(ds.past, leg) == 0 && Stray(ds.last.call, leg) == 0 {
        assert Strays(ds, leg) == 0;
        StraysAddUp(ds.past, far, q, leg);
      }
      CleanIffNothingStrays(ds.last.call);
      NothingCancels(ds.past, far, q);
    }
  }

  lemma {:induction false} CleanNeverStrays(ds: History<Deed>, leg: string)
    requires AllProper(ds) && AllClean(ds)
    ensures Strays(ds, leg) == 0
  {
    if ds.Then? {
      CleanIffNothingStrays(ds.last.call);
      CleanNeverStrays(ds.past, leg);
    }
  }

  lemma {:induction false} LivesAreProper(ds: History<Deed>, far: string, q: nat)
    requires Life(ds, far, q)
    ensures AllProper(ds)
  {
    if ds.past.Then? { LivesAreProper(ds.past, far, q); }
  }

  // The account holds of every leg what it held at the start.
  ghost predicate BackWhereItWas(start: seq<Order>, end: seq<Order>) {
    forall leg :: Holding(start, end, leg) == 0
  }

  // A close that went through puts the account back where it was before the entry,
  // in every leg and for good, exactly when the entry gave up no combo it had
  // filled part of, no close had its far order refused over a part-filled near one,
  // and no roll failed at its open stage.
  lemma ClosedSpreadLeavesNothing(start: seq<Order>, ds: History<Deed>, far: string, q: nat)
    requires AllSound(start) && Carried(start, ds) && Life(ds, far, q) && Near(ds).None?
    ensures AllSettled(Latest(start, ds), |start|)
    ensures BackWhereItWas(start, Latest(start, ds)) <==> AllClean(ds)
  {
    var end := Latest(start, ds);
    forall leg ensures Holding(start, end, leg) == Strays(ds, leg) { HoldsTheLatestSpread(start, ds, far, q, leg); }
    HoldsTheLatestSpread(start, ds, far, q, far);
    if BackWhereItWas(start, end) {
      forall leg ensures Strays(ds, leg) == 0 { assert Holding(start, end, leg) == 0; }
      NothingCancels(ds, far, q);
    }
    if AllClean(ds) {
      LivesAreProper(ds, far, q);
      forall leg ensures Holding(start, end, leg) == 0 { CleanNeverStrays(ds, leg); }
    }
  }

  // ---- A life that leaves the old near leg behind --------------------------

  function Took(leg: string, side: Side, q: nat): Order {
    Order(Leg(leg), side, q, q, Filled)
  }

  // Two more filled orders.
  lemma DidTwo(c: Call, a: seq<Order>, one: Order, other: Order)
    requires AllSound(a) && Sound(one) && Sound(other) && one.status == Filled && other.status == Filled
    requires one.instrument.Leg? && other.instrument.Leg?
    requires c.Roll? ==> {one.instrument.name, other.instrument.name} == {c.oldNear, c.newNear}
    requires !c.Roll? ==> {one.instrument.name, other.instrument.name} == {c.near, c.far}
    requires forall leg :: leg in {one.instrument.name, other.instrument.name} ==>
               Exposure(one, leg) + Exposure(other, leg) == Told(c, leg) + Stray(c, leg)
    ensures Did(c, a, a + [one, other]) && AllSound(a + [one, other])
  {
    var b := a + [one, other];
    var x, y := one.instrument.name, other.instrument.name;
    assert b[|a|] == one && b[|a| + 1] == other;
    NetUnrolled(b, |a|, x);
    NetUnrolled(b, |a|, y);
    DidBoth(c, a, b, x, y);
  }

  // The roll that bought the old near leg back and could not sell the new one.
  lemma DidHalfRoll(a: seq<Order>, n0: string, n1: string, q: nat)
    requires AllSound(a) && n0 != n1
    ensures Did(Roll(n0, n1, q, OpenRefused), a, a + [Took(n0, Buy, q)]) && AllSound(a + [Took(n0, Buy, q)])
  {
    var b := a + [Took(n0, Buy, q)];
    assert b[|a|] == Took(n0, Buy, q);
    NetUnrolled(b, |a|, n0);
    NetUnrolled(b, |a|, n1);
    DidBoth(Roll(n0, n1, q, OpenRefused), a, b, n0, n1);
  }

  lemma HalfRolled(n0: string, n1: string, far: string, q: nat) returns (ds: History<Deed>)
    requires n0 != n1 && n0 != far && n1 != far && q > 0
    ensures AllSound(Latest([], ds)) && Carried([], ds) && Life(ds, far, q)
    ensures Near(ds) == Some(n0) && Strays(ds, n0) == q
    ensures ds.past.Then? && ds.past.past.Nothing? && ds.last.call == Roll(n0, n1, q, OpenRefused)
  {
    var enter := Enter(n0, far, q, LegsFilled(0, 1, 0.0, 0.0), 0);
    var entered := [] + [Took(n0, Sell, q), Took(far, Buy, q)];
    DidTwo(enter, [], Took(n0, Sell, q), Took(far, Buy, q));
    DidHalfRoll(entered, n0, n1, q);
    var held := Then(Nothing, Deed(enter, entered));
    assert Life(held, far, q) && Near(held) == Some(n0) && Strays(held, n0) == 0;
    ds := Then(held, Deed(Roll(n0, n1, q, OpenRefused), entered + [Took(n0, Buy, q)]));
  }

  // An entry on n0, a roll to n1 whose opening sale is refused, the same roll
  // again, and a close: every call but one goes through, and the account is left
  // long q of the old near leg.
  lemma RetriedRollLeavesTheOldLeg(n0: string, n1: string, far: string, q: nat) returns (ds: History<Deed>)
    requires n0 != n1 && n0 != far && n1 != far && q > 0
    ensures Carried([], ds) && Life(ds, far, q) && Near(ds).None?
    ensures Holding([], Latest([], ds), n0) == q
    ensures ds.past.Then? && ds.past.past.Then? && ds.past.past.past.Then? && ds.past.past.past.past.Nothing?
    ensures ds.past.past.last.call == Roll(n0, n1, q, OpenRefused)
    ensures ds.past.last.call == Roll(n0, n1, q, Rolled) && Done(ds.last.call)
  {
    var half := HalfRolled(n0, n1, far, q);
    var rolled := half.last.after + [Took(n0, Buy, q), Took(n1, Sell, q)];
    var closed := rolled + [Took(n1, Buy, q), Took(far, Sell, q)];
    DidTwo(Roll(n0, n1, q, Rolled), half.last.after, Took(n0, Buy, q), Took(n1, Sell, q));
    DidTwo(Close(n1, far, q, BothClosed, 0), rolled, Took(n1, Buy, q), Took(far, Sell, q));
    var again := Then(half, Deed(Roll(n0, n1, q, Rolled), rolled));
    assert Life(again, far, q) && Near(again) == Some(n1) && Strays(again, n0) == q;
    ds := Then(again, Deed(Close(n1, far, q, BothClosed, 0), closed));
    HoldsTheLatestSpread([], ds, far, q, n0);
  }
}
