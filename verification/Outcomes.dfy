/**
 How the order protocols can end, and what each end leaves in the account.
 */
module Outcomes {
  import opened Exchange
  import opened Histories

  datatype Entry =
    | ComboFilled(id: nat)
    | LegsFilled(near: nat, far: nat, nearFill: real, farFill: real)
    | Simulated
    | NoEntry
    | LegRisk
    | Slipped(farSide: bool, fill: real)
    | Escaped(farSide: bool)

  datatype CloseStage = NearRefused | FarRefused | BothClosed | OnlyNear | OnlyFar | Neither

  datatype RollStage = Rolled | CloseRefused | CloseFailed | OpenRefused | OpenFailed

  // The ways out after the near leg was sold that do not buy it back: its fill
  // slipped, or the far order was refused outright.
  predicate Uncovered(out: Entry) {
    (out.Slipped? && !out.farSide) || out == Escaped(true)
  }

  // One call of a protocol for q units and how it ended.  `abandoned` is what a
  // given-up combo had filled, `left` what a near order cancelled after the far
  // one was refused had.
  datatype Call =
    | Enter(near: string, far: string, q: nat, out: Entry, abandoned: nat)
    | Close(near: string, far: string, q: nat, stage: CloseStage, left: nat)
    | Roll(oldNear: string, newNear: string, q: nat, ending: RollStage)

  // The caller is told that it went through.
  predicate Done(c: Call) {
    match c
    case Enter(_, _, _, out, _) => out.ComboFilled? || out.LegsFilled?
    case Close(_, _, _, stage, _) => stage == BothClosed
    case Roll(_, _, _, ending) => ending == Rolled
  }

  // The holding a calendar spread of size q stands for.
  function Spread(leg: string, near: string, far: string, q: int): int {
    (if leg == near then -q else 0) + (if leg == far then q else 0)
  }

  // What the caller takes a call to have done to the holding of a leg.
  function Told(c: Call, leg: string): int {
    if !Done(c) then 0
    else match c
         case Enter(near, far, q, _, _) => Spread(leg, near, far, q)
         case Close(near, far, q, _, _) => -Spread(leg, near, far, q)
         case Roll(oldNear, newNear, q, _) => Spread(leg, newNear, oldNear, q)
  }

  // What it has done besides.
  function Stray(c: Call, leg: string): int {
    match c
    case Enter(near, far, q, out, abandoned) =>
      Spread(leg, near, far, abandoned) + if leg == near && Uncovered(out) then 0 - q else 0
    case Close(near, _, _, _, left) => if leg == near then left else 0
    case Roll(oldNear, _, q, ending) => if leg == oldNear && ending in {OpenRefused, OpenFailed} then q else 0
  }

  // The ends that leave nothing but what the caller is told.
  predicate Clean(c: Call) {
    match c
    case Enter(_, _, _, out, abandoned) => abandoned == 0 && !Uncovered(out)
    case Close(_, _, _, _, left) => left == 0
    case Roll(_, _, _, ending) => ending !in {OpenRefused, OpenFailed}
  }

  // A call for some units of different legs.
  predicate Proper(c: Call) {
    && c.q > 0
    && (c.Roll? ==> c.oldNear != c.newNear)
    && (!c.Roll? ==> c.near != c.far)
  }

  lemma CleanIffNothingStrays(c: Call)
    requires Proper(c)
    ensures Clean(c) <==> forall leg :: Stray(c, leg) == 0
  {
    match c
    case Enter(near, far, _, _, _) => assert Clean(c) <==> Stray(c, near) == 0 == Stray(c, far);
    case Close(near, _, _, _, _) => assert Clean(c) <==> Stray(c, near) == 0;
    case Roll(oldNear, _, _, _) => assert Clean(c) <==> Stray(c, oldNear) == 0;
  }

  // What the account's orders since `start` have built up of a leg.
  function Holding(start: seq<Order>, now: seq<Order>, leg: string): int {
    Net(now, |start|, |now|, leg)
  }

  // From moment a to moment b the account's orders did just what the call says,
  // in every leg and for good.
  ghost predicate Did(c: Call, a: seq<Order>, b: seq<Order>) {
    && Extends(a, b) && AllSettled(b, |a|)
    && forall leg :: Holding(a, b, leg) == Told(c, leg) + Stray(c, leg)
  }

  // What a protocol promises about the two legs it trades settles every leg.
  lemma DidBoth(c: Call, a: seq<Order>, b: seq<Order>, one: string, other: string)
    requires Extends(a, b) && AllSettled(b, |a|) && Trades(b, |a|, one, other)
    requires c.Roll? ==> {one, other} == {c.oldNear, c.newNear}
    requires !c.Roll? ==> {one, other} == {c.near, c.far}
    requires Net(b, |a|, |b|, one) == Told(c, one) + Stray(c, one)
    requires Net(b, |a|, |b|, other) == Told(c, other) + Stray(c, other)
    ensures Did(c, a, b)
  {
    forall leg ensures Holding(a, b, leg) == Told(c, leg) + Stray(c, leg) {
      if leg != one && leg != other {
        OthersUntouched(b, |a|, |b|, one, other, leg);
        assert leg !in {one, other};
      }
    }
  }

  // Time may pass before and after a call.
  lemma DidInItsTime(c: Call, before: seq<Order>, a: seq<Order>, b: seq<Order>, after: seq<Order>)
    requires Did(c, a, b)
    requires Extends(before, a) && |before| == |a| && Extends(b, after) && |after| == |b|
    ensures Did(c, before, after)
  {
    ExtendsTransitive(before, a, b);
    ExtendsTransitive(before, b, after);
    StaysSettled(b, after, |a|);
    forall leg ensures Holding(before, after, leg) == Holding(a, b, leg) {
      NetSettled(b, after, |a|, leg);
    }
  }

  // ---- One call after another ---------------------------------------------

  // A call and the account's orders when it had ended.
  datatype Deed = Deed(call: Call, after: seq<Order>)

  function Latest(start: seq<Order>, ds: History<Deed>): seq<Order> {
    if ds.Nothing? then start else ds.last.after
  }

  ghost predicate Carried(start: seq<Order>, ds: History<Deed>) {
    ds.Nothing? || (Carried(start, ds.past) && Did(ds.last.call, Latest(start, ds.past), ds.last.after))
  }

  function AllTold(ds: History<Deed>, leg: string): int {
    if ds.Nothing? then 0 else AllTold(ds.past, leg) + Told(ds.last.call, leg)
  }

  function Strays(ds: History<Deed>, leg: string): int {
    if ds.Nothing? then 0 else Strays(ds.past, leg) + Stray(ds.last.call, leg)
  }

  // After any calls the account holds of each leg what the callers were told, and
  // the strays, for good.
  lemma {:induction false} HoldsWhatWasTold(start: seq<Order>, ds: History<Deed>, leg: string)
    requires AllSound(start) && Carried(start, ds)
    ensures var end := Latest(start, ds);
            && Extends(start, end) && AllSettled(end, |start|)
            && Holding(start, end, leg) == AllTold(ds, leg) + Strays(ds, leg)
  {
    if ds.Then? {
      HoldsWhatWasTold(start, ds.past, leg);
      ExtendsTransitive(start, Latest(start, ds.past), ds.last.after);
      SettledThen(Latest(start, ds.past), ds.last.after, |start|, leg);
    }
  }

  predicate AllProper(ds: History<Deed>) {
    ds.Nothing? || (Proper(ds.last.call) && AllProper(ds.past))
  }

  predicate AllClean(ds: History<Deed>) {
    ds.Nothing? || (Clean(ds.last.call) && AllClean(ds.past))
  }

  ghost predicate NothingAstray(ds: History<Deed>) {
    forall leg :: Strays(ds, leg) == 0
  }

  // At no moment does the account hold anything but what was told.
  ghost predicate NeverAstray(ds: History<Deed>) {
    NothingAstray(ds) && (ds.Then? ==> NeverAstray(ds.past))
  }

  lemma {:induction false} NeverAstrayIffClean(ds: History<Deed>)
    requires AllProper(ds)
    ensures NeverAstray(ds) <==> AllClean(ds)
  {
    if ds.Then? {
      NeverAstrayIffClean(ds.past);
      CleanIffNothingStrays(ds.last.call);
      if NeverAstray(ds.past) {
        forall leg ensures Strays(ds, leg) == Stray(ds.last.call, leg) { assert Strays(ds.past, leg) == 0; }
      }
    }
  }
}
