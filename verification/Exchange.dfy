/**
 The exchange as the order protocols see it: a list of orders whose fills are
 chosen by an adversary, and a clock.  An order id is its index in the list.

 Amounts count instrument steps.  `trail` records the order list after every
 event, so that a contract can speak about every intermediate moment of a run.
 */
module Exchange {
  import opened Options

  datatype Side = Buy | Sell

  function Reverse(s: Side): Side {
    if s.Buy? then Sell else Buy
  }

  // A combo instrument, bought, sells one unit of `sold` and buys one of `bought`.
  datatype Instrument = Leg(name: string) | Combo(sold: string, bought: string)

  datatype Status = Live | Filled | Cancelled | Rejected

  datatype Order = Order(instrument: Instrument, side: Side, amount: nat, filled: nat, status: Status)

  // What an order has done to the account's holding of one leg.
  function Exposure(o: Order, leg: string): int {
    var signed := if o.side.Buy? then o.filled as int else 0 - o.filled;
    match o.instrument
    case Leg(name) => if name == leg then signed else 0
    case Combo(sold, bought) =>
      (if sold == leg then -signed else 0) + (if bought == leg then signed else 0)
  }

  // The holding of `leg` built up by orders lo..hi.
  function Net(os: seq<Order>, lo: nat, hi: nat, leg: string): int
    requires hi <= |os|
    decreases hi
  {
    if hi <= lo then 0 else Net(os, lo, hi - 1, leg) + Exposure(os[hi - 1], leg)
  }

  predicate Sound(o: Order) {
    && o.filled <= o.amount
    && (o.status == Filled ==> o.filled == o.amount)
  }

  // One order's possible futures: fills only grow, and an order that is no
  // longer live never changes again.
  predicate Advances(o: Order, o': Order) {
    && o'.instrument == o.instrument && o'.side == o.side && o'.amount == o.amount
    && o.filled <= o'.filled
    && Sound(o')
    && (o.status != Live ==> o' == o)
  }

  predicate AllSound(os: seq<Order>) {
    forall k :: 0 <= k < |os| ==> Sound(os[k])
  }

  // The future of an order list: known orders advance, new ones are appended.
  predicate Extends(os: seq<Order>, os': seq<Order>) {
    && |os| <= |os'|
    && forall k :: 0 <= k < |os| ==> Advances(os[k], os'[k])
  }

  lemma ExtendsTransitive(a: seq<Order>, b: seq<Order>, c: seq<Order>)
    requires Extends(a, b) && Extends(b, c)
    ensures Extends(a, c)
  {
    forall k | 0 <= k < |a| ensures Advances(a[k], c[k]) {
      assert Advances(a[k], b[k]) && Advances(b[k], c[k]);
    }
  }

  // A holding depends only on the fills of the orders it sums over.
  lemma {:induction false} NetCongruent(a: seq<Order>, b: seq<Order>, lo: nat, hi: nat, leg: string)
    requires hi <= |a| && hi <= |b|
    requires forall k :: lo <= k < hi ==> Exposure(a[k], leg) == Exposure(b[k], leg)
    ensures Net(a, lo, hi, leg) == Net(b, lo, hi, leg)
    decreases hi
  {
    if lo < hi {
      NetCongruent(a, b, lo, hi - 1, leg);
    }
  }

  // An order that can no longer change what it has done to the account.
  predicate Settled(o: Order) {
    o.status != Live || o.filled == o.amount
  }

  predicate AllSettled(os: seq<Order>, lo: nat) {
    forall k :: lo <= k < |os| ==> Settled(os[k])
  }

  lemma StaysSettled(os: seq<Order>, os': seq<Order>, lo: nat)
    requires Extends(os, os') && AllSettled(os, lo)
    ensures forall k :: lo <= k < |os| ==>
              Settled(os'[k]) && os'[k].filled == os[k].filled && os'[k].instrument == os[k].instrument
  {
    forall k | lo <= k < |os|
      ensures Settled(os'[k]) && os'[k].filled == os[k].filled && os'[k].instrument == os[k].instrument
    {
      assert Settled(os[k]) && Advances(os[k], os'[k]);
    }
  }

  // The orders from lo on trade these two legs and nothing else.
  predicate Trades(os: seq<Order>, lo: nat, near: string, far: string) {
    forall k :: lo <= k < |os| ==> os[k].instrument in {Leg(near), Leg(far), Combo(near, far)}
  }

  lemma TradesThen(a: seq<Order>, b: seq<Order>, lo: nat, near: string, far: string)
    requires Extends(a, b) && lo <= |a| && Trades(a, lo, near, far) && Trades(b, |a|, near, far)
    ensures Trades(b, lo, near, far)
  {
    forall k | lo <= k < |b| ensures b[k].instrument in {Leg(near), Leg(far), Combo(near, far)} {
      if k < |a| { assert Advances(a[k], b[k]); }
    }
  }

  lemma {:induction false} OthersUntouched(os: seq<Order>, lo: nat, hi: nat, near: string, far: string, leg: string)
    requires hi <= |os| && Trades(os, lo, near, far) && leg != near && leg != far
    ensures Net(os, lo, hi, leg) == 0
    decreases hi
  {
    if lo < hi { OthersUntouched(os, lo, hi - 1, near, far, leg); }
  }

  // A holding built from settled orders survives whatever comes after.
  lemma NetSettled(a: seq<Order>, b: seq<Order>, lo: nat, leg: string)
    requires Extends(a, b)
    requires forall k :: lo <= k < |a| ==> Settled(a[k]) || (a[k].instrument.Leg? && a[k].instrument != Leg(leg))
    ensures Net(b, lo, |a|, leg) == Net(a, lo, |a|, leg)
  {
    forall k | lo <= k < |a| ensures Exposure(a[k], leg) == Exposure(b[k], leg) {
      assert Advances(a[k], b[k]);
    }
    NetCongruent(a, b, lo, |a|, leg);
  }

  lemma {:induction false} NetSplit(os: seq<Order>, lo: nat, mid: nat, hi: nat, leg: string)
    requires lo <= mid <= hi <= |os|
    ensures Net(os, lo, hi, leg) == Net(os, lo, mid, leg) + Net(os, mid, hi, leg)
    decreases hi
  {
    if mid < hi {
      NetSplit(os, lo, mid, hi - 1, leg);
    }
  }

  // At most one more order after a settled stretch.
  lemma OneMore(a: seq<Order>, b: seq<Order>, lo: nat, leg: string)
    requires Extends(a, b) && lo <= |a| && AllSettled(a, lo) && |b| <= |a| + 1
    ensures Net(b, lo, |b|, leg) == Net(a, lo, |a|, leg) + if |b| > |a| then Exposure(b[|a|], leg) else 0
  {
    NetSettled(a, b, lo, leg);
  }

  // One settled stretch of orders after another.
  lemma SettledThen(a: seq<Order>, b: seq<Order>, lo: nat, leg: string)
    requires Extends(a, b) && lo <= |a| && AllSettled(a, lo) && AllSettled(b, |a|)
    ensures AllSettled(b, lo)
    ensures Net(b, lo, |b|, leg) == Net(a, lo, |a|, leg) + Net(b, |a|, |b|, leg)
  {
    StaysSettled(a, b, lo);
    NetSettled(a, b, lo, leg);
    NetSplit(b, lo, |a|, |b|, leg);
  }

  // Writes out a holding built from at most four orders.
  lemma NetUnrolled(os: seq<Order>, lo: nat, leg: string)
    requires lo <= |os| <= lo + 4
    ensures var n := |os| - lo;
            Net(os, lo, |os|, leg) ==
            (if n > 0 then Exposure(os[lo], leg) else 0) +
            (if n > 1 then Exposure(os[lo + 1], leg) else 0) +
            (if n > 2 then Exposure(os[lo + 2], leg) else 0) +
            (if n > 3 then Exposure(os[lo + 3], leg) else 0)
  {
    var n := |os| - lo;
    assert Net(os, lo, lo, leg) == 0;
    if n > 0 { assert Net(os, lo, lo + 1, leg) == Exposure(os[lo], leg); }
    if n > 1 { assert Net(os, lo, lo + 2, leg) == Net(os, lo, lo + 1, leg) + Exposure(os[lo + 1], leg); }
    if n > 2 { assert Net(os, lo, lo + 3, leg) == Net(os, lo, lo + 2, leg) + Exposure(os[lo + 2], leg); }
    if n > 3 { assert Net(os, lo, lo + 4, leg) == Net(os, lo, lo + 3, leg) + Exposure(os[lo + 3], leg); }
  }

  // What submitting an order can lead to: it is accepted under a fresh id, the
  // transport fails and nothing is placed, or the exchange refuses it.
  datatype Submission = Accepted(id: nat) | TransportError | Refused

  // One submission of a limit order and what came back.
  datatype Try = Try(instrument: Instrument, side: Side, amount: nat, limit: real, answer: Submission)

  class Venue {
    // The average price at which an order's first so many units fill, when its
    // state comes to tell it.
    const average: (nat, nat) -> Option<real>
    var now: real
    var orders: seq<Order>
    // Crossed orders whose submission failed; each leaves its amount unreversed.
    ghost var missed: seq<Order>
    ghost var trail: seq<seq<Order>>
    // Every limit order ever submitted, accepted or not.
    ghost var tries: seq<Try>
    // Live orders that were cancelled on request.
    ghost var stopped: set<nat>

    ghost predicate Valid() reads this {
      AllSound(orders)
    }

    constructor (time: real, average: (nat, nat) -> Option<real>)
      ensures Valid() && orders == [] && missed == [] && trail == [[]] && now == time && this.average == average
      ensures tries == [] && stopped == {}
    {
      this.average := average;
      now := time;
      orders := [];
      missed := [];
      trail := [[]];
      tries, stopped := [], {};
    }

    // Time passes and live orders fill, are cancelled or rejected as the
    // adversary likes.  Nothing happens in no time.
    method Elapse(dt: real)
      requires Valid() && dt >= 0.0
      modifies this
      ensures Valid() && now == old(now) + dt
      ensures |orders| == |old(orders)| && Extends(old(orders), orders)
      ensures dt == 0.0 ==> orders == old(orders)
      ensures missed == old(missed) && tries == old(tries) && stopped == old(stopped)
      ensures trail == old(trail) + [orders]
    {
      now := now + dt;
      if dt > 0.0 {
        assert |orders| == |orders| && Extends(orders, orders);
        var next: seq<Order> :| |next| == |orders| && Extends(orders, next);
        assert |next| == |orders|;
        assert Extends(orders, next);
        assert forall k :: 0 <= k < |next| ==> Advances(orders[k], next[k]);
        orders := next;
      }
      trail := trail + [orders];
    }

    method Pause(least: real)
      requires Valid() && least >= 0.0
      modifies this
      ensures Valid() && now >= old(now) + least
      ensures |orders| == |old(orders)| && Extends(old(orders), orders)
      ensures missed == old(missed) && tries == old(tries) && stopped == old(stopped)
      ensures trail == old(trail) + [orders]
    {
      var over: real :| over >= 0.0;
      Elapse(least + over);
    }

    // A limit order.  Accepted, it may fill in part or in full at once.
    method Place(instrument: Instrument, side: Side, amount: nat, limit: real) returns (r: Submission)
      requires Valid()
      modifies this
      ensures Valid() && now >= old(now) && missed == old(missed)
      ensures Extends(old(orders), orders)
      ensures r.Accepted? ==> r.id == |old(orders)| && |orders| == r.id + 1
                              && orders[r.id].instrument == instrument && orders[r.id].side == side
                              && orders[r.id].amount == amount
      ensures !r.Accepted? ==> |orders| == |old(orders)|
      ensures trail == old(trail) + [orders] && stopped == old(stopped)
      ensures tries == old(tries) + [Try(instrument, side, amount, limit, r)]
    {
      ghost var seen := trail;
      Pause(0.0);
      r :| r in {Accepted(|orders|), TransportError, Refused};
      if r.Accepted? {
        var filled: nat :| filled <= amount;
        orders := orders + [Order(instrument, side, amount, filled, Live)];
      }
      tries := tries + [Try(instrument, side, amount, limit, r)];
      trail := seen + [orders];
    }

    // A limit order priced through the book.  Accepted, it fills completely.
    method PlaceCrossed(leg: string, side: Side, amount: nat) returns (ok: bool)
      requires Valid()
      modifies this
      ensures Valid() && now >= old(now)
      ensures Extends(old(orders), orders)
      ensures ok ==> missed == old(missed) && |orders| == |old(orders)| + 1
                     && orders[|old(orders)|] == Order(Leg(leg), side, amount, amount, Filled)
      ensures !ok ==> |orders| == |old(orders)|
                      && missed == old(missed) + [Order(Leg(leg), side, amount, amount, Filled)]
      ensures trail == old(trail) + [orders] && tries == old(tries) && stopped == old(stopped)
    {
      ghost var seen := trail;
      Pause(0.0);
      ok :| ok || !ok;
      var crossed := Order(Leg(leg), side, amount, amount, Filled);
      if ok {
        orders := orders + [crossed];
      } else {
        missed := missed + [crossed];
      }
      trail := seen + [orders];
    }

    // The order's state at some moment `at` of the round trip, with the average
    // price of its fills.
    method OrderState(id: nat) returns (o: Order, price: Option<real>, ghost at: real)
      requires Valid() && id < |orders|
      modifies this
      ensures Valid() && old(now) <= at <= now
      ensures missed == old(missed) && tries == old(tries) && stopped == old(stopped)
      ensures |orders| == |old(orders)| && Extends(old(orders), orders)
      ensures Advances(old(orders)[id], o) && Advances(o, orders[id])
      ensures now == at ==> o == orders[id]
      ensures price == average(id, o.filled)
      ensures |trail| == |old(trail)| + 2 && trail[..|old(trail)|] == old(trail)
      ensures forall k :: |old(trail)| <= k < |trail| ==>
                |trail[k]| == |old(orders)| && Extends(old(orders), trail[k]) && Extends(trail[k], orders)
    {
      Pause(0.0);
      o, at := orders[id], now;
      price := average(id, o.filled);
      ghost var mid := orders;
      ghost var start := old(orders);
      var back: real :| back >= 0.0;
      Elapse(back);
      ExtendsTransitive(start, mid, orders);
      assert Advances(start[id], mid[id]) && Advances(mid[id], orders[id]);
    }

    // Cancelling stops a live order.  The reply may be lost, may leave out the
    // filled amount (reported as 0), or carries it truthfully.
    method Cancel(id: nat) returns (reply: nat)
      requires Valid() && id < |orders|
      modifies this
      ensures Valid() && now >= old(now) && missed == old(missed) && tries == old(tries)
      ensures |orders| == |old(orders)| && Extends(old(orders), orders)
      ensures orders[id].status != Live
      ensures stopped == old(stopped) || stopped == old(stopped) + {id}
      ensures old(orders)[id].status != Live ==> stopped == old(stopped)
      ensures reply == 0 || reply == orders[id].filled
      ensures trail == old(trail) + [orders]
    {
      ghost var seen := trail;
      Pause(0.0);
      if orders[id].status == Live {
        orders := orders[id := orders[id].(status := Cancelled)];
        stopped := stopped + {id};
      }
      reply :| reply == 0 || reply == orders[id].filled;
      trail := seen + [orders];
    }
  }
}
