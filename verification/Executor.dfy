/**
 The legged order protocols: entering, closing and rolling a calendar spread
 leg by leg, with partial fills flattened and lost legs unwound.

 The contracts state the account's holding after every exit and at every moment
 in between.  Exits the protocols do not make good are stated with the inventory
 they leave behind.
 */
module Executor {
  import opened Exchange
  import opened Options
  import opened Outcomes
  import opened Ratios
  import opened Registry

  const MAX_RETRIES := 3
  const RETRY_DELAYS: seq<real> := [1.0, 3.0, 9.0]

  // From the moment (os, tr) to the moment (os', tr') every recorded order list
  // lies between the two.
  ghost predicate Watched(os: seq<Order>, tr: seq<seq<Order>>, os': seq<Order>, tr': seq<seq<Order>>) {
    && Extends(os, os')
    && |tr| <= |tr'| && tr'[..|tr|] == tr
    && forall k :: |tr| <= k < |tr'| ==> Extends(os, tr'[k]) && Extends(tr'[k], os')
  }

  lemma WatchedTransitive(
    a: seq<Order>, ta: seq<seq<Order>>, b: seq<Order>, tb: seq<seq<Order>>, c: seq<Order>, tc: seq<seq<Order>>)
    requires Watched(a, ta, b, tb) && Watched(b, tb, c, tc)
    ensures Watched(a, ta, c, tc)
  {
    ExtendsTransitive(a, b, c);
    assert tc[..|ta|] == tb[..|ta|];
    forall k | |ta| <= k < |tc| ensures Extends(a, tc[k]) && Extends(tc[k], c) {
      if k < |tb| {
        assert tc[k] == tb[k];
        ExtendsTransitive(tc[k], b, c);
      } else {
        ExtendsTransitive(a, b, tc[k]);
      }
    }
  }

  // ---- Submitting ---------------------------------------------------------

  // The same order was submitted again after each transport error and only then,
  // at most `most` times; r is the last answer.
  ghost predicate Tried(before: seq<Try>, after: seq<Try>, what: Instrument, side: Side, amount: nat, limit: real,
                        most: nat, r: Submission) {
    && |before| <= |after| <= |before| + most && after[..|before|] == before
    && (most > 0 ==> |before| < |after| && after[|after| - 1] == Try(what, side, amount, limit, r))
    && (forall k :: |before| <= k < |after| - 1 ==> after[k] == Try(what, side, amount, limit, TransportError))
    && (r.TransportError? ==> |after| == |before| + most)
  }

  lemma TriedAgain(before: seq<Try>, mid: seq<Try>, after: seq<Try>, what: Instrument, side: Side, amount: nat,
                   limit: real, n: nat, most: nat, r: Submission)
    requires Tried(before, mid, what, side, amount, limit, n, TransportError) && n < most
    requires after == mid + [Try(what, side, amount, limit, r)]
    ensures Tried(before, after, what, side, amount, limit, if r.TransportError? then n + 1 else most, r)
    ensures |mid| == |before| + n
  {
    assert n > 0 ==> mid[|mid| - 1].answer == TransportError;
    assert after[..|before|] == mid[..|before|];
  }

  // The delays before the n-th retry, together.
  function Waited(n: int): real {
    if n <= 0 || n > |RETRY_DELAYS| then 0.0 else Waited(n - 1) + RETRY_DELAYS[n - 1]
  }

  // ---- Waiting for a fill -------------------------------------------------

  // A fill's average price is missing when the order's state does not tell it.
  datatype Wait = Complete(price: Option<real>) | Expired(filled: nat, elapsed: real) | Dead

  function Ceiling(timeout: int): nat {
    if timeout > 0 then timeout else 0
  }

  // An adverse fill: a sale below, or a purchase above, the intended price by
  // more than the limit.
  predicate AdverseFill(fill: real, intended: real, limit: real, side: Side) {
    && intended > 0.0
    && var adverse := if side.Buy? then fill - intended else intended - fill;
    (if adverse > 0.0 then adverse else 0.0) / intended > limit
  }

  // The same without the division: more than the limit below, or above, an
  // intended price that is known; no limit is below zero's share.
  predicate SoldLow(fill: real, intended: real, limit: real) {
    intended > 0.0 && (limit < 0.0 || intended - fill > limit * intended)
  }

  predicate BoughtHigh(fill: real, intended: real, limit: real) {
    intended > 0.0 && (limit < 0.0 || fill - intended > limit * intended)
  }

  lemma AdverseExactly(fill: real, intended: real, limit: real, side: Side)
    ensures AdverseFill(fill, intended, limit, side) <==>
            if side.Buy? then BoughtHigh(fill, intended, limit) else SoldLow(fill, intended, limit)
  {
    if intended > 0.0 {
      var adverse := if side.Buy? then fill - intended else intended - fill;
      Share(if adverse > 0.0 then adverse else 0.0, intended, limit);
      Share(0.0, intended, limit);
    }
  }

  datatype Alert = NakedPartial(leg: string, side: Side, amount: nat) | UnwindFailed(near: string, far: string)

  // An average price that is not told is taken to be the limit.
  function PriceOr(price: Option<real>, limit: real): real {
    if price.Some? then price.value else limit
  }

  // What the account holds of the near and far legs after each way out.
  function Held(out: Entry, amount: int): (int, int) {
    match out
    case ComboFilled(_) => (-amount, amount)
    case LegsFilled(_, _, _, _) => (-amount, amount)
    case Simulated => (0, 0)
    case NoEntry => (0, 0)
    case LegRisk => (0, 0)
    case Slipped(farSide, _) => if farSide then (0, 0) else (-amount, 0)
    case Escaped(farSide) => if farSide then (-amount, 0) else (0, 0)
  }

  predicate FarOutcome(out: Entry, nearId: nat) {
    match out
    case LegsFilled(n, f, _, _) => n == nearId && f == nearId + 1
    case LegRisk => true
    case Slipped(farSide, _) => farSide
    case Escaped(farSide) => farSide
    case _ => false
  }

  // Fills are taken exactly when neither slipped, and what is called slippage is.
  predicate FairlyPriced(out: Entry, nearIntended: real, farIntended: real, limit: real) {
    match out
    case LegsFilled(_, _, nearFill, farFill) =>
      !SoldLow(nearFill, nearIntended, limit) && !BoughtHigh(farFill, farIntended, limit)
    case Slipped(farSide, fill) =>
      if farSide then BoughtHigh(fill, farIntended, limit) else SoldLow(fill, nearIntended, limit)
    case _ => true
  }

  // The account holds the spread the caller is told it has bought, or nothing.
  predicate Matches(out: Entry, amount: int, near: int, far: int) {
    var told := if out.ComboFilled? || out.LegsFilled? then amount else 0;
    near == -told && far == told
  }

  lemma AllOrNothing(out: Entry, amount: int, abandoned: nat)
    requires amount > 0 && !out.Simulated? && (out.ComboFilled? ==> abandoned == 0)
    ensures Matches(out, amount, Held(out, amount).0 - abandoned, Held(out, amount).1 + abandoned)
            <==> abandoned == 0 && !Uncovered(out)
  {
  }

  // A near order whose wait succeeded and what it brought per unit.
  datatype Sale = Sale(id: nat, fill: real)

  // What an entry ran into leg by leg: the sale of the near leg, whether the
  // exchange refused the far order, which order was its first and which tries were
  // for the near leg.
  datatype Met = Met(sold: Option<Sale>, farRefused: bool, base: nat, from: nat, upTo: nat)

  ghost predicate OnceTried(before: seq<Try>, after: seq<Try>, what: Instrument, side: Side, amount: nat, limit: real,
                            placed: bool)
  {
    && |after| == |before| + 1 && after[..|before|] == before
    && after[|before|] == Try(what, side, amount, limit, after[|before|].answer)
    && (placed <==> after[|before|].answer.Accepted?)
  }

  // The far order is tried after a fair sale of the near leg.
  lemma FarTried(before: seq<Try>, mid: seq<Try>, after: seq<Try>, out: Entry, met: Met, near: string, far: string,
                 amount: nat, nearLimit: real, farLimit: real, answer: Submission)
    requires met.from == |before| < met.upTo == |mid| && met.sold.Some? && FarOutcome(out, met.base)
    requires mid[met.upTo - 1].answer.Accepted?
    requires Tried(before, mid, Leg(near), Sell, amount, nearLimit, 3, mid[met.upTo - 1].answer)
    requires Tried(mid, after, Leg(far), Buy, amount, farLimit, 3, answer)
    requires (answer.TransportError? ==> out == LegRisk) && (answer.Refused? <==> out == Escaped(true))
    requires out != Escaped(false)
    ensures LegsTried(before, after, out, met, near, far, amount, nearLimit, farLimit)
  {
    assert after[..met.upTo] == mid && after[met.upTo - 1] == mid[met.upTo - 1];
  }

  // A combo order is tried once, or there is no such instrument.
  ghost predicate ComboTried(before: seq<Try>, after: seq<Try>, near: string, far: string, amount: nat, limit: real,
                             placed: bool)
  {
    || (after == before && !placed)
    || OnceTried(before, after, Combo(near, far), Buy, amount, limit, placed)
  }

  // The near order is tried, up to three times while nothing but the transport
  // fails, and, once it is sold at a fair price and only then, so is the far order;
  // what was answered decides the early ends.
  ghost predicate LegsTried(before: seq<Try>, after: seq<Try>, out: Entry, met: Met, near: string, far: string,
                            amount: nat, nearLimit: real, farLimit: real)
  {
    && met.from == |before| < met.upTo <= |after|
    && var nearAnswer, farAnswer := after[met.upTo - 1].answer, after[|after| - 1].answer;
       var fairSale := met.sold.Some? && !(out.Slipped? && !out.farSide);
    && Tried(before, after[..met.upTo], Leg(near), Sell, amount, nearLimit, 3, nearAnswer)
    && (nearAnswer.TransportError? ==> out == NoEntry)
    && (nearAnswer.Refused? <==> out == Escaped(false))
    && (met.sold.Some? ==> nearAnswer.Accepted?)
    && (!fairSale ==> |after| == met.upTo)
    && (fairSale ==>
          && Tried(after[..met.upTo], after, Leg(far), Buy, amount, farLimit, 3, farAnswer)
          && (farAnswer.TransportError? ==> out == LegRisk)
          && (farAnswer.Refused? <==> out == Escaped(true)))
  }

  predicate Slid(sold: Option<Sale>, intended: real, slippage: real) {
    sold.Some? && SoldLow(sold.value.fill, intended, slippage)
  }

  // What a combo order that an entry gave up had filled.
  function ComboPart(os: seq<Order>, lo: nat, out: Entry): nat {
    if lo < |os| && os[lo].instrument.Combo? && !out.ComboFilled? then os[lo].filled else 0
  }

  // The combo is tried first and, unless it fills, the legs after it.
  ghost predicate AllTried(before: seq<Try>, after: seq<Try>, out: Entry, met: Met, near: string, far: string,
                           amount: nat, nearLimit: real, farLimit: real)
  {
    if out.ComboFilled? then ComboTried(before, after, near, far, amount, farLimit - nearLimit, true)
    else
      && met.from <= |after|
      && (ComboTried(before, after[..met.from], near, far, amount, farLimit - nearLimit, true)
          || ComboTried(before, after[..met.from], near, far, amount, farLimit - nearLimit, false))
      && LegsTried(after[..met.from], after, out, met, near, far, amount, nearLimit, farLimit)
  }

  // Every order stopped since has been given its time; only a combo, which is the
  // first order, has a time of its own.
  ghost predicate Patient(os: seq<Order>, os': seq<Order>, stopped: set<nat>, stopped': set<nat>, start: real,
                          now: real, orderTimeout: int, comboTimeout: int)
  {
    forall id :: id in stopped' && id !in stopped ==>
      || now >= start + orderTimeout as real
      || (id == |os| < |os'| && os'[id].instrument.Combo? && now >= start + comboTimeout as real)
  }

  lemma PatientThen(os: seq<Order>, mid: seq<Order>, os': seq<Order>, s0: set<nat>, s1: set<nat>, s2: set<nat>,
                    t0: real, t1: real, t2: real, orderTimeout: int, comboTimeout: int)
    requires Extends(mid, os') && t0 <= t1 <= t2
    requires s1 == s0 || (s1 == s0 + {|os|} && |mid| > |os| && mid[|os|].instrument.Combo?
                          && t1 >= t0 + comboTimeout as real)
    requires t2 >= t1 + orderTimeout as real || s2 == s1
    ensures Patient(os, os', s0, s2, t0, t2, orderTimeout, comboTimeout)
  {
    if |mid| > |os| { assert Advances(mid[|os|], os'[|os|]); }
  }

  // Leg orders after a combo that was given up.
  lemma LegsOnTop(a: seq<Order>, b: seq<Order>, c: seq<Order>, near: string, far: string)
    requires Extends(a, b) && Extends(b, c) && AllSettled(b, |a|) && AllSettled(c, |b|)
    requires Trades(b, |a|, near, far) && Trades(c, |b|, near, far)
    ensures Extends(a, c) && AllSettled(c, |a|) && Trades(c, |a|, near, far)
    ensures Net(c, |a|, |c|, near) == Net(b, |a|, |b|, near) + Net(c, |b|, |c|, near)
    ensures Net(c, |a|, |c|, far) == Net(b, |a|, |b|, far) + Net(c, |b|, |c|, far)
    ensures |b| > |a| ==> c[|a|].instrument == b[|a|].instrument && c[|a|].filled == b[|a|].filled
  {
    ExtendsTransitive(a, b, c);
    SettledThen(b, c, |a|, near);
    SettledThen(b, c, |a|, far);
    TradesThen(b, c, |a|, near, far);
    StaysSettled(b, c, |a|);
  }

  lemma ComboThenLegs(before: seq<Try>, mid: seq<Try>, after: seq<Try>, out: Entry, met: Met, near: string,
                      far: string, amount: nat, nearLimit: real, farLimit: real, placed: bool)
    requires ComboTried(before, mid, near, far, amount, farLimit - nearLimit, placed) && !out.ComboFilled?
    requires LegsTried(mid, after, out, met, near, far, amount, nearLimit, farLimit)
    ensures AllTried(before, after, out, met, near, far, amount, nearLimit, farLimit)
  {
    assert after[..met.from] == after[..met.upTo][..met.from] == mid;
  }

  // Limits on what the orders from `lo` on may have built up in two legs, one
  // held short and one held long (or the other way), and on their sum.
  datatype Band = Band(lo: nat, short: string, shortMin: int, shortMax: int, long: string, longMin: int, longMax: int,
                       sumMin: int, sumMax: int)

  // Between flat and the full spread.
  function EntryBand(lo: nat, near: string, far: string, amount: int): Band {
    Band(lo, near, -amount, 0, far, 0, amount, -amount, amount)
  }

  // Both legs move together: no leg is ever held without the other.
  function ComboBand(lo: nat, near: string, far: string, amount: int): Band {
    Band(lo, near, -amount, 0, far, 0, amount, 0, 0)
  }

  // Between the full spread and flat.
  function CloseBand(lo: nat, near: string, far: string, amount: int): Band {
    Band(lo, near, 0, amount, far, -amount, 0, -amount, amount)
  }

  // The new short never outgrows what has been bought back of the old one.
  function RollBand(lo: nat, oldNear: string, newNear: string, amount: int): Band {
    Band(lo, oldNear, 0, amount, newNear, -amount, 0, 0, amount)
  }

  ghost predicate Within(os: seq<Order>, b: Band) {
    && b.lo <= |os|
    && b.shortMin <= Net(os, b.lo, |os|, b.short) <= b.shortMax
    && b.longMin <= Net(os, b.lo, |os|, b.long) <= b.longMax
    && b.sumMin <= Net(os, b.lo, |os|, b.short) + Net(os, b.lo, |os|, b.long) <= b.sumMax
  }

  // The trail has grown, and every moment recorded since was within the band.
  ghost predicate AllWithin(tr: seq<seq<Order>>, tr': seq<seq<Order>>, b: Band) {
    && |tr| <= |tr'| && tr'[..|tr|] == tr
    && forall k :: |tr| <= k < |tr'| ==> Within(tr'[k], b)
  }

  lemma AllWithinThen(t0: seq<seq<Order>>, t1: seq<seq<Order>>, t2: seq<seq<Order>>, b: Band)
    requires AllWithin(t0, t1, b) && AllWithin(t1, t2, b)
    ensures AllWithin(t0, t2, b)
  {
    assert t2[..|t0|] == t1[..|t0|];
    forall k | |t0| <= k < |t2| ensures Within(t2[k], b) {
      assert k < |t1| ==> t2[k] == t1[k];
    }
  }

  // One sale of the near leg followed by at most a buy-back of part of it.
  ghost predicate NearShape(os: seq<Order>, lo: nat, near: string, amount: int) {
    && lo < |os| <= lo + 2
    && os[lo].instrument == Leg(near) && os[lo].side == Sell && os[lo].amount == amount && Sound(os[lo])
    && (|os| == lo + 2 ==> os[lo + 1].instrument == Leg(near) && os[lo + 1].side == Buy
                           && os[lo + 1].filled <= os[lo].filled)
  }

  lemma NearShapeBounded(os: seq<Order>, lo: nat, near: string, far: string, amount: int)
    requires near != far && NearShape(os, lo, near, amount)
    ensures Within(os, EntryBand(lo, near, far, amount))
    ensures Net(os, lo, |os|, near) == (if |os| == lo + 2 then os[lo + 1].filled - os[lo].filled else 0 - os[lo].filled)
    ensures Net(os, lo, |os|, far) == 0
  {
    NetUnrolled(os, lo, near);
    NetUnrolled(os, lo, far);
  }

  // The near leg sold in full, a purchase of the far leg, and up to two
  // reversals: `back` units of the far leg, then the near leg, or the other way.
  ghost predicate FarShape(os: seq<Order>, lo: nat, near: string, far: string, amount: int) {
    && lo < |os| <= lo + 4
    && os[lo].instrument == Leg(near) && os[lo].side == Sell && os[lo].filled == os[lo].amount == amount
    && (|os| > lo + 1 ==>
      && os[lo + 1].instrument == Leg(far) && os[lo + 1].side == Buy
          && os[lo + 1].filled <= os[lo + 1].amount == amount)
    && (forall k :: lo + 2 <= k < |os| ==>
      || (os[k].instrument == Leg(near) && os[k].side == Buy && os[k].filled <= amount)
      || (os[k].instrument == Leg(far) && os[k].side == Sell && os[k].filled <= os[lo + 1].filled))
    && (|os| == lo + 4 ==> os[lo + 2].instrument != os[lo + 3].instrument)
  }

  lemma FarShapeBounded(os: seq<Order>, lo: nat, near: string, far: string, amount: int)
    requires near != far && FarShape(os, lo, near, far, amount)
    ensures Within(os, EntryBand(lo, near, far, amount))
    ensures |os| == lo + 1 ==> Net(os, lo, |os|, near) == -amount && Net(os, lo, |os|, far) == 0
    ensures |os| == lo + 2 ==> Net(os, lo, |os|, near) == -amount && Net(os, lo, |os|, far) == os[lo + 1].filled
  {
    NetUnrolled(os, lo, near);
    NetUnrolled(os, lo, far);
  }

  // The near leg of an entry bought back in one order, or not.
  ghost predicate BuysBack(os: seq<Order>, os': seq<Order>, near: string, amount: nat) {
    && Extends(os, os') && |os'| <= |os| + 1
    && (|os'| == |os| + 1 ==> os'[|os|] == Order(Leg(near), Buy, amount, amount, Filled))
  }

  lemma BoughtBackShape(os: seq<Order>, os': seq<Order>, lo: nat, near: string, far: string, amount: nat)
    requires FarShape(os, lo, near, far, amount) && AllSettled(os, lo) && BuysBack(os, os', near, amount)
    requires |os| <= lo + 3 && (|os| == lo + 3 ==> os[lo + 2].instrument == Leg(far))
    ensures AllSettled(os', lo) && Trades(os', lo, near, far)
    ensures |os| == lo + 1 ==> NearShape(os', lo, near, amount)
    ensures |os| > lo + 1 && near != far ==> FarShape(os', lo, near, far, amount)
  {
    StaysSettled(os, os', lo);
    forall k | lo <= k < |os| ensures Advances(os[k], os'[k]) {}
  }

  lemma BoughtBack(os: seq<Order>, os': seq<Order>, lo: nat, near: string, far: string, amount: nat)
    requires near != far && FarShape(os, lo, near, far, amount) && AllSettled(os, lo) && BuysBack(os, os', near, amount)
    requires |os| <= lo + 3 && (|os| == lo + 3 ==> os[lo + 2].instrument == Leg(far))
    ensures AllSettled(os', lo) && Trades(os', lo, near, far) && Within(os', EntryBand(lo, near, far, amount))
    ensures |os| == lo + 2 ==> FarShape(os', lo, near, far, amount)
    ensures |os'| == |os| + 1 ==>
              && Net(os', lo, |os'|, near) == Net(os, lo, |os|, near) + amount
              && Net(os', lo, |os'|, far) == Net(os, lo, |os|, far)
  {
    BoughtBackShape(os, os', lo, near, far, amount);
    OneMore(os, os', lo, near);
    OneMore(os, os', lo, far);
    if |os| == lo + 1 {
      NearShapeBounded(os', lo, near, far, amount);
    } else {
      FarShapeBounded(os', lo, near, far, amount);
    }
  }

  lemma FarShapeWatched(os0: seq<Order>, tr0: seq<seq<Order>>, os: seq<Order>, tr: seq<seq<Order>>,
                        lo: nat, near: string, far: string, amount: int)
    requires near != far && Watched(os0, tr0, os, tr)
    requires |os0| == lo + 1 && FarShape(os0, lo, near, far, amount) && FarShape(os, lo, near, far, amount)
    requires forall k :: |tr0| <= k < |tr| && |tr[k]| > lo + 2 ==> tr[k] == os
    ensures AllWithin(tr0, tr, EntryBand(lo, near, far, amount))
  {
    forall k | |tr0| <= k < |tr| ensures Within(tr[k], EntryBand(lo, near, far, amount)) {
      assert Advances(os0[lo], tr[k][lo]);
      if |tr[k]| > lo + 1 { assert Advances(tr[k][lo + 1], os[lo + 1]); }
      FarShapeBounded(tr[k], lo, near, far, amount);
    }
  }

  lemma ComboWatched(os0: seq<Order>, tr0: seq<seq<Order>>, os: seq<Order>, tr: seq<seq<Order>>,
                     near: string, far: string, amount: int)
    requires near != far && Watched(os0, tr0, os, tr) && |os| <= |os0| + 1 && AllSound(os) && amount >= 0
    requires |os| > |os0| ==>
               var o := os[|os0|]; o.instrument == Combo(near, far) && o.side == Buy && o.amount == amount
    ensures AllWithin(tr0, tr, ComboBand(|os0|, near, far, amount))
    ensures var moved := if |os| > |os0| then os[|os0|].filled else 0;
            Net(os, |os0|, |os|, near) == -(moved as int) && Net(os, |os0|, |os|, far) == moved
  {
    var lo := |os0|;
    NetUnrolled(os, lo, near);
    NetUnrolled(os, lo, far);
    forall k | |tr0| <= k < |tr| ensures Within(tr[k], ComboBand(lo, near, far, amount)) {
      if |tr[k]| > lo { assert Advances(tr[k][lo], os[lo]); }
      NetUnrolled(tr[k], lo, near);
      NetUnrolled(tr[k], lo, far);
    }
  }

  // A close: the near leg bought, the far leg sold, and reversals no larger than
  // what they reverse.
  ghost predicate CloseShape(os: seq<Order>, lo: nat, near: string, far: string, amount: int) {
    && lo <= |os| <= lo + 4
    && (|os| > lo ==>
      os[lo].instrument == Leg(near) && os[lo].side == Buy && os[lo].filled <= os[lo].amount == amount)
    && (|os| > lo + 1 ==>
      os[lo + 1].instrument == Leg(far) && os[lo + 1].side == Sell && os[lo + 1].filled <= os[lo + 1].amount == amount)
    && (forall k :: lo + 2 <= k < |os| ==>
      || (os[k].instrument == Leg(near) && os[k].side == Sell && os[k].filled <= os[lo].filled)
      || (os[k].instrument == Leg(far) && os[k].side == Buy && os[k].filled <= os[lo + 1].filled))
    && (|os| == lo + 4 ==> os[lo + 2].instrument != os[lo + 3].instrument)
  }

  lemma CloseShapeBounded(os: seq<Order>, lo: nat, near: string, far: string, amount: int)
    requires near != far && amount >= 0 && CloseShape(os, lo, near, far, amount)
    ensures Within(os, CloseBand(lo, near, far, amount))
  {
    NetUnrolled(os, lo, near);
    NetUnrolled(os, lo, far);
  }

  // The far order of a close comes to an end, taken back or not.
  lemma FarCloseOver(os: seq<Order>, os': seq<Order>, lo: nat, near: string, far: string, amount: nat)
    requires near != far && lo + 2 <= |os| <= lo + 3 && CloseShape(os, lo, near, far, amount)
    requires Settled(os[lo]) && (|os| == lo + 3 ==> Settled(os[lo + 2]) && os[lo + 2].instrument == Leg(near))
    requires Extends(os, os') && |os'| <= |os| + 1 && Settled(os'[lo + 1])
    requires |os'| == |os| + 1 ==>
               var sold := os'[lo + 1].filled; os'[|os|] == Order(Leg(far), Buy, sold, sold, Filled)
    ensures CloseShape(os', lo, near, far, amount) && AllSettled(os', lo)
    ensures Net(os', lo, |os'|, near) == Net(os, lo, |os|, near)
    ensures Net(os', lo, |os'|, far) == if |os'| > |os| then 0 else 0 - os'[lo + 1].filled
  {
    forall k | lo <= k < |os| ensures Advances(os[k], os'[k]) {}
    NetUnrolled(os, lo, near);
    NetUnrolled(os', lo, near);
    NetUnrolled(os', lo, far);
  }

  lemma CloseShapeWatched(os0: seq<Order>, tr0: seq<seq<Order>>, os: seq<Order>, tr: seq<seq<Order>>,
                          lo: nat, near: string, far: string, amount: int)
    requires near != far && amount >= 0 && Watched(os0, tr0, os, tr)
    requires CloseShape(os0, lo, near, far, amount) && CloseShape(os, lo, near, far, amount)
    requires forall k :: lo + 2 <= k < |os0| ==> Settled(os0[k])
    requires forall k :: |tr0| <= k < |tr| && |tr[k]| > |os0| ==> tr[k] == os
    ensures AllWithin(tr0, tr, CloseBand(lo, near, far, amount))
  {
    forall k | |tr0| <= k < |tr| ensures Within(tr[k], CloseBand(lo, near, far, amount)) {
      var t := tr[k];
      if |t| == |os0| {
        forall j | lo <= j < |t| ensures Advances(os0[j], t[j]) {}
      }
      CloseShapeBounded(t, lo, near, far, amount);
    }
  }

  // Net closing credit per unit, and the two fill prices it comes from.
  datatype CloseFill = CloseFill(credit: real, near: real, far: real)

  // What a filled order brought in at a price: sales are positive.
  function Cash(o: Order, price: real): real {
    if o.side.Sell? then o.filled as real * price else -(o.filled as real * price)
  }

  // The near order is tried once and, if accepted and only then, the far one.
  ghost predicate CloseTried(before: seq<Try>, after: seq<Try>, near: string, far: string, amount: nat,
                             nearLimit: real, farLimit: real, nearOk: bool, farOk: bool)
  {
    var n := |before|;
    && n < |after| && OnceTried(before, after[..n + 1], Leg(near), Buy, amount, nearLimit, nearOk)
    && if nearOk then OnceTried(after[..n + 1], after, Leg(far), Sell, amount, farLimit, farOk)
       else |after| == n + 1 && !farOk
  }

  // The credit of a close, for all its units, is the cash its two orders brought in.
  lemma CreditIsCash(near: Order, far: Order, nearPrice: real, farPrice: real, rate: real, amount: nat)
    requires near.side == Buy && far.side == Sell && near.filled == far.filled == amount
    ensures (farPrice * rate - nearPrice * rate) * amount as real ==
            (Cash(near, nearPrice) + Cash(far, farPrice)) * rate
  {
    var n := amount as real;
    assert (farPrice * rate - nearPrice * rate) * n == (farPrice - nearPrice) * n * rate;
    assert Cash(near, nearPrice) + Cash(far, farPrice) == (farPrice - nearPrice) * n;
  }

  // A roll: the old near leg bought back, perhaps partly taken back, or bought
  // in full and then the new near leg sold and perhaps partly taken back.
  ghost predicate RollShape(os: seq<Order>, lo: nat, oldNear: string, newNear: string, amount: int) {
    && lo <= |os| <= lo + 3
    && (|os| > lo ==>
      os[lo].instrument == Leg(oldNear) && os[lo].side == Buy && os[lo].filled <= os[lo].amount == amount)
    && (|os| > lo + 1 ==>
      || (|os| == lo + 2 && os[lo + 1].instrument == Leg(oldNear) && os[lo + 1].side == Sell
          && os[lo + 1].filled <= os[lo].filled)
      || (os[lo].filled == amount && os[lo + 1].instrument == Leg(newNear) && os[lo + 1].side == Sell
          && os[lo + 1].filled <= os[lo + 1].amount == amount))
    && (|os| > lo + 2 ==>
      os[lo + 2].instrument == Leg(newNear) && os[lo + 2].side == Buy && os[lo + 2].filled <= os[lo + 1].filled)
  }

  lemma RollShapeBounded(os: seq<Order>, lo: nat, oldNear: string, newNear: string, amount: int)
    requires oldNear != newNear && amount >= 0 && RollShape(os, lo, oldNear, newNear, amount)
    ensures Within(os, RollBand(lo, oldNear, newNear, amount))
  {
    NetUnrolled(os, lo, oldNear);
    NetUnrolled(os, lo, newNear);
  }

  lemma RollShapeWatched(os0: seq<Order>, tr0: seq<seq<Order>>, os: seq<Order>, tr: seq<seq<Order>>,
                         lo: nat, oldNear: string, newNear: string, amount: int)
    requires oldNear != newNear && amount >= 0 && Watched(os0, tr0, os, tr)
    requires RollShape(os0, lo, oldNear, newNear, amount) && RollShape(os, lo, oldNear, newNear, amount)
    requires |os0| <= lo + 1 && (|os0| == lo + 1 ==> os0[lo].filled == amount)
    requires forall k :: |tr0| <= k < |tr| && |tr[k]| > |os0| + 1 ==> tr[k] == os
    ensures AllWithin(tr0, tr, RollBand(lo, oldNear, newNear, amount))
  {
    forall k | |tr0| <= k < |tr| ensures Within(tr[k], RollBand(lo, oldNear, newNear, amount)) {
      var t := tr[k];
      if |t| > lo { assert Advances(t[lo], os[lo]); }
      if |t| > lo + 1 { assert Advances(t[lo + 1], os[lo + 1]); }
      if |os0| == lo + 1 { assert Advances(os0[lo], t[lo]); }
      RollShapeBounded(t, lo, oldNear, newNear, amount);
    }
  }

  lemma ToldOfEntry(near: string, far: string, q: nat, out: Entry, abandoned: nat)
    requires near != far && !out.Simulated? && (out.ComboFilled? ==> abandoned == 0)
    ensures var c := Enter(near, far, q, out, abandoned);
            && Told(c, near) + Stray(c, near) == Held(out, q).0 - abandoned
            && Told(c, far) + Stray(c, far) == Held(out, q).1 + abandoned
  {
  }

  lemma DidEnter(a: seq<Order>, b: seq<Order>, near: string, far: string, q: nat, out: Entry, abandoned: nat)
    requires near != far && Extends(a, b) && AllSettled(b, |a|) && Trades(b, |a|, near, far)
    requires !out.Simulated? && (out.ComboFilled? ==> abandoned == 0)
    requires Net(b, |a|, |b|, near) == Held(out, q).0 - abandoned && Net(b, |a|, |b|, far) == Held(out, q).1 + abandoned
    ensures Did(Enter(near, far, q, out, abandoned), a, b)
  {
    ToldOfEntry(near, far, q, out, abandoned);
    DidBoth(Enter(near, far, q, out, abandoned), a, b, near, far);
  }

  lemma DidRoll(a: seq<Order>, b: seq<Order>, oldNear: string, newNear: string, q: nat, stage: RollStage)
    requires oldNear != newNear && Extends(a, b) && AllSettled(b, |a|) && Trades(b, |a|, oldNear, newNear)
    requires Net(b, |a|, |b|, oldNear) == (if stage in {CloseRefused, CloseFailed} then 0 else q)
    requires Net(b, |a|, |b|, newNear) == (if stage == Rolled then 0 - q else 0)
    ensures Did(Roll(oldNear, newNear, q, stage), a, b)
  {
    var c := Roll(oldNear, newNear, q, stage);
    assert Told(c, oldNear) + Stray(c, oldNear) == if stage in {CloseRefused, CloseFailed} then 0 else q;
    assert Told(c, newNear) + Stray(c, newNear) == if stage == Rolled then 0 - q else 0;
    DidBoth(c, a, b, oldNear, newNear);
  }

  // A close whose far order was never placed.
  lemma NearCloseOnly(os: seq<Order>, lo: nat, near: string, far: string, amount: nat)
    requires near != far && CloseShape(os, lo, near, far, amount) && |os| <= lo + 1
    ensures Net(os, lo, |os|, near) == (if |os| == lo then 0 else os[lo].filled) && Net(os, lo, |os|, far) == 0
    ensures Trades(os, lo, near, far)
  {
    NetUnrolled(os, lo, near);
    NetUnrolled(os, lo, far);
  }

  lemma DidClose(a: seq<Order>, b: seq<Order>, near: string, far: string, q: nat, stage: CloseStage, left: nat)
    requires near != far && Extends(a, b) && AllSettled(b, |a|) && Trades(b, |a|, near, far)
    requires stage != FarRefused ==> left == 0
    requires Net(b, |a|, |b|, near) == (if stage == BothClosed then q else left)
    requires Net(b, |a|, |b|, far) == (if stage == BothClosed then 0 - q else 0)
    ensures Did(Close(near, far, q, stage, left), a, b)
  {
    var c := Close(near, far, q, stage, left);
    assert Told(c, near) + Stray(c, near) == if stage == BothClosed then q else left;
    assert Told(c, far) + Stray(c, far) == if stage == BothClosed then 0 - q else 0;
    DidBoth(c, a, b, near, far);
  }

  class Executor {
    const x: Venue
    const book: OrderManager
    const hasNotifier: bool
    ghost var alerts: seq<Alert>
    // Combo orders given up with part of them filled.
    ghost var hidden: set<nat>

    ghost predicate Valid() reads this, x, book {
      && x.Valid() && book.Valid() && InStep(book.orders, x.orders, hidden)
      && (forall id :: id in hidden ==> id < |x.orders|)
    }

    constructor (x: Venue, book: OrderManager, hasNotifier: bool)
      requires x.Valid() && book.Valid() && book.orders == map[]
      ensures Valid() && this.x == x && this.book == book && alerts == [] && hidden == {}
    {
      this.x, this.book, this.hasNotifier := x, book, hasNotifier;
      alerts, hidden := [], {};
    }

    // Polls until the order is filled, dead or out of time.  Sleeps are clamped
    // to the time left, and no sleep separates the last poll from giving up.
    method WaitForFill(id: nat, timeout: int, amount: nat)
      returns (r: Wait, ghost polls: nat, ghost first: real, ghost asked: real)
      requires Valid() && id < |x.orders|
      modifies x
      ensures Valid() && x.missed == old(x.missed) && x.tries == old(x.tries) && x.stopped == old(x.stopped)
      ensures |x.orders| == old(|x.orders|) && Watched(old(x.orders), old(x.trail), x.orders, x.trail)
      ensures 1 <= polls <= Ceiling(timeout) + 1
      ensures var target := if amount > 0 then amount else x.orders[id].amount;
              r.Complete? ==> x.orders[id].status == Filled || (0 < target <= x.orders[id].filled)
      ensures r.Complete? && amount in {0, x.orders[id].amount} ==> r.price == x.average(id, x.orders[id].amount)
      ensures r.Dead? ==> x.orders[id].status in {Cancelled, Rejected}
      // Giving up: the deadline has passed, the reported fill was really
      // there, and if the last poll (begun at `asked`) took no time then it
      // was made at or after the deadline and saw the order as it now is.
      ensures first == old(x.now) <= asked <= x.now
      ensures r.Expired? ==> r.elapsed == x.now - first && r.elapsed >= timeout as real
      ensures r.Expired? ==> r.filled <= x.orders[id].filled
      ensures r.Expired? && asked == x.now ==>
                && r.filled == x.orders[id].filled
                && x.orders[id].status !in {Filled, Cancelled, Rejected}
    {
      first := x.now;
      var started := x.now;
      var deadline := started + timeout as real;
      var interval := 1.0;
      var filled := 0;
      var target := amount;
      polls := 0;
      ghost var os0, tr0 := x.orders, x.trail;
      while true
        invariant Valid() && first == started == old(x.now) <= x.now
        invariant x.missed == old(x.missed) && x.tries == old(x.tries) && x.stopped == old(x.stopped)
        invariant |x.orders| == |os0| && Watched(os0, tr0, x.orders, x.trail)
        invariant interval >= 1.0
        invariant target == amount || (amount == 0 && target == os0[id].amount)
        invariant polls == 0 || x.now >= deadline || x.now >= started + polls as real
        invariant polls <= Ceiling(timeout)
        decreases Ceiling(timeout) - polls
      {
        ghost var os1, tr1 := x.orders, x.trail;
        asked := x.now;
        var o, price, at := x.OrderState(id);
        WatchedTransitive(os0, tr0, os1, tr1, x.orders, x.trail);
        InStepExtends(book.orders, os1, x.orders, hidden);
        assert Advances(os0[id], os1[id]) && Advances(os1[id], o) && Advances(o, x.orders[id]);
        polls := polls + 1;
        filled := o.filled;
        if target <= 0 {
          target := o.amount;
        }
        if o.status == Filled {
          return Complete(price), polls, first, asked;
        }
        if target > 0 && filled >= target {
          return Complete(price), polls, first, asked;
        }
        if o.status in {Cancelled, Rejected} {
          return Dead, polls, first, asked;
        }
        var remaining := deadline - x.now;
        if remaining <= 0.0 {
          return Expired(filled, x.now - started), polls, first, asked;
        }
        os1, tr1 := x.orders, x.trail;
        x.Pause(if interval < remaining then interval else remaining);
        assert Watched(os1, tr1, x.orders, x.trail);
        WatchedTransitive(os0, tr0, os1, tr1, x.orders, x.trail);
        InStepExtends(book.orders, os1, x.orders, hidden);
        interval := if interval * 1.5 < 5.0 then interval * 1.5 else 5.0;
      }
    }

    // Records how an order ended, truthfully unless it is hidden.
    method Record(id: nat, state: OrderState, fillPrice: Option<real>, filledAmount: Option<nat>)
      requires Valid() && id < |x.orders| && state in {Done, Withdrawn, WithdrawnPartial}
      requires id !in hidden ==>
                 var o := x.orders[id];
                 match state
                 case Done => o.filled == o.amount
                 case Withdrawn => o.status != Live && o.filled == 0
                 case _ => o.status != Live && 0 < o.filled && filledAmount == Some(o.filled)
      modifies book
      ensures Valid() && book.OpenIds() == old(book.OpenIds()) - {id}
    {
      book.Update(id, state, fillPrice, filledAmount);
    }

    // One submission; what is accepted is registered.
    method SubmitOnce(what: Instrument, side: Side, amount: nat, limit: real) returns (r: Submission)
      requires Valid()
      modifies x, book
      ensures Valid() && x.missed == old(x.missed) && x.stopped == old(x.stopped) && x.now >= old(x.now)
      ensures x.tries == old(x.tries) + [Try(what, side, amount, limit, r)]
      ensures Watched(old(x.orders), old(x.trail), x.orders, x.trail)
      ensures |x.trail| == old(|x.trail|) + 1 && x.trail[old(|x.trail|)] == x.orders
      ensures r.Accepted? ==>
                && r.id == old(|x.orders|) && |x.orders| == r.id + 1
                && x.orders[r.id].instrument == what && x.orders[r.id].side == side && x.orders[r.id].amount == amount
                && book.orders == old(book.orders)[r.id := TrackedOrder(r.id, what, side, amount, limit)]
                && book.OpenIds() == old(book.OpenIds()) + {r.id}
      ensures !r.Accepted? ==>
                && |x.orders| == old(|x.orders|) && book.orders == old(book.orders)
                && book.OpenIds() == old(book.OpenIds())
    {
      r := x.Place(what, side, amount, limit);
      InStepExtends(book.orders, old(x.orders), x.orders, hidden);
      if r.Accepted? { book.Track(TrackedOrder(r.id, what, side, amount, limit)); }
    }

    // Submits an order, retrying on transport errors only.
    method Submit(what: Instrument, side: Side, amount: nat, limit: real, retries: nat) returns (r: Submission)
      requires Valid() && retries <= |RETRY_DELAYS| + 1
      modifies x, book
      ensures Valid() && x.missed == old(x.missed) && x.stopped == old(x.stopped)
      ensures Tried(old(x.tries), x.tries, what, side, amount, limit, retries, r)
      // a second, third and fourth try come after one, three and nine seconds more
      ensures |x.tries| <= old(|x.tries|) + 1 ==> x.now >= old(x.now)
      ensures |x.tries| >= old(|x.tries|) + 2 ==> x.now >= old(x.now) + 1.0
      ensures |x.tries| >= old(|x.tries|) + 3 ==> x.now >= old(x.now) + 4.0
      ensures |x.tries| >= old(|x.tries|) + 4 ==> x.now >= old(x.now) + 13.0
      ensures Watched(old(x.orders), old(x.trail), x.orders, x.trail)
      ensures forall k :: old(|x.trail|) <= k < |x.trail| && |x.trail[k]| > old(|x.orders|) ==> x.trail[k] == x.orders
      ensures r.Accepted? ==>
                && r.id == old(|x.orders|) && |x.orders| == r.id + 1
                && x.orders[r.id].instrument == what && x.orders[r.id].side == side && x.orders[r.id].amount == amount
                && book.orders == old(book.orders)[r.id := TrackedOrder(r.id, what, side, amount, limit)]
                && book.OpenIds() == old(book.OpenIds()) + {r.id}
      ensures !r.Accepted? ==>
                && |x.orders| == old(|x.orders|) && book.orders == old(book.orders)
                && book.OpenIds() == old(book.OpenIds())
    {
      ghost var os0, tr0, tries0 := x.orders, x.trail, x.tries;
      assert Waited(0) == 0.0 && Waited(1) == 1.0 && Waited(2) == 4.0 && Waited(3) == 13.0;
      r := TransportError;
      for attempt := 0 to retries
        invariant Valid() && x.missed == old(x.missed) && book.orders == old(book.orders)
        invariant |x.orders| == |os0| && Watched(os0, tr0, x.orders, x.trail)
        invariant r == TransportError && x.stopped == old(x.stopped)
        invariant Tried(tries0, x.tries, what, side, amount, limit, attempt, r)
        invariant x.now >= old(x.now) + Waited(if attempt < retries then attempt else attempt - 1)
      {
        ghost var os1, tr1, tries1 := x.orders, x.trail, x.tries;
        r := SubmitOnce(what, side, amount, limit);
        WatchedTransitive(os0, tr0, os1, tr1, x.orders, x.trail);
        TriedAgain(tries0, tries1, x.tries, what, side, amount, limit, attempt, retries, r);
        if !r.TransportError? {
          return;
        }
        if attempt < retries - 1 {
          os1, tr1 := x.orders, x.trail;
          x.Pause(RETRY_DELAYS[attempt]);
          assert Watched(os1, tr1, x.orders, x.trail);
          WatchedTransitive(os0, tr0, os1, tr1, x.orders, x.trail);
          InStepExtends(book.orders, os1, x.orders, hidden);
        }
      }
    }

    // A crossed order that takes part of the account's holding back.
    method Flatten(leg: string, side: Side, amount: nat) returns (ok: bool)
      requires Valid()
      modifies x
      ensures Valid() && x.tries == old(x.tries) && x.stopped == old(x.stopped)
      ensures Watched(old(x.orders), old(x.trail), x.orders, x.trail) && x.now >= old(x.now)
      ensures ok ==> x.missed == old(x.missed) && |x.orders| == old(|x.orders|) + 1
                     && x.orders[old(|x.orders|)] == Order(Leg(leg), side, amount, amount, Filled)
      ensures !ok ==> |x.orders| == old(|x.orders|)
                      && x.missed == old(x.missed) + [Order(Leg(leg), side, amount, amount, Filled)]
      ensures |x.trail| == old(|x.trail|) + 1 && x.trail[old(|x.trail|)] == x.orders
    {
      ok := x.PlaceCrossed(leg, side, amount);
      InStepExtends(book.orders, old(x.orders), x.orders, hidden);
    }

    // Cancels an order and takes back whatever part of it had filled.
    method CancelAndFlatten(id: nat, leg: string) returns (flattened: nat)
      requires Valid() && id < |x.orders| && x.orders[id].instrument == Leg(leg) && id !in hidden
      modifies this`alerts, x, book
      ensures Valid() && x.tries == old(x.tries) && x.now >= old(x.now)
      ensures old(x.orders)[id].status != Live ==> x.stopped == old(x.stopped)
      ensures Watched(old(x.orders), old(x.trail), x.orders, x.trail)
      ensures x.orders[id].status != Live && flattened == x.orders[id].filled
      ensures var n := old(|x.orders|); var side := x.orders[id].side;
              var crossed := Order(Leg(leg), Reverse(side), flattened, flattened, Filled);
              && (flattened == 0 ==> |x.orders| == n && x.missed == old(x.missed) && alerts == old(alerts))
              && (flattened > 0 && |x.orders| == n ==>
                    && x.missed == old(x.missed) + [crossed]
                    && alerts == old(alerts) + (if hasNotifier then [NakedPartial(leg, side, flattened)] else []))
              && (|x.orders| != n ==> |x.orders| == n + 1 && x.orders[n] == crossed
                                      && x.missed == old(x.missed) && alerts == old(alerts))
              // the reversal is only ever seen beside the dead order
              && (forall k :: old(|x.trail|) <= k < |x.trail| && |x.trail[k]| > n ==> x.trail[k] == x.orders)
      ensures book.OpenIds() == old(book.OpenIds()) - {id}
    {
      ghost var os0, tr0 := x.orders, x.trail;
      flattened := x.Cancel(id);
      assert Advances(os0[id], x.orders[id]);
      InStepExtends(book.orders, os0, x.orders, hidden);
      assert Watched(os0, tr0, x.orders, x.trail);
      if flattened <= 0 {
        ghost var os1, tr1 := x.orders, x.trail;
        var o, _, _ := x.OrderState(id);
        flattened := o.filled;
        assert Advances(os1[id], o) && Advances(o, x.orders[id]);
        InStepExtends(book.orders, os1, x.orders, hidden);
        WatchedTransitive(os0, tr0, os1, tr1, x.orders, x.trail);
      }
      if flattened <= 0 {
        Record(id, Withdrawn, None, None);
        return;
      }
      Record(id, WithdrawnPartial, None, Some(flattened));
      ghost var os1, tr1 := x.orders, x.trail;
      var ok := Flatten(leg, Reverse(x.orders[id].side), flattened);
      assert Advances(os1[id], x.orders[id]);
      WatchedTransitive(os0, tr0, os1, tr1, x.orders, x.trail);
      if !ok && hasNotifier {
        alerts := alerts + [NakedPartial(leg, x.orders[id].side, flattened)];
      }
    }

    // Waits for an order and, if it cannot be had, cancels it and takes back
    // what it filled.
    method AwaitOrUndo(id: nat, leg: string, timeout: int) returns (w: Wait)
      requires Valid() && id < |x.orders| && x.orders[id].instrument == Leg(leg) && x.orders[id].amount > 0
                && id !in hidden
      modifies this`alerts, x, book
      ensures Valid() && x.tries == old(x.tries) && x.now >= old(x.now)
      // it is only given up when its time is over or the exchange has ended it
      ensures if w.Expired? then x.now >= old(x.now) + timeout as real else x.stopped == old(x.stopped)
      ensures Watched(old(x.orders), old(x.trail), x.orders, x.trail)
      ensures w.Complete? ==>
                && |x.orders| == old(|x.orders|) && x.orders[id].filled == x.orders[id].amount
                && x.missed == old(x.missed) && alerts == old(alerts) && book.orders == old(book.orders)
                && book.OpenIds() == old(book.OpenIds()) && w.price == x.average(id, x.orders[id].amount)
      ensures !w.Complete? ==>
                var n := old(|x.orders|); var o := x.orders[id];
                var reversal := Order(Leg(leg), Reverse(o.side), o.filled, o.filled, Filled);
                && o.status != Live
                && book.OpenIds() == old(book.OpenIds()) - {id}
                && n <= |x.orders| <= n + 1
                && (|x.orders| == n ==>
                    if o.filled == 0 then x.missed == old(x.missed) else x.missed == old(x.missed) + [reversal])
                && (|x.orders| == n + 1 ==> x.orders[n] == reversal && x.missed == old(x.missed))
      // a reversal is only ever seen beside the dead order
      ensures forall k :: old(|x.trail|) <= k < |x.trail| && |x.trail[k]| > old(|x.orders|) ==> x.trail[k] == x.orders
    {
      ghost var os0, tr0 := x.orders, x.trail;
      var waited, _, _, _ := WaitForFill(id, timeout, x.orders[id].amount);
      w := waited;
      assert Advances(os0[id], x.orders[id]);
      if !w.Complete? {
        ghost var os1, tr1 := x.orders, x.trail;
        var f := CancelAndFlatten(id, leg);
        assert Advances(os1[id], x.orders[id]);
        WatchedTransitive(os0, tr0, os1, tr1, x.orders, x.trail);
        assert forall k :: |tr0| <= k < |tr1| ==> x.trail[k] == x.trail[..|tr1|][k];
      }
    }

    // Submits an order for a leg and waits for it; what a failed wait leaves of it
    // is cancelled and taken back.
    method Attempt(leg: string, side: Side, amount: nat, limit: real, retries: nat, timeout: int)
      returns (sub: Submission, w: Wait)
      requires Valid() && amount > 0 && retries <= |RETRY_DELAYS| + 1
      modifies this`alerts, x, book
      ensures Valid() && Watched(old(x.orders), old(x.trail), x.orders, x.trail) && x.now >= old(x.now)
      ensures Tried(old(x.tries), x.tries, Leg(leg), side, amount, limit, retries, sub)
      // it is only given up when its time is over or the exchange has ended it
      ensures if sub.Accepted? && w.Expired? then x.now >= old(x.now) + timeout as real else x.stopped == old(x.stopped)
      ensures !sub.Accepted? ==>
                |x.orders| == old(|x.orders|) && x.missed == old(x.missed) && book.OpenIds() == old(book.OpenIds())
      ensures sub.Accepted? ==>
                && sub.id == old(|x.orders|) < |x.orders| && sub.id !in hidden && AllSettled(x.orders, sub.id)
                && var o := x.orders[sub.id]; o.instrument == Leg(leg) && o.side == side && o.amount == amount
      ensures sub.Accepted? && w.Complete? ==>
                && |x.orders| == sub.id + 1 && x.orders[sub.id].filled == amount && x.missed == old(x.missed)
                && sub.id in book.orders && book.OpenIds() == old(book.OpenIds()) + {sub.id}
                && w.price == x.average(sub.id, amount)
      ensures sub.Accepted? && !w.Complete? ==>
                var o := x.orders[sub.id];
                var reversal := Order(Leg(leg), Reverse(side), o.filled, o.filled, Filled);
                && book.OpenIds() == old(book.OpenIds()) && |x.orders| <= sub.id + 2
                && (|x.orders| == sub.id + 1 ==> x.missed == old(x.missed) + (if o.filled == 0 then [] else [reversal]))
                && (|x.orders| == sub.id + 2 ==> x.orders[sub.id + 1] == reversal && x.missed == old(x.missed))
      // a reversal is only ever seen beside the dead order
      ensures forall k :: old(|x.trail|) <= k < |x.trail| && |x.trail[k]| > old(|x.orders|) + 1 ==>
                x.trail[k] == x.orders
    {
      w := Dead;
      ghost var os0, tr0 := x.orders, x.trail;
      sub := Submit(Leg(leg), side, amount, limit, retries);
      if sub.Accepted? {
        ghost var os1, tr1 := x.orders, x.trail;
        w := AwaitOrUndo(sub.id, leg, timeout);
        assert Advances(os1[sub.id], x.orders[sub.id]);
        assert forall k :: |tr0| <= k < |tr1| ==> x.trail[k] == x.trail[..|tr1|][k];
        WatchedTransitive(os0, tr0, os1, tr1, x.orders, x.trail);
      }
    }

    // The near half of an entry: sell, and take back whatever a failed wait left.
    method EnterNear(near: string, ghost far: string, amount: nat, limit: real, timeout: int)
      returns (sub: Submission, w: Wait)
      requires Valid() && near != far && amount > 0
      modifies this`alerts, x, book
      ensures Valid() && Extends(old(x.orders), x.orders)
      ensures Tried(old(x.tries), x.tries, Leg(near), Sell, amount, limit, 3, sub)
      ensures x.now >= old(x.now)
      ensures if sub.Accepted? && w.Expired? then x.now >= old(x.now) + timeout as real else x.stopped == old(x.stopped)
      ensures AllWithin(old(x.trail), x.trail, EntryBand(old(|x.orders|), near, far, amount))
      ensures !sub.Accepted? ==> |x.orders| == old(|x.orders|)
      ensures AllSettled(x.orders, old(|x.orders|))
      ensures sub.Accepted? ==> sub.id == old(|x.orders|) && NearShape(x.orders, sub.id, near, amount)
      ensures sub.Accepted? && w.Complete? ==>
                && |x.orders| == sub.id + 1 && x.orders[sub.id].filled == amount && x.missed == old(x.missed)
                && book.OpenIds() == old(book.OpenIds()) + {sub.id} && w.price == x.average(sub.id, amount)
      ensures sub.Accepted? && !w.Complete? && x.missed == old(x.missed) ==>
                Net(x.orders, sub.id, |x.orders|, near) == 0
      ensures !(sub.Accepted? && w.Complete?) ==> book.OpenIds() == old(book.OpenIds())
    {
      ghost var lo, tr0 := |x.orders|, x.trail;
      sub, w := Attempt(near, Sell, amount, limit, MAX_RETRIES, timeout);
      if sub.Accepted? {
        NearShapeBounded(x.orders, lo, near, far, amount);
      }
      forall k | |tr0| <= k < |x.trail| ensures Within(x.trail[k], EntryBand(lo, near, far, amount)) {
        var t := x.trail[k];
        if |t| > lo {
          assert Advances(t[lo], x.orders[lo]);
          NearShapeBounded(t, lo, near, far, amount);
        }
      }
    }

    // Buys the near leg of a failed entry back.
    method CloseNear(near: string, far: string, amount: nat, nearId: nat) returns (ok: bool)
      requires Valid() && near != far
      requires nearId < |x.orders| <= nearId + 3 && FarShape(x.orders, nearId, near, far, amount)
      requires |x.orders| == nearId + 3 ==> x.orders[nearId + 2].instrument == Leg(far)
      requires AllSettled(x.orders, nearId)
      modifies x
      ensures Valid() && Extends(old(x.orders), x.orders)
      ensures x.tries == old(x.tries) && x.stopped == old(x.stopped) && x.now >= old(x.now)
      ensures AllWithin(old(x.trail), x.trail, EntryBand(nearId, near, far, amount))
      ensures old(x.missed) <= x.missed && (ok <==> x.missed == old(x.missed)) && AllSettled(x.orders, nearId)
      ensures Trades(x.orders, nearId, near, far)
      ensures ok ==> |x.orders| == old(|x.orders|) + 1
                     && x.orders[old(|x.orders|)] == Order(Leg(near), Buy, amount, amount, Filled)
      ensures ok && old(|x.orders|) == nearId + 2 ==> FarShape(x.orders, nearId, near, far, amount)
      ensures ok ==>
                && Net(x.orders, nearId, |x.orders|, near) == old(Net(x.orders, nearId, |x.orders|, near)) + amount
                && Net(x.orders, nearId, |x.orders|, far) == old(Net(x.orders, nearId, |x.orders|, far))
    {
      ghost var os := x.orders;
      ok := Flatten(near, Buy, amount);
      BoughtBack(os, x.orders, nearId, near, far, amount);
    }

    // Reverses a spread whose far fill slipped: the near leg, then the far leg.
    method UnwindBoth(near: string, far: string, amount: nat, nearId: nat)
      requires Valid() && near != far
      requires |x.orders| == nearId + 2 && FarShape(x.orders, nearId, near, far, amount)
      requires x.orders[nearId + 1].filled == amount
      modifies this`alerts, x
      ensures Valid() && Extends(old(x.orders), x.orders) && old(x.missed) <= x.missed && AllSettled(x.orders, nearId)
      ensures x.tries == old(x.tries)
      ensures Trades(x.orders, nearId, near, far)
      ensures AllWithin(old(x.trail), x.trail, EntryBand(nearId, near, far, amount))
      ensures x.missed == old(x.missed) ==>
                && Net(x.orders, nearId, |x.orders|, near) == 0 && Net(x.orders, nearId, |x.orders|, far) == 0
                && alerts == old(alerts)
      ensures x.missed != old(x.missed) && hasNotifier ==> alerts == old(alerts) + [UnwindFailed(near, far)]
    {
      ghost var tr0, band := x.trail, EntryBand(nearId, near, far, amount);
      FarShapeBounded(x.orders, nearId, near, far, amount);
      var ok := CloseNear(near, far, amount, nearId);
      if ok {
        ghost var tr1 := x.trail;
        ok := SellFarBack(near, far, amount, nearId);
        AllWithinThen(tr0, tr1, x.trail, band);
      }
      if !ok && hasNotifier {
        alerts := alerts + [UnwindFailed(near, far)];
      }
    }

    // The far half of the reversal, the near leg having been bought back.
    method SellFarBack(near: string, far: string, amount: nat, nearId: nat) returns (ok: bool)
      requires Valid() && near != far && AllSettled(x.orders, nearId)
      requires |x.orders| == nearId + 3 && FarShape(x.orders, nearId, near, far, amount)
      requires x.orders[nearId + 1].filled == amount && x.orders[nearId + 2].instrument == Leg(near)
      modifies x
      ensures Valid() && Extends(old(x.orders), x.orders) && AllSettled(x.orders, nearId) && x.tries == old(x.tries)
      ensures Trades(x.orders, nearId, near, far)
      ensures AllWithin(old(x.trail), x.trail, EntryBand(nearId, near, far, amount))
      ensures old(x.missed) <= x.missed && (ok <==> x.missed == old(x.missed))
      ensures Net(x.orders, nearId, |x.orders|, near) == old(Net(x.orders, nearId, |x.orders|, near))
      ensures ok ==> Net(x.orders, nearId, |x.orders|, far) == old(Net(x.orders, nearId, |x.orders|, far)) - amount
    {
      ghost var os := x.orders;
      ok := Flatten(far, Sell, amount);
      StaysSettled(os, x.orders, nearId);
      FarShapeBounded(x.orders, nearId, near, far, amount);
      OneMore(os, x.orders, nearId, near);
      OneMore(os, x.orders, nearId, far);
    }

    // Submits the far order of an entry; if the wait for it fails, takes back
    // what it filled.
    method BuyFar(near: string, far: string, amount: nat, nearId: nat, limit: real, timeout: int)
      returns (sub: Submission, w: Wait)
      requires Valid() && near != far && amount > 0
      requires nearId + 1 == |x.orders| && FarShape(x.orders, nearId, near, far, amount)
      modifies this`alerts, x, book
      ensures Valid() && Extends(old(x.orders), x.orders)
      ensures AllWithin(old(x.trail), x.trail, EntryBand(nearId, near, far, amount))
      ensures Tried(old(x.tries), x.tries, Leg(far), Buy, amount, limit, 3, sub)
      ensures x.now >= old(x.now)
      ensures if sub.Accepted? && w.Expired? then x.now >= old(x.now) + timeout as real else x.stopped == old(x.stopped)
      ensures FarShape(x.orders, nearId, near, far, amount) && |x.orders| <= nearId + 3 && AllSettled(x.orders, nearId)
      ensures !sub.Accepted? ==>
                |x.orders| == nearId + 1 && book.OpenIds() == old(book.OpenIds()) && x.missed == old(x.missed)
      ensures sub.Accepted? && w.Complete? ==>
                && sub.id == nearId + 1 && |x.orders| == nearId + 2 && x.orders[sub.id].filled == amount
                && x.missed == old(x.missed) && sub.id !in hidden && w.price == x.average(sub.id, amount)
                && book.OpenIds() == old(book.OpenIds()) + {sub.id}
      ensures sub.Accepted? && !w.Complete? ==>
                && old(x.missed) <= x.missed
                && (|x.orders| == nearId + 3 ==> x.orders[nearId + 2].instrument == Leg(far))
                && book.OpenIds() == old(book.OpenIds())
                && (x.missed == old(x.missed) ==> Net(x.orders, nearId, |x.orders|, near) == -(amount as int)
                                                  && Net(x.orders, nearId, |x.orders|, far) == 0)
    {
      ghost var os0, tr0 := x.orders, x.trail;
      sub, w := Attempt(far, Buy, amount, limit, MAX_RETRIES, timeout);
      assert Advances(os0[nearId], x.orders[nearId]);
      if sub.Accepted? {
        NetUnrolled(x.orders, nearId, near);
        NetUnrolled(x.orders, nearId, far);
      }
      FarShapeWatched(os0, tr0, x.orders, x.trail, nearId, near, far, amount);
    }

    // Decides an entry once the wait for the far order is over.
    method FinishEntry(near: string, far: string, amount: nat, nearId: nat, complete: bool, price: real,
                       fill: real, nearFill: real, nearIntended: real, intended: real, slippage: real)
      returns (out: Entry)
      requires Valid() && near != far
      requires FarShape(x.orders, nearId, near, far, amount) && |x.orders| <= nearId + 3
      requires AllSettled(x.orders, nearId)
      requires |x.orders| == nearId + 3 ==> x.orders[nearId + 2].instrument == Leg(far)
      requires complete ==> |x.orders| == nearId + 2 && x.orders[nearId + 1].filled == amount && nearId + 1 !in hidden
      modifies this`alerts, x, book
      ensures Valid() && Extends(old(x.orders), x.orders) && old(x.missed) <= x.missed && AllSettled(x.orders, nearId)
      ensures Trades(x.orders, nearId, near, far)
      ensures AllWithin(old(x.trail), x.trail, EntryBand(nearId, near, far, amount))
      ensures FarOutcome(out, nearId) && !out.Escaped? && x.tries == old(x.tries)
      ensures out.LegsFilled? ==> out.nearFill == nearFill && out.farFill == fill
      ensures !SoldLow(nearFill, nearIntended, slippage) ==>
                FairlyPriced(out, nearIntended, intended, slippage)
      ensures out == LegRisk <==> !complete
      ensures !complete ==> x.stopped == old(x.stopped) && x.now >= old(x.now)
      ensures x.missed == old(x.missed) && complete ==>
                (Net(x.orders, nearId, |x.orders|, near), Net(x.orders, nearId, |x.orders|, far)) == Held(out, amount)
      ensures x.missed == old(x.missed) && !complete ==>
                && |x.orders| == old(|x.orders|) + 1
                && Net(x.orders, nearId, |x.orders|, near) == old(Net(x.orders, nearId, |x.orders|, near)) + amount
                && Net(x.orders, nearId, |x.orders|, far) == old(Net(x.orders, nearId, |x.orders|, far))
      ensures book.OpenIds() == old(book.OpenIds()) - (if out.LegsFilled? then {nearId + 1} else {})
    {
      if !complete {
        var _ := CloseNear(near, far, amount, nearId);
        return LegRisk;
      }
      AdverseExactly(fill, intended, slippage, Buy);
      if AdverseFill(fill, intended, slippage, Buy) {
        UnwindBoth(near, far, amount, nearId);
        return Slipped(true, fill);
      }
      FarShapeBounded(x.orders, nearId, near, far, amount);
      Record(nearId + 1, Done, Some(price), None);
      return LegsFilled(nearId, nearId + 1, nearFill, fill);
    }

    // The far half of an entry, the near leg having been sold.
    method EnterFar(near: string, far: string, amount: nat, nearId: nat, limit: real,
                    nearFill: real, nearIntended: real, intended: real, rate: real, slippage: real, timeout: int)
      returns (out: Entry, ghost answer: Submission)
      requires Valid() && near != far && amount > 0
      requires nearId + 1 == |x.orders| && FarShape(x.orders, nearId, near, far, amount)
      modifies this`alerts, x, book
      ensures Valid() && Extends(old(x.orders), x.orders) && AllSettled(x.orders, nearId)
      ensures Trades(x.orders, nearId, near, far)
      ensures AllWithin(old(x.trail), x.trail, EntryBand(nearId, near, far, amount))
      ensures FarOutcome(out, nearId)
      ensures Tried(old(x.tries), x.tries, Leg(far), Buy, amount, limit, 3, answer)
      ensures answer.TransportError? ==> out == LegRisk
      ensures out == LegRisk ==> x.now >= old(x.now) + timeout as real || x.stopped == old(x.stopped)
      ensures out == LegRisk ==> x.now >= old(x.now)
      // refused, and only then, nothing is placed or even crossed any more
      ensures (out == Escaped(true) <==> answer.Refused?)
                && (answer.Refused? <==> |x.orders| == old(|x.orders|) && x.missed == old(x.missed))
      ensures out.LegsFilled? ==>
                out.nearFill == nearFill && out.farFill == PriceOr(x.average(out.far, amount), limit) * rate
      ensures !SoldLow(nearFill, nearIntended, slippage) ==>
                FairlyPriced(out, nearIntended, intended, slippage)
      ensures x.missed == old(x.missed) ==>
                (Net(x.orders, nearId, |x.orders|, near), Net(x.orders, nearId, |x.orders|, far)) == Held(out, amount)
      ensures book.OpenIds() == old(book.OpenIds()) + (if out.Slipped? then {nearId + 1} else {})
    {
      ghost var os0, tr0 := x.orders, x.trail;
      var sub, w := BuyFar(near, far, amount, nearId, limit, timeout);
      if !sub.Accepted? { FarShapeBounded(x.orders, nearId, near, far, amount); }
      answer := sub;
      if sub.Refused? { return Escaped(true), sub; }
      ghost var os1, tr1 := x.orders, x.trail;
      var complete := sub.Accepted? && w.Complete?;
      var price := if complete then PriceOr(w.price, limit) else 0.0;
      out := FinishEntry(near, far, amount, nearId, complete, price, price * rate, nearFill, nearIntended, intended,
                         slippage);
      ExtendsTransitive(os0, os1, x.orders);
      AllWithinThen(tr0, tr1, x.trail, EntryBand(nearId, near, far, amount));
    }

    // What an entry met is there to be seen: a near sale that was had is a full
    // one, the refused exit is the one whose far order was refused, and fills are
    // priced as the exchange tells.
    ghost predicate TrueTo(met: Met, out: Entry, near: string, amount: nat, nearLimit: real, farLimit: real,
                           rate: real)
      reads x
    {
      && (met.sold.Some? ==>
            var sale := met.sold.value;
            && sale.id == met.base < |x.orders|
            && (var o := x.orders[sale.id]; o.instrument == Leg(near) && o.side == Sell && o.filled == amount)
            && var price := x.average(sale.id, amount);
               sale.fill == (if price.Some? then price.value else nearLimit) * rate)
      && (out == Escaped(true) <==> met.farRefused)
      && (out.LegsFilled? ==>
            && met.sold == Some(Sale(out.near, out.nearFill))
            && var price := x.average(out.far, amount);
               out.farFill == (if price.Some? then price.value else farLimit) * rate)
    }

    // Sells the near leg.  Unless the entry is over with that, its fill is fair and
    // recorded.
    method SellNear(near: string, ghost far: string, amount: nat, limit: real, intended: real, rate: real,
                    slippage: real, timeout: int)
      returns (over: Option<Entry>, sale: Sale, ghost met: Met)
      requires Valid() && near != far && amount > 0
      modifies this`alerts, x, book
      ensures Valid() && Extends(old(x.orders), x.orders) && AllSettled(x.orders, old(|x.orders|))
      ensures forall k :: old(|x.orders|) <= k < |x.orders| ==> x.orders[k].instrument == Leg(near)
      ensures AllWithin(old(x.trail), x.trail, EntryBand(old(|x.orders|), near, far, amount))
      ensures x.now >= old(x.now) && (over.None? ==> x.stopped == old(x.stopped))
      ensures over == Some(NoEntry) ==> x.now >= old(x.now) + timeout as real || x.stopped == old(x.stopped)
      ensures met.base == old(|x.orders|) && !met.farRefused
      ensures met.from == old(|x.tries|) < met.upTo == |x.tries|
      ensures var answer := x.tries[met.upTo - 1].answer;
              && Tried(old(x.tries), x.tries, Leg(near), Sell, amount, limit, 3, answer)
              && (answer.TransportError? ==> over == Some(NoEntry))
              && (answer.Refused? <==> over == Some(Escaped(false)))
              && (met.sold.Some? ==> answer.Accepted?)
      ensures met.sold.Some? ==>
                && met.sold.value == sale && sale.id == old(|x.orders|) && |x.orders| == sale.id + 1
                && sale.fill == PriceOr(x.average(sale.id, amount), limit) * rate
                && FarShape(x.orders, sale.id, near, far, amount) && x.missed == old(x.missed)
      ensures over.None? ==> met.sold.Some? && !SoldLow(sale.fill, intended, slippage)
      ensures over.None? ==> book.OpenIds() == old(book.OpenIds())
      ensures over.Some? ==>
                && over.value in {NoEntry, Escaped(false), Slipped(false, sale.fill)}
                && (over.value.Slipped? <==> met.sold.Some?)
                && (over.value.Slipped? ==> SoldLow(sale.fill, intended, slippage))
                && book.OpenIds() == old(book.OpenIds()) + (if over.value.Slipped? then {sale.id} else {})
                && (x.missed == old(x.missed) ==>
                      (Net(x.orders, old(|x.orders|), |x.orders|, near),
                       Net(x.orders, old(|x.orders|), |x.orders|, far)) == Held(over.value, amount))
    {
      ghost var lo := |x.orders|;
      over, sale := None, Sale(0, 0.0);
      var sub, w := EnterNear(near, far, amount, limit, timeout);
      met := Met(None, false, lo, old(|x.tries|), |x.tries|);
      if !sub.Accepted? {
        over := Some(if sub.TransportError? then NoEntry else Escaped(false));
        return;
      }
      NearShapeBounded(x.orders, lo, near, far, amount);
      if !w.Complete? {
        over := Some(NoEntry);
        return;
      }
      var price := PriceOr(w.price, limit);
      sale := Sale(sub.id, price * rate);
      met := met.(sold := Some(sale));
      AdverseExactly(sale.fill, intended, slippage, Sell);
      if AdverseFill(sale.fill, intended, slippage, Sell) {
        over := Some(Slipped(false, sale.fill));
        return;
      }
      Record(sub.id, Done, Some(price), None);
    }

    // Sells the near leg, then buys the far leg, undoing the near leg if the far
    // leg cannot be had.  `rate` converts a fill price to USD.
    method EnterLegs(near: string, far: string, amount: nat, nearLimit: real, farLimit: real,
                     nearIntended: real, farIntended: real, rate: real, slippage: real, timeout: int)
      returns (out: Entry, ghost met: Met)
      requires Valid() && near != far && amount > 0
      modifies this`alerts, x, book
      ensures Valid() && Extends(old(x.orders), x.orders) && AllSettled(x.orders, old(|x.orders|))
      ensures Trades(x.orders, old(|x.orders|), near, far)
      ensures |x.orders| > old(|x.orders|) ==> x.orders[old(|x.orders|)].instrument.Leg?
      ensures AllWithin(old(x.trail), x.trail, EntryBand(old(|x.orders|), near, far, amount))
      ensures !out.ComboFilled? && !out.Simulated? && FairlyPriced(out, nearIntended, farIntended, slippage)
      ensures slippage >= 0.0 && out.LegsFilled? ==>
                && (nearIntended <= 0.0 || nearIntended - out.nearFill <= slippage * nearIntended)
                && (farIntended <= 0.0 || out.farFill - farIntended <= slippage * farIntended)
      ensures slippage >= 0.0 && out.Slipped? ==>
                if out.farSide then farIntended > 0.0 && out.fill - farIntended > slippage * farIntended
                else nearIntended > 0.0 && nearIntended - out.fill > slippage * nearIntended
      ensures TrueTo(met, out, near, amount, nearLimit, farLimit, rate) && met.base == old(|x.orders|)
      ensures LegsTried(old(x.tries), x.tries, out, met, near, far, amount, nearLimit, farLimit)
      // no leg is given up before its time unless the exchange has ended it
      ensures out in {NoEntry, LegRisk} ==> x.now >= old(x.now)
      ensures out in {NoEntry, LegRisk} ==> x.now >= old(x.now) + timeout as real || x.stopped == old(x.stopped)
      ensures out.Slipped? && !out.farSide <==> Slid(met.sold, nearIntended, slippage)
      ensures x.missed == old(x.missed) ==>
                (Net(x.orders, old(|x.orders|), |x.orders|, near),
                 Net(x.orders, old(|x.orders|), |x.orders|, far)) == Held(out, amount)
      ensures book.OpenIds() == old(book.OpenIds()) +
                (if out.Slipped? then {if out.farSide then old(|x.orders|) + 1 else old(|x.orders|)} else {})
    {
      var over, sale;
      over, sale, met := SellNear(near, far, amount, nearLimit, nearIntended, rate, slippage, timeout);
      assert x.tries[..met.upTo] == x.tries;
      if over.Some? {
        return over.value, met;
      }
      ghost var os1, tr1, tries1 := x.orders, x.trail, x.tries;
      ghost var answer;
      out, answer := EnterFar(near, far, amount, sale.id, farLimit, sale.fill, nearIntended, farIntended, rate,
                              slippage, timeout);
      met := met.(farRefused := answer.Refused?);
      FarTried(old(x.tries), tries1, x.tries, out, met, near, far, amount, nearLimit, farLimit, answer);
      assert Advances(os1[sale.id], x.orders[sale.id]);
      AllWithinThen(old(x.trail), tr1, x.trail, EntryBand(sale.id, near, far, amount));
      ExtendsTransitive(old(x.orders), os1, x.orders);
    }

    // Waits for a combo order; on failure it is cancelled and recorded as
    // withdrawn, whatever it had filled.
    method AwaitCombo(id: nat, timeout: int) returns (filled: bool)
      requires Valid() && id < |x.orders| && id in book.orders && id !in hidden && x.orders[id].amount > 0
      modifies this`hidden, x, book
      ensures Valid() && x.missed == old(x.missed) && x.tries == old(x.tries) && x.now >= old(x.now)
      ensures x.stopped == old(x.stopped)
                || (x.stopped == old(x.stopped) + {id} && x.now >= old(x.now) + timeout as real)
      ensures |x.orders| == old(|x.orders|) && Watched(old(x.orders), old(x.trail), x.orders, x.trail)
      ensures Settled(x.orders[id]) && (filled ==> x.orders[id].filled == x.orders[id].amount)
      ensures hidden == old(hidden) + (if !filled && x.orders[id].filled > 0 then {id} else {})
      ensures book.OpenIds() == old(book.OpenIds()) - {id}
    {
      ghost var os0, tr0 := x.orders, x.trail;
      var w, _, _, _ := WaitForFill(id, timeout, x.orders[id].amount);
      assert Advances(os0[id], x.orders[id]);
      filled := w.Complete?;
      if filled {
        Record(id, Done, None, None);
        return;
      }
      if w.Expired? {
        ghost var os1, tr1 := x.orders, x.trail;
        var _ := x.Cancel(id);
        assert Advances(os1[id], x.orders[id]) && Watched(os1, tr1, x.orders, x.trail);
        WatchedTransitive(os0, tr0, os1, tr1, x.orders, x.trail);
        InStepExtends(book.orders, os1, x.orders, hidden);
      }
      if x.orders[id].filled > 0 { hidden := hidden + {id}; }
      Record(id, Withdrawn, None, None);
    }

    // One combo order for both legs.  Given up, it keeps whatever it filled:
    // `left` units of the spread that the registry does not show.
    method EnterCombo(near: string, far: string, amount: nat, limit: real, timeout: int)
      returns (id: Option<nat>, ghost left: nat)
      requires Valid() && near != far && amount > 0
      modifies this`hidden, x, book
      ensures Valid() && x.missed == old(x.missed)
      ensures Extends(old(x.orders), x.orders) && |x.orders| <= old(|x.orders|) + 1
      ensures AllWithin(old(x.trail), x.trail, ComboBand(old(|x.orders|), near, far, amount))
      ensures AllSettled(x.orders, old(|x.orders|))
      ensures Trades(x.orders, old(|x.orders|), near, far)
      ensures var moved := if id.Some? then amount else left;
              && left <= amount && (id.Some? ==> left == 0)
              && Net(x.orders, old(|x.orders|), |x.orders|, near) == -(moved as int)
              && Net(x.orders, old(|x.orders|), |x.orders|, far) == moved
      ensures ComboTried(old(x.tries), x.tries, near, far, amount, limit, |x.orders| > old(|x.orders|))
      // the combo is only given up when its time is over or the exchange has ended it
      ensures x.now >= old(x.now)
      ensures x.stopped == old(x.stopped)
                || (x.stopped == old(x.stopped) + {old(|x.orders|)} && |x.orders| > old(|x.orders|)
                    && x.now >= old(x.now) + timeout as real)
      ensures |x.orders| == old(|x.orders|) ==> id.None? && left == 0
      ensures |x.orders| > old(|x.orders|) ==>
                && x.orders[old(|x.orders|)].instrument == Combo(near, far)
                && (id.None? ==> left == x.orders[old(|x.orders|)].filled)
      ensures hidden == old(hidden) + (if left > 0 then {old(|x.orders|)} else {})
      ensures book.OpenIds() == old(book.OpenIds())
    {
      ghost var lo, os0, tr0 := |x.orders|, x.orders, x.trail;
      id, left := None, 0;
      var created: bool :| created || !created;
      if !created { return; }
      var sub := Submit(Combo(near, far), Buy, amount, limit, 1);
      if sub.Accepted? {
        ghost var os1, tr1 := x.orders, x.trail;
        var filled := AwaitCombo(sub.id, timeout);
        assert Advances(os1[lo], x.orders[lo]);
        WatchedTransitive(os0, tr0, os1, tr1, x.orders, x.trail);
        if filled { id := Some(sub.id); } else { left := x.orders[lo].filled; }
      }
      ComboWatched(os0, tr0, x.orders, x.trail, near, far, amount);
    }

    // The legs one by one, a combo having been given up with `left` of it filled; os0,
    // tries0, stopped0 and now0 are how things stood before the combo.
    method EnterLegsAfter(near: string, far: string, qty: nat, nearLimit: real, farLimit: real,
                          nearIntended: real, farIntended: real, rate: real, slippage: real,
                          orderTimeout: int, ghost comboTimeout: int,
                          ghost os0: seq<Order>, ghost left: nat, ghost tries0: seq<Try>, ghost stopped0: set<nat>,
                          ghost now0: real)
      returns (out: Entry, ghost met: Met)
      requires Valid() && near != far && qty > 0
      requires Extends(os0, x.orders) && |x.orders| <= |os0| + 1 && AllSettled(x.orders, |os0|)
      requires Trades(x.orders, |os0|, near, far)
      requires Net(x.orders, |os0|, |x.orders|, near) == 0 - left && Net(x.orders, |os0|, |x.orders|, far) == left
      requires |x.orders| == |os0| ==> left == 0
      requires |x.orders| > |os0| ==> x.orders[|os0|].instrument.Combo? && left == x.orders[|os0|].filled
      requires ComboTried(tries0, x.tries, near, far, qty, farLimit - nearLimit, |x.orders| > |os0|) && x.now >= now0
      requires x.stopped == stopped0 || (x.stopped == stopped0 + {|os0|} && |x.orders| > |os0|
                                         && x.now >= now0 + comboTimeout as real)
      modifies this`alerts, x, book
      ensures Valid() && Extends(os0, x.orders) && AllSettled(x.orders, |os0|) && Trades(x.orders, |os0|, near, far)
      ensures !out.ComboFilled? && !out.Simulated? && FairlyPriced(out, nearIntended, farIntended, slippage)
      ensures TrueTo(met, out, near, qty, nearLimit, farLimit, rate) && met.base == old(|x.orders|)
      ensures out.Slipped? && !out.farSide <==> Slid(met.sold, nearIntended, slippage)
      ensures x.missed == old(x.missed) ==>
                && Net(x.orders, |os0|, |x.orders|, near) == Held(out, qty).0 - left
                && Net(x.orders, |os0|, |x.orders|, far) == Held(out, qty).1 + left
      ensures left == ComboPart(x.orders, |os0|, out)
      ensures AllTried(tries0, x.tries, out, met, near, far, qty, nearLimit, farLimit)
      ensures out in {NoEntry, LegRisk} ==>
                Patient(os0, x.orders, stopped0, x.stopped, now0, x.now, orderTimeout, comboTimeout)
      ensures AllWithin(old(x.trail), x.trail, EntryBand(met.base, near, far, qty))
      ensures book.OpenIds() == old(book.OpenIds()) +
                (if out.Slipped? then {if out.farSide then met.base + 1 else met.base} else {})
    {
      ghost var os1, tries1, stopped1, now1 := x.orders, x.tries, x.stopped, x.now;
      out, met := EnterLegs(near, far, qty, nearLimit, farLimit, nearIntended, farIntended, rate, slippage,
                            orderTimeout);
      LegsOnTop(os0, os1, x.orders, near, far);
      if out in {NoEntry, LegRisk} {
        PatientThen(os0, os1, x.orders, stopped0, stopped1, x.stopped, now0, now1, x.now, orderTimeout, comboTimeout);
      }
      ComboThenLegs(tries0, tries1, x.tries, out, met, near, far, qty, nearLimit, farLimit, |os1| > |os0|);
    }

    // An entry on the exchange: a combo first, then leg by leg.  `abandoned` is
    // what a given-up combo had filled, on top of which the legs are entered; `mid` is
    // the trail up to the end of the combo.
    method EnterLive(near: string, far: string, qty: nat, nearLimit: real, farLimit: real,
                     nearIntended: real, farIntended: real, rate: real, slippage: real,
                     orderTimeout: int, comboTimeout: int)
      returns (out: Entry, ghost abandoned: nat, ghost met: Met, ghost mid: seq<seq<Order>>)
      requires Valid() && near != far && qty > 0
      modifies this, x, book
      ensures Valid() && Extends(old(x.orders), x.orders) && AllSettled(x.orders, old(|x.orders|))
      ensures Trades(x.orders, old(|x.orders|), near, far)
      ensures !out.Simulated? && (out.ComboFilled? ==> abandoned == 0)
                && FairlyPriced(out, nearIntended, farIntended, slippage)
      ensures x.missed == old(x.missed) ==>
                && Net(x.orders, old(|x.orders|), |x.orders|, near) == Held(out, qty).0 - abandoned
                && Net(x.orders, old(|x.orders|), |x.orders|, far) == Held(out, qty).1 + abandoned
      ensures TrueTo(met, out, near, qty, nearLimit, farLimit, rate)
      ensures old(|x.orders|) <= met.base <= old(|x.orders|) + 1
      ensures abandoned == ComboPart(x.orders, old(|x.orders|), out)
      ensures AllTried(old(x.tries), x.tries, out, met, near, far, qty, nearLimit, farLimit)
      ensures out in {NoEntry, LegRisk} ==>
                Patient(old(x.orders), x.orders, old(x.stopped), x.stopped, old(x.now), x.now, orderTimeout,
                        comboTimeout)
      ensures out.Slipped? && !out.farSide <==> Slid(met.sold, nearIntended, slippage)
      ensures AllWithin(old(x.trail), mid, ComboBand(old(|x.orders|), near, far, qty))
      ensures AllWithin(mid, x.trail, EntryBand(met.base, near, far, qty))
      ensures hidden == old(hidden) + (if abandoned > 0 then {old(|x.orders|)} else {})
      ensures !out.Slipped? ==> book.OpenIds() == old(book.OpenIds())
      ensures out.Slipped? ==>
                book.OpenIds() == old(book.OpenIds()) + {if out.farSide then met.base + 1 else met.base}
    {
      ghost var os0, tries0, stopped0, now0 := x.orders, x.tries, x.stopped, x.now;
      var combo, left := EnterCombo(near, far, qty, farLimit - nearLimit, comboTimeout);
      mid := x.trail;
      if combo.Some? {
        return ComboFilled(combo.value), 0, Met(None, false, |x.orders|, 0, 0), mid;
      }
      abandoned := left;
      out, met := EnterLegsAfter(near, far, qty, nearLimit, farLimit, nearIntended, farIntended, rate, slippage,
                                 orderTimeout, comboTimeout, os0, left, tries0, stopped0, now0);
    }

    // The whole entry.
    method EnterSpread(near: string, far: string, qty: int, paper: bool, nearLimit: real, farLimit: real,
                       nearIntended: real, farIntended: real, rate: real, slippage: real,
                       orderTimeout: int, comboTimeout: int)
      returns (out: Entry, ghost abandoned: nat, ghost met: Met, ghost mid: seq<seq<Order>>)
      requires Valid() && near != far
      modifies this, x, book
      ensures Valid() && Extends(old(x.orders), x.orders)
      // nothing placed here can fill any more, or touches any other leg
      ensures AllSettled(x.orders, old(|x.orders|)) && Trades(x.orders, old(|x.orders|), near, far)
      ensures paper || qty <= 0 ==>
                && x.orders == old(x.orders) && x.missed == old(x.missed)
                && book.orders == old(book.orders) && x.tries == old(x.tries)
      ensures qty <= 0 ==> out == NoEntry
      // otherwise the combo and, unless it fills, the legs are really tried
      ensures qty > 0 && !paper && out in {NoEntry, LegRisk} ==>
                Patient(old(x.orders), x.orders, old(x.stopped), x.stopped, old(x.now), x.now, orderTimeout,
                        comboTimeout)
      ensures qty > 0 && !paper ==> AllTried(old(x.tries), x.tries, out, met, near, far, qty, nearLimit, farLimit)
      ensures out.Simulated? <==> paper && qty > 0
      ensures out.ComboFilled? ==> abandoned == 0
      ensures FairlyPriced(out, nearIntended, farIntended, slippage)
      // fills are taken exactly when neither is worse than intended by more than the
      // allowed share of it
      ensures slippage >= 0.0 && out.LegsFilled? ==>
                && (nearIntended <= 0.0 || nearIntended - out.nearFill <= slippage * nearIntended)
                && (farIntended <= 0.0 || out.farFill - farIntended <= slippage * farIntended)
      ensures slippage >= 0.0 && out.Slipped? ==>
                if out.farSide then farIntended > 0.0 && out.fill - farIntended > slippage * farIntended
                else nearIntended > 0.0 && nearIntended - out.fill > slippage * nearIntended
      ensures x.missed == old(x.missed) && qty > 0 ==>
                && Net(x.orders, old(|x.orders|), |x.orders|, near) == Held(out, qty).0 - abandoned
                && Net(x.orders, old(|x.orders|), |x.orders|, far) == Held(out, qty).1 + abandoned
      ensures x.missed == old(x.missed) && qty > 0 && !paper ==>
                Did(Enter(near, far, qty, out, abandoned), old(x.orders), x.orders)
      // so the account is what the caller is told, all or nothing, exactly when no
      // combo given up had filled in part, the sale of the near leg did not slip and
      // the far order was not refused
      ensures TrueTo(met, out, near, if qty > 0 then qty else 0, nearLimit, farLimit, rate)
      ensures old(|x.orders|) <= met.base <= old(|x.orders|) + 1
      ensures x.missed == old(x.missed) && qty > 0 && !paper ==>
                (Matches(out, qty, Net(x.orders, old(|x.orders|), |x.orders|, near),
                         Net(x.orders, old(|x.orders|), |x.orders|, far))
                 <==> && ComboPart(x.orders, old(|x.orders|), out) == 0 && !met.farRefused
                      && !Slid(met.sold, nearIntended, slippage))
      // at every moment: first only the combo moves, both legs together ...
      ensures AllWithin(old(x.trail), mid, ComboBand(old(|x.orders|), near, far, qty))
      // ... then, the combo being dead, only the legs
      ensures AllWithin(mid, x.trail, EntryBand(met.base, near, far, qty))
      ensures hidden == old(hidden) + (if abandoned > 0 then {old(|x.orders|)} else {})
      // only a slippage exit leaves an order the registry shows as open
      ensures !out.Slipped? ==> book.OpenIds() == old(book.OpenIds())
      ensures out.Slipped? ==>
                book.OpenIds() == old(book.OpenIds()) + {if out.farSide then met.base + 1 else met.base}
    {
      abandoned, met, mid := 0, Met(None, false, |x.orders|, 0, 0), x.trail;
      if qty <= 0 || paper {
        return if qty <= 0 then NoEntry else Simulated, 0, met, mid;
      }
      out, abandoned, met, mid := EnterLive(near, far, qty, nearLimit, farLimit, nearIntended, farIntended, rate,
                                            slippage, orderTimeout, comboTimeout);
      AllOrNothing(out, qty, abandoned);
      if x.missed == old(x.missed) {
        DidEnter(old(x.orders), x.orders, near, far, qty, out, abandoned);
      }
    }

    // Submits both close orders.
    method SubmitClose(near: string, far: string, amount: nat, nearLimit: real, farLimit: real)
      returns (nearOk: bool, farOk: bool)
      requires Valid() && near != far && amount > 0
      modifies x, book
      ensures Valid() && Extends(old(x.orders), x.orders) && x.missed == old(x.missed)
      ensures AllWithin(old(x.trail), x.trail, CloseBand(old(|x.orders|), near, far, amount))
      ensures CloseShape(x.orders, old(|x.orders|), near, far, amount)
      ensures |x.orders| == old(|x.orders|) + (if farOk then 2 else if nearOk then 1 else 0) && (farOk ==> nearOk)
      ensures nearOk && !farOk ==> Settled(x.orders[old(|x.orders|)])
      ensures CloseTried(old(x.tries), x.tries, near, far, amount, nearLimit, farLimit, nearOk, farOk)
      ensures x.now >= old(x.now) && (nearOk == farOk ==> x.stopped == old(x.stopped))
      ensures book.OpenIds() == old(book.OpenIds()) + (if nearOk then {old(|x.orders|)} else {})
                                + (if farOk then {old(|x.orders|) + 1} else {})
    {
      ghost var lo, os0, tr0 := |x.orders|, x.orders, x.trail;
      farOk := false;
      var sub := Submit(Leg(near), Buy, amount, nearLimit, 1);
      CloseShapeWatched(os0, tr0, x.orders, x.trail, lo, near, far, amount);
      nearOk := sub.Accepted?;
      if nearOk {
        ghost var os1, tr1 := x.orders, x.trail;
        var sub' := Submit(Leg(far), Sell, amount, farLimit, 1);
        farOk := sub'.Accepted?;
        assert Advances(os1[lo], x.orders[lo]);
        if !farOk {
          ghost var os2, tr2 := x.orders, x.trail;
          var _ := x.Cancel(sub.id);
          assert Advances(os2[lo], x.orders[lo]) && Watched(os2, tr2, x.orders, x.trail);
          InStepExtends(book.orders, os2, x.orders, hidden);
          WatchedTransitive(os1, tr1, os2, tr2, x.orders, x.trail);
        }
        CloseShapeWatched(os1, tr1, x.orders, x.trail, lo, near, far, amount);
        ExtendsTransitive(os0, os1, x.orders);
        AllWithinThen(tr0, tr1, x.trail, CloseBand(lo, near, far, amount));
      }
    }

    // Waits for the near close order while the far one is live.
    method AwaitCloseNear(near: string, far: string, amount: nat, nearId: nat, timeout: int) returns (w: Wait)
      requires Valid() && near != far && amount > 0
      requires |x.orders| == nearId + 2 && CloseShape(x.orders, nearId, near, far, amount)
      requires forall id :: id in hidden ==> id < nearId
      modifies this`alerts, x, book
      ensures x.tries == old(x.tries) && x.now >= old(x.now)
      ensures if w.Expired? then x.now >= old(x.now) + timeout as real else x.stopped == old(x.stopped)
      ensures Valid() && Extends(old(x.orders), x.orders) && old(x.missed) <= x.missed
      ensures AllWithin(old(x.trail), x.trail, CloseBand(nearId, near, far, amount))
      ensures CloseShape(x.orders, nearId, near, far, amount) && Settled(x.orders[nearId])
      ensures |x.orders| == nearId + 2 || (!w.Complete? && |x.orders| == nearId + 3
                && Settled(x.orders[nearId + 2]) && x.orders[nearId + 2].instrument == Leg(near))
      ensures w.Complete? ==> x.orders[nearId].filled == amount && w.price == x.average(nearId, amount)
      ensures x.missed == old(x.missed) ==>
                Net(x.orders, nearId, |x.orders|, near) == (if w.Complete? then amount else 0)
      ensures book.OpenIds() == old(book.OpenIds()) - (if w.Complete? then {} else {nearId})
    {
      ghost var os0, tr0 := x.orders, x.trail;
      w := AwaitOrUndo(nearId, near, timeout);
      assert Advances(os0[nearId], x.orders[nearId]) && Advances(os0[nearId + 1], x.orders[nearId + 1]);
      CloseShapeWatched(os0, tr0, x.orders, x.trail, nearId, near, far, amount);
      NetUnrolled(x.orders, nearId, near);
    }

    // Waits for the far close order, the near one being settled.
    method AwaitCloseFar(near: string, far: string, amount: nat, nearId: nat, timeout: int) returns (w: Wait)
      requires Valid() && near != far && amount > 0
      requires CloseShape(x.orders, nearId, near, far, amount) && nearId + 2 <= |x.orders| <= nearId + 3
      requires Settled(x.orders[nearId])
      requires |x.orders| == nearId + 3 ==>
                && Settled(x.orders[nearId + 2])
                && x.orders[nearId + 2].instrument == Leg(near)
      requires forall id :: id in hidden ==> id < nearId
      modifies this`alerts, x, book
      ensures x.tries == old(x.tries) && x.now >= old(x.now)
      ensures if w.Expired? then x.now >= old(x.now) + timeout as real else x.stopped == old(x.stopped)
      ensures Valid() && Extends(old(x.orders), x.orders) && old(x.missed) <= x.missed
      ensures AllWithin(old(x.trail), x.trail, CloseBand(nearId, near, far, amount))
      ensures CloseShape(x.orders, nearId, near, far, amount)
      ensures AllSettled(x.orders, nearId)
      ensures |x.orders| == old(|x.orders|) || (!w.Complete? && |x.orders| == old(|x.orders|) + 1
                && x.orders[old(|x.orders|)].instrument == Leg(far))
      ensures w.Complete? ==> x.orders[nearId + 1].filled == amount && w.price == x.average(nearId + 1, amount)
      ensures x.missed == old(x.missed) ==>
                && Net(x.orders, nearId, |x.orders|, near) == old(Net(x.orders, nearId, |x.orders|, near))
                && Net(x.orders, nearId, |x.orders|, far) == (if w.Complete? then -(amount as int) else 0)
      ensures book.OpenIds() == old(book.OpenIds()) - (if w.Complete? then {} else {nearId + 1})
    {
      ghost var os1, tr1 := x.orders, x.trail;
      w := AwaitOrUndo(nearId + 1, far, timeout);
      FarCloseOver(os1, x.orders, nearId, near, far, amount);
      CloseShapeWatched(os1, tr1, x.orders, x.trail, nearId, near, far, amount);
    }

    // Waits for both close orders in turn, taking back partial fills.
    method AwaitBoth(near: string, far: string, amount: nat, nearId: nat, timeout: int)
      returns (wNear: Wait, wFar: Wait)
      requires Valid() && near != far && amount > 0
      requires |x.orders| == nearId + 2 && CloseShape(x.orders, nearId, near, far, amount)
      requires forall id :: id in hidden ==> id < nearId
      modifies this`alerts, x, book
      ensures x.tries == old(x.tries) && x.now >= old(x.now)
      ensures wNear.Expired? || wFar.Expired? ==> x.now >= old(x.now) + timeout as real
      ensures !wNear.Expired? && !wFar.Expired? ==> x.stopped == old(x.stopped)
      ensures Valid() && Extends(old(x.orders), x.orders) && old(x.missed) <= x.missed
      ensures AllWithin(old(x.trail), x.trail, CloseBand(nearId, near, far, amount))
      ensures CloseShape(x.orders, nearId, near, far, amount) && nearId + 2 <= |x.orders|
      ensures AllSettled(x.orders, nearId)
      ensures wNear.Complete? ==> x.orders[nearId].filled == amount && wNear.price == x.average(nearId, amount)
      ensures wFar.Complete? ==> x.orders[nearId + 1].filled == amount && wFar.price == x.average(nearId + 1, amount)
      ensures wNear.Complete? || wFar.Complete? ==> |x.orders| <= nearId + 3
      ensures |x.orders| == nearId + 3 && wNear.Complete? ==> x.orders[nearId + 2].instrument == Leg(far)
      ensures |x.orders| == nearId + 3 && wFar.Complete? ==> x.orders[nearId + 2].instrument == Leg(near)
      ensures x.missed == old(x.missed) ==>
                && Net(x.orders, nearId, |x.orders|, near) == (if wNear.Complete? then amount else 0)
                && Net(x.orders, nearId, |x.orders|, far) == (if wFar.Complete? then -(amount as int) else 0)
      ensures book.OpenIds() == old(book.OpenIds()) - (if wNear.Complete? then {} else {nearId})
                                - (if wFar.Complete? then {} else {nearId + 1})
    {
      ghost var os0, tr0 := x.orders, x.trail;
      wNear := AwaitCloseNear(near, far, amount, nearId, timeout);
      ghost var os1, tr1 := x.orders, x.trail;
      wFar := AwaitCloseFar(near, far, amount, nearId, timeout);
      ExtendsTransitive(os0, os1, x.orders);
      AllWithinThen(tr0, tr1, x.trail, CloseBand(nearId, near, far, amount));
      assert Advances(os1[nearId], x.orders[nearId]);
    }

    // Buys back, or sells back, the one leg of a close that filled.
    method UnwindOne(near: string, far: string, amount: nat, nearId: nat, nearSide: bool)
      requires Valid() && near != far && amount > 0
      requires |x.orders| <= nearId + 3 && nearId + 2 <= |x.orders| && CloseShape(x.orders, nearId, near, far, amount)
      requires AllSettled(x.orders, nearId)
      requires x.orders[if nearSide then nearId else nearId + 1].filled == amount
      requires |x.orders| == nearId + 3 ==> x.orders[nearId + 2].instrument == Leg(if nearSide then far else near)
      modifies x
      ensures x.tries == old(x.tries) && x.stopped == old(x.stopped) && x.now >= old(x.now)
      ensures Valid() && Extends(old(x.orders), x.orders) && old(x.missed) <= x.missed && AllSettled(x.orders, nearId)
      ensures Trades(x.orders, nearId, near, far)
      ensures AllWithin(old(x.trail), x.trail, CloseBand(nearId, near, far, amount))
      ensures x.missed == old(x.missed) ==>
                var side := if nearSide then -(amount as int) else 0;
                && Net(x.orders, nearId, |x.orders|, near) == old(Net(x.orders, nearId, |x.orders|, near)) + side
                && Net(x.orders, nearId, |x.orders|, far) ==
                     old(Net(x.orders, nearId, |x.orders|, far)) + (if nearSide then 0 else amount)
    {
      ghost var os, tr := x.orders, x.trail;
      var ok := Flatten(if nearSide then near else far, if nearSide then Sell else Buy, amount);
      StaysSettled(os, x.orders, nearId);
      CloseShapeBounded(x.orders, nearId, near, far, amount);
      OneMore(os, x.orders, nearId, near);
      OneMore(os, x.orders, nearId, far);
    }

    // The credit is far less near, each at the average the exchange tells or, untold,
    // at the limit, and is the cash the two filled orders brought in.
    ghost predicate ClosedFor(fill: CloseFill, nearId: nat, amount: nat, nearLimit: real, farLimit: real, rate: real)
      reads x
      requires nearId + 1 < |x.orders|
    {
      var toldNear, toldFar := x.average(nearId, amount), x.average(nearId + 1, amount);
      var nearPrice := if toldNear.Some? then toldNear.value else nearLimit;
      var farPrice := if toldFar.Some? then toldFar.value else farLimit;
      && fill.credit == fill.far - fill.near && fill.near == nearPrice * rate && fill.far == farPrice * rate
      && fill.credit * amount as real ==
           (Cash(x.orders[nearId], nearPrice) + Cash(x.orders[nearId + 1], farPrice)) * rate
    }

    // Records both fills and works out the credit.
    method BookClose(near: string, far: string, amount: nat, nearId: nat, toldNear: Option<real>,
                     toldFar: Option<real>, nearLimit: real, farLimit: real, rate: real)
      returns (fill: CloseFill)
      requires Valid() && nearId + 1 < |x.orders| && nearId !in hidden && nearId + 1 !in hidden
      requires CloseShape(x.orders, nearId, near, far, amount)
      requires x.orders[nearId].filled == x.orders[nearId + 1].filled == amount
      requires toldNear == x.average(nearId, amount) && toldFar == x.average(nearId + 1, amount)
      modifies book
      ensures Valid() && ClosedFor(fill, nearId, amount, nearLimit, farLimit, rate)
      ensures book.OpenIds() == old(book.OpenIds()) - {nearId, nearId + 1}
    {
      var nearPrice, farPrice := PriceOr(toldNear, nearLimit), PriceOr(toldFar, farLimit);
      Record(nearId, Done, Some(nearPrice), None);
      Record(nearId + 1, Done, Some(farPrice), None);
      fill := CloseFill(farPrice * rate - nearPrice * rate, nearPrice * rate, farPrice * rate);
      CreditIsCash(x.orders[nearId], x.orders[nearId + 1], nearPrice, farPrice, rate, amount);
    }

    // The second half of a close, both orders having been accepted.
    method FinishClose(near: string, far: string, amount: nat, nearId: nat, nearLimit: real, farLimit: real, rate: real,
        timeout: int)
      returns (r: Option<CloseFill>, ghost stage: CloseStage)
      requires Valid() && near != far && amount > 0
      requires |x.orders| == nearId + 2 && CloseShape(x.orders, nearId, near, far, amount)
      requires forall id :: id in hidden ==> id < nearId
      modifies this`alerts, x, book
      ensures x.tries == old(x.tries) && x.now >= old(x.now)
      ensures x.now >= old(x.now) + timeout as real || x.stopped == old(x.stopped)
      ensures Valid() && Extends(old(x.orders), x.orders) && old(x.missed) <= x.missed && AllSettled(x.orders, nearId)
      ensures Trades(x.orders, nearId, near, far)
      ensures AllWithin(old(x.trail), x.trail, CloseBand(nearId, near, far, amount))
      ensures stage in {BothClosed, OnlyNear, OnlyFar, Neither}
      ensures r.Some? <==> stage == BothClosed
      ensures r.Some? ==> ClosedFor(r.value, nearId, amount, nearLimit, farLimit, rate)
      ensures x.missed == old(x.missed) ==>
                && Net(x.orders, nearId, |x.orders|, near) == (if stage == BothClosed then amount else 0)
                && Net(x.orders, nearId, |x.orders|, far) == (if stage == BothClosed then -(amount as int) else 0)
      ensures book.OpenIds() == old(book.OpenIds()) - (if stage == OnlyNear then {} else {nearId})
                                - (if stage == OnlyFar then {} else {nearId + 1})
    {
      r := None;
      var wNear, wFar := AwaitBoth(near, far, amount, nearId, timeout);
      ghost var os, tr := x.orders, x.trail;
      if wNear.Complete? && wFar.Complete? {
        stage := BothClosed;
        var fill := BookClose(near, far, amount, nearId, wNear.price, wFar.price, nearLimit, farLimit, rate);
        r := Some(fill);
      } else if wNear.Complete? || wFar.Complete? {
        stage := if wNear.Complete? then OnlyNear else OnlyFar;
        UnwindOne(near, far, amount, nearId, wNear.Complete?);
        ExtendsTransitive(old(x.orders), os, x.orders);
        AllWithinThen(old(x.trail), tr, x.trail, CloseBand(nearId, near, far, amount));
      } else {
        stage := Neither;
      }
    }

    // Closes both legs.  `stage` names the way out; `left` is what a near order
    // cancelled after the far one was refused had filled.
    method CloseSpread(near: string, far: string, amount: nat, nearLimit: real, farLimit: real, rate: real,
        timeout: int)
      returns (r: Option<CloseFill>, ghost stage: CloseStage, ghost left: nat)
      requires Valid() && near != far && amount > 0
      modifies this`alerts, x, book
      // both orders are really tried, and none is given up before its time unless the
      // exchange has refused or ended one
      ensures CloseTried(old(x.tries), x.tries, near, far, amount, nearLimit, farLimit, stage != NearRefused,
                         stage !in {NearRefused, FarRefused})
      ensures stage != FarRefused ==> x.now >= old(x.now) + timeout as real || x.stopped == old(x.stopped)
      ensures Valid() && Extends(old(x.orders), x.orders)
      // nothing placed here can fill any more, or touches any other leg
      ensures AllSettled(x.orders, old(|x.orders|)) && Trades(x.orders, old(|x.orders|), near, far)
      ensures AllWithin(old(x.trail), x.trail, CloseBand(old(|x.orders|), near, far, amount))
      ensures r.Some? <==> stage == BothClosed
      ensures r.Some? ==>
                && |x.orders| >= old(|x.orders|) + 2
                && ClosedFor(r.value, old(|x.orders|), amount, nearLimit, farLimit, rate)
      ensures stage != FarRefused ==> left == 0
      // both legs closed in full, or both exactly as before
      ensures x.missed == old(x.missed) ==>
                var lo := old(|x.orders|);
                && Net(x.orders, lo, |x.orders|, near) == (if stage == BothClosed then amount else left)
                && Net(x.orders, lo, |x.orders|, far) == (if stage == BothClosed then -(amount as int) else 0)
      ensures x.missed == old(x.missed) ==> Did(Close(near, far, amount, stage, left), old(x.orders), x.orders)
      // the one order the registry may still show as open
      ensures book.OpenIds() == old(book.OpenIds()) +
                (match stage
                 case OnlyNear => {old(|x.orders|)}
                 case FarRefused => {old(|x.orders|)}
                 case OnlyFar => {old(|x.orders|) + 1}
                 case _ => {})
    {
      ghost var lo, os0, tr0 := |x.orders|, x.orders, x.trail;
      r, stage, left := None, NearRefused, 0;
      var nearId := |x.orders|;
      var nearOk, farOk := SubmitClose(near, far, amount, nearLimit, farLimit);
      ghost var os1, tr1 := x.orders, x.trail;
      if farOk {
        r, stage := FinishClose(near, far, amount, nearId, nearLimit, farLimit, rate, timeout);
        ExtendsTransitive(os0, os1, x.orders);
        AllWithinThen(tr0, tr1, x.trail, CloseBand(lo, near, far, amount));
      } else {
        NearCloseOnly(x.orders, lo, near, far, amount);
        if nearOk {
          left := x.orders[lo].filled;
          stage := FarRefused;
        }
      }
      if x.missed == old(x.missed) { DidClose(os0, x.orders, near, far, amount, stage, left); }
    }

    // Buys the old near leg back, taking a failed attempt back.
    method RollOut(oldNear: string, ghost newNear: string, amount: nat, limit: real, timeout: int)
      returns (accepted: bool, done: bool)
      requires Valid() && oldNear != newNear && amount > 0
      modifies this`alerts, x, book
      ensures OnceTried(old(x.tries), x.tries, Leg(oldNear), Buy, amount, limit, accepted) && x.now >= old(x.now)
      ensures x.now >= old(x.now) + timeout as real || x.stopped == old(x.stopped)
      ensures Valid() && Extends(old(x.orders), x.orders) && old(x.missed) <= x.missed
                && AllSettled(x.orders, old(|x.orders|))
      ensures AllWithin(old(x.trail), x.trail, RollBand(old(|x.orders|), oldNear, newNear, amount))
      ensures done ==> accepted && |x.orders| == old(|x.orders|) + 1 && x.missed == old(x.missed)
                       && x.orders[old(|x.orders|)].filled == amount
      ensures !accepted ==> |x.orders| == old(|x.orders|)
      ensures !done && x.missed == old(x.missed) ==>
                var lo := old(|x.orders|);
                Net(x.orders, lo, |x.orders|, oldNear) == 0 && Net(x.orders, lo, |x.orders|, newNear) == 0
      ensures RollShape(x.orders, old(|x.orders|), oldNear, newNear, amount)
      ensures forall k :: old(|x.orders|) <= k < |x.orders| ==> x.orders[k].instrument == Leg(oldNear)
      ensures book.OpenIds() == old(book.OpenIds())
    {
      ghost var lo, os0, tr0 := |x.orders|, x.orders, x.trail;
      var sub, w := Attempt(oldNear, Buy, amount, limit, 1, timeout);
      accepted := sub.Accepted?;
      done := accepted && w.Complete?;
      if done { Record(sub.id, Done, None, None); }
      NetUnrolled(x.orders, lo, oldNear);
      NetUnrolled(x.orders, lo, newNear);
      RollShapeWatched(os0, tr0, x.orders, x.trail, lo, oldNear, newNear, amount);
    }

    // Sells the new near leg, the old one having been bought back.
    method RollIn(oldNear: string, newNear: string, amount: nat, closeId: nat, limit: real, timeout: int)
      returns (accepted: bool, done: bool)
      requires Valid() && oldNear != newNear && amount > 0
      requires |x.orders| == closeId + 1 && RollShape(x.orders, closeId, oldNear, newNear, amount)
      requires x.orders[closeId].filled == amount
      modifies this`alerts, x, book
      ensures OnceTried(old(x.tries), x.tries, Leg(newNear), Sell, amount, limit, accepted) && x.now >= old(x.now)
      ensures x.now >= old(x.now) + timeout as real || x.stopped == old(x.stopped)
      ensures Valid() && Extends(old(x.orders), x.orders) && old(x.missed) <= x.missed && AllSettled(x.orders, closeId)
      ensures AllWithin(old(x.trail), x.trail, RollBand(closeId, oldNear, newNear, amount))
      ensures RollShape(x.orders, closeId, oldNear, newNear, amount)
      ensures done ==> accepted
      ensures x.missed == old(x.missed) ==>
                && Net(x.orders, closeId, |x.orders|, oldNear) == amount
                && Net(x.orders, closeId, |x.orders|, newNear) == (if done then -(amount as int) else 0)
      ensures book.OpenIds() == old(book.OpenIds())
    {
      ghost var os0, tr0 := x.orders, x.trail;
      var sub, w := Attempt(newNear, Sell, amount, limit, 1, timeout);
      assert Advances(os0[closeId], x.orders[closeId]);
      accepted := sub.Accepted?;
      done := accepted && w.Complete?;
      if done { Record(sub.id, Done, None, None); }
      NetUnrolled(x.orders, closeId, oldNear);
      NetUnrolled(x.orders, closeId, newNear);
      RollShapeWatched(os0, tr0, x.orders, x.trail, closeId, oldNear, newNear, amount);
    }

    // Rolls the short near leg to a new expiry.  The far leg is not touched.
    method RollNearLeg(oldNear: string, newNear: string, amount: nat, closeLimit: real, openLimit: real, timeout: int)
      returns (ok: bool, ghost stage: RollStage)
      requires Valid() && oldNear != newNear && amount > 0
      modifies this`alerts, x, book
      // the purchase is really tried and, once it is had and only then, the sale; no
      // order is given up before its time unless the exchange has ended it
      ensures |x.tries| > old(|x.tries|) && var mid := x.tries[..old(|x.tries|) + 1];
              && OnceTried(old(x.tries), mid, Leg(oldNear), Buy, amount, closeLimit, stage != CloseRefused)
              && (if stage in {CloseRefused, CloseFailed} then x.tries == mid
                  else OnceTried(mid, x.tries, Leg(newNear), Sell, amount, openLimit, stage != OpenRefused))
      ensures x.now >= old(x.now) + timeout as real || x.stopped == old(x.stopped)
      ensures Valid() && Extends(old(x.orders), x.orders)
      // nothing placed here can fill any more
      ensures AllSettled(x.orders, old(|x.orders|))
      ensures ok <==> stage == Rolled
      // Starting short `amount` of the old leg, the combined short never grows.
      ensures AllWithin(old(x.trail), x.trail, RollBand(old(|x.orders|), oldNear, newNear, amount))
      ensures forall k :: old(|x.orders|) <= k < |x.orders| ==> x.orders[k].instrument in {Leg(oldNear), Leg(newNear)}
      ensures x.missed == old(x.missed) ==>
                var lo := old(|x.orders|);
                && Net(x.orders, lo, |x.orders|, oldNear) ==
                     (if stage in {CloseRefused, CloseFailed} then 0 else amount)
                && Net(x.orders, lo, |x.orders|, newNear) == (if stage == Rolled then -(amount as int) else 0)
      ensures x.missed == old(x.missed) ==> Did(Roll(oldNear, newNear, amount, stage), old(x.orders), x.orders)
      ensures book.OpenIds() == old(book.OpenIds())
    {
      ghost var lo, os0, tr0 := |x.orders|, x.orders, x.trail;
      var closeId := |x.orders|;
      var accepted, done := RollOut(oldNear, newNear, amount, closeLimit, timeout);
      if !done {
        stage := if accepted then CloseFailed else CloseRefused;
        if x.missed == old(x.missed) {
          DidRoll(os0, x.orders, oldNear, newNear, amount, stage);
        }
        return false, stage;
      }
      ghost var os1, tr1 := x.orders, x.trail;
      accepted, done := RollIn(oldNear, newNear, amount, closeId, openLimit, timeout);
      ExtendsTransitive(os0, os1, x.orders);
      AllWithinThen(tr0, tr1, x.trail, RollBand(lo, oldNear, newNear, amount));
      stage := if done then Rolled else if accepted then OpenFailed else OpenRefused;
      if x.missed == old(x.missed) {
        DidRoll(os0, x.orders, oldNear, newNear, amount, stage);
      }
      return done, stage;
    }
  }
}
