/**
 Request and response correlation in the two JSON-RPC 2.0 clients (section 5 of
 the JSON-RPC 2.0 Specification: a response carries the id of its request).
 Sends, replies in any order and number, and timeouts interleave freely.
 */
module JsonRpc {
  import opened Histories

  datatype Reply = Ok(result: string) | Error(code: int, message: string)

  datatype Outcome = Waiting | Answered(reply: Reply) | Expired

  // Expire is the caller's timeout cancelling its future; Reap is the moment
  // afterwards at which the caller gets to run again.
  datatype Event = Send | Receive(id: int, reply: Reply) | Expire(id: int) | Reap(id: int)

  function Sends(t: History<Event>): nat {
    if t.Nothing? then 0 else Sends(t.past) + if t.last.Send? then 1 else 0
  }

  // What an event makes of a request, of which `sent` have been sent.
  function NextFate(before: Outcome, sent: nat, e: Event, id: int): Outcome {
    if before != Waiting || !(1 <= id <= sent) then before
    else match e
         case Receive(i, r) => if i == id then Answered(r) else Waiting
         case Expire(i) => if i == id then Expired else Waiting
         case _ => Waiting
  }

  // What becomes of request `id`: the first thing after it was sent that is
  // either a reply bearing its id or its timeout.
  function Fate(t: History<Event>, id: int): Outcome {
    if t.Nothing? then Waiting else NextFate(Fate(t.past, id), Sends(t.past), t.last, id)
  }

  // A reply to request `id` has come since it was sent.
  predicate Replied(t: History<Event>, id: int) {
    t.Then? && (Replied(t.past, id) || (t.last.Receive? && t.last.id == id && 1 <= id <= Sends(t.past)))
  }

  predicate Reaped(t: History<Event>, id: int) {
    t.Then? && (Reaped(t.past, id) || t.last == Reap(id))
  }

  lemma {:induction false} UnsentWaits(t: History<Event>, id: int)
    requires !(1 <= id <= Sends(t))
    ensures Fate(t, id) == Waiting && !Replied(t, id)
  {
    if t.Then? { UnsentWaits(t.past, id); }
  }

  lemma {:induction false} RepliedIsDone(t: History<Event>, id: int)
    requires Replied(t, id)
    ensures Fate(t, id) != Waiting
  {
    if Replied(t.past, id) { RepliedIsDone(t.past, id); }
  }

  // The futures are the fates of the requests, in the order they were sent.
  ghost predicate Told(futures: seq<Outcome>, t: History<Event>) {
    |futures| == Sends(t) && forall k :: 0 <= k < |futures| ==> futures[k] == Fate(t, k + 1)
  }

  // One event changes the fate of the one request it bears on.
  lemma ToldNext(futures: seq<Outcome>, t: History<Event>, e: Event, futures': seq<Outcome>)
    requires Told(futures, t)
    requires futures' == match e
                         case Send => futures + [Waiting]
                         case Reap(_) => futures
                         case _ =>
                           if 1 <= e.id <= |futures| then
                             futures[e.id - 1 := NextFate(futures[e.id - 1], |futures|, e, e.id)]
                           else futures
    ensures Told(futures', Then(t, e))
  {
    if e.Send? { UnsentWaits(t, |futures| + 1); }
    forall k | 0 <= k < |futures'| ensures futures'[k] == Fate(Then(t, e), k + 1) {
      assert k < |futures| ==> futures[k] == Fate(t, k + 1);
    }
  }

  // The client that places orders: what times out stays in its table, and a
  // reply that comes later finds the future done.
  class OrderClient {
    var reqId: nat
    var pending: map<int, nat>
    var futures: seq<Outcome>
    ghost var trace: History<Event>

    ghost predicate Valid()
      reads this
    {
      && reqId == Sends(trace) && Told(futures, trace)
      && (forall id: int :: id in pending <==> 1 <= id <= reqId && !Replied(trace, id))
      && (forall id :: id in pending ==> pending[id] == id - 1)
    }

    constructor ()
      ensures Valid() && trace == Nothing
    {
      reqId, pending, futures, trace := 0, map[], [], Nothing;
    }

    method SendRequest() returns (id: nat)
      requires Valid()
      modifies this
      ensures Valid() && trace == Then(old(trace), Send)
      ensures id == old(reqId) + 1 && Fate(trace, id) == Waiting
    {
      ghost var was := futures;
      UnsentWaits(trace, reqId + 1);
      reqId := reqId + 1;
      id := reqId;
      futures := futures + [Waiting];
      pending := pending[id := |futures| - 1];
      ToldNext(was, trace, Send, futures);
      trace := Then(trace, Send);
    }

    // A message off the socket; one without an id is not a reply.
    method Pump(id: int, reply: Reply)
      requires Valid()
      modifies this
      ensures Valid() && trace == Then(old(trace), Receive(id, reply))
    {
      ghost var was := futures;
      if id !in pending && Replied(trace, id) { RepliedIsDone(trace, id); }
      if id in pending {
        var future := pending[id];
        pending := pending - {id};
        if futures[future].Waiting? { futures := futures[future := Answered(reply)]; }
      }
      ToldNext(was, trace, Receive(id, reply), futures);
      trace := Then(trace, Receive(id, reply));
    }

    method TimeOut(id: int)
      requires Valid() && 1 <= id <= reqId
      modifies this
      ensures Valid() && trace == Then(old(trace), Expire(id))
    {
      ghost var was := futures;
      if futures[id - 1].Waiting? { futures := futures[id - 1 := Expired]; }
      ToldNext(was, trace, Expire(id), futures);
      trace := Then(trace, Expire(id));
    }

    // The caller gives up; this client does nothing about it.
    method GiveUp(id: int)
      requires Valid() && 1 <= id <= reqId && futures[id - 1].Expired?
      modifies this
      ensures Valid() && trace == Then(old(trace), Reap(id))
    {
      ToldNext(futures, trace, Reap(id), futures);
      trace := Then(trace, Reap(id));
    }
  }

  // The market data client: a caller that timed out removes its own entry.
  class FeedClient {
    var reqId: nat
    var pending: map<int, nat>
    var futures: seq<Outcome>
    ghost var trace: History<Event>

    ghost predicate Valid()
      reads this
    {
      && reqId == Sends(trace) && Told(futures, trace)
      && (forall id: int :: id in pending <==> 1 <= id <= reqId && !Replied(trace, id) && !Reaped(trace, id))
      && (forall id :: id in pending ==> pending[id] == id - 1)
      && (forall id: int :: Reaped(trace, id) ==> Fate(trace, id) == Expired)
    }

    constructor ()
      ensures Valid() && trace == Nothing
    {
      reqId, pending, futures, trace := 0, map[], [], Nothing;
    }

    method SendRequest() returns (id: nat)
      requires Valid()
      modifies this
      ensures Valid() && trace == Then(old(trace), Send)
      ensures id == old(reqId) + 1 && Fate(trace, id) == Waiting
    {
      ghost var was := futures;
      UnsentWaits(trace, reqId + 1);
      assert !Reaped(trace, reqId + 1);
      assert forall i: int :: Reaped(Then(trace, Send), i) == Reaped(trace, i);
      assert forall i: int :: Replied(Then(trace, Send), i) == Replied(trace, i);
      reqId := reqId + 1;
      id := reqId;
      futures := futures + [Waiting];
      pending := pending[id := |futures| - 1];
      ToldNext(was, trace, Send, futures);
      trace := Then(trace, Send);
    }

    method HandleMessage(id: int, reply: Reply)
      requires Valid()
      modifies this
      ensures Valid() && trace == Then(old(trace), Receive(id, reply))
    {
      ghost var was := futures;
      if id !in pending && Replied(trace, id) { RepliedIsDone(trace, id); }
      if id in pending {
        var future := pending[id];
        pending := pending - {id};
        if futures[future].Waiting? { futures := futures[future := Answered(reply)]; }
      }
      ToldNext(was, trace, Receive(id, reply), futures);
      trace := Then(trace, Receive(id, reply));
    }

    method TimeOut(id: int)
      requires Valid() && 1 <= id <= reqId
      modifies this
      ensures Valid() && trace == Then(old(trace), Expire(id))
    {
      ghost var was := futures;
      if futures[id - 1].Waiting? { futures := futures[id - 1 := Expired]; }
      ToldNext(was, trace, Expire(id), futures);
      trace := Then(trace, Expire(id));
    }

    method GiveUp(id: int)
      requires Valid() && 1 <= id <= reqId && futures[id - 1].Expired?
      modifies this
      ensures Valid() && trace == Then(old(trace), Reap(id))
    {
      pending := pending - {id};
      ToldNext(futures, trace, Reap(id), futures);
      trace := Then(trace, Reap(id));
    }
  }

  // ---- What both promise --------------------------------------------------

  // On the same events the two clients give every caller the same answer, and
  // the feed never holds an entry the order client does not.
  lemma ClientsAgree(o: OrderClient, f: FeedClient)
    requires o.Valid() && f.Valid() && o.trace == f.trace
    ensures o.futures == f.futures && o.reqId == f.reqId
    ensures forall id: int :: id in f.pending ==> id in o.pending
    ensures forall id: int :: id in o.pending && id !in f.pending <==>
              1 <= id <= o.reqId && Reaped(o.trace, id) && !Replied(o.trace, id)
  {
  }

  // A future completes at most once: whatever follows changes nothing.
  lemma {:induction false} CompletedForGood(past: History<Event>, t: History<Event>, id: int)
    requires Continues(past, t) && Fate(past, id) != Waiting
    ensures Fate(t, id) == Fate(past, id)
  {
    if t != past { CompletedForGood(past, t.past, id); }
  }

  // The event reaches request `id` while its future is open.
  predicate Reaches(past: History<Event>, e: Event, id: int) {
    && 1 <= id <= Sends(past) && Fate(past, id) == Waiting
    && ((e.Receive? && e.id == id) || e == Expire(id))
  }

  // A request is answered with r exactly when some reply bearing its id and
  // carrying r comes while it waits.
  lemma {:induction false} AnsweredByItsOwnReply(t: History<Event>, id: int, r: Reply)
    ensures Fate(t, id) == Answered(r) <==>
            exists past :: Moment(t, past, Receive(id, r)) && Reaches(past, Receive(id, r), id)
  {
    if t.Then? {
      AnsweredByItsOwnReply(t.past, id, r);
      if Fate(t.past, id) == Answered(r) {
        var past :| Moment(t.past, past, Receive(id, r)) && Reaches(past, Receive(id, r), id);
        assert Moment(t, past, Receive(id, r));
      } else if Fate(t, id) == Answered(r) {
        assert Moment(t, t.past, Receive(id, r)) && Reaches(t.past, Receive(id, r), id);
      }
    }
  }

  lemma {:induction false} Settles(t: History<Event>, past: History<Event>, e: Event, id: int)
    requires Moment(t, past, e) && Reaches(past, e, id)
    ensures Fate(t, id) != Waiting
  {
    if !(t.past == past && t.last == e) { Settles(t.past, past, e, id); }
  }

  // Only one event ever reaches a request.
  lemma {:induction false} ReachedOnce(t: History<Event>, id: int, past: History<Event>, e: Event,
                                       past': History<Event>, e': Event)
    requires Moment(t, past, e) && Reaches(past, e, id)
    requires Moment(t, past', e') && Reaches(past', e', id)
    ensures past == past' && e == e'
  {
    var now, now' := t.past == past && t.last == e, t.past == past' && t.last == e';
    if !now { Settles(t.past, past, e, id); }
    if !now' { Settles(t.past, past', e', id); }
    if !now && !now' { ReachedOnce(t.past, id, past, e, past', e'); }
  }

  lemma {:induction false} SameFateAfterwards(s: History<Event>, t: History<Event>, more: History<Event>, id: int)
    requires Sends(s) == Sends(t) && Fate(s, id) == Fate(t, id)
    ensures Sends(Joined(s, more)) == Sends(Joined(t, more)) && Fate(Joined(s, more), id) == Fate(Joined(t, more), id)
  {
    if more.Then? { SameFateAfterwards(s, t, more.past, id); }
  }

  // Replies to different requests may come in either order.
  lemma RepliesMayCross(a: History<Event>, x: Event, y: Event, b: History<Event>, id: int)
    requires x.Receive? && y.Receive? && x.id != y.id
    ensures Fate(Joined(Then(Then(a, x), y), b), id) == Fate(Joined(Then(Then(a, y), x), b), id)
  {
    SameFateAfterwards(Then(Then(a, x), y), Then(Then(a, y), x), b, id);
  }

  // A reply to a request that is done, or was never sent, might as well not come.
  lemma LateReplyIsNothing(a: History<Event>, x: Event, b: History<Event>, id: int)
    requires x.Receive? && (x.id < 1 || x.id > Sends(a) || Fate(a, x.id) != Waiting)
    ensures Fate(Joined(Then(a, x), b), id) == Fate(Joined(a, b), id)
  {
    SameFateAfterwards(Then(a, x), a, b, id);
  }
}
