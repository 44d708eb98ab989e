/** What has happened so far, the latest last. */
module Histories {

  datatype History<+A> = Nothing | Then(past: History<A>, last: A)

  // At some moment of h, after `past`, a happened.
  predicate Moment<A(==)>(h: History<A>, past: History<A>, a: A) {
    h.Then? && ((h.past == past && h.last == a) || Moment(h.past, past, a))
  }

  // h is `past` and whatever came after it.
  predicate Continues<A(==)>(past: History<A>, h: History<A>) {
    h == past || (h.Then? && Continues(past, h.past))
  }

  function Length<A>(h: History<A>): nat {
    if h.Nothing? then 0 else Length(h.past) + 1
  }

  lemma {:induction false} NeverLonger<A>(past: History<A>, h: History<A>)
    requires Continues(past, h)
    ensures Length(past) <= Length(h)
  {
    if h != past { NeverLonger(past, h.past); }
  }

  function Joined<A>(h: History<A>, more: History<A>): History<A> {
    if more.Nothing? then h else Then(Joined(h, more.past), more.last)
  }
}
