/** Names in lexicographic order, by character code. */
module Ordering {

  predicate Precedes(a: string, b: string) {
    b != "" && (a == "" || a[0] < b[0] || (a[0] == b[0] && Precedes(a[1..], b[1..])))
  }

  lemma {:induction false} PrecedesOneWay(a: string, b: string)
    ensures a != b ==> (Precedes(a, b) <==> !Precedes(b, a))
    ensures !Precedes(a, a)
  {
    if a != [] { PrecedesOneWay(a[1..], if b == "" then "" else b[1..]); }
    if a != "" && b != "" && a[0] == b[0] && a[1..] == b[1..] { assert a == [a[0]] + a[1..] == b; }
  }

  lemma {:induction false} PrecedesOn(a: string, b: string, c: string)
    requires Precedes(a, b) && Precedes(b, c)
    ensures Precedes(a, c)
  {
    if a != "" && a[0] == b[0] == c[0] { PrecedesOn(a[1..], b[1..], c[1..]); }
  }

  predicate Alphabetical(names: seq<string>) {
    forall i, j :: 0 <= i < j < |names| ==> Precedes(names[i], names[j])
  }

  // One more name in its place, unless it is there.
  function Into(names: seq<string>, name: string): (r: seq<string>)
    requires Alphabetical(names)
    ensures Alphabetical(r) && forall n :: n in r <==> n in names || n == name
  {
    if names == [] then [name]
    else
      var init, last := names[..|names| - 1], names[|names| - 1];
      assert names == init + [last];
      if name == last then names
      else if Precedes(last, name) then
        AfterAll(names, name);
        names + [name]
      else
        PrecedesOneWay(name, last);
        BeforeLast(Into(init, name), init, name, last);
        Into(init, name) + [last]
  }

  lemma AfterAll(names: seq<string>, name: string)
    requires Alphabetical(names) && names != [] && Precedes(names[|names| - 1], name)
    ensures Alphabetical(names + [name])
  {
    forall i | 0 <= i < |names| ensures Precedes(names[i], name) {
      if i < |names| - 1 { PrecedesOn(names[i], names[|names| - 1], name); }
    }
  }

  lemma BeforeLast(r: seq<string>, init: seq<string>, name: string, last: string)
    requires Alphabetical(r) && Alphabetical(init + [last]) && Precedes(name, last)
    requires forall n :: n in r <==> n in init || n == name
    ensures Alphabetical(r + [last])
  {
    forall i | 0 <= i < |r| ensures Precedes(r[i], last) {
      assert r[i] in r;
      if r[i] in init {
        var k :| 0 <= k < |init| && init[k] == r[i];
        assert (init + [last])[k] == r[i] && (init + [last])[|init|] == last;
      }
    }
  }

  // The order and the names leave one listing only.
  lemma {:induction false} AlphabeticalIsUnique(a: seq<string>, b: seq<string>)
    requires Alphabetical(a) && Alphabetical(b) && forall n :: n in a <==> n in b
    ensures a == b
  {
    if a == [] || b == [] {
      if a != [] { NamesToo(a, b); }
      if b != [] { NamesToo(b, a); }
    } else {
      LastOfAll(a, b);
      LastOfAll(b, a);
      var x, y := a[|a| - 1], b[|b| - 1];
      PrecedesOneWay(x, y);
      var a', b' := a[..|a| - 1], b[..|b| - 1];
      assert a == a' + [x] && b == b' + [y];
      NotAgain(a);
      NotAgain(b);
      assert forall n :: n in a <==> n in a' || n == x;
      assert forall n :: n in b <==> n in b' || n == x;
      AlphabeticalIsUnique(a', b');
    }
  }

  lemma NamesToo(a: seq<string>, b: seq<string>)
    requires a != [] && forall n :: n in a <==> n in b
    ensures b != []
  {
    assert a[0] in a;
  }

  lemma LastOfAll(a: seq<string>, b: seq<string>)
    requires Alphabetical(b) && a != [] && b != [] && forall n :: n in a <==> n in b
    ensures a[|a| - 1] == b[|b| - 1] || Precedes(a[|a| - 1], b[|b| - 1])
  {
    assert a[|a| - 1] in b;
    var k :| 0 <= k < |b| && b[k] == a[|a| - 1];
  }

  lemma NotAgain(a: seq<string>)
    requires Alphabetical(a) && a != []
    ensures a[|a| - 1] !in a[..|a| - 1]
  {
    PrecedesOneWay(a[|a| - 1], a[|a| - 1]);
  }
}
