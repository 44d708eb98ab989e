/** Loading recorded snapshots into frames, and the equity curve's drawdown. */
module Backtest {
  import opened Options

  // ---- Loading ------------------------------------------------------------

  // What loading keeps of a row; `quote` is everything but the timestamp.
  datatype Snapshot = Snapshot(timestamp: real, quote: string)

  // The rows that parse, in file order; a malformed row is None.
  function WellFormed(rows: seq<Option<Snapshot>>): seq<Snapshot> {
    if rows == [] then []
    else
      var rest, row := WellFormed(rows[..|rows| - 1]), rows[|rows| - 1];
      if row.Some? then rest + [row.value] else rest
  }

  // They are the rows that are there, each in its place among the others.
  lemma {:induction false} WellFormedOneByOne(a: seq<Option<Snapshot>>, b: seq<Option<Snapshot>>, s: Snapshot)
    ensures WellFormed([]) == [] && WellFormed([None]) == [] && WellFormed([Some(s)]) == [s]
    ensures WellFormed(a + b) == WellFormed(a) + WellFormed(b)
  {
    var missing: seq<Option<Snapshot>> := [None];
    assert missing[..0] == [] && [Some(s)][..0] == [];
    if b == [] {
      assert a + b == a;
    } else {
      var init := b[..|b| - 1];
      WellFormedOneByOne(a, init, s);
      assert (a + b)[..|a + b| - 1] == a + init;
    }
  }

  // The snapshots of one moment, in order.
  function At(ss: seq<Snapshot>, ts: real): seq<Snapshot> {
    if ss == [] then []
    else
      var rest, s := At(ss[..|ss| - 1], ts), ss[|ss| - 1];
      if s.timestamp == ts then rest + [s] else rest
  }

  function Concat(frames: seq<seq<Snapshot>>): seq<Snapshot> {
    if frames == [] then [] else Concat(frames[..|frames| - 1]) + frames[|frames| - 1]
  }

  predicate InTimeOrder(ss: seq<Snapshot>) {
    forall i, j :: 0 <= i < j < |ss| ==> ss[i].timestamp <= ss[j].timestamp
  }

  ghost predicate StableSortOf(sorted: seq<Snapshot>, ss: seq<Snapshot>) {
    InTimeOrder(sorted) && forall ts :: At(sorted, ts) == At(ss, ts)
  }

  predicate StrictlyAscending(keys: seq<real>) {
    forall i, j :: 0 <= i < j < |keys| ==> keys[i] < keys[j]
  }

  function Place(keys: seq<real>, key: real): (r: seq<real>)
    requires StrictlyAscending(keys) && key !in keys
    ensures StrictlyAscending(r) && |r| == |keys| + 1 && forall x :: x in r <==> x in keys || x == key
  {
    if keys == [] then [key]
    else
      var init, last := keys[..|keys| - 1], keys[|keys| - 1];
      assert keys == init + [last];
      if last < key then keys + [key]
      else
        var placed := Place(init, key);
        assert forall k :: 0 <= k < |placed| ==> placed[k] in placed;
        assert forall x :: x in init ==> x < last;
        placed + [last]
  }

  function Sorted(keys: seq<real>): (r: seq<real>)
    requires forall i, j :: 0 <= i < j < |keys| ==> keys[i] != keys[j]
    ensures StrictlyAscending(r) && |r| == |keys| && forall x :: x in r <==> x in keys
  {
    if keys == [] then []
    else
      var init, last := keys[..|keys| - 1], keys[|keys| - 1];
      assert keys == init + [last];
      Place(Sorted(init), last)
  }

  lemma {:induction false} AtAppends(a: seq<Snapshot>, b: seq<Snapshot>, ts: real)
    ensures At(a + b, ts) == At(a, ts) + At(b, ts)
  {
    if b == [] {
      assert a + b == a;
    } else {
      AtAppends(a, b[..|b| - 1], ts);
      assert (a + b)[..|a + b| - 1] == a + b[..|b| - 1];
    }
  }

  lemma {:induction false} AtIsAllOfItsMoment(ss: seq<Snapshot>, ts: real)
    ensures forall k :: 0 <= k < |At(ss, ts)| ==> At(ss, ts)[k].timestamp == ts
    ensures At(ss, ts) != [] <==> exists k :: 0 <= k < |ss| && ss[k].timestamp == ts
  {
    if ss != [] {
      var init := ss[..|ss| - 1];
      AtIsAllOfItsMoment(init, ts);
      if At(init, ts) != [] {
        var k :| 0 <= k < |init| && init[k].timestamp == ts;
        assert ss[k].timestamp == ts;
      }
      assert ss[|ss| - 1].timestamp == ts ==> At(ss, ts) != [];
    }
  }

  lemma {:induction false} AtOfOneMoment(ss: seq<Snapshot>, ts: real, other: real)
    requires forall k :: 0 <= k < |ss| ==> ss[k].timestamp == ts
    ensures At(ss, other) == if other == ts then ss else []
  {
    if ss != [] {
      AtOfOneMoment(ss[..|ss| - 1], ts, other);
    }
  }

  // frames[k] is everything recorded at keys[k].
  predicate FramesOf(frames: seq<seq<Snapshot>>, keys: seq<real>, ss: seq<Snapshot>) {
    |frames| == |keys| && forall k :: 0 <= k < |frames| ==> frames[k] == At(ss, keys[k])
  }

  // The frames but the last.
  lemma FramesBefore(frames: seq<seq<Snapshot>>, keys: seq<real>, ss: seq<Snapshot>)
    requires FramesOf(frames, keys, ss) && StrictlyAscending(keys) && frames != []
    ensures var last := |keys| - 1;
            && FramesOf(frames[..last], keys[..last], ss) && StrictlyAscending(keys[..last])
            && frames[last] == At(ss, keys[last]) && keys[last] !in keys[..last]
            && forall ts :: ts in keys <==> ts in keys[..last] || ts == keys[last]
  {
    assert keys == keys[..|keys| - 1] + [keys[|keys| - 1]];
  }

  lemma {:induction false} FramesConserve(frames: seq<seq<Snapshot>>, keys: seq<real>, ss: seq<Snapshot>, ts: real)
    requires FramesOf(frames, keys, ss) && StrictlyAscending(keys)
    ensures At(Concat(frames), ts) == if ts in keys then At(ss, ts) else []
  {
    if frames != [] {
      var n := |keys| - 1;
      FramesBefore(frames, keys, ss);
      FramesConserve(frames[..n], keys[..n], ss, ts);
      AtAppends(Concat(frames[..n]), frames[n], ts);
      AtOfAt(ss, keys[n], ts);
    }
  }

  lemma AtOfAt(ss: seq<Snapshot>, key: real, ts: real)
    ensures At(At(ss, key), ts) == if ts == key then At(ss, key) else []
  {
    AtIsAllOfItsMoment(ss, key);
    AtOfOneMoment(At(ss, key), key, ts);
  }

  lemma {:induction false} FramesOfTheirMoments(frames: seq<seq<Snapshot>>, keys: seq<real>, ss: seq<Snapshot>)
    requires FramesOf(frames, keys, ss) && StrictlyAscending(keys)
    ensures forall s :: s in Concat(frames) ==> s.timestamp in keys
  {
    if frames != [] {
      var n := |keys| - 1;
      FramesBefore(frames, keys, ss);
      FramesOfTheirMoments(frames[..n], keys[..n], ss);
      AtIsAllOfItsMoment(ss, keys[n]);
    }
  }

  lemma {:induction false} FramesInOrder(frames: seq<seq<Snapshot>>, keys: seq<real>, ss: seq<Snapshot>)
    requires FramesOf(frames, keys, ss) && StrictlyAscending(keys)
    ensures InTimeOrder(Concat(frames))
  {
    if frames != [] {
      var n := |keys| - 1;
      FramesBefore(frames, keys, ss);
      FramesInOrder(frames[..n], keys[..n], ss);
      FramesOfTheirMoments(frames[..n], keys[..n], ss);
      AtIsAllOfItsMoment(ss, keys[n]);
      var c, all := Concat(frames[..n]), Concat(frames);
      forall i, j | 0 <= i < j < |all| ensures all[i].timestamp <= all[j].timestamp {
        if i < |c| <= j { assert c[i] in c && c[i].timestamp in keys[..n]; }
      }
    }
  }

  // No frame is empty, each holds one moment, and the moments ascend.
  predicate WellFramed(frames: seq<seq<Snapshot>>) {
    && (forall k :: 0 <= k < |frames| ==> frames[k] != [])
    && (forall k, i :: 0 <= k < |frames| && 0 <= i < |frames[k]| ==> frames[k][i].timestamp == frames[k][0].timestamp)
    && (forall k, l :: 0 <= k < l < |frames| && frames[k] != [] && frames[l] != [] ==>
          frames[k][0].timestamp < frames[l][0].timestamp)
  }

  lemma FramesAreRight(frames: seq<seq<Snapshot>>, keys: seq<real>, ss: seq<Snapshot>)
    requires FramesOf(frames, keys, ss) && StrictlyAscending(keys)
    requires forall ts :: ts in keys <==> At(ss, ts) != []
    ensures WellFramed(frames) && StableSortOf(Concat(frames), ss)
  {
    FramesInOrder(frames, keys, ss);
    forall ts ensures At(Concat(frames), ts) == At(ss, ts) {
      FramesConserve(frames, keys, ss, ts);
    }
    forall k | 0 <= k < |frames|
      ensures frames[k] != [] && forall i :: 0 <= i < |frames[k]| ==> frames[k][i].timestamp == keys[k]
    {
      assert keys[k] in keys;
      AtIsAllOfItsMoment(ss, keys[k]);
    }
  }

  function Bucket(buckets: map<real, seq<Snapshot>>, ts: real): seq<Snapshot> {
    if ts in buckets then buckets[ts] else []
  }

  // The buckets hold the snapshots by timestamp, and `order` lists each timestamp
  // once.
  ghost predicate Grouped(ss: seq<Snapshot>, buckets: map<real, seq<Snapshot>>, order: seq<real>) {
    && (forall i, j :: 0 <= i < j < |order| ==> order[i] != order[j])
    && (forall ts :: ts in buckets <==> ts in order)
    && (forall ts :: Bucket(buckets, ts) == At(ss, ts))
    && (forall ts :: ts in buckets ==> Bucket(buckets, ts) != [])
  }

  lemma GroupedNext(ss: seq<Snapshot>, buckets: map<real, seq<Snapshot>>, order: seq<real>, s: Snapshot)
    requires Grouped(ss, buckets, order)
    ensures var ts := s.timestamp;
            Grouped(ss + [s], buckets[ts := Bucket(buckets, ts) + [s]], if ts in buckets then order else order + [ts])
  {
    var buckets' := buckets[s.timestamp := Bucket(buckets, s.timestamp) + [s]];
    assert (ss + [s])[..|ss|] == ss;
    forall ts ensures Bucket(buckets', ts) == At(ss + [s], ts) { assert Bucket(buckets, ts) == At(ss, ts); }
  }

  // Snapshots by timestamp, and the timestamps in order of first appearance.
  method GroupRows(rows: seq<Option<Snapshot>>)
    returns (buckets: map<real, seq<Snapshot>>, order: seq<real>, skipped: nat)
    ensures skipped + |WellFormed(rows)| == |rows|
    ensures Grouped(WellFormed(rows), buckets, order)
  {
    buckets, order, skipped := map[], [], 0;
    for n := 0 to |rows|
      invariant skipped + |WellFormed(rows[..n])| == n
      invariant Grouped(WellFormed(rows[..n]), buckets, order)
    {
      assert rows[..n + 1][..n] == rows[..n];
      if rows[n].None? {
        skipped := skipped + 1;
        continue;
      }
      var snap := rows[n].value;
      GroupedNext(WellFormed(rows[..n]), buckets, order, snap);
      if snap.timestamp in buckets {
        buckets := buckets[snap.timestamp := buckets[snap.timestamp] + [snap]];
      } else {
        order := order + [snap.timestamp];
        buckets := buckets[snap.timestamp := [] + [snap]];
      }
    }
    assert rows[..|rows|] == rows;
  }

  lemma KeysAreTheMoments(ss: seq<Snapshot>, buckets: map<real, seq<Snapshot>>, order: seq<real>, keys: seq<real>)
    requires Grouped(ss, buckets, order) && forall ts :: ts in keys <==> ts in order
    ensures forall ts :: ts in keys <==> At(ss, ts) != []
    ensures forall k :: 0 <= k < |keys| ==> Bucket(buckets, keys[k]) == At(ss, keys[k])
  {
    forall ts ensures ts in keys <==> At(ss, ts) != [] { assert Bucket(buckets, ts) == At(ss, ts); }
  }

  lemma FramesFromBuckets(frames: seq<seq<Snapshot>>, ss: seq<Snapshot>, buckets: map<real, seq<Snapshot>>,
                          order: seq<real>, keys: seq<real>)
    requires Grouped(ss, buckets, order) && StrictlyAscending(keys) && forall ts :: ts in keys <==> ts in order
    requires |frames| == |keys| && forall k :: 0 <= k < |keys| ==> frames[k] == Bucket(buckets, keys[k])
    ensures WellFramed(frames) && StableSortOf(Concat(frames), ss)
  {
    KeysAreTheMoments(ss, buckets, order, keys);
    FramesAreRight(frames, keys, ss);
  }

  method FromRecords(rows: seq<Option<Snapshot>>) returns (frames: seq<seq<Snapshot>>, skipped: nat)
    ensures skipped + |WellFormed(rows)| == |rows|
    ensures WellFramed(frames) && StableSortOf(Concat(frames), WellFormed(rows))
  {
    var buckets, order;
    buckets, order, skipped := GroupRows(rows);
    var keys := Sorted(order);
    frames := seq(|keys|, k requires 0 <= k < |keys| => Bucket(buckets, keys[k]));
    FramesFromBuckets(frames, WellFormed(rows), buckets, order, keys);
  }

  lemma LastIsAt(ss: seq<Snapshot>)
    ensures ss != [] ==> At(ss, ss[|ss| - 1].timestamp) != []
  {
  }

  // Time order and equal moments in file order leave one result only.
  lemma {:induction false} StableSortIsUnique(a: seq<Snapshot>, b: seq<Snapshot>, ss: seq<Snapshot>)
    requires StableSortOf(a, ss) && StableSortOf(b, ss)
    ensures a == b
  {
    SameMomentsSameSequence(a, b);
  }

  ghost predicate SameMoments(a: seq<Snapshot>, b: seq<Snapshot>) {
    forall ts :: At(a, ts) == At(b, ts)
  }

  lemma NoneLater(ss: seq<Snapshot>, ts: real)
    requires InTimeOrder(ss) && At(ss, ts) != []
    ensures ss != [] && ts <= ss[|ss| - 1].timestamp
  {
    AtIsAllOfItsMoment(ss, ts);
    var k :| 0 <= k < |ss| && ss[k].timestamp == ts;
    assert k < |ss| - 1 ==> ss[k].timestamp <= ss[|ss| - 1].timestamp;
  }

  // The last snapshot of all is the last of its moment.
  lemma SameLast(a: seq<Snapshot>, b: seq<Snapshot>)
    requires InTimeOrder(a) && InTimeOrder(b) && SameMoments(a, b) && a != []
    ensures b != [] && a[|a| - 1] == b[|b| - 1]
  {
    LastIsAt(a);
    var last := At(a, a[|a| - 1].timestamp);
    assert last == At(b, a[|a| - 1].timestamp);
    NoneLater(b, a[|a| - 1].timestamp);
    LastIsAt(b);
    assert At(a, b[|b| - 1].timestamp) == At(b, b[|b| - 1].timestamp);
    NoneLater(a, b[|b| - 1].timestamp);
    LastOfItsMoment(a);
    LastOfItsMoment(b);
  }

  lemma LastOfItsMoment(ss: seq<Snapshot>)
    requires ss != []
    ensures var last := At(ss, ss[|ss| - 1].timestamp); last != [] && last[|last| - 1] == ss[|ss| - 1]
  {
  }

  lemma SameBefore(a: seq<Snapshot>, b: seq<Snapshot>, ts: real)
    requires SameMoments(a, b) && a != [] && b != [] && a[|a| - 1] == b[|b| - 1]
    ensures At(a[..|a| - 1], ts) == At(b[..|b| - 1], ts)
  {
    var before, before' := At(a[..|a| - 1], ts), At(b[..|b| - 1], ts);
    assert At(a, ts) == At(b, ts);
    if ts == a[|a| - 1].timestamp {
      assert before == At(a, ts)[..|At(a, ts)| - 1] && before' == At(b, ts)[..|At(b, ts)| - 1];
    }
  }

  lemma {:induction false} SameMomentsSameSequence(a: seq<Snapshot>, b: seq<Snapshot>)
    requires InTimeOrder(a) && InTimeOrder(b) && SameMoments(a, b)
    ensures a == b
  {
    if a != [] {
      SameLast(a, b);
      var a', b' := a[..|a| - 1], b[..|b| - 1];
      forall ts ensures At(a', ts) == At(b', ts) { SameBefore(a, b, ts); }
      SameMomentsSameSequence(a', b');
    } else if b != [] {
      SameLast(b, a);
    }
  }

  // ---- Drawdown -----------------------------------------------------------

  // The P&L of trades lo..hi.
  function Block(pnls: seq<real>, lo: nat, hi: nat): real
    requires lo <= hi <= |pnls|
  {
    if lo == hi then 0.0 else Block(pnls, lo, hi - 1) + pnls[hi - 1]
  }

  ghost predicate EquityOf(equity: seq<real>, pnls: seq<real>) {
    |equity| == |pnls| && forall k :: 0 <= k < |pnls| ==> equity[k] == Block(pnls, 0, k + 1)
  }

  method Cumulative(pnls: seq<real>) returns (equity: seq<real>)
    ensures EquityOf(equity, pnls)
  {
    var total := 0.0;
    equity := [];
    for k := 0 to |pnls|
      invariant |equity| == k && total == Block(pnls, 0, k)
      invariant forall i :: 0 <= i < k ==> equity[i] == Block(pnls, 0, i + 1)
    {
      total := total + pnls[k];
      equity := equity + [total];
    }
  }

  function Fall(equity: seq<real>, i: nat, j: nat): real
    requires i <= j < |equity|
  {
    equity[i] - equity[j]
  }

  // The largest fall from a point of the curve to a later one.
  ghost predicate LargestFall(equity: seq<real>, fall: real) {
    && (forall i, j :: 0 <= i <= j < |equity| ==> Fall(equity, i, j) <= fall)
    && (if equity == [] then fall == 0.0 else exists i, j :: 0 <= i <= j < |equity| && Fall(equity, i, j) == fall)
  }

  method MaxDrawdown(equity: seq<real>) returns (mdd: real)
    ensures LargestFall(equity, mdd)
  {
    if equity == [] { return 0.0; }
    var peak := equity[0];
    mdd := 0.0;
    ghost var top, i, j := 0, 0, 0;
    for k := 0 to |equity|
      invariant k == 0 ==> top == 0
      invariant k > 0 ==> 0 <= top < k
      invariant peak == equity[top] && forall n :: 0 <= n < k ==> equity[n] <= peak
      invariant 0 <= i <= j < |equity| && Fall(equity, i, j) == mdd
      invariant forall a, b :: 0 <= a <= b < k ==> Fall(equity, a, b) <= mdd
    {
      var v := equity[k];
      if v > peak {
        peak := v;
        top := k;
      }
      var dd := peak - v;
      if dd > mdd {
        mdd := dd;
        i, j := top, k;
      }
    }
  }

  lemma {:induction false} BlocksJoin(pnls: seq<real>, lo: nat, mid: nat, hi: nat)
    requires lo <= mid <= hi <= |pnls|
    ensures Block(pnls, lo, hi) == Block(pnls, lo, mid) + Block(pnls, mid, hi)
  {
    if mid < hi { BlocksJoin(pnls, lo, mid, hi - 1); }
  }

  lemma FallIsBlock(pnls: seq<real>, equity: seq<real>, i: nat, j: nat)
    requires EquityOf(equity, pnls) && i <= j < |pnls|
    ensures Fall(equity, i, j) == -Block(pnls, i + 1, j + 1)
  {
    BlocksJoin(pnls, 0, i + 1, j + 1);
  }

  // The drawdown of an equity curve is the largest loss over a contiguous block
  // of trades after the first, or zero when no such block loses.
  lemma DrawdownIsWorstBlock(pnls: seq<real>, equity: seq<real>, mdd: real)
    requires EquityOf(equity, pnls) && LargestFall(equity, mdd)
    ensures forall a, b :: 1 <= a <= b <= |pnls| ==> -Block(pnls, a, b) <= mdd
    ensures mdd == 0.0 || exists a, b :: 1 <= a < b <= |pnls| && -Block(pnls, a, b) == mdd
    ensures mdd >= 0.0
  {
    forall a, b | 1 <= a <= b <= |pnls| ensures -Block(pnls, a, b) <= mdd {
      FallIsBlock(pnls, equity, a - 1, b - 1);
    }
    if pnls != [] {
      assert Fall(equity, 0, 0) <= mdd;
      var i, j :| 0 <= i <= j < |equity| && Fall(equity, i, j) == mdd;
      FallIsBlock(pnls, equity, i, j);
    }
  }

  lemma FallFromOpening(pnls: seq<real>, equity: seq<real>, b: nat)
    requires EquityOf(equity, pnls) && b <= |pnls|
    ensures Fall([0.0] + equity, 0, b) == -Block(pnls, 0, b)
  {
    if b > 0 { assert ([0.0] + equity)[b] == equity[b - 1]; }
  }

  lemma FallLater(equity: seq<real>, i: nat, j: nat)
    requires i <= j < |equity|
    ensures Fall([0.0] + equity, i + 1, j + 1) == Fall(equity, i, j)
  {
  }

  // Where the fall from the opening balance can lie.
  lemma WholeFall(pnls: seq<real>, equity: seq<real>, mdd: real, whole: real) returns (b: nat)
    requires EquityOf(equity, pnls) && LargestFall(equity, mdd) && LargestFall([0.0] + equity, whole)
    ensures mdd <= whole && b <= |pnls| && (whole <= mdd || -Block(pnls, 0, b) == whole)
  {
    var all := [0.0] + equity;
    var i, j :| 0 <= i <= j < |all| && Fall(all, i, j) == whole;
    b := j;
    if i == 0 { FallFromOpening(pnls, equity, j); } else { FallLater(equity, i - 1, j - 1); }
    if equity == [] {
      assert Fall(all, 0, 0) <= whole;
    } else {
      var x, y :| 0 <= x <= y < |equity| && Fall(equity, x, y) == mdd;
      FallLater(equity, x, y);
    }
  }

  lemma OpeningFallOrNot(pnls: seq<real>, equity: seq<real>, mdd: real, whole: real)
    requires EquityOf(equity, pnls) && LargestFall(equity, mdd) && LargestFall([0.0] + equity, whole)
    ensures whole == mdd <==> forall b :: 0 <= b <= |pnls| ==> -Block(pnls, 0, b) <= mdd
  {
    var worst := WholeFall(pnls, equity, mdd, whole);
    forall b | 0 <= b <= |pnls| ensures -Block(pnls, 0, b) <= whole {
      FallFromOpening(pnls, equity, b);
    }
  }

  // Some trades in a row after the first lose at least as much as the first b do.
  ghost predicate Matched(pnls: seq<real>, b: nat)
    requires b <= |pnls|
  {
    exists c, d :: 1 <= c < d <= |pnls| && Block(pnls, c, d) <= Block(pnls, 0, b)
  }

  // Counting from the account's opening balance, which the curve leaves out, the
  // drawdown is the same exactly when every loss of a run of trades from the first
  // is matched by some trades in a row after the first.
  lemma OpeningLossIsMissed(pnls: seq<real>, equity: seq<real>, mdd: real, whole: real)
    requires EquityOf(equity, pnls) && LargestFall(equity, mdd) && LargestFall([0.0] + equity, whole)
    ensures whole == mdd <==> forall b :: 0 <= b <= |pnls| && Block(pnls, 0, b) < 0.0 ==> Matched(pnls, b)
  {
    OpeningFallOrNot(pnls, equity, mdd, whole);
    DrawdownIsWorstBlock(pnls, equity, mdd);
    forall b | 0 <= b <= |pnls| && Block(pnls, 0, b) < 0.0
      ensures Matched(pnls, b) <==> -Block(pnls, 0, b) <= mdd
    {
      if Matched(pnls, b) {
        var c, d :| 1 <= c < d <= |pnls| && Block(pnls, c, d) <= Block(pnls, 0, b);
        assert -Block(pnls, c, d) <= mdd;
      }
      if -Block(pnls, 0, b) <= mdd {
        var c, d :| 1 <= c < d <= |pnls| && -Block(pnls, c, d) == mdd;
        assert Block(pnls, c, d) <= Block(pnls, 0, b);
      }
    }
  }

  // A first trade that loses is no drawdown by itself, but for the opening balance.
  lemma LosingFirstTrade(loss: real)
    requires loss < 0.0
    ensures EquityOf([loss], [loss]) && LargestFall([loss], 0.0) && LargestFall([0.0] + [loss], -loss)
  {
    assert Block([loss], 0, 1) == Block([loss], 0, 0) + loss;
    assert Fall([loss], 0, 0) == 0.0;
    assert Fall([0.0] + [loss], 0, 1) == -loss;
  }
}
