/**
 The candidate scan: group a chain by strike and type, match each pair of day
 targets to the nearest listed expiries, filter, price and rank.  Break-evens,
 probability and expected value come from an uninterpreted pricing function.
 */
module Scanner {
  import opened Options
  import opened Ratios

  // ---- Market and settings ------------------------------------------------

  datatype Contract = Contract(strike: real, kind: string, dte: nat)

  // `contract` is None when the instrument name cannot be parsed.
  datatype Snap = Snap(
    instrument: string, contract: Option<Contract>, bid: real, ask: real, markIv: real, openInterest: real)

  datatype Entry = Entry(dte: nat, snap: Snap)

  type Key = (real, string)

  datatype Market = Market(spots: map<string, real>, chains: map<string, seq<Snap>>)

  datatype Thresholds = Thresholds(oiNear: real, oiFar: real, contango: real, pop: real)

  // What pricing says of a pair: the probability mass between the break-evens,
  // the expected value before fees and the round-trip fees.
  datatype Priced = Priced(mass: real, ev: real, fees: real)

  datatype Setup = Setup(
    nearTargets: seq<int>, farTargets: seq<int>, nearTol: int, farTol: int, maxFarFor1d: int, minNearDte: int,
    evCap: real, thresholds: string -> Thresholds, maxMoneyness: string -> real,
    price: (string, real, Entry, Entry) -> Priced)

  datatype RollFor = RollFor(asset: string, strike: real, kind: string, far: Option<string>)

  datatype Candidate = Candidate(
    asset: string, strike: real, kind: string, near: Entry, far: Entry, spot: real,
    contango: real, netDebit: real, pop: real, ev: real)

  // ---- Grouping -----------------------------------------------------------

  predicate Listed(s: Snap, key: Key) {
    s.contract.Some? && (s.contract.value.strike, s.contract.value.kind) == key
  }

  // The parsed snapshots of one strike and type, in chain order.
  function Entries(snaps: seq<Snap>, key: Key): seq<Entry> {
    if snaps == [] then []
    else
      var rest, s := Entries(snaps[..|snaps| - 1], key), snaps[|snaps| - 1];
      if Listed(s, key) then rest + [Entry(s.contract.value.dte, s)] else rest
  }

  // The keys in order of first appearance.
  function Keys(snaps: seq<Snap>): seq<Key> {
    if snaps == [] then []
    else
      var rest, s := Keys(snaps[..|snaps| - 1]), snaps[|snaps| - 1];
      if s.contract.None? || (s.contract.value.strike, s.contract.value.kind) in rest then rest
      else rest + [(s.contract.value.strike, s.contract.value.kind)]
  }

  method GroupChain(snaps: seq<Snap>) returns (keys: seq<Key>, groups: map<Key, seq<Entry>>)
    ensures keys == Keys(snaps)
    ensures forall key :: key in groups <==> key in keys
    ensures forall key :: key in groups ==> groups[key] == Entries(snaps, key)
  {
    keys, groups := [], map[];
    for k := 0 to |snaps|
      invariant keys == Keys(snaps[..k])
      invariant forall key :: key in groups <==> key in keys
      invariant forall key :: (if key in groups then groups[key] else []) == Entries(snaps[..k], key)
    {
      assert snaps[..k + 1][..k] == snaps[..k];
      var s := snaps[k];
      if s.contract.Some? {
        var key := (s.contract.value.strike, s.contract.value.kind);
        var e := Entry(s.contract.value.dte, s);
        if key in groups {
          groups := groups[key := groups[key] + [e]];
        } else {
          keys := keys + [key];
          groups := groups[key := [] + [e]];
        }
      }
    }
    assert snaps[..|snaps|] == snaps;
  }

  // Grouping loses nothing and mixes nothing.
  lemma {:induction false} GroupedExactly(snaps: seq<Snap>, key: Key, e: Entry)
    ensures e in Entries(snaps, key) <==> e.snap in snaps && Listed(e.snap, key) && e.dte == e.snap.contract.value.dte
    ensures key in Keys(snaps) <==> Entries(snaps, key) != []
  {
    if snaps != [] {
      var init := snaps[..|snaps| - 1];
      GroupedExactly(init, key, e);
      assert snaps == init + [snaps[|snaps| - 1]];
    }
  }

  // ---- Nearest match ------------------------------------------------------

  function Gap(dte: nat, target: int): nat {
    if dte >= target then dte - target else target - dte
  }

  predicate InReach(e: Entry, target: int, tol: int, after: int) {
    Gap(e.dte, target) <= tol && e.dte > after
  }

  function Nearest(es: seq<Entry>, target: int, tol: int, after: int): Option<Entry> {
    if es == [] then None
    else
      var best, e := Nearest(es[..|es| - 1], target, tol, after), es[|es| - 1];
      if InReach(e, target, tol, after) && (best.None? || Gap(e.dte, target) < Gap(best.value.dte, target)) then Some(e)
      else best
  }

  // Within the tolerance of the target, on either side, and past `after`.
  predicate Reachable(dte: nat, target: int, tol: int, after: int) {
    target - tol <= dte <= target + tol && dte > after
  }

  // a is at least as close to the target as b, whichever sides they are on.
  predicate AsClose(a: nat, b: nat, target: int) {
    && (a - target <= b - target || a - target <= target - b)
    && (target - a <= b - target || target - a <= target - b)
  }

  lemma GapIsDistance(a: nat, b: nat, target: int, tol: int, after: int, e: Entry)
    ensures Gap(a, target) <= Gap(b, target) <==> AsClose(a, b, target)
    ensures e.dte == a ==> (InReach(e, target, tol, after) <==> Reachable(a, target, tol, after))
  {
  }

  // The k-th entry is the first of those closest to the target among all in reach.
  predicate ClosestAt(es: seq<Entry>, k: nat, target: int, tol: int, after: int) {
    && k < |es| && Reachable(es[k].dte, target, tol, after)
    && forall j :: 0 <= j < |es| && Reachable(es[j].dte, target, tol, after) ==>
         AsClose(es[k].dte, es[j].dte, target) && (j < k ==> !AsClose(es[j].dte, es[k].dte, target))
  }

  // The first of the entries in reach that are closest to the target, if any is.
  lemma {:induction false} NearestIsFirstOfTheClosest(es: seq<Entry>, target: int, tol: int, after: int)
    returns (k: nat)
    ensures var best := Nearest(es, target, tol, after);
            if best.None? then forall j :: 0 <= j < |es| ==> !Reachable(es[j].dte, target, tol, after)
            else k < |es| && es[k] == best.value && ClosestAt(es, k, target, tol, after)
  {
    k := 0;
    if es != [] {
      var init, e := es[..|es| - 1], es[|es| - 1];
      var best := Nearest(init, target, tol, after);
      k := NearestIsFirstOfTheClosest(init, target, tol, after);
      if InReach(e, target, tol, after) && (best.None? || Gap(e.dte, target) < Gap(best.value.dte, target)) {
        k := |es| - 1;
      }
    }
  }

  // There is no other.
  lemma ClosestIsUnique(es: seq<Entry>, i: nat, j: nat, target: int, tol: int, after: int)
    requires ClosestAt(es, i, target, tol, after) && ClosestAt(es, j, target, tol, after)
    ensures i == j
  {
  }

  lemma NearestExactly(es: seq<Entry>, target: int, tol: int, after: int, e: Entry)
    ensures Nearest(es, target, tol, after) == Some(e) <==>
            exists k: nat :: ClosestAt(es, k, target, tol, after) && es[k] == e
  {
    var k := NearestIsFirstOfTheClosest(es, target, tol, after);
    if i: nat :| ClosestAt(es, i, target, tol, after) && es[i] == e {
      if Nearest(es, target, tol, after).Some? { ClosestIsUnique(es, i, k, target, tol, after); }
    }
  }

  method FindNearest(es: seq<Entry>, target: int, tol: int, after: int) returns (best: Option<Entry>)
    ensures best == Nearest(es, target, tol, after)
  {
    best := None;
    for k := 0 to |es|
      invariant best == Nearest(es[..k], target, tol, after)
    {
      assert es[..k + 1][..k] == es[..k];
      if InReach(es[k], target, tol, after) && (best.None? || Gap(es[k].dte, target) < Gap(best.value.dte, target)) {
        best := Some(es[k]);
      }
    }
    assert es[..|es|] == es;
  }

  // ---- Filters ------------------------------------------------------------

  predicate TwoSided(s: Snap) {
    s.bid > 0.0 && s.ask > 0.0
  }

  function Clamp01(x: real): real {
    if x < 0.0 then 0.0 else if x > 1.0 then 1.0 else x
  }

  // What a roll puts for "no contango threshold".
  const Sentinel := -1000000000.0

  function Effective(su: Setup, asset: string, isRoll: bool): Thresholds {
    var t := su.thresholds(asset);
    if isRoll then t.(contango := Sentinel, pop := 0.0) else t
  }

  predicate MoneyEnough(su: Setup, asset: string, strike: real, spot: real) {
    spot > 0.0 ==> (if strike >= spot then strike - spot else spot - strike) / spot <= su.maxMoneyness(asset)
  }

  function Evaluate(su: Setup, asset: string, key: Key, near: Entry, far: Entry, spot: real,
      isRoll: bool): Option<Candidate>
  {
    var t := Effective(su, asset, isRoll);
    var contango := near.snap.markIv - far.snap.markIv;
    var debit := far.snap.ask - near.snap.bid;
    if !isRoll && !MoneyEnough(su, asset, key.0, spot) then None
    else if !isRoll && near.dte < su.minNearDte then None
    else if !TwoSided(near.snap) || !TwoSided(far.snap) then None
    else if near.snap.openInterest < t.oiNear || far.snap.openInterest < t.oiFar then None
    else if near.snap.markIv <= 0.0 || far.snap.markIv <= 0.0 || contango < t.contango then None
    else if debit <= 0.0 then None
    else if near.dte == 0 then None
    else
      var p := su.price(asset, spot, near, far);
      var pop := Clamp01(p.mass);
      if pop < t.pop then None
      else Some(Candidate(asset, key.0, key.1, near, far, spot, contango, debit, pop, (p.ev - p.fees) / debit))
  }

  // ---- The scan as a value ------------------------------------------------

  predicate FarAllowed(su: Setup, nearTarget: int, nearDte: nat, farTarget: int) {
    farTarget > nearDte && !(nearTarget == 1 && su.maxFarFor1d > 0 && farTarget > su.maxFarFor1d)
  }

  // What one pair of targets contributes.
  function Hit(su: Setup, asset: string, key: Key, es: seq<Entry>, spot: real, isRoll: bool, nearTarget: int,
      farTarget: int): Option<Candidate>
  {
    var near := Nearest(es, nearTarget, su.nearTol, -1);
    if near.None? || !FarAllowed(su, nearTarget, near.value.dte, farTarget) then None
    else
      var far := Nearest(es, farTarget, su.farTol, near.value.dte);
      if far.None? then None else Evaluate(su, asset, key, near.value, far.value, spot, isRoll)
  }

  function AsSeq(c: Option<Candidate>): seq<Candidate> {
    if c.Some? then [c.value] else []
  }

  function FarHits(su: Setup, asset: string, key: Key, es: seq<Entry>, spot: real, isRoll: bool, nearTarget: int,
      farTargets: seq<int>): seq<Candidate>
  {
    if farTargets == [] then []
    else
      FarHits(su, asset, key, es, spot, isRoll, nearTarget, farTargets[..|farTargets| - 1])
      + AsSeq(Hit(su, asset, key, es, spot, isRoll, nearTarget, farTargets[|farTargets| - 1]))
  }

  function NearHits(su: Setup, asset: string, key: Key, es: seq<Entry>, spot: real, isRoll: bool,
      nearTargets: seq<int>): seq<Candidate>
  {
    if nearTargets == [] then []
    else
      NearHits(su, asset, key, es, spot, isRoll, nearTargets[..|nearTargets| - 1])
      + FarHits(su, asset, key, es, spot, isRoll, nearTargets[|nearTargets| - 1], su.farTargets)
  }

  predicate Wanted(key: Key, roll: Option<RollFor>) {
    roll.None? || key == (roll.value.strike, roll.value.kind)
  }

  function GroupHits(su: Setup, asset: string, snaps: seq<Snap>, keys: seq<Key>, spot: real,
      roll: Option<RollFor>): seq<Candidate>
  {
    if keys == [] then []
    else
      var rest, key := GroupHits(su, asset, snaps, keys[..|keys| - 1], spot, roll), keys[|keys| - 1];
      if !Wanted(key, roll) then rest
      else rest + NearHits(su, asset, key, Entries(snaps, key), spot, roll.Some?, su.nearTargets)
  }

  function Chain(m: Market, asset: string): seq<Snap> {
    if asset in m.chains then m.chains[asset] else []
  }

  function AssetHits(su: Setup, m: Market, assets: seq<string>, roll: Option<RollFor>): seq<Candidate> {
    if assets == [] then []
    else
      var rest, asset := AssetHits(su, m, assets[..|assets| - 1], roll), assets[|assets| - 1];
      if asset !in m.spots || m.spots[asset] <= 0.0 then rest
      else rest + GroupHits(su, asset, Chain(m, asset), Keys(Chain(m, asset)), m.spots[asset], roll)
  }

  function KeepFar(cs: seq<Candidate>, far: Option<string>): seq<Candidate> {
    if cs == [] then []
    else
      var rest, c := KeepFar(cs[..|cs| - 1], far), cs[|cs| - 1];
      if Some(c.far.snap.instrument) == far then rest + [c] else rest
  }

  function Found(su: Setup, m: Market, assets: seq<string>, roll: Option<RollFor>): seq<Candidate> {
    if roll.None? then AssetHits(su, m, assets, None)
    else KeepFar(AssetHits(su, m, [roll.value.asset], roll), roll.value.far)
  }

  // ---- Ranking ------------------------------------------------------------

  // Candidates above the cap come after all others; within each tier the higher
  // score comes first.
  predicate Before(cap: real, a: Candidate, b: Candidate) {
    (a.ev <= cap && b.ev > cap) || ((a.ev > cap <==> b.ev > cap) && a.ev > b.ev)
  }

  function Insert(cap: real, s: seq<Candidate>, c: Candidate): seq<Candidate> {
    if s == [] || !Before(cap, c, s[|s| - 1]) then s + [c]
    else Insert(cap, s[..|s| - 1], c) + [s[|s| - 1]]
  }

  function Ranked(cap: real, cs: seq<Candidate>): seq<Candidate> {
    if cs == [] then [] else Insert(cap, Ranked(cap, cs[..|cs| - 1]), cs[|cs| - 1])
  }

  predicate NotAfter(cap: real, a: Candidate, b: Candidate) {
    && (a.ev > cap ==> b.ev > cap)
    && ((a.ev > cap <==> b.ev > cap) ==> a.ev >= b.ev)
  }

  // No candidate above the cap precedes one within it, and within each tier the
  // scores descend.
  predicate InRankOrder(cap: real, s: seq<Candidate>) {
    forall i, j :: 0 <= i < j < |s| ==> NotAfter(cap, s[i], s[j])
  }

  // The candidates that score ev, in order.
  function Scoring(s: seq<Candidate>, ev: real): seq<Candidate> {
    if s == [] then []
    else
      var rest := Scoring(s[..|s| - 1], ev);
      if s[|s| - 1].ev == ev then rest + [s[|s| - 1]] else rest
  }

  // Insertion puts c between those it does not precede and those it does.
  lemma {:induction false} InsertsAt(cap: real, s: seq<Candidate>, c: Candidate) returns (k: nat)
    requires InRankOrder(cap, s)
    ensures k <= |s| && Insert(cap, s, c) == s[..k] + [c] + s[k..]
    ensures forall i :: 0 <= i < k ==> NotAfter(cap, s[i], c)
    ensures forall i :: k <= i < |s| ==> NotAfter(cap, c, s[i])
  {
    k := |s|;
    if s != [] {
      var init, last := s[..|s| - 1], s[|s| - 1];
      if Before(cap, c, last) {
        k := InsertsAt(cap, init, c);
        assert s[..k] == init[..k] && s[k..] == init[k..] + [last];
        assert s[..k] + [c] + s[k..] == init[..k] + [c] + init[k..] + [last];
        forall i | k <= i < |s| ensures NotAfter(cap, c, s[i]) {
          if i < |init| { assert NotAfter(cap, c, init[i]); }
        }
      } else {
        assert NotAfter(cap, last, c);
        forall i | 0 <= i < |s| ensures NotAfter(cap, s[i], c) {
          assert i < |s| - 1 ==> NotAfter(cap, s[i], last);
        }
      }
    }
  }

  lemma InsertKeepsOrder(cap: real, s: seq<Candidate>, c: Candidate)
    requires InRankOrder(cap, s)
    ensures InRankOrder(cap, Insert(cap, s, c)) && |Insert(cap, s, c)| == |s| + 1
    ensures forall x :: x in Insert(cap, s, c) <==> x in s || x == c
  {
    var k := InsertsAt(cap, s, c);
    var r := Insert(cap, s, c);
    forall i, j | 0 <= i < j < |r| ensures NotAfter(cap, r[i], r[j]) {
      if j < k {
        assert r[i] == s[i] && r[j] == s[j];
      } else if j == k {
        assert r[i] == s[i] && r[j] == c;
      } else if i == k {
        assert r[i] == c && r[j] == s[j - 1];
      } else {
        assert r[i] == (if i < k then s[i] else s[i - 1]) && r[j] == s[j - 1];
      }
    }
    InsertAdds(cap, s, c);
  }

  lemma {:induction false} InsertAdds(cap: real, s: seq<Candidate>, c: Candidate)
    ensures forall x :: x in Insert(cap, s, c) <==> x in s || x == c
  {
    if s != [] && Before(cap, c, s[|s| - 1]) {
      InsertAdds(cap, s[..|s| - 1], c);
      assert s == s[..|s| - 1] + [s[|s| - 1]];
    }
  }

  lemma {:induction false} InsertIsStable(cap: real, s: seq<Candidate>, c: Candidate, ev: real)
    requires InRankOrder(cap, s)
    ensures Scoring(Insert(cap, s, c), ev) == Scoring(s + [c], ev)
  {
    assert (s + [c])[..|s|] == s;
    if s != [] && Before(cap, c, s[|s| - 1]) {
      var init, last := s[..|s| - 1], s[|s| - 1];
      InsertIsStable(cap, init, c, ev);
      assert (init + [c])[..|init|] == init;
      assert Insert(cap, s, c)[..|Insert(cap, init, c)|] == Insert(cap, init, c);
      InsertKeepsOrder(cap, init, c);
    }
  }

  lemma {:induction false} RankedIsStableSort(cap: real, cs: seq<Candidate>)
    ensures InRankOrder(cap, Ranked(cap, cs)) && |Ranked(cap, cs)| == |cs|
    ensures forall c :: c in Ranked(cap, cs) <==> c in cs
    ensures forall ev :: Scoring(Ranked(cap, cs), ev) == Scoring(cs, ev)
  {
    if cs != [] {
      var init, last := cs[..|cs| - 1], cs[|cs| - 1];
      RankedIsStableSort(cap, init);
      InsertKeepsOrder(cap, Ranked(cap, init), last);
      assert cs == init + [last];
      forall ev ensures Scoring(Ranked(cap, cs), ev) == Scoring(cs, ev) {
        InsertIsStable(cap, Ranked(cap, init), last, ev);
        assert (Ranked(cap, init) + [last])[..|init|] == Ranked(cap, init);
      }
    }
  }

  lemma {:induction false} ScoringPicks(s: seq<Candidate>, ev: real)
    ensures Scoring(s, ev) != [] <==> exists k :: 0 <= k < |s| && s[k].ev == ev
  {
    if s != [] {
      var init := s[..|s| - 1];
      ScoringPicks(init, ev);
      if Scoring(init, ev) != [] {
        var k :| 0 <= k < |init| && init[k].ev == ev;
        assert s[k].ev == ev;
      }
      assert s[|s| - 1].ev == ev ==> Scoring(s, ev) != [];
    }
  }

  lemma LastScores(s: seq<Candidate>)
    ensures s != [] ==> Scoring(s, s[|s| - 1].ev) != []
  {
  }

  // There is only one stable sort.
  lemma {:induction false} StableSortIsUnique(cap: real, a: seq<Candidate>, b: seq<Candidate>)
    requires InRankOrder(cap, a) && InRankOrder(cap, b)
    requires forall ev :: Scoring(a, ev) == Scoring(b, ev)
    ensures a == b
    decreases |a|
  {
    LastScores(a);
    LastScores(b);
    if a != [] {
      var x, y := a[|a| - 1], b[|b| - 1];
      ScoringPicks(a, y.ev);
      ScoringPicks(b, x.ev);
      assert x.ev == y.ev;
      assert Scoring(a, x.ev)[|Scoring(a, x.ev)| - 1] == x;
      var a', b' := a[..|a| - 1], b[..|b| - 1];
      forall ev ensures Scoring(a', ev) == Scoring(b', ev) {
        assert Scoring(a, ev) == Scoring(b, ev);
        if ev == x.ev {
          assert Scoring(a', ev) == Scoring(a, ev)[..|Scoring(a, ev)| - 1];
          assert Scoring(b', ev) == Scoring(b, ev)[..|Scoring(b, ev)| - 1];
        }
      }
      StableSortIsUnique(cap, a', b');
    }
  }

  // ---- The scan as it runs ------------------------------------------------

  lemma FarHitsNext(su: Setup, asset: string, key: Key, es: seq<Entry>, spot: real, isRoll: bool, n: int,
      fs: seq<int>, k: nat)
    requires k < |fs|
    ensures FarHits(su, asset, key, es, spot, isRoll, n, fs[..k + 1]) ==
            FarHits(su, asset, key, es, spot, isRoll, n, fs[..k])
            + AsSeq(Hit(su, asset, key, es, spot, isRoll, n, fs[k]))
  {
    assert fs[..k + 1][..k] == fs[..k];
  }

  method ScanFar(su: Setup, asset: string, key: Key, es: seq<Entry>, spot: real, isRoll: bool, nearTarget: int,
      near: Entry)
    returns (out: seq<Candidate>)
    requires Nearest(es, nearTarget, su.nearTol, -1) == Some(near)
    ensures out == FarHits(su, asset, key, es, spot, isRoll, nearTarget, su.farTargets)
  {
    out := [];
    for k := 0 to |su.farTargets|
      invariant out == FarHits(su, asset, key, es, spot, isRoll, nearTarget, su.farTargets[..k])
    {
      FarHitsNext(su, asset, key, es, spot, isRoll, nearTarget, su.farTargets, k);
      var farTarget := su.farTargets[k];
      if farTarget <= near.dte { continue; }
      if nearTarget == 1 && su.maxFarFor1d > 0 && farTarget > su.maxFarFor1d { continue; }
      var far := FindNearest(es, farTarget, su.farTol, near.dte);
      if far.None? { continue; }
      var result := Evaluate(su, asset, key, near, far.value, spot, isRoll);
      if result.Some? { out := out + [result.value]; }
    }
    assert su.farTargets[..|su.farTargets|] == su.farTargets;
  }

  lemma {:induction false} NoNearNoHits(su: Setup, asset: string, key: Key, es: seq<Entry>, spot: real,
      isRoll: bool, nearTarget: int, farTargets: seq<int>)
    requires Nearest(es, nearTarget, su.nearTol, -1).None?
    ensures FarHits(su, asset, key, es, spot, isRoll, nearTarget, farTargets) == []
  {
    if farTargets != [] {
      NoNearNoHits(su, asset, key, es, spot, isRoll, nearTarget, farTargets[..|farTargets| - 1]);
    }
  }

  method ScanGroup(su: Setup, asset: string, key: Key, es: seq<Entry>, spot: real, isRoll: bool)
    returns (out: seq<Candidate>)
    ensures out == NearHits(su, asset, key, es, spot, isRoll, su.nearTargets)
  {
    out := [];
    for k := 0 to |su.nearTargets|
      invariant out == NearHits(su, asset, key, es, spot, isRoll, su.nearTargets[..k])
    {
      assert su.nearTargets[..k + 1][..k] == su.nearTargets[..k];
      var near := FindNearest(es, su.nearTargets[k], su.nearTol, -1);
      if near.None? {
        NoNearNoHits(su, asset, key, es, spot, isRoll, su.nearTargets[k], su.farTargets);
        continue;
      }
      var hits := ScanFar(su, asset, key, es, spot, isRoll, su.nearTargets[k], near.value);
      out := out + hits;
    }
    assert su.nearTargets[..|su.nearTargets|] == su.nearTargets;
  }

  lemma GroupHitsNext(su: Setup, asset: string, snaps: seq<Snap>, keys: seq<Key>, k: nat, spot: real,
      roll: Option<RollFor>)
    requires k < |keys|
    ensures GroupHits(su, asset, snaps, keys[..k + 1], spot, roll) ==
            GroupHits(su, asset, snaps, keys[..k], spot, roll) +
            if !Wanted(keys[k], roll) then []
            else NearHits(su, asset, keys[k], Entries(snaps, keys[k]), spot, roll.Some?, su.nearTargets)
  {
    assert keys[..k + 1][..k] == keys[..k];
  }

  method ScanAsset(su: Setup, asset: string, snaps: seq<Snap>, spot: real, roll: Option<RollFor>)
    returns (out: seq<Candidate>)
    ensures out == GroupHits(su, asset, snaps, Keys(snaps), spot, roll)
  {
    var keys, groups := GroupChain(snaps);
    out := [];
    for k := 0 to |keys|
      invariant out == GroupHits(su, asset, snaps, keys[..k], spot, roll)
    {
      GroupHitsNext(su, asset, snaps, keys, k, spot, roll);
      assert keys[k] in groups;
      if !Wanted(keys[k], roll) { continue; }
      var hits := ScanGroup(su, asset, keys[k], groups[keys[k]], spot, roll.Some?);
      out := out + hits;
    }
    assert keys[..|keys|] == keys;
  }

  method OnlyFar(cs: seq<Candidate>, far: Option<string>) returns (kept: seq<Candidate>)
    ensures kept == KeepFar(cs, far)
  {
    kept := [];
    for k := 0 to |cs|
      invariant kept == KeepFar(cs[..k], far)
    {
      assert cs[..k + 1][..k] == cs[..k];
      if Some(cs[k].far.snap.instrument) == far { kept := kept + [cs[k]]; }
    }
    assert cs[..|cs|] == cs;
  }

  method Scan(su: Setup, m: Market, assets: seq<string>, roll: Option<RollFor>) returns (candidates: seq<Candidate>)
    ensures candidates == Ranked(su.evCap, Found(su, m, assets, roll))
  {
    var names := if roll.Some? then [roll.value.asset] else assets;
    candidates := [];
    for k := 0 to |names|
      invariant candidates == AssetHits(su, m, names[..k], roll)
    {
      assert names[..k + 1][..k] == names[..k];
      if names[k] !in m.spots || m.spots[names[k]] <= 0.0 { continue; }
      var hits := ScanAsset(su, names[k], Chain(m, names[k]), m.spots[names[k]], roll);
      candidates := candidates + hits;
    }
    assert names[..|names|] == names;
    if roll.Some? { candidates := OnlyFar(candidates, roll.value.far); }
    candidates := Ranked(su.evCap, candidates);
  }

  // ---- What a scan finds --------------------------------------------------

  // c is what a pair of targets gives in one group of one scanned asset.
  ghost predicate Matches(su: Setup, m: Market, asset: string, roll: Option<RollFor>, nearTarget: int,
      farTarget: int, c: Candidate)
  {
    var key := (c.strike, c.kind);
    && asset in m.spots && m.spots[asset] > 0.0
    && key in Keys(Chain(m, asset)) && Wanted(key, roll)
    && nearTarget in su.nearTargets && farTarget in su.farTargets
    && Hit(su, asset, key, Entries(Chain(m, asset), key), m.spots[asset], roll.Some?, nearTarget, farTarget) == Some(c)
  }

  lemma {:induction false} FarHitsExactly(su: Setup, asset: string, key: Key, es: seq<Entry>, spot: real,
      isRoll: bool, n: int, fs: seq<int>, c: Candidate)
    ensures c in FarHits(su, asset, key, es, spot, isRoll, n, fs) <==>
            exists f :: f in fs && Hit(su, asset, key, es, spot, isRoll, n, f) == Some(c)
  {
    if fs != [] {
      var init, last := fs[..|fs| - 1], fs[|fs| - 1];
      FarHitsExactly(su, asset, key, es, spot, isRoll, n, init, c);
      assert fs == init + [last];
    }
  }

  ghost predicate HitIn(su: Setup, asset: string, key: Key, es: seq<Entry>, spot: real, isRoll: bool, ns: seq<int>,
      c: Candidate)
  {
    exists n, f :: n in ns && f in su.farTargets && Hit(su, asset, key, es, spot, isRoll, n, f) == Some(c)
  }

  lemma {:induction false} NearHitsExactly(su: Setup, asset: string, key: Key, es: seq<Entry>, spot: real,
      isRoll: bool, ns: seq<int>, c: Candidate)
    ensures c in NearHits(su, asset, key, es, spot, isRoll, ns) <==> HitIn(su, asset, key, es, spot, isRoll, ns, c)
  {
    if ns != [] {
      var init, last := ns[..|ns| - 1], ns[|ns| - 1];
      NearHitsExactly(su, asset, key, es, spot, isRoll, init, c);
      FarHitsExactly(su, asset, key, es, spot, isRoll, last, su.farTargets, c);
      assert ns == init + [last];
    }
  }

  lemma HitsAreOfTheirGroup(su: Setup, asset: string, key: Key, es: seq<Entry>, spot: real, isRoll: bool,
      ns: seq<int>, c: Candidate)
    ensures HitIn(su, asset, key, es, spot, isRoll, ns, c) ==> c.asset == asset && (c.strike, c.kind) == key
  {
  }

  function HitsOf(su: Setup, asset: string, snaps: seq<Snap>, key: Key, spot: real,
      roll: Option<RollFor>): seq<Candidate>
  {
    if !Wanted(key, roll) then [] else NearHits(su, asset, key, Entries(snaps, key), spot, roll.Some?, su.nearTargets)
  }

  lemma {:induction false} GroupHitsExactly(su: Setup, asset: string, snaps: seq<Snap>, keys: seq<Key>, spot: real,
      roll: Option<RollFor>, c: Candidate)
    ensures c in GroupHits(su, asset, snaps, keys, spot, roll) <==>
            exists key :: key in keys && c in HitsOf(su, asset, snaps, key, spot, roll)
  {
    if keys != [] {
      var init, last := keys[..|keys| - 1], keys[|keys| - 1];
      GroupHitsExactly(su, asset, snaps, init, spot, roll, c);
      assert keys == init + [last];
      assert GroupHits(su, asset, snaps, keys, spot, roll) ==
             GroupHits(su, asset, snaps, init, spot, roll) + HitsOf(su, asset, snaps, last, spot, roll);
    }
  }

  lemma OneGroupExactly(su: Setup, asset: string, key: Key, es: seq<Entry>, spot: real, isRoll: bool, c: Candidate)
    ensures c in NearHits(su, asset, key, es, spot, isRoll, su.nearTargets) <==>
            (c.strike, c.kind) == key && HitIn(su, asset, key, es, spot, isRoll, su.nearTargets, c)
  {
    NearHitsExactly(su, asset, key, es, spot, isRoll, su.nearTargets, c);
    HitsAreOfTheirGroup(su, asset, key, es, spot, isRoll, su.nearTargets, c);
  }

  lemma {:induction false} AssetHitsExactly(su: Setup, m: Market, assets: seq<string>, roll: Option<RollFor>,
      c: Candidate)
    ensures c in AssetHits(su, m, assets, roll) <==>
            c.asset in assets && exists n, f :: Matches(su, m, c.asset, roll, n, f, c)
  {
    if assets != [] {
      var init, last := assets[..|assets| - 1], assets[|assets| - 1];
      AssetHitsExactly(su, m, init, roll, c);
      assert assets == init + [last];
      if last in m.spots && m.spots[last] > 0.0 {
        OneAssetExactly(su, m, last, roll, c);
      }
    }
  }

  lemma OneAssetExactly(su: Setup, m: Market, asset: string, roll: Option<RollFor>, c: Candidate)
    requires asset in m.spots && m.spots[asset] > 0.0
    ensures c in GroupHits(su, asset, Chain(m, asset), Keys(Chain(m, asset)), m.spots[asset], roll) <==>
            c.asset == asset && exists n, f :: Matches(su, m, asset, roll, n, f, c)
  {
    var keys, key := Keys(Chain(m, asset)), (c.strike, c.kind);
    var es := Entries(Chain(m, asset), key);
    GroupHitsExactly(su, asset, Chain(m, asset), keys, m.spots[asset], roll, c);
    forall k
      ensures c in HitsOf(su, asset, Chain(m, asset), k, m.spots[asset], roll) <==>
              && k == key && Wanted(k, roll)
              && HitIn(su, asset, k, es, m.spots[asset], roll.Some?, su.nearTargets, c)
    {
      OneGroupExactly(su, asset, k, Entries(Chain(m, asset), k), m.spots[asset], roll.Some?, c);
    }
    if HitIn(su, asset, key, es, m.spots[asset], roll.Some?, su.nearTargets, c) {
      HitsAreOfTheirGroup(su, asset, key, es, m.spots[asset], roll.Some?, su.nearTargets, c);
    }
    if key in keys && Wanted(key, roll) && HitIn(su, asset, key, es, m.spots[asset], roll.Some?, su.nearTargets, c) {
      var n, f :| n in su.nearTargets && f in su.farTargets
        && Hit(su, asset, key, es, m.spots[asset], roll.Some?, n, f) == Some(c);
      assert Matches(su, m, asset, roll, n, f, c);
    }
  }

  lemma {:induction false} KeepFarExactly(cs: seq<Candidate>, far: Option<string>, c: Candidate)
    ensures c in KeepFar(cs, far) <==> c in cs && Some(c.far.snap.instrument) == far
  {
    if cs != [] {
      KeepFarExactly(cs[..|cs| - 1], far, c);
      assert cs == cs[..|cs| - 1] + [cs[|cs| - 1]];
    }
  }

  ghost predicate ScannedFor(c: Candidate, assets: seq<string>, roll: Option<RollFor>) {
    if roll.None? then c.asset in assets
    else c.asset == roll.value.asset && Some(c.far.snap.instrument) == roll.value.far
  }

  // What every filter asks of a candidate, and what its figures are.
  predicate Filtered(su: Setup, c: Candidate, isRoll: bool) {
    var t, p := su.thresholds(c.asset), su.price(c.asset, c.spot, c.near, c.far);
    var near, far := c.near.snap, c.far.snap;
    && c.near.dte > 0 && near.bid > 0.0 && near.ask > 0.0 && far.bid > 0.0 && far.ask > 0.0
    && near.openInterest >= t.oiNear && far.openInterest >= t.oiFar
    && near.markIv > 0.0 && far.markIv > 0.0
    && c.contango == near.markIv - far.markIv && c.contango >= (if isRoll then -1000000000.0 else t.contango)
    && c.netDebit == far.ask - near.bid && c.netDebit > 0.0
    && c.pop == (if p.mass < 0.0 then 0.0 else if p.mass > 1.0 then 1.0 else p.mass)
    && c.ev * c.netDebit == p.ev - p.fees
    && (!isRoll ==>
          && c.pop >= t.pop && c.near.dte >= su.minNearDte
          && (c.spot > 0.0 ==>
                var most := su.maxMoneyness(c.asset) * c.spot; c.strike - c.spot <= most && c.spot - c.strike <= most))
  }

  lemma MoneyExactly(su: Setup, asset: string, strike: real, spot: real)
    ensures MoneyEnough(su, asset, strike, spot) <==>
            (spot > 0.0 ==> var most := su.maxMoneyness(asset) * spot; strike - spot <= most && spot - strike <= most)
  {
    if spot > 0.0 { Share(if strike >= spot then strike - spot else spot - strike, spot, su.maxMoneyness(asset)); }
  }

  // A pair is accepted as c exactly when c is that pair and passes every filter.
  lemma EvaluatedIsFiltered(su: Setup, asset: string, key: Key, near: Entry, far: Entry, spot: real, isRoll: bool,
      c: Candidate)
    ensures Evaluate(su, asset, key, near, far, spot, isRoll) == Some(c) <==>
            && c.asset == asset && (c.strike, c.kind) == key && c.near == near && c.far == far && c.spot == spot
            && Filtered(su, c, isRoll)
  {
    var p, debit := su.price(asset, spot, near, far), far.snap.ask - near.snap.bid;
    MoneyExactly(su, asset, key.0, spot);
    if debit > 0.0 { Share(p.ev - p.fees, debit, c.ev); }
  }

  // A pair of targets gives c: its legs are listed under its strike and type, the
  // near one closest to its target, the far one, past the near, closest to its own.
  ghost predicate Placed(su: Setup, m: Market, roll: Option<RollFor>, n: int, f: int, c: Candidate) {
    var es := Entries(Chain(m, c.asset), (c.strike, c.kind));
    && c.asset in m.spots && m.spots[c.asset] > 0.0 && c.spot == m.spots[c.asset]
    && (roll.Some? ==> c.strike == roll.value.strike && c.kind == roll.value.kind)
    && n in su.nearTargets && f in su.farTargets
    && f > c.near.dte && (n == 1 && su.maxFarFor1d > 0 ==> f <= su.maxFarFor1d)
    && (exists i: nat :: ClosestAt(es, i, n, su.nearTol, -1) && es[i] == c.near)
    && (exists j: nat :: ClosestAt(es, j, f, su.farTol, c.near.dte) && es[j] == c.far)
  }

  lemma MatchesExactly(su: Setup, m: Market, roll: Option<RollFor>, n: int, f: int, c: Candidate)
    ensures Matches(su, m, c.asset, roll, n, f, c) <==> Placed(su, m, roll, n, f, c) && Filtered(su, c, roll.Some?)
  {
    var key := (c.strike, c.kind);
    var es := Entries(Chain(m, c.asset), key);
    NearestExactly(es, n, su.nearTol, -1, c.near);
    NearestExactly(es, f, su.farTol, c.near.dte, c.far);
    GroupedExactly(Chain(m, c.asset), key, c.near);
    if c.asset in m.spots {
      var near := Nearest(es, n, su.nearTol, -1);
      if near.Some? {
        var far := Nearest(es, f, su.farTol, near.value.dte);
        if far.Some? {
          EvaluatedIsFiltered(su, c.asset, key, near.value, far.value, m.spots[c.asset], roll.Some?, c);
        }
      }
    }
  }

  // A scan returns, in the one stable rank order, exactly the candidates that some
  // pair of targets places and that pass every filter.
  lemma ScanIsExact(su: Setup, m: Market, assets: seq<string>, roll: Option<RollFor>, c: Candidate)
    ensures var out := Ranked(su.evCap, Found(su, m, assets, roll));
            && (c in out <==>
                  && ScannedFor(c, assets, roll) && Filtered(su, c, roll.Some?)
                  && exists n, f :: Placed(su, m, roll, n, f, c))
            && InRankOrder(su.evCap, out)
            && forall ev :: Scoring(out, ev) == Scoring(Found(su, m, assets, roll), ev)
  {
    RankedIsStableSort(su.evCap, Found(su, m, assets, roll));
    FoundExactly(su, m, assets, roll, c);
  }

  lemma FoundExactly(su: Setup, m: Market, assets: seq<string>, roll: Option<RollFor>, c: Candidate)
    ensures c in Found(su, m, assets, roll) <==>
            && ScannedFor(c, assets, roll) && Filtered(su, c, roll.Some?)
            && exists n, f :: Placed(su, m, roll, n, f, c)
  {
    FoundMatches(su, m, assets, roll, c);
    forall n, f ensures Matches(su, m, c.asset, roll, n, f, c) <==>
                        Placed(su, m, roll, n, f, c) && Filtered(su, c, roll.Some?)
    {
      MatchesExactly(su, m, roll, n, f, c);
    }
    if n, f :| Matches(su, m, c.asset, roll, n, f, c) { assert Placed(su, m, roll, n, f, c); }
    if n, f :| Placed(su, m, roll, n, f, c) {
      assert Filtered(su, c, roll.Some?) ==> Matches(su, m, c.asset, roll, n, f, c);
    }
  }

  lemma FoundMatches(su: Setup, m: Market, assets: seq<string>, roll: Option<RollFor>, c: Candidate)
    ensures c in Found(su, m, assets, roll) <==>
            ScannedFor(c, assets, roll) && exists n, f :: Matches(su, m, c.asset, roll, n, f, c)
  {
    if roll.None? {
      AssetHitsExactly(su, m, assets, None, c);
    } else {
      AssetHitsExactly(su, m, [roll.value.asset], roll, c);
      KeepFarExactly(AssetHits(su, m, [roll.value.asset], roll), roll.value.far, c);
    }
  }

  // Every candidate is a calendar spread bought for a debit, of one strike and
  // type listed in the chain, that passed every filter, and both of its legs are
  // within tolerance of a pair of targets.
  lemma CandidatesAreSound(su: Setup, m: Market, assets: seq<string>, roll: Option<RollFor>, c: Candidate)
    returns (n: int, f: int)
    requires c in Ranked(su.evCap, Found(su, m, assets, roll))
    ensures c.near.dte < c.far.dte && Filtered(su, c, roll.Some?)
    ensures n in su.nearTargets && n - su.nearTol <= c.near.dte <= n + su.nearTol
    ensures f in su.farTargets && f - su.farTol <= c.far.dte <= f + su.farTol
    ensures Listed(c.near.snap, (c.strike, c.kind)) && Listed(c.far.snap, (c.strike, c.kind))
    ensures c.near.snap in Chain(m, c.asset) && c.far.snap in Chain(m, c.asset)
    ensures roll.Some? ==> Some(c.far.snap.instrument) == roll.value.far && c.asset == roll.value.asset
                           && (c.strike, c.kind) == (roll.value.strike, roll.value.kind)
  {
    RankedIsStableSort(su.evCap, Found(su, m, assets, roll));
    FoundExactly(su, m, assets, roll, c);
    n, f :| Placed(su, m, roll, n, f, c);
    var key := (c.strike, c.kind);
    var es := Entries(Chain(m, c.asset), key);
    var i: nat :| ClosestAt(es, i, n, su.nearTol, -1) && es[i] == c.near;
    var j: nat :| ClosestAt(es, j, f, su.farTol, c.near.dte) && es[j] == c.far;
    GroupedExactly(Chain(m, c.asset), key, c.near);
    GroupedExactly(Chain(m, c.asset), key, c.far);
  }

  // ---- Rolls --------------------------------------------------------------

  lemma EvaluationRelaxes(su: Setup, asset: string, key: Key, near: Entry, far: Entry, spot: real, c: Candidate)
    requires Evaluate(su, asset, key, near, far, spot, false) == Some(c)
    ensures Evaluate(su, asset, key, near, far, spot, true) == if c.contango >= Sentinel then Some(c) else None
  {
    assert Clamp01(su.price(asset, spot, near, far).mass) >= 0.0;
  }

  lemma MatchRelaxes(su: Setup, m: Market, rf: RollFor, n: int, f: int, c: Candidate)
    requires Matches(su, m, c.asset, None, n, f, c) && (c.strike, c.kind) == (rf.strike, rf.kind)
    ensures c.contango >= Sentinel ==> Matches(su, m, c.asset, Some(rf), n, f, c)
  {
    var key := (c.strike, c.kind);
    var es := Entries(Chain(m, c.asset), key);
    var near := Nearest(es, n, su.nearTol, -1).value;
    EvaluationRelaxes(su, c.asset, key, near, Nearest(es, f, su.farTol, near.dte).value, m.spots[c.asset], c);
  }

  lemma RollsAreAboveTheSentinel(su: Setup, m: Market, rf: RollFor, n: int, f: int, c: Candidate)
    requires Matches(su, m, c.asset, Some(rf), n, f, c)
    ensures c.contango >= Sentinel
  {
  }

  // What an entry scan accepts of a position's own strike, type and far leg, a
  // roll scan accepts too, exactly when its contango is above the sentinel the
  // roll uses for "no threshold".
  lemma RollRelaxes(su: Setup, m: Market, assets: seq<string>, rf: RollFor, c: Candidate)
    requires c in Ranked(su.evCap, Found(su, m, assets, None))
    requires c.asset == rf.asset && (c.strike, c.kind) == (rf.strike, rf.kind) && Some(c.far.snap.instrument) == rf.far
    ensures c in Ranked(su.evCap, Found(su, m, assets, Some(rf))) <==> c.contango >= -1000000000.0
  {
    RankedIsStableSort(su.evCap, Found(su, m, assets, None));
    RankedIsStableSort(su.evCap, Found(su, m, assets, Some(rf)));
    FoundMatches(su, m, assets, None, c);
    FoundMatches(su, m, assets, Some(rf), c);
    var n, f :| Matches(su, m, c.asset, None, n, f, c);
    MatchRelaxes(su, m, rf, n, f, c);
    if i, j :| Matches(su, m, c.asset, Some(rf), i, j, c) { RollsAreAboveTheSentinel(su, m, rf, i, j, c); }
  }
}
