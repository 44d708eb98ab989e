/** What the market data feed subscribes to on every connect and reconnect. */
module Feed {
  import opened Ordering
  import opened Options

  const CHUNK := 500

  function Chunks(names: seq<string>): seq<seq<string>> {
    if names == [] then []
    else if |names| <= CHUNK then [names]
    else [names[..CHUNK]] + Chunks(names[CHUNK..])
  }

  // The calls still to be made for the names from `start` on.
  function Rest(names: seq<string>, start: nat): seq<seq<string>> {
    if start <= |names| then Chunks(names[start..]) else []
  }

  lemma RestNext(names: seq<string>, start: nat)
    requires start < |names|
    ensures var end := if start + CHUNK <= |names| then start + CHUNK else |names|;
            Rest(names, start) == [names[start..end]] + Rest(names, start + CHUNK)
  {
    var rest := names[start..];
    if |rest| > CHUNK {
      assert rest[CHUNK..] == names[start + CHUNK..] && rest[..CHUNK] == names[start..start + CHUNK];
    } else {
      assert rest == names[start..|names|];
    }
  }

  function Flat(calls: seq<seq<string>>): seq<string> {
    if calls == [] then [] else Flat(calls[..|calls| - 1]) + calls[|calls| - 1]
  }

  lemma {:induction false} FlatAppends(a: seq<seq<string>>, b: seq<seq<string>>)
    ensures Flat(a + b) == Flat(a) + Flat(b)
  {
    if b == [] {
      assert a + b == a;
    } else {
      FlatAppends(a, b[..|b| - 1]);
      assert (a + b)[..|a + b| - 1] == a + b[..|b| - 1];
    }
  }

  predicate WithinLimit(calls: seq<seq<string>>) {
    forall k :: 0 <= k < |calls| ==> 1 <= |calls[k]| <= 500
  }

  // Chunking loses, repeats and reorders nothing, and no call is empty or over
  // the exchange's limit.
  lemma {:induction false} ChunksConserve(names: seq<string>)
    ensures Flat(Chunks(names)) == names
    ensures WithinLimit(Chunks(names))
  {
    if names == [] {
    } else if |names| <= CHUNK {
      FlatOfOne(names);
    } else {
      ChunksConserve(names[CHUNK..]);
      FlatOfOne(names[..CHUNK]);
      FlatAppends([names[..CHUNK]], Chunks(names[CHUNK..]));
    }
  }

  lemma FlatOfOne(c: seq<string>)
    ensures Flat([c]) == c
  {
    assert [c][..0] == [];
  }

  function Listing(lists: map<string, seq<string>>, asset: string): seq<string> {
    if asset in lists then lists[asset] else []
  }

  // Everything the day-window lists of the assets name, in order.
  function ListedOf(assets: seq<string>, lists: map<string, seq<string>>): seq<string> {
    if assets == [] then []
    else ListedOf(assets[..|assets| - 1], lists) + Listing(lists, assets[|assets| - 1])
  }

  // Exactly what the list of some asset names.
  lemma {:induction false} ListedExactly(assets: seq<string>, lists: map<string, seq<string>>, name: string)
    ensures name in ListedOf(assets, lists) <==>
            exists asset :: asset in assets && asset in lists && name in lists[asset]
  {
    if assets != [] {
      var init, last := assets[..|assets| - 1], assets[|assets| - 1];
      ListedExactly(init, lists, name);
      assert assets == init + [last];
    }
  }

  ghost predicate Covered(instruments: map<string, seq<string>>, name: string) {
    exists asset :: asset in instruments && name in instruments[asset]
  }

  function AssetOf(name: string): string {
    if name == "" || name[0] == '-' then "" else [name[0]] + AssetOf(name[1..])
  }

  class DeribitFeed {
    const assets: seq<string>
    var instruments: map<string, seq<string>>
    // The subscribe calls made on the current connection.
    var calls: seq<seq<string>>

    constructor (assets: seq<string>)
      ensures this.assets == assets && instruments == map[] && calls == []
    {
      this.assets, instruments, calls := assets, map[], [];
    }

    method SubscribeTickers(names: seq<string>)
      requires WithinLimit(calls)
      modifies `calls
      ensures calls == old(calls) + Chunks(names)
      ensures Flat(calls) == Flat(old(calls)) + names && WithinLimit(calls)
    {
      var start := 0;
      while start < |names|
        invariant 0 <= start
        invariant calls + Rest(names, start) == old(calls) + Chunks(names)
      {
        var end := if start + CHUNK <= |names| then start + CHUNK else |names|;
        RestNext(names, start);
        calls := calls + [names[start..end]];
        start := start + CHUNK;
      }
      FlatAppends(old(calls), Chunks(names));
      ChunksConserve(names);
    }

    // The day-window lists of every asset.
    method SubscribeListed(lists: map<string, seq<string>>)
      modifies this
      ensures Flat(calls) == ListedOf(assets, lists) && WithinLimit(calls)
      ensures forall n :: Covered(instruments, n) <==> n in ListedOf(assets, lists)
    {
      instruments, calls := map[], [];
      for k := 0 to |assets|
        invariant Flat(calls) == ListedOf(assets[..k], lists) && WithinLimit(calls)
        invariant forall a :: a in instruments ==> instruments[a] == Listing(lists, a)
        invariant forall n :: Covered(instruments, n) <==> n in ListedOf(assets[..k], lists)
      {
        assert assets[..k + 1][..k] == assets[..k];
        var names := Listing(lists, assets[k]);
        Fetched(instruments, assets[k], names);
        instruments := instruments[assets[k] := names];
        SubscribeTickers(names);
      }
      assert assets[..|assets|] == assets;
    }

    // Instruments of open positions that no day-window list names, in alphabetical
    // order; the provider may be missing or fail.
    method OpenPositionExtras(provided: Option<seq<string>>) returns (extras: seq<string>)
      modifies `instruments
      ensures Alphabetical(extras)
      ensures forall n :: n in extras <==>
                && provided.Some? && n in provided.value && n != ""
                && !Covered(old(instruments), n)
      ensures forall n :: Covered(instruments, n) <==> Covered(old(instruments), n) || n in extras
    {
      extras := [];
      if provided.None? { return; }
      var names := provided.value;
      for k := 0 to |names|
        invariant Alphabetical(extras)
        invariant forall n :: n in extras <==> n in names[..k] && n != "" && !Covered(old(instruments), n)
        invariant instruments == old(instruments)
      {
        var subscribed := exists a | a in instruments.Keys :: names[k] in instruments[a];
        assert subscribed <==> Covered(instruments, names[k]);
        if names[k] != "" && !subscribed { extras := Into(extras, names[k]); }
      }
      for k := 0 to |extras|
        invariant forall n :: Covered(instruments, n) <==> Covered(old(instruments), n) || n in extras[..k]
      {
        ghost var before := instruments;
        var asset := AssetOf(extras[k]);
        instruments := instruments[asset := Listing(instruments, asset) + [extras[k]]];
        Appended(before, asset, extras[k]);
      }
    }

    // `lists` is what the exchange lists for each asset within the day window.
    method SubscribeAll(lists: map<string, seq<string>>, provided: Option<seq<string>>) returns (extras: seq<string>)
      modifies this
      ensures Flat(calls) == ListedOf(assets, lists) + extras && WithinLimit(calls)
      ensures Alphabetical(extras)
      ensures forall n :: n in extras <==>
                && provided.Some? && n in provided.value && n != ""
                && n !in ListedOf(assets, lists)
      ensures forall n :: Covered(instruments, n) <==> n in Flat(calls)
      // so every name an asset's list names and every open position's is subscribed
      ensures forall asset, n :: asset in assets && asset in lists && n in lists[asset] ==> n in Flat(calls)
      ensures provided.Some? ==> forall n :: n in provided.value && n != "" ==> n in Flat(calls)
    {
      forall n ensures n in ListedOf(assets, lists) <==>
                       exists asset :: asset in assets && asset in lists && n in lists[asset]
      {
        ListedExactly(assets, lists, n);
      }
      SubscribeListed(lists);
      extras := OpenPositionExtras(provided);
      if extras != [] { SubscribeTickers(extras); }
    }
  }

  lemma Appended(m: map<string, seq<string>>, asset: string, name: string)
    ensures var r := m[asset := Listing(m, asset) + [name]];
            forall n :: Covered(r, n) <==> Covered(m, n) || n == name
  {
    var r := m[asset := Listing(m, asset) + [name]];
    forall n | Covered(m, n) ensures Covered(r, n) {
      var a :| a in m && n in m[a];
      assert a in r && n in r[a];
    }
    assert asset in r && name in r[asset];
  }

  // Storing an asset's list keeps what other assets' lists cover.
  lemma Fetched(m: map<string, seq<string>>, asset: string, names: seq<string>)
    requires asset in m ==> m[asset] == names
    ensures forall n :: Covered(m[asset := names], n) <==> Covered(m, n) || n in names
  {
    var r := m[asset := names];
    forall n | Covered(m, n) ensures Covered(r, n) {
      var a :| a in m && n in m[a];
      assert a in r && n in r[a];
    }
    assert asset in r && r[asset] == names;
  }
}
