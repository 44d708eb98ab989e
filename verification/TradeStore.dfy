/** The table of calendar trades and the changes made to its rows. */
module TradeStore {
  import opened Ordering
  import opened Options

  datatype Label =
    | Open | FarLegOnly | NearLegRolled
    | WinAutoTp | LossAutoStop | ClosedRollFailed | ClosedDrain | Closed | Titled(reason: string)
  {
    predicate IsOpen() {
      Open? || FarLegOnly? || NearLegRolled?
    }
  }

  datatype CloseStatus = StatusOpen | StatusClosed | StatusStuck

  datatype Row = Row(
    asset: string, openedOn: int, qty: real, netDebit: real, openFees: real, nearDays: int,
    near: Option<string>, far: Option<string>,
    result: Label := Open, status: CloseStatus := StatusOpen,
    closeFees: real := 0.0, rollPnl: real := 0.0, pnl: Option<real> := None, dated: bool := false,
    lastSpread: real := 0.0, manualSpread: Option<real> := None)

  // The three read paths: what the monitor sees, what operators see, and what
  // waits for an operator.
  predicate Monitored(r: Row) {
    r.result.IsOpen() && r.status != StatusStuck
  }

  predicate Visible(r: Row) {
    r.result.IsOpen()
  }

  predicate Stuck(r: Row) {
    r.status == StatusStuck
  }

  // The row's close status says whether its result is terminal.
  predicate WellKept(r: Row) {
    r.result.IsOpen() <==> r.status != StatusClosed
  }

  predicate AllWellKept(rows: seq<Row>) {
    forall id :: 0 <= id < |rows| ==> WellKept(rows[id])
  }

  function ClosedRow(r: Row, pnl: real, result: Label, closeFees: real): Row {
    r.(dated := true, pnl := Some(pnl), result := result, closeFees := closeFees, status := StatusClosed)
  }

  function RolledRow(r: Row, newNear: string, rollPnl: real): Row {
    r.(near := Some(newNear), result := NearLegRolled, rollPnl := r.rollPnl + rollPnl)
  }

  function StuckRow(r: Row): Row {
    r.(status := StatusStuck)
  }

  function ResetRow(r: Row): Row {
    r.(status := StatusOpen)
  }

  // What a manual close at `spread` is taken to have earned.
  function HandPnl(r: Row, spread: real): real {
    spread - r.netDebit * r.qty - r.openFees
  }

  lemma HandPnlIs(r: Row, spread: real)
    ensures HandPnl(r, spread) == spread - r.netDebit * r.qty - r.openFees
  {
  }

  // `titled` is the close reason in title case.
  function ManuallyClosedRow(r: Row, spread: real, titled: Label): Row {
    r.(status := StatusClosed, manualSpread := Some(spread), dated := true,
       pnl := Some(HandPnl(r, spread)), result := titled)
  }

  function ReconciledRow(r: Row): Row {
    if r.result.IsOpen() then r.(status := StatusClosed, result := Closed, dated := true)
    else r.(status := StatusClosed)
  }

  // Exactly when each change keeps a well-kept row well kept.
  lemma KeepsRowsWell(r: Row, pnl: real, result: Label, fees: real, near: string, spread: real)
    requires WellKept(r)
    ensures WellKept(ClosedRow(r, pnl, result, fees)) <==> !result.IsOpen()
    ensures WellKept(RolledRow(r, near, pnl)) <==> r.result.IsOpen()
    ensures WellKept(StuckRow(r)) <==> r.result.IsOpen()
    ensures WellKept(ResetRow(r)) <==> r.result.IsOpen()
    ensures WellKept(ManuallyClosedRow(r, spread, result)) <==> !result.IsOpen()
    ensures WellKept(ReconciledRow(r))
  {
  }

  predicate Distinct(ids: seq<nat>) {
    forall i, j :: 0 <= i < j < |ids| ==> ids[i] != ids[j]
  }

  // ids lists the rows that `which` picks, each once.
  ghost predicate Picks(ids: seq<nat>, rows: seq<Row>, which: Row -> bool) {
    && Distinct(ids)
    && (forall id: nat :: id in ids <==> id < |rows| && which(rows[id]))
  }

  ghost predicate Lists(ids: seq<nat>, rows: seq<Row>) {
    Picks(ids, rows, Monitored)
  }

  predicate NotAfter(a: Row, b: Row, latestFirst: bool) {
    if latestFirst then a.openedOn >= b.openedOn else a.openedOn <= b.openedOn
  }

  // The listed rows are in the order they were opened, or the other way.
  ghost predicate ByDate(ids: seq<nat>, rows: seq<Row>, latestFirst: bool) {
    forall i, j :: 0 <= i < j < |ids| && ids[i] < |rows| && ids[j] < |rows| ==>
      NotAfter(rows[ids[i]], rows[ids[j]], latestFirst)
  }

  // Asset by asset in alphabetical order, and by date within each.
  ghost predicate InVisitOrder(ids: seq<nat>, rows: seq<Row>) {
    forall i, j :: 0 <= i < j < |ids| && ids[i] < |rows| && ids[j] < |rows| ==>
      var a, b := rows[ids[i]], rows[ids[j]];
      Precedes(a.asset, b.asset) || (a.asset == b.asset && a.openedOn <= b.openedOn)
  }

  predicate Known(ids: seq<nat>, rows: seq<Row>) {
    forall k :: 0 <= k < |ids| ==> ids[k] < |rows|
  }

  // One more row in its place.
  function Slotted(ids: seq<nat>, rows: seq<Row>, id: nat, latestFirst: bool): (r: seq<nat>)
    requires id < |rows| && Known(ids, rows)
    ensures Known(r, rows) && |r| == |ids| + 1 && forall i :: i in r <==> i in ids || i == id
  {
    if ids == [] then [id]
    else
      var init, last := ids[..|ids| - 1], ids[|ids| - 1];
      assert ids == init + [last];
      if NotAfter(rows[last], rows[id], latestFirst) then ids + [id] else Slotted(init, rows, id, latestFirst) + [last]
  }

  lemma {:induction false} SlottedInOrder(ids: seq<nat>, rows: seq<Row>, id: nat, latestFirst: bool)
    requires id < |rows| && Known(ids, rows)
    requires ByDate(ids, rows, latestFirst)
    ensures ByDate(Slotted(ids, rows, id, latestFirst), rows, latestFirst)
  {
    if ids != [] {
      var init, last := ids[..|ids| - 1], ids[|ids| - 1];
      assert ids == init + [last];
      var r := Slotted(ids, rows, id, latestFirst);
      if NotAfter(rows[last], rows[id], latestFirst) {
        forall i | 0 <= i < |ids| ensures NotAfter(rows[ids[i]], rows[id], latestFirst) {
          assert i < |ids| - 1 ==> NotAfter(rows[ids[i]], rows[last], latestFirst);
        }
      } else {
        SlottedInOrder(init, rows, id, latestFirst);
        var before := Slotted(init, rows, id, latestFirst);
        forall i | 0 <= i < |before| ensures NotAfter(rows[before[i]], rows[last], latestFirst) {
          assert before[i] in before;
          if before[i] != id {
            var k :| 0 <= k < |init| && init[k] == before[i];
            assert ids[k] == init[k];
          }
        }
      }
    }
  }

  // A query comes to one more row that it picks.
  lemma SlottedNext(ids: seq<nat>, rows: seq<Row>, id: nat, which: Row -> bool, latestFirst: bool)
    requires id < |rows| && which(rows[id]) && Picks(ids, rows[..id], which) && ByDate(ids, rows, latestFirst)
    ensures Known(ids, rows)
    ensures var r := Slotted(ids, rows, id, latestFirst);
            Picks(r, rows[..id + 1], which) && ByDate(r, rows, latestFirst)
  {
    forall k | 0 <= k < |ids| ensures ids[k] < id { assert ids[k] in ids; }
    SlottedOnce(ids, rows, id, latestFirst);
    SlottedInOrder(ids, rows, id, latestFirst);
  }

  lemma {:induction false} SlottedOnce(ids: seq<nat>, rows: seq<Row>, id: nat, latestFirst: bool)
    requires id < |rows| && Known(ids, rows)
    requires id !in ids && Distinct(ids)
    ensures Distinct(Slotted(ids, rows, id, latestFirst))
  {
    if ids != [] {
      var init, last := ids[..|ids| - 1], ids[|ids| - 1];
      assert ids == init + [last];
      if NotAfter(rows[last], rows[id], latestFirst) {
        forall i | 0 <= i < |ids| ensures ids[i] != id { assert ids[i] in ids; }
      } else {
        SlottedOnce(init, rows, id, latestFirst);
        var before := Slotted(init, rows, id, latestFirst);
        forall k | 0 <= k < |init| ensures init[k] != last { assert ids[k] == init[k]; }
        forall i | 0 <= i < |before| ensures before[i] != last { assert before[i] in before; }
        var r := Slotted(ids, rows, id, latestFirst);
        assert r == before + [last];
        forall i, j | 0 <= i < j < |r| ensures r[i] != r[j] {
          assert j < |before| ==> r[j] == before[j];
        }
      }
    }
  }

  // Neither leg is among the live positions; an unrecorded leg counts as gone.
  predicate Gone(r: Row, live: set<string>) {
    && (r.near.None? || r.near.value !in live)
    && (r.far.None? || r.far.value !in live)
  }

  class Store {
    var rows: seq<Row>

    constructor ()
      ensures rows == []
    {
      rows := [];
    }

    method Create(r: Row) returns (id: nat)
      requires r.result.Open? && r.status.StatusOpen?
      modifies this
      ensures id == |old(rows)| && rows == old(rows) + [r]
    {
      id := |rows|;
      rows := rows + [r];
    }

    // Each update fails, changing nothing, when there is no such row.
    method Close(id: nat, pnl: real, result: Label, closeFees: real) returns (ok: bool)
      modifies this
      ensures ok <==> id < |old(rows)|
      ensures rows ==
              if ok then old(rows)[id := old(rows)[id].(dated := true, pnl := Some(pnl), result := result,
                                                        closeFees := closeFees, status := StatusClosed)]
              else old(rows)
    {
      ok := id < |rows|;
      if ok { rows := rows[id := ClosedRow(rows[id], pnl, result, closeFees)]; }
    }

    method UpdateNearLeg(id: nat, newNear: string, rollPnl: real) returns (ok: bool)
      modifies this
      ensures ok <==> id < |old(rows)|
      ensures rows ==
              if ok then old(rows)[id := old(rows)[id].(near := Some(newNear), result := NearLegRolled,
                                                        rollPnl := old(rows)[id].rollPnl + rollPnl)]
              else old(rows)
    {
      ok := id < |rows|;
      if ok { rows := rows[id := RolledRow(rows[id], newNear, rollPnl)]; }
    }

    method UpdateLastSpread(id: nat, value: real)
      modifies this
      ensures rows == if id < |old(rows)| then old(rows)[id := old(rows)[id].(lastSpread := value)] else old(rows)
    {
      if id < |rows| { rows := rows[id := rows[id].(lastSpread := value)]; }
    }

    method MarkStuck(id: nat) returns (ok: bool)
      modifies this
      ensures ok <==> id < |old(rows)|
      ensures rows == if ok then old(rows)[id := old(rows)[id].(status := StatusStuck)] else old(rows)
    {
      ok := id < |rows|;
      if ok { rows := rows[id := StuckRow(rows[id])]; }
    }

    method Reset(id: nat)
      modifies this
      ensures rows == if id < |old(rows)| then old(rows)[id := old(rows)[id].(status := StatusOpen)] else old(rows)
    {
      if id < |rows| { rows := rows[id := ResetRow(rows[id])]; }
    }

    method CloseManually(id: nat, spread: real, titled: Label) returns (ok: bool)
      modifies this
      ensures ok <==> id < |old(rows)|
      ensures ok ==>
                var r := old(rows)[id];
                rows == old(rows)[id := r.(status := StatusClosed, manualSpread := Some(spread), dated := true,
                                           pnl := Some(HandPnl(r, spread)), result := titled)]
      ensures !ok ==> rows == old(rows)
    {
      ok := id < |rows|;
      if ok { rows := rows[id := ManuallyClosedRow(rows[id], spread, titled)]; }
    }

    method MarkReconciled(id: nat) returns (ok: bool)
      modifies this
      ensures ok <==> id < |old(rows)|
      ensures ok ==>
                var r := old(rows)[id];
                rows == old(rows)[id := if r.result.IsOpen()
                                        then r.(status := StatusClosed, result := Closed, dated := true)
                                        else r.(status := StatusClosed)]
      ensures !ok ==> rows == old(rows)
    {
      ok := id < |rows|;
      if ok { rows := rows[id := ReconciledRow(rows[id])]; }
    }

    method CloseStatusOf(id: nat) returns (status: Option<CloseStatus>)
      ensures status == if id < |rows| then Some(rows[id].status) else None
    {
      status := if id < |rows| then Some(rows[id].status) else None;
    }

    // The rows a query picks, by the date they were opened.
    method Select(which: Row -> bool, latestFirst: bool) returns (ids: seq<nat>)
      ensures Picks(ids, rows, which) && ByDate(ids, rows, latestFirst)
    {
      ids := [];
      for id := 0 to |rows|
        invariant Picks(ids, rows[..id], which) && ByDate(ids, rows, latestFirst)
      {
        if which(rows[id]) {
          SlottedNext(ids, rows, id, which, latestFirst);
          ids := Slotted(ids, rows, id, latestFirst);
        }
      }
      assert rows[..|rows|] == rows;
    }

    method OpenTrades() returns (ids: seq<nat>)
      ensures Lists(ids, rows) && ByDate(ids, rows, false)
      ensures forall id: nat :: id in ids <==>
                && id < |rows| && rows[id].status != StatusStuck
                && (rows[id].result.Open? || rows[id].result.FarLegOnly? || rows[id].result.NearLegRolled?)
    {
      ids := Select((r: Row) => r.result.IsOpen() && r.status != StatusStuck, false);
    }

    method VisiblePositions() returns (ids: seq<nat>)
      ensures Picks(ids, rows, Visible) && ByDate(ids, rows, false)
      ensures forall id: nat :: id in ids <==>
                && id < |rows|
                && (rows[id].result.Open? || rows[id].result.FarLegOnly? || rows[id].result.NearLegRolled?)
    {
      ids := Select((r: Row) => r.result.IsOpen(), false);
    }

    method StuckPositions() returns (ids: seq<nat>)
      ensures Picks(ids, rows, Stuck) && ByDate(ids, rows, true)
      ensures forall id: nat :: id in ids <==> id < |rows| && rows[id].status == StatusStuck
    {
      ids := Select((r: Row) => r.status == StatusStuck, true);
    }

    // Closes in the table the stuck trades both of whose legs are gone from the
    // exchange.  `live` is None when the positions could not be fetched.
    method SyncStuck(live: Option<set<string>>) returns (reconciled: seq<nat>)
      modifies this
      ensures |rows| == |old(rows)|
      ensures forall id: nat :: id in reconciled <==>
                && live.Some? && id < |rows|
                && var r := old(rows)[id];
                   && r.status == StatusStuck
                   && (forall leg :: r.near == Some(leg) || r.far == Some(leg) ==> leg !in live.value)
      ensures forall id :: 0 <= id < |rows| ==>
                rows[id] == if id in reconciled then ReconciledRow(old(rows)[id]) else old(rows)[id]
    {
      reconciled := [];
      if live.None? { return; }
      var stuck := StuckPositions();
      ghost var was := rows;
      for k := 0 to |stuck|
        invariant |rows| == |was|
        invariant forall id: nat :: id in reconciled <==> id < |was| && id in stuck[..k] && Gone(was[id], live.value)
        invariant forall id :: 0 <= id < |rows| ==>
                    rows[id] == if id in reconciled then ReconciledRow(was[id]) else was[id]
      {
        assert stuck[..k + 1] == stuck[..k] + [stuck[k]];
        assert stuck[k] in stuck && stuck[k] !in stuck[..k];
        if Gone(rows[stuck[k]], live.value) {
          var _ := MarkReconciled(stuck[k]);
          reconciled := reconciled + [stuck[k]];
        }
      }
      assert stuck[..|stuck|] == stuck;
    }

    // The assets that have open rows and the configured ones, in alphabetical order.
    method AllAssets(assets: seq<string>) returns (all: seq<string>)
      ensures Alphabetical(all)
      ensures forall a :: a in all <==> a in assets || exists r :: r in rows && r.result.IsOpen() && r.asset == a
    {
      all := [];
      for k := 0 to |assets|
        invariant Alphabetical(all) && forall a :: a in all <==> a in assets[..k]
      {
        all := Into(all, assets[k]);
      }
      for k := 0 to |rows|
        invariant Alphabetical(all)
        invariant forall a :: a in all <==>
                    a in assets || exists r :: r in rows[..k] && r.result.IsOpen() && r.asset == a
      {
        assert rows[..k + 1] == rows[..k] + [rows[k]];
        if rows[k].result.IsOpen() { all := Into(all, rows[k].asset); }
      }
      assert rows[..|rows|] == rows;
    }

    // The engine's read path: per asset, the monitored rows of that asset.
    method LoadOpen(assets: seq<string>) returns (ids: seq<nat>)
      ensures Lists(ids, rows) && InVisitOrder(ids, rows)
    {
      var all := AllAssets(assets);
      ids := [];
      for a := 0 to |all|
        invariant Picks(ids, rows, r => Monitored(r) && r.asset in all[..a]) && InVisitOrder(ids, rows)
      {
        assert all[..a + 1] == all[..a] + [all[a]];
        assert all[a] !in all[..a] by { PrecedesOneWay(all[a], all[a]); }
        var found := Select((r: Row) => Monitored(r) && r.asset == all[a], false);
        AssetAfterAsset(ids, found, rows, all, a);
        ids := ids + found;
      }
      assert all[..|all|] == all;
      assert forall r :: r in rows && Monitored(r) ==> r.asset in all;
    }
  }

  // The rows of one more asset go after those of the assets before it.
  lemma AssetAfterAsset(ids: seq<nat>, found: seq<nat>, rows: seq<Row>, all: seq<string>, a: nat)
    requires a < |all| && Alphabetical(all) && all[a] !in all[..a]
    requires Picks(ids, rows, r => Monitored(r) && r.asset in all[..a]) && InVisitOrder(ids, rows)
    requires Picks(found, rows, r => Monitored(r) && r.asset == all[a]) && ByDate(found, rows, false)
    ensures Picks(ids + found, rows, r => Monitored(r) && r.asset in all[..a + 1]) && InVisitOrder(ids + found, rows)
  {
    var both := ids + found;
    forall i, j | 0 <= i < |ids| && 0 <= j < |found|
      ensures ids[i] < |rows| && found[j] < |rows| && ids[i] != found[j]
      ensures Precedes(rows[ids[i]].asset, rows[found[j]].asset)
    {
      assert ids[i] in ids && found[j] in found;
      var k :| 0 <= k < a && all[k] == rows[ids[i]].asset;
    }
    forall i | 0 <= i < |found| ensures found[i] < |rows| && rows[found[i]].asset == all[a] {
      assert found[i] in found;
    }
    assert forall id: nat :: id in both <==> id in ids || id in found;
    assert forall x :: x in all[..a + 1] <==> x in all[..a] || x == all[a];
  }
}
