/** The in-memory registry of every order the session has placed. */
module Registry {
  import opened Exchange
  import opened Options

  datatype OrderState = Submitted | Partial | Done | Withdrawn | WithdrawnPartial | Failed

  datatype TrackedOrder = TrackedOrder(
    orderId: nat, instrument: Instrument, side: Side, amount: nat, limitPrice: real,
    state: OrderState := Submitted, fillPrice: Option<real> := None, filledAmount: nat := 0)
  {
    predicate IsTerminal() {
      state in {Done, Withdrawn, WithdrawnPartial, Failed}
    }
  }

  // The tracked orders that are not terminal, in the order they were registered.
  function OpenAmong(keys: seq<nat>, table: map<nat, TrackedOrder>): seq<TrackedOrder>
    requires forall k :: k in keys ==> k in table
  {
    if keys == [] then []
    else
      var init, last := keys[..|keys| - 1], keys[|keys| - 1];
      OpenAmong(init, table) + (if table[last].IsTerminal() then [] else [table[last]])
  }

  lemma {:induction false} OpenAmongExact(keys: seq<nat>, table: map<nat, TrackedOrder>)
    requires forall k :: k in keys ==> k in table
    ensures forall t :: t in OpenAmong(keys, table) <==> exists k :: k in keys && table[k] == t && !t.IsTerminal()
  {
    if keys != [] {
      var init, last := keys[..|keys| - 1], keys[|keys| - 1];
      OpenAmongExact(init, table);
      assert forall k :: k in keys <==> k in init || k == last;
    }
  }

  // The registry agrees with the exchange: what it calls done is filled in full,
  // what it calls withdrawn is dead and shows the fill it really had.
  ghost predicate Agrees(t: TrackedOrder, o: Order) {
    && t.instrument == o.instrument && t.side == o.side && t.amount == o.amount
    && match t.state
       case Done => o.filled == o.amount
       case Withdrawn => o.status != Live && o.filled == 0
       case WithdrawnPartial => o.status != Live && 0 < o.filled && t.filledAmount == o.filled
       case _ => true
  }

  // Every tracked order but those in `hidden` agrees with the exchange.
  ghost predicate InStep(table: map<nat, TrackedOrder>, os: seq<Order>, hidden: set<nat>) {
    forall id :: id in table ==> id < |os| && (id !in hidden ==> Agrees(table[id], os[id]))
  }

  // Whatever the exchange does next, a registry that agrees goes on agreeing.
  lemma InStepExtends(table: map<nat, TrackedOrder>, os: seq<Order>, os': seq<Order>, hidden: set<nat>)
    requires InStep(table, os, hidden) && Extends(os, os')
    ensures InStep(table, os', hidden)
  {
    forall id | id in table ensures id < |os'| && (id !in hidden ==> Agrees(table[id], os'[id])) {
      assert Advances(os[id], os'[id]);
    }
  }

  // What reconciling makes of one order.
  function Reconciled(t: TrackedOrder, fetched: Option<set<nat>>): TrackedOrder {
    if fetched.Some? && !t.IsTerminal() && t.orderId !in fetched.value then t.(state := Withdrawn) else t
  }

  class OrderManager {
    var orders: map<nat, TrackedOrder>
    var keys: seq<nat>  // registration order

    ghost predicate Valid() reads this {
      && (forall k :: k in keys <==> k in orders)
      && (forall i, j :: 0 <= i < j < |keys| ==> keys[i] != keys[j])
      && (forall k :: k in orders ==> orders[k].orderId == k)
    }

    // The ids of the orders that are not terminal.
    ghost function OpenIds(): set<nat> reads this {
      set id | id in orders && !orders[id].IsTerminal()
    }

    constructor ()
      ensures Valid() && orders == map[] && keys == []
    {
      orders, keys := map[], [];
    }

    method Track(t: TrackedOrder)
      requires Valid()
      modifies this
      ensures Valid() && orders == old(orders)[t.orderId := t]
      ensures keys == if t.orderId in old(orders) then old(keys) else old(keys) + [t.orderId]
      ensures OpenIds() == old(OpenIds()) - {t.orderId} + (if t.IsTerminal() then {} else {t.orderId})
    {
      if t.orderId !in orders {
        keys := keys + [t.orderId];
      }
      orders := orders[t.orderId := t];
    }

    // Unknown ids are ignored.
    method Update(id: nat, state: OrderState, fillPrice: Option<real>, filledAmount: Option<nat>)
      requires Valid()
      modifies this
      ensures Valid() && keys == old(keys)
      ensures id !in old(orders) ==> orders == old(orders)
      ensures id in old(orders) && state in {Done, Withdrawn, WithdrawnPartial, Failed} ==>
                OpenIds() == old(OpenIds()) - {id}
      ensures id in old(orders) ==>
                orders == old(orders)[id := old(orders)[id].(
                                        state := state,
                                        fillPrice := if fillPrice.Some? then fillPrice else old(orders)[id].fillPrice,
                                        filledAmount := if filledAmount.Some? then filledAmount.value
                                                        else old(orders)[id].filledAmount)]
    {
      if id in orders {
        var t := orders[id].(state := state);
        if fillPrice.Some? { t := t.(fillPrice := fillPrice); }
        if filledAmount.Some? { t := t.(filledAmount := filledAmount.value); }
        orders := orders[id := t];
      }
    }

    method OpenOrders() returns (open: seq<TrackedOrder>)
      requires Valid()
      ensures open == OpenAmong(keys, orders)
      ensures forall t :: t in open <==> t.orderId in OpenIds() && orders[t.orderId] == t
    {
      open := [];
      for i := 0 to |keys|
        invariant open == OpenAmong(keys[..i], orders)
      {
        assert keys[..i + 1][..i] == keys[..i];
        if !orders[keys[i]].IsTerminal() {
          open := open + [orders[keys[i]]];
        }
      }
      assert keys[..|keys|] == keys;
      OpenAmongExact(keys, orders);
    }

    // After a restart: whatever the exchange no longer lists as open is
    // recorded as withdrawn.  `fetched` is None when the query failed.
    method Reconcile(fetched: Option<set<nat>>)
      requires Valid()
      modifies this`orders
      ensures Valid() && orders.Keys == old(orders).Keys
      ensures forall id :: id in orders ==>
                var t := old(orders)[id];
                orders[id] == if fetched.Some? && (t.state.Submitted? || t.state.Partial?) && id !in fetched.value
                              then t.(state := Withdrawn) else t
    {
      if fetched.None? { return; }
      ghost var was := orders;
      for i := 0 to |keys|
        invariant orders.Keys == was.Keys
        invariant forall j :: 0 <= j < |keys| ==>
                    orders[keys[j]] == if j < i then Reconciled(was[keys[j]], fetched) else was[keys[j]]
      {
        var t := orders[keys[i]];
        if !t.IsTerminal() && t.orderId !in fetched.value {
          orders := orders[keys[i] := t.(state := Withdrawn)];
        }
      }
      forall id | id in orders ensures was[id].orderId == id && orders[id] == Reconciled(was[id], fetched) {
        assert id in keys;
      }
    }
  }
}
