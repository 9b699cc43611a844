/**
 * The state of `useOrders` over the shared store: the owner's orders under
 * `orders_<owner>`, and the scans over every `orders_` shard. The store
 * lists its keys in no particular order, so each scan takes the shards as
 * a set, one arbitrary key at a time.
 */
module OrdersHook {
  import opened Wrappers
  import opened Seqs
  import opened Sorting
  import opened Owners
  import opened Catalog
  import opened Cart
  import opened Addresses
  import opened Orders
  import opened Storage

  /** The orders stored under `k`; none when the key is absent or does not parse. */
  ghost function Stored(m: map<string, Value>, k: string): multiset<Order> {
    if k in m && m[k].OrderList? then multiset(m[k].orders) else multiset{}
  }

  /** All orders stored under the keys in `keys`, as one bag. */
  ghost function Bag(m: map<string, Value>, keys: set<string>): multiset<Order>
    decreases |keys|
  {
    if keys == {} then multiset{}
    else
      var k :| k in keys;
      Stored(m, k) + Bag(m, keys - {k})
  }

  /** The bag does not depend on which key is taken first. */
  lemma {:induction false} BagRemove(m: map<string, Value>, keys: set<string>, k: string)
    requires k in keys
    ensures Bag(m, keys) == Stored(m, k) + Bag(m, keys - {k})
    decreases |keys|
  {
    var j :| j in keys && Bag(m, keys) == Stored(m, j) + Bag(m, keys - {j});
    if j != k {
      BagRemove(m, keys - {j}, k);
      BagRemove(m, keys - {k}, j);
      assert keys - {j} - {k} == keys - {k} - {j};
    }
  }

  /** An order is in the bag exactly when some readable shard among `keys` holds it. */
  lemma {:induction false} BagMembers(m: map<string, Value>, keys: set<string>, o: Order)
    ensures o in Bag(m, keys) <==> exists k :: k in keys && k in m && m[k].OrderList? && o in m[k].orders
    decreases |keys|
  {
    if keys != {} {
      var k :| k in keys;
      BagRemove(m, keys, k);
      BagMembers(m, keys - {k}, o);
      if o in Bag(m, keys - {k}) {
        var j :| j in keys - {k} && j in m && m[j].OrderList? && o in m[j].orders;
        assert j in keys;
      }
    }
  }

  /** Every `orders_` shard parses: otherwise the listing throws and yields nothing. */
  ghost predicate AllReadable(m: map<string, Value>) {
    forall k :: k in OrderKeys(m) ==> m[k].OrderList?
  }

  /** Every order stored in some `orders_` shard, as a bag. */
  ghost function AllStored(m: map<string, Value>): multiset<Order> {
    Bag(m, OrderKeys(m))
  }

  /** Some readable `orders_` shard holds `o`. */
  ghost predicate StoredSomewhere(m: map<string, Value>, o: Order) {
    exists k :: k in m && IsOrdersKey(k) && m[k].OrderList? && o in m[k].orders
  }

  /** The entries after the sales update of `createOrder`: only a readable catalog is rewritten. */
  function SalesWritten(m: map<string, Value>, items: seq<CartItem>, accepted: bool): map<string, Value> {
    if ProductsKey in m && m[ProductsKey].ProductList? then
      Written(m, ProductsKey, ProductList(SalesBumped(m[ProductsKey].products, items)), accepted)
    else m
  }

  /** `hasUpdates` for a stored value: it parses and holds an order with the id in another status. */
  predicate WriteDue(v: Value, id: string, status: Status) {
    v.OrderList? && NeedsWrite(v.orders, id, status)
  }

  /** The value a shard holds after the update: rewritten when a write is due, as it was otherwise. */
  function StatusApplied(v: Value, id: string, status: Status): Value {
    if WriteDue(v, id, status) then OrderList(StatusSet(v.orders, id, status)) else v
  }

  /** The shard under `k` holds an order with the id whose status differs. */
  ghost predicate ShardNeedsWrite(m: map<string, Value>, k: string, id: string, status: Status) {
    k in m && IsOrdersKey(k) && WriteDue(m[k], id, status)
  }

  /** The entries once the `orders_` shards among `keys` have been brought to the new status. */
  function StatusWrittenOn(m: map<string, Value>, id: string, status: Status, accepted: bool, keys: set<string>): (r: map<string, Value>)
    ensures r.Keys == m.Keys
  {
    map k | k in m :: if accepted && k in keys && IsOrdersKey(k) then StatusApplied(m[k], id, status) else m[k]
  }

  /** One more key taken into account changes at most that key's entry. */
  lemma StatusWrittenOnStep(m: map<string, Value>, id: string, status: Status, accepted: bool, done: set<string>, k: string)
    requires k in m && k !in done
    ensures StatusWrittenOn(m, id, status, accepted, done)[k] == m[k]
    ensures var before := StatusWrittenOn(m, id, status, accepted, done);
      StatusWrittenOn(m, id, status, accepted, done + {k}) ==
        if accepted && IsOrdersKey(k) && WriteDue(m[k], id, status)
        then before[k := StatusApplied(m[k], id, status)]
        else before
  {
    var before := StatusWrittenOn(m, id, status, accepted, done);
    var after := StatusWrittenOn(m, id, status, accepted, done + {k});
    assert after[k] == if accepted && IsOrdersKey(k) then StatusApplied(m[k], id, status) else m[k];
    assert forall j :: j in m && j != k ==> after[j] == before[j];
  }

  /** The keys logged so far are exactly the shards among `done` that needed a write. */
  ghost predicate LoggedDue(logged: seq<string>, done: set<string>, m: map<string, Value>, id: string, status: Status) {
    forall k :: k in logged <==> k in done && ShardNeedsWrite(m, k, id, status)
  }

  /** Handling one more shard logs it exactly when it needed a write. */
  lemma LoggedDueStep(logged: seq<string>, done: set<string>, m: map<string, Value>, id: string, status: Status, k: string, wrote: bool)
    requires LoggedDue(logged, done, m, id, status) && k !in done
    requires wrote == ShardNeedsWrite(m, k, id, status)
    ensures LoggedDue(logged + (if wrote then [k] else []), done + {k}, m, id, status)
  {
  }

  /** Moving one key from the keys still to visit to the visited ones keeps the two a partition. */
  lemma MoveKey(remaining: set<string>, done: set<string>, k: string)
    requires k in remaining && remaining !! done
    ensures (remaining - {k}) + (done + {k}) == remaining + done && (remaining - {k}) !! (done + {k})
  {
  }

  /** Appending a step to the writes logged so far. */
  lemma LogStep(w0: seq<string>, logged: seq<string>, step: seq<string>)
    ensures w0 + logged + step == w0 + (logged + step)
  {
  }

  /** `updateOrderStatusGlobally` over the whole store. */
  function StatusWritten(m: map<string, Value>, id: string, status: Status, accepted: bool): map<string, Value> {
    StatusWrittenOn(m, id, status, accepted, OrderKeys(m))
  }

  /**
   * Skipping the shards that need no write is invisible in the entries:
   * the result is the status update applied to every readable shard, and
   * every other key keeps its value.
   */
  lemma StatusWrittenEverywhere(m: map<string, Value>, id: string, status: Status)
    ensures var r := StatusWritten(m, id, status, true);
      forall k :: k in m ==> r[k] == if IsOrdersKey(k) && m[k].OrderList? then OrderList(StatusSet(m[k].orders, id, status)) else m[k]
  {
    forall k | k in m && IsOrdersKey(k) && m[k].OrderList?
      ensures StatusWritten(m, id, status, true)[k] == OrderList(StatusSet(m[k].orders, id, status))
    {
      NeedsWriteIffChanged(m[k].orders, id, status);
    }
  }

  /**
   * After an accepted update every stored order with the id has the new
   * status, so no shard needs a write and applying the update again
   * changes nothing.
   */
  lemma StatusWrittenSettles(m: map<string, Value>, id: string, status: Status)
    ensures var r := StatusWritten(m, id, status, true);
      (forall k :: !ShardNeedsWrite(r, k, id, status)) &&
      (forall k, o :: k in r && IsOrdersKey(k) && r[k].OrderList? && o in r[k].orders && o.id == id ==> o.status == status) &&
      StatusWritten(r, id, status, true) == r
  {
    var r := StatusWritten(m, id, status, true);
    StatusWrittenEverywhere(m, id, status);
    forall k | k in r && IsOrdersKey(k) && r[k].OrderList?
      ensures !NeedsWrite(r[k].orders, id, status)
    {
      StatusSetSettles(m[k].orders, id, status);
    }
    assert StatusWritten(r, id, status, true) == r;
  }

  /** In a listing sorted newest first, the first order with an id is the newest with that id. */
  lemma FirstMatchIsNewest(all: seq<Order>, id: string, i: int)
    requires SortedDesc(all, CreateTimeOf)
    requires 0 <= i < |all| && all[i].id == id && NoneBefore(all, (o: Order) => o.id == id, i)
    ensures forall o :: o in all && o.id == id ==> o.createTime <= all[i].createTime
  {
    forall o | o in all && o.id == id ensures o.createTime <= all[i].createTime {
      var j :| 0 <= j < |all| && all[j] == o;
      if j != i {
        assert j > i;
        assert CreateTimeOf(all[i]) >= CreateTimeOf(all[j]);
      }
    }
  }

  /** The catalog update inside `createOrder`, a step of the `forEach` per item. */
  method BumpSales(ps: seq<Product>, items: seq<CartItem>) returns (r: seq<Product>)
    ensures r == SalesBumped(ps, items)
  {
    r := ps;
    var i := 0;
    while i < |items|
      invariant 0 <= i <= |items|
      invariant r == SalesBumped(ps, items[..i])
    {
      assert items[..i + 1][..i] == items[..i];
      match IndexOfId(r, items[i].id) {
        case Some(j) =>
          r := r[j := r[j].(sales := Some(SalesOrZero(r[j]) + Units(items[i].quantity)))];
        case None =>
      }
      i := i + 1;
    }
    assert items[..|items|] == items;
  }

  class OrderLedger {
    const store: Store
    const owner: Option<string>
    var orders: seq<Order>

    /** `getOrdersKey`. */
    function Key(): string {
      ShardKey(OrdersPrefix, owner)
    }

    /** The hook's list is what the store holds under the owner's key. */
    ghost predicate InSync()
      reads this, store
    {
      Key() in store.entries && store.entries[Key()] == OrderList(orders)
    }

    /** The load: the stored orders; none stored reads as empty; orders that do not parse are removed. */
    constructor (store: Store, owner: Option<string>)
      modifies store
      ensures this.store == store && this.owner == owner
      ensures Key() !in old(store.entries) ==> orders == [] && store.entries == old(store.entries) && store.writes == old(store.writes)
      ensures Key() in old(store.entries) && old(store.entries)[Key()].OrderList? ==>
        orders == old(store.entries)[Key()].orders && store.entries == old(store.entries) && store.writes == old(store.writes)
      ensures Key() in old(store.entries) && !old(store.entries)[Key()].OrderList? ==>
        orders == [] && store.entries == old(store.entries) - {Key()} && store.writes == old(store.writes) + [Key()]
    {
      this.store := store;
      this.owner := owner;
      new;
      var key := ShardKey(OrdersPrefix, owner);
      if key in store.entries {
        match store.entries[key]
        case OrderList(os) => orders := os;
        case _ =>
          store.RemoveItem(key);
          orders := [];
      } else {
        orders := [];
      }
    }

    /**
     * `createOrder`: raises the sales of the ordered products in a readable
     * catalog, then puts the new order in front of the owner's orders. The
     * id comes back even when the store refuses the write.
     */
    method CreateOrder(orderId: string, items: seq<CartItem>, createTime: int, paymentMethod: string,
                       shippingAddress: Option<Address>) returns (id: string)
      modifies this, store
      ensures id == orderId
      ensures var o := NewOrder(orderId, owner, items, createTime, paymentMethod, shippingAddress);
        store.entries == Written(SalesWritten(old(store.entries), items, store.acceptsWrites), Key(),
                                 OrderList([o] + old(orders)), store.acceptsWrites) &&
        orders == if store.acceptsWrites then [o] + old(orders) else old(orders)
      ensures store.writes == old(store.writes) + (if ProductsKey in old(store.entries) && old(store.entries)[ProductsKey].ProductList? then [ProductsKey] else []) + [Key()]
    {
      if ProductsKey in store.entries && store.entries[ProductsKey].ProductList? {
        var bumped := BumpSales(store.entries[ProductsKey].products, items);
        var _ := store.SetItem(ProductsKey, ProductList(bumped));
      }
      var o := NewOrder(orderId, owner, items, createTime, paymentMethod, shippingAddress);
      var ok := store.SetItem(Key(), OrderList([o] + orders));
      if ok {
        orders := [o] + orders;
      }
      id := orderId;
    }

    /**
     * `getAllOrdersFromStorage`: every stored order, newest first; an
     * `orders_` shard that does not parse makes the whole listing empty.
     */
    method GetAllOrders() returns (r: seq<Order>)
      ensures !AllReadable(store.entries) ==> r == []
      ensures AllReadable(store.entries) ==> SortedDesc(r, CreateTimeOf) && multiset(r) == AllStored(store.entries)
    {
      var m := store.entries;
      var remaining := OrderKeys(m);
      var acc: seq<Order> := [];
      while remaining != {}
        invariant remaining <= OrderKeys(m)
        invariant forall k :: k in OrderKeys(m) - remaining ==> m[k].OrderList?
        invariant multiset(acc) + Bag(m, remaining) == AllStored(m)
        decreases |remaining|
      {
        var k :| k in remaining;
        BagRemove(m, remaining, k);
        if !m[k].OrderList? {
          return [];
        }
        acc := acc + m[k].orders;
        remaining := remaining - {k};
      }
      r := SortDesc(acc, CreateTimeOf);
      SortDescSorted(acc, CreateTimeOf);
      SortDescPermutation(acc, CreateTimeOf);
    }

    /**
     * `getOrderById`: the first matching order of the hook's own list;
     * failing that, a matching order from the listing of every shard.
     */
    method GetOrderById(id: string) returns (r: Option<Order>)
      ensures (exists o :: o in orders && o.id == id) ==>
        exists i :: 0 <= i < |orders| && r == Some(orders[i]) && orders[i].id == id && forall j :: 0 <= j < i ==> orders[j].id != id
      ensures (forall o :: o in orders ==> o.id != id) ==>
        (r.None? <==> !AllReadable(store.entries) || forall o :: o in AllStored(store.entries) ==> o.id != id) &&
        (r.Some? ==> r.value.id == id && StoredSomewhere(store.entries, r.value)) &&
        (r.Some? ==> forall o :: o in AllStored(store.entries) && o.id == id ==> o.createTime <= r.value.createTime)
    {
      var matches := (o: Order) => o.id == id;
      r := Find(orders, matches);
      if r.None? {
        var all := GetAllOrders();
        r := Find(all, matches);
        assert forall o :: o in all <==> o in multiset(all);
        if r.Some? {
          assert r.value in multiset(all);
          BagMembers(store.entries, OrderKeys(store.entries), r.value);
          var i :| 0 <= i < |all| && all[i] == r.value && matches(all[i]) && NoneBefore(all, matches, i);
          FirstMatchIsNewest(all, id, i);
        }
      }
    }

    /**
     * One iteration of the `forEach` in `updateOrderStatusGlobally`: shard
     * `k` is written only when a write is due, which takes the entries one
     * key further towards the full update of `m`.
     */
    method RewriteShard(k: string, id: string, status: Status, ghost m: map<string, Value>, ghost done: set<string>)
      returns (wrote: bool)
      requires k in m && IsOrdersKey(k) && k !in done
      requires store.entries == StatusWrittenOn(m, id, status, store.acceptsWrites, done)
      modifies store
      ensures wrote == ShardNeedsWrite(m, k, id, status)
      ensures store.entries == StatusWrittenOn(m, id, status, store.acceptsWrites, done + {k})
      ensures store.writes == old(store.writes) + if wrote then [k] else []
    {
      StatusWrittenOnStep(m, id, status, store.acceptsWrites, done, k);
      var v := store.entries[k];
      wrote := WriteDue(v, id, status);
      if wrote {
        var _ := store.SetItem(k, StatusApplied(v, id, status));
      }
    }

    /**
     * `updateOrderStatusGlobally`: every readable `orders_` shard holding an
     * order with the id in another status is rewritten with the status set;
     * no other shard is written. The hook's own list follows regardless.
     */
    method UpdateOrderStatusGlobally(id: string, status: Status)
      modifies this, store
      ensures store.entries == StatusWritten(old(store.entries), id, status, store.acceptsWrites)
      ensures |store.writes| >= |old(store.writes)| && store.writes[..|old(store.writes)|] == old(store.writes)
      ensures forall k :: k in store.writes[|old(store.writes)|..] <==> ShardNeedsWrite(old(store.entries), k, id, status)
      ensures orders == StatusSet(old(orders), id, status)
    {
      ghost var m := store.entries;
      ghost var w0 := store.writes;
      var remaining := OrderKeys(store.entries);
      ghost var done: set<string> := {};
      ghost var logged: seq<string> := [];
      while remaining != {}
        invariant remaining + done == OrderKeys(m) && remaining !! done
        invariant store.entries == StatusWrittenOn(m, id, status, store.acceptsWrites, done)
        invariant store.writes == w0 + logged
        invariant LoggedDue(logged, done, m, id, status)
        invariant orders == old(orders)
        decreases |remaining|
      {
        var k :| k in remaining;
        var wrote := RewriteShard(k, id, status, m, done);
        LoggedDueStep(logged, done, m, id, status, k, wrote);
        ghost var step := if wrote then [k] else [];
        LogStep(w0, logged, step);
        MoveKey(remaining, done, k);
        logged := logged + step;
        done := done + {k};
        remaining := remaining - {k};
      }
      assert store.writes[|w0|..] == logged;
      assert forall k :: ShardNeedsWrite(m, k, id, status) ==> k in OrderKeys(m);
      orders := StatusSet(orders, id, status);
    }

    /** `updateOrderStatus`: any status may replace any other. */
    method UpdateOrderStatus(id: string, status: Status)
      modifies this, store
      ensures store.entries == StatusWritten(old(store.entries), id, status, store.acceptsWrites)
      ensures |store.writes| >= |old(store.writes)| && store.writes[..|old(store.writes)|] == old(store.writes)
      ensures forall k :: k in store.writes[|old(store.writes)|..] <==> ShardNeedsWrite(old(store.entries), k, id, status)
      ensures orders == StatusSet(old(orders), id, status)
    {
      UpdateOrderStatusGlobally(id, status);
    }
  }
}
