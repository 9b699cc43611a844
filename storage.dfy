/**
 * The browser's `localStorage` as the hooks use it: one string-keyed store
 * shared by every hook. A value is kept as what it parses to; text that
 * does not parse, or parses to the wrong kind of record, is `Unparseable`.
 */
module Storage {
  import opened Wrappers
  import opened Owners
  import opened Catalog
  import opened Accounts
  import opened Addresses
  import opened Cart
  import opened Coupons
  import opened Orders

  datatype Value =
    | ProductList(products: seq<Product>)
    | UserList(users: seq<RegisteredUser>)
    | AddressList(addresses: seq<Address>)
    | CartList(lines: seq<CartItem>)
    | CouponList(coupons: seq<Coupon>)
    | OrderList(orders: seq<Order>)
    | PointsText(points: int)
    | Unparseable

  const ProductsKey := "products"
  const UsersKey := "registered_users"
  const CartPrefix := "cart_"
  const AddressesPrefix := "addresses_"
  const CouponsPrefix := "coupons_"
  const OrdersPrefix := "orders_"
  const PointsPrefix := "points_"

  /** The entries after a `setItem` that the store accepted, or refused by throwing. */
  function Written(m: map<string, Value>, k: string, v: Value, accepted: bool): (r: map<string, Value>)
    ensures accepted ==> k in r && r[k] == v
    ensures forall j :: j != k ==> (j in r <==> j in m) && (j in m ==> r[j] == m[j])
    ensures !accepted ==> r == m
  {
    if accepted then m[k := v] else m
  }

  /** `key.startsWith('orders_')`. */
  predicate IsOrdersKey(k: string) {
    |k| >= |OrdersPrefix| && k[..|OrdersPrefix|] == OrdersPrefix
  }

  /** `Object.keys(localStorage).filter(key => key.startsWith('orders_'))`, as a set. */
  function OrderKeys(m: map<string, Value>): (r: set<string>)
    ensures forall k :: k in r <==> k in m && IsOrdersKey(k)
  {
    set k | k in m && IsOrdersKey(k)
  }

  /** Every order shard is an orders key, and no other hook's key is one. */
  lemma KeysApart(owner: Option<string>)
    ensures IsOrdersKey(ShardKey(OrdersPrefix, owner))
    ensures !IsOrdersKey(ProductsKey) && !IsOrdersKey(UsersKey)
    ensures !IsOrdersKey(ShardKey(CartPrefix, owner)) && !IsOrdersKey(ShardKey(AddressesPrefix, owner))
    ensures !IsOrdersKey(ShardKey(CouponsPrefix, owner)) && !IsOrdersKey(ShardKey(PointsPrefix, owner))
  {
    assert ProductsKey[0] == 'p' && UsersKey[0] == 'r';
    assert ShardKey(CartPrefix, owner)[0] == 'c';
    assert ShardKey(AddressesPrefix, owner)[0] == 'a';
    assert ShardKey(CouponsPrefix, owner)[0] == 'c';
    assert ShardKey(PointsPrefix, owner)[0] == 'p';
  }

  /** The store. `writes` records every key passed to `setItem` or `removeItem`, in order. */
  class Store {
    var entries: map<string, Value>
    ghost var writes: seq<string>
    /** False when the quota is exhausted: then every `setItem` throws and changes nothing. */
    const acceptsWrites: bool

    constructor (initial: map<string, Value>, acceptsWrites: bool)
      ensures entries == initial && writes == [] && this.acceptsWrites == acceptsWrites
    {
      entries := initial;
      writes := [];
      this.acceptsWrites := acceptsWrites;
    }

    /** `localStorage.setItem(k, v)`; `ok` is false where it throws. */
    method SetItem(k: string, v: Value) returns (ok: bool)
      modifies this
      ensures ok == acceptsWrites
      ensures entries == Written(old(entries), k, v, acceptsWrites)
      ensures writes == old(writes) + [k]
    {
      ok := acceptsWrites;
      if ok {
        entries := entries[k := v];
      }
      writes := writes + [k];
    }

    /** `localStorage.removeItem(k)`. */
    method RemoveItem(k: string)
      modifies this
      ensures entries == old(entries) - {k}
      ensures writes == old(writes) + [k]
    {
      entries := entries - {k};
      writes := writes + [k];
    }
  }
}
