/**
 * The orders of useOrders.ts as values: the order record and the one
 * `createOrder` builds, the sales counters it raises in the catalog, and
 * the status rewrite applied to each shard.
 */
module Orders {
  import opened Wrappers
  import opened Seqs
  import opened Owners
  import opened Catalog
  import opened Cart
  import opened Addresses

  /** '待支付', '待发货', '已发货', '已完成'. */
  datatype Status = PendingPayment | AwaitingShipment | Shipped | Completed

  /** `createTime` is kept as the instant it denotes, the key the listing sorts by. */
  datatype Order = Order(
    id: string,
    userId: string,
    items: seq<CartItem>,
    totalPrice: int,
    originalPrice: Option<int>,
    couponDiscount: Option<int>,
    couponId: Option<string>,
    status: Status,
    createTime: int,
    paymentMethod: string,
    shippingAddress: Option<Address>)

  function CreateTimeOf(o: Order): int {
    o.createTime
  }

  /** The items as the order stores them: every one selected. */
  function Snapshot(items: seq<CartItem>): (r: seq<CartItem>)
    ensures |r| == |items|
    ensures forall i :: 0 <= i < |items| ==> r[i] == items[i].(selected := true)
  {
    Map(items, (l: CartItem) => l.(selected := true))
  }

  /** Selecting every item leaves the amount unchanged. */
  lemma {:induction false} SnapshotAmount(items: seq<CartItem>)
    ensures Amount(Snapshot(items)) == Amount(items)
  {
    if items != [] {
      assert Snapshot(items)[1..] == Snapshot(items[1..]);
      SnapshotAmount(items[1..]);
    }
  }

  /** The order `createOrder` builds: awaiting payment, priced at the amount of its own items. */
  function NewOrder(id: string, owner: Option<string>, items: seq<CartItem>, createTime: int,
                    paymentMethod: string, shippingAddress: Option<Address>): (o: Order)
    ensures o.id == id && o.userId == OwnerTag(owner) && o.status == PendingPayment
    ensures o.items == Snapshot(items)
    ensures o.totalPrice == Amount(items) && o.totalPrice == Amount(o.items)
    ensures o.originalPrice.None? && o.couponDiscount.None? && o.couponId.None?
  {
    SnapshotAmount(items);
    Order(id, OwnerTag(owner), Snapshot(items), Amount(items), None, None, None, PendingPayment,
          createTime, paymentMethod, shippingAddress)
  }

  /** `item.quantity || 1`: a zero quantity counts as one unit. */
  function Units(quantity: int): int {
    if quantity == 0 then 1 else quantity
  }

  /**
   * One step of the `forEach`: the first product with the item's id, if
   * any, gets its units added to its sales (a missing count read as 0).
   */
  function BumpOne(ps: seq<Product>, item: CartItem): (r: seq<Product>)
    ensures |r| == |ps|
  {
    match IndexOfId(ps, item.id)
    case None => ps
    case Some(i) => ps[i := ps[i].(sales := Some(SalesOrZero(ps[i]) + Units(item.quantity)))]
  }

  /** The catalog after the whole `forEach` over `items`, in order. */
  function SalesBumped(ps: seq<Product>, items: seq<CartItem>): (r: seq<Product>)
    ensures |r| == |ps|
    decreases |items|
  {
    if items == [] then ps
    else BumpOne(SalesBumped(ps, items[..|items| - 1]), items[|items| - 1])
  }

  /** The units of all items for product `id`. */
  function UnitsFor(items: seq<CartItem>, id: int): int
    decreases |items|
  {
    if items == [] then 0
    else UnitsFor(items[..|items| - 1], id) + (if items[|items| - 1].id == id then Units(items[|items| - 1].quantity) else 0)
  }

  /** No earlier product shares the id of product `k`: `find` reaches this one. */
  predicate FirstWithId(ps: seq<Product>, k: int)
    requires 0 <= k < |ps|
  {
    forall j :: 0 <= j < k ==> ps[j].id != ps[k].id
  }

  /**
   * What the sales update does to the catalog: only `sales` changes; the
   * first product with each id gains exactly the units ordered for it, and
   * later duplicates of an id and products nobody ordered keep their count.
   */
  lemma {:induction false} SalesBumpedSpec(ps: seq<Product>, items: seq<CartItem>)
    ensures var r := SalesBumped(ps, items);
      forall k :: 0 <= k < |ps| ==>
        r[k] == ps[k].(sales := r[k].sales) &&
        SalesOrZero(r[k]) == SalesOrZero(ps[k]) + (if FirstWithId(ps, k) then UnitsFor(items, ps[k].id) else 0)
    decreases |items|
  {
    if items != [] {
      var front := items[..|items| - 1];
      var item := items[|items| - 1];
      SalesBumpedSpec(ps, front);
      var mid := SalesBumped(ps, front);
      var r := BumpOne(mid, item);
      assert r == SalesBumped(ps, items);
      forall k | 0 <= k < |ps|
        ensures r[k] == ps[k].(sales := r[k].sales)
        ensures SalesOrZero(r[k]) == SalesOrZero(ps[k]) + (if FirstWithId(ps, k) then UnitsFor(items, ps[k].id) else 0)
      {
        assert mid[k].id == ps[k].id;
        match IndexOfId(mid, item.id)
        case None => {
          assert item.id != ps[k].id;
        }
        case Some(i) => {
          if i == k {
            assert FirstWithId(ps, k) by {
              forall j | 0 <= j < k ensures ps[j].id != ps[k].id {
                assert mid[j].id == ps[j].id;
              }
            }
          } else {
            assert r[k] == mid[k];
            if item.id == ps[k].id {
              // `find` stopped at an earlier product with this id
              assert mid[i].id == ps[i].id && i < k;
              assert !FirstWithId(ps, k);
            }
          }
        }
      }
    }
  }

  lemma {:induction false} UnitsForNonNegative(items: seq<CartItem>, id: int)
    requires forall i :: 0 <= i < |items| ==> items[i].quantity >= 0
    ensures UnitsFor(items, id) >= 0
    decreases |items|
  {
    if items != [] {
      UnitsForNonNegative(items[..|items| - 1], id);
    }
  }

  /** With no negative quantity, no product's sales count goes down. */
  lemma SalesNeverDecrease(ps: seq<Product>, items: seq<CartItem>)
    requires forall i :: 0 <= i < |items| ==> items[i].quantity >= 0
    ensures forall k :: 0 <= k < |ps| ==> SalesOrZero(SalesBumped(ps, items)[k]) >= SalesOrZero(ps[k])
  {
    SalesBumpedSpec(ps, items);
    forall k | 0 <= k < |ps| ensures SalesOrZero(SalesBumped(ps, items)[k]) >= SalesOrZero(ps[k]) {
      UnitsForNonNegative(items, ps[k].id);
    }
  }

  /** `order.id === orderId ? { ...order, status } : order`, over one shard. */
  function StatusSet(os: seq<Order>, id: string, status: Status): (r: seq<Order>)
    ensures |r| == |os|
    ensures forall i :: 0 <= i < |os| ==> r[i] == if os[i].id == id then os[i].(status := status) else os[i]
  {
    if os == [] then []
    else [if os[0].id == id then os[0].(status := status) else os[0]] + StatusSet(os[1..], id, status)
  }

  /** `hasUpdates`: some order with the id has another status. */
  predicate NeedsWrite(os: seq<Order>, id: string, status: Status) {
    exists i | 0 <= i < |os| :: os[i].id == id && os[i].status != status
  }

  /** A shard needs a write exactly when the status update would change it. */
  lemma NeedsWriteIffChanged(os: seq<Order>, id: string, status: Status)
    ensures NeedsWrite(os, id, status) <==> StatusSet(os, id, status) != os
  {
    var r := StatusSet(os, id, status);
    if NeedsWrite(os, id, status) {
      var i :| 0 <= i < |os| && os[i].id == id && os[i].status != status;
      assert r[i].status != os[i].status;
    } else {
      assert forall i :: 0 <= i < |os| ==> r[i] == os[i];
    }
  }

  /** After the update no order with the id has another status, so applying it again writes nothing. */
  lemma StatusSetSettles(os: seq<Order>, id: string, status: Status)
    ensures !NeedsWrite(StatusSet(os, id, status), id, status)
    ensures StatusSet(StatusSet(os, id, status), id, status) == StatusSet(os, id, status)
  {
    var r := StatusSet(os, id, status);
    NeedsWriteIffChanged(r, id, status);
  }
}
