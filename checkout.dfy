/**
 * The checkout page of Checkout.tsx: the price to pay after the selected
 * coupon, and paying, which redeems the coupon, records the discount on
 * the stored order and moves the order to awaiting shipment.
 */
module Checkout {
  import opened Wrappers
  import opened Seqs
  import opened Addresses
  import opened Coupons
  import opened Orders
  import opened Storage
  import opened CouponsHook
  import opened OrdersHook

  /** `selectedCoupon ? selectedCoupon.discountAmount : 0`: no coupon takes nothing off. */
  function DiscountOf(coupon: Option<Coupon>): (d: int)
    ensures coupon.None? ==> d == 0
    ensures coupon.Some? ==> d == coupon.value.discountAmount
  {
    match coupon
    case Some(c) => c.discountAmount
    case None => 0
  }

  /**
   * `calculateFinalPrice`: nothing to pay without an order; otherwise the
   * total less the discount, never below zero.
   */
  function FinalPrice(order: Option<Order>, coupon: Option<Coupon>): (p: int)
    ensures p >= 0
    ensures order.None? ==> p == 0
    ensures order.Some? ==> p >= order.value.totalPrice - DiscountOf(coupon)
    ensures order.Some? ==> p == 0 || p == order.value.totalPrice - DiscountOf(coupon)
    ensures order.Some? && DiscountOf(coupon) <= order.value.totalPrice ==> p + DiscountOf(coupon) == order.value.totalPrice
    ensures order.Some? && DiscountOf(coupon) >= 0 && order.value.totalPrice >= 0 ==> p <= order.value.totalPrice
  {
    match order
    case None => 0
    case Some(o) =>
      var rest := o.totalPrice - DiscountOf(coupon);
      if rest > 0 then rest else 0
  }

  /**
   * `updatedOrder`: the order with the price before the coupon, the
   * coupon's discount and id recorded, and the final price as its total.
   */
  function Discounted(o: Order, c: Coupon): (r: Order)
    ensures r.id == o.id && r.userId == o.userId && r.status == o.status && r.items == o.items
    ensures r.originalPrice == Some(o.totalPrice) && r.couponDiscount == Some(c.discountAmount) && r.couponId == Some(c.id)
    ensures r.totalPrice >= 0
    ensures 0 <= c.discountAmount <= o.totalPrice ==> r.totalPrice + c.discountAmount == o.totalPrice
  {
    o.(originalPrice := Some(o.totalPrice), couponDiscount := Some(c.discountAmount), couponId := Some(c.id),
       totalPrice := FinalPrice(Some(o), Some(c)))
  }

  /** `orders.map(o => o.id === order.id ? updatedOrder : o)`. */
  function ReplaceOrder(os: seq<Order>, id: string, u: Order): (r: seq<Order>)
    ensures |r| == |os|
    ensures forall i :: 0 <= i < |os| ==> r[i] == if os[i].id == id then u else os[i]
  {
    if os == [] then [] else [if os[0].id == id then u else os[0]] + ReplaceOrder(os[1..], id, u)
  }

  /**
   * Replacing the order and then setting its status is replacing it with
   * the order in that status: the status update that follows payment
   * keeps the recorded discount.
   */
  lemma ReplaceThenStatus(os: seq<Order>, u: Order, status: Status)
    ensures StatusSet(ReplaceOrder(os, u.id, u), u.id, status) == ReplaceOrder(os, u.id, u.(status := status))
  {
    var a := StatusSet(ReplaceOrder(os, u.id, u), u.id, status);
    var b := ReplaceOrder(os, u.id, u.(status := status));
    assert |a| == |b|;
    forall i | 0 <= i < |a| ensures a[i] == b[i] {
    }
  }

  /** The key of the order's own shard, `orders_${order.userId}`. */
  function OrderShard(o: Order): string {
    OrdersPrefix + o.userId
  }

  /**
   * The rewrite of the order's shard: when it is stored and parses, the
   * order is replaced by its discounted form (and the shard is written
   * even if no order in it has the id); otherwise nothing is written.
   */
  function DiscountRecorded(m: map<string, Value>, o: Order, c: Coupon, accepted: bool): map<string, Value> {
    var k := OrderShard(o);
    if k in m && m[k].OrderList? then Written(m, k, OrderList(ReplaceOrder(m[k].orders, o.id, Discounted(o, c))), accepted) else m
  }

  /** The writes of the coupon branch: the wallet, then the order's shard if it is readable. */
  ghost function CouponWrites(m: map<string, Value>, walletKey: string, o: Order): seq<string> {
    [walletKey] + if OrderShard(o) in m && m[OrderShard(o)].OrderList? then [OrderShard(o)] else []
  }

  /** The entries after the coupon branch of `handlePay`: the coupon redeemed, then the discount recorded. */
  function CouponApplied(m: map<string, Value>, walletKey: string, wallet: seq<Coupon>, o: Order, coupon: Option<Coupon>,
                         accepted: bool): map<string, Value> {
    match coupon
    case None => m
    case Some(c) => DiscountRecorded(Written(m, walletKey, CouponList(Redeemed(wallet, c.id, o.id)), accepted), o, c, accepted)
  }

  /** The entries after `handlePay` for an order with an address chosen. */
  function Paid(m: map<string, Value>, walletKey: string, wallet: seq<Coupon>, o: Order, coupon: Option<Coupon>,
                accepted: bool): map<string, Value> {
    StatusWritten(CouponApplied(m, walletKey, wallet, o, coupon, accepted), o.id, AwaitingShipment, accepted)
  }

  /**
   * The coupon branch of `handlePay`: `useCoupon`, then the order's shard
   * rewritten with the discount when it is stored and parses.
   */
  method RecordCoupon(o: Order, c: Coupon, ledger: OrderLedger, wallet: CouponWallet)
    requires ledger.store == wallet.store
    modifies wallet, ledger.store
    ensures ledger.store.entries == CouponApplied(old(ledger.store.entries), wallet.Key(), old(wallet.coupons), o, Some(c), ledger.store.acceptsWrites)
    ensures ledger.store.writes == old(ledger.store.writes) + CouponWrites(old(ledger.store.entries), wallet.Key(), o)
    ensures wallet.coupons == if ledger.store.acceptsWrites then Redeemed(old(wallet.coupons), c.id, o.id) else old(wallet.coupons)
  {
    var store := ledger.store;
    ghost var m := store.entries;
    KeysApart(wallet.owner);
    var _ := wallet.UseCoupon(c.id, o.id);
    var k := OrderShard(o);
    assert IsOrdersKey(k) by {
      assert k[..|OrdersPrefix|] == OrdersPrefix;
    }
    assert (k in store.entries && store.entries[k].OrderList?) <==> (k in m && m[k].OrderList?);
    if k in store.entries && store.entries[k].OrderList? {
      var os := store.entries[k].orders;
      var _ := store.SetItem(k, OrderList(ReplaceOrder(os, o.id, Discounted(o, c))));
    }
  }

  /**
   * `handlePay`. Without an address or an order nothing happens. Otherwise
   * a selected coupon is redeemed against the order and the discount is
   * recorded in the order's shard, and then the order is set to await
   * shipment wherever it is stored. The page's address and order and the
   * two hooks are parameters; the toast and the navigation are left out.
   */
  method HandlePay(address: Option<Address>, order: Option<Order>, coupon: Option<Coupon>,
                   ledger: OrderLedger, wallet: CouponWallet)
    requires ledger.store == wallet.store
    modifies ledger, wallet, ledger.store
    ensures address.None? || order.None? ==>
      ledger.store.entries == old(ledger.store.entries) && ledger.store.writes == old(ledger.store.writes) &&
      ledger.orders == old(ledger.orders) && wallet.coupons == old(wallet.coupons)
    ensures address.Some? && order.Some? ==>
      var o := order.value;
      var pre := if coupon.Some? then CouponWrites(old(ledger.store.entries), wallet.Key(), o) else [];
      var base := |old(ledger.store.writes)| + |pre|;
      var mid := CouponApplied(old(ledger.store.entries), wallet.Key(), old(wallet.coupons), o, coupon, ledger.store.acceptsWrites);
      ledger.store.entries == Paid(old(ledger.store.entries), wallet.Key(), old(wallet.coupons), o, coupon, ledger.store.acceptsWrites) &&
      |ledger.store.writes| >= base && ledger.store.writes[..base] == old(ledger.store.writes) + pre &&
      (forall k :: k in ledger.store.writes[base..] <==> ShardNeedsWrite(mid, k, o.id, AwaitingShipment)) &&
      ledger.orders == StatusSet(old(ledger.orders), o.id, AwaitingShipment) &&
      wallet.coupons == if coupon.Some? && ledger.store.acceptsWrites then Redeemed(old(wallet.coupons), coupon.value.id, o.id) else old(wallet.coupons)
  {
    if address.None? || order.None? {
      return;
    }
    var o := order.value;
    if coupon.Some? {
      RecordCoupon(o, coupon.value, ledger, wallet);
    }
    ledger.UpdateOrderStatus(o.id, AwaitingShipment);
  }

  /**
   * After an accepted payment with a coupon, the order's readable shard
   * holds the discounted order awaiting shipment in place of every order
   * with its id, every other order of the shard is unchanged, and the
   * wallet holds the redeemed coupons.
   */
  lemma PaidRecordsDiscount(m: map<string, Value>, walletKey: string, wallet: seq<Coupon>, o: Order, c: Coupon)
    requires !IsOrdersKey(walletKey)
    requires OrderShard(o) in m && m[OrderShard(o)].OrderList?
    ensures var r := Paid(m, walletKey, wallet, o, Some(c), true);
      var k := OrderShard(o);
      var before := m[k].orders;
      k in r && r[k].OrderList? && |r[k].orders| == |before| &&
      (forall i :: 0 <= i < |before| ==>
        r[k].orders[i] == if before[i].id == o.id then Discounted(o, c).(status := AwaitingShipment) else before[i]) &&
      walletKey in r && r[walletKey] == CouponList(Redeemed(wallet, c.id, o.id))
  {
    var k := OrderShard(o);
    assert IsOrdersKey(k) by {
      assert k[..|OrdersPrefix|] == OrdersPrefix;
    }
    var m1 := Written(m, walletKey, CouponList(Redeemed(wallet, c.id, o.id)), true);
    var before := m[k].orders;
    assert m1[k] == m[k];
    var mid := CouponApplied(m, walletKey, wallet, o, Some(c), true);
    assert mid[k] == OrderList(ReplaceOrder(before, o.id, Discounted(o, c)));
    assert mid[walletKey] == CouponList(Redeemed(wallet, c.id, o.id));
    StatusWrittenEverywhere(mid, o.id, AwaitingShipment);
    ReplaceThenStatus(before, Discounted(o, c), AwaitingShipment);
  }

  /**
   * After an accepted payment, every stored copy of the order in a
   * readable `orders_` shard awaits shipment, whatever shard holds it.
   */
  lemma PaidAwaitsShipment(m: map<string, Value>, walletKey: string, wallet: seq<Coupon>, o: Order, coupon: Option<Coupon>)
    ensures var r := Paid(m, walletKey, wallet, o, coupon, true);
      forall k, x :: k in r && IsOrdersKey(k) && r[k].OrderList? && x in r[k].orders && x.id == o.id ==> x.status == AwaitingShipment
  {
    StatusWrittenSettles(CouponApplied(m, walletKey, wallet, o, coupon, true), o.id, AwaitingShipment);
  }

  /** Without a coupon, paying only sets the status: no price field of any stored order changes. */
  lemma PaidWithoutCoupon(m: map<string, Value>, walletKey: string, wallet: seq<Coupon>, o: Order)
    ensures var r := Paid(m, walletKey, wallet, o, None, true);
      forall k :: k in m ==> r[k] == if IsOrdersKey(k) && m[k].OrderList? then OrderList(StatusSet(m[k].orders, o.id, AwaitingShipment)) else m[k]
  {
    StatusWrittenEverywhere(m, o.id, AwaitingShipment);
  }
}
