/**
 * The order page of Order.tsx: confirming receipt of a shipped order
 * completes it and credits its total to the user's points.
 */
module OrderPage {
  import opened Wrappers
  import opened Owners
  import opened Orders
  import opened Storage
  import opened OrdersHook

  /**
   * The confirm button is shown only for an order that has shipped: never
   * for one still to be paid or shipped, and never again once completed.
   */
  function ConfirmOffered(o: Order): (offered: bool)
    ensures offered ==> o.status != PendingPayment && o.status != AwaitingShipment && o.status != Completed
  {
    o.status == Shipped
  }

  /**
   * `points + order.totalPrice` written back as text: nothing stored counts
   * as 0 points; text that `parseInt` cannot read gives `NaN`, which stays
   * `NaN` whatever is added.
   */
  function CreditedPoints(stored: Option<Value>, total: int): (r: Value)
    ensures r.PointsText? || r.Unparseable?
    ensures r.PointsText? <==> stored.None? || stored.value.PointsText?
    ensures stored.None? ==> r == PointsText(total)
    ensures stored.Some? && stored.value.PointsText? ==> r.points - total == stored.value.points
  {
    match stored
    case None => PointsText(total)
    case Some(PointsText(n)) => PointsText(n + total)
    case Some(_) => Unparseable
  }

  /** Crediting twice is crediting the sum once. */
  lemma CreditAdds(stored: Option<Value>, a: int, b: int)
    ensures CreditedPoints(Some(CreditedPoints(stored, a)), b) == CreditedPoints(stored, a + b)
  {
  }

  /** The key of the user's points, `points_${user.id}`. */
  function PointsKey(userId: string): (k: string)
    ensures k == ShardKey(PointsPrefix, Some(userId))
  {
    PointsPrefix + userId
  }

  /** The entries after `handleConfirmReceipt`: the order completed everywhere, then the points credited. */
  function Confirmed(m: map<string, Value>, o: Order, userId: string, accepted: bool): map<string, Value> {
    var done := StatusWritten(m, o.id, Completed, accepted);
    var k := PointsKey(userId);
    Written(done, k, CreditedPoints(if k in done then Some(done[k]) else None, o.totalPrice), accepted)
  }

  /**
   * `handleConfirmReceipt`: without an order or a signed-in user nothing
   * happens; otherwise the order is completed wherever it is stored and
   * its total is added to the user's points. The page's order and user are
   * parameters; the toast is left out.
   */
  method HandleConfirmReceipt(order: Option<Order>, user: Option<string>, ledger: OrderLedger)
    modifies ledger, ledger.store
    ensures order.None? || user.None? ==>
      ledger.store.entries == old(ledger.store.entries) && ledger.store.writes == old(ledger.store.writes) && ledger.orders == old(ledger.orders)
    ensures order.Some? && user.Some? ==>
      var o := order.value;
      ledger.store.entries == Confirmed(old(ledger.store.entries), o, user.value, ledger.store.acceptsWrites) &&
      |ledger.store.writes| >= |old(ledger.store.writes)| + 1 &&
      ledger.store.writes[..|old(ledger.store.writes)|] == old(ledger.store.writes) &&
      (forall k :: k in ledger.store.writes[|old(ledger.store.writes)|..|ledger.store.writes| - 1] <==> ShardNeedsWrite(old(ledger.store.entries), k, o.id, Completed)) &&
      ledger.store.writes[|ledger.store.writes| - 1] == PointsKey(user.value) &&
      ledger.orders == StatusSet(old(ledger.orders), o.id, Completed)
  {
    if order.None? || user.None? {
      return;
    }
    var o := order.value;
    var store := ledger.store;
    ledger.UpdateOrderStatus(o.id, Completed);
    ghost var w1 := store.writes;
    var k := PointsKey(user.value);
    var current := if k in store.entries then Some(store.entries[k]) else None;
    var _ := store.SetItem(k, CreditedPoints(current, o.totalPrice));
    assert store.writes[..|w1|] == w1;
  }

  /**
   * After an accepted confirmation every stored copy of the order is
   * completed, so the page no longer offers to confirm it, and the user's
   * points are credited with its total exactly once: the status update
   * does not touch the points key.
   */
  lemma ConfirmedOnce(m: map<string, Value>, o: Order, userId: string)
    ensures var r := Confirmed(m, o, userId, true);
      var k := PointsKey(userId);
      (forall j, x :: j in r && IsOrdersKey(j) && r[j].OrderList? && x in r[j].orders && x.id == o.id ==> !ConfirmOffered(x)) &&
      k in r && r[k] == CreditedPoints(if k in m then Some(m[k]) else None, o.totalPrice)
  {
    var done := StatusWritten(m, o.id, Completed, true);
    var k := PointsKey(userId);
    KeysApart(Some(userId));
    assert !IsOrdersKey(k);
    assert (k in done <==> k in m) && (k in m ==> done[k] == m[k]);
    StatusWrittenSettles(m, o.id, Completed);
    var r := Confirmed(m, o, userId, true);
    forall j | j in r && IsOrdersKey(j) ensures j in done && r[j] == done[j] {
      assert j != k;
    }
  }

  /**
   * Confirming the same order twice credits its total twice: the guard
   * against it is only that the button is hidden once the order is no
   * longer shipped.
   */
  lemma ConfirmTwiceCreditsTwice(m: map<string, Value>, o: Order, userId: string)
    ensures var k := PointsKey(userId);
      var twice := Confirmed(Confirmed(m, o, userId, true), o, userId, true);
      k in twice && twice[k] == CreditedPoints(if k in m then Some(m[k]) else None, o.totalPrice + o.totalPrice)
  {
    var k := PointsKey(userId);
    var once := Confirmed(m, o, userId, true);
    ConfirmedOnce(m, o, userId);
    ConfirmedOnce(once, o, userId);
    CreditAdds(if k in m then Some(m[k]) else None, o.totalPrice, o.totalPrice);
  }
}
