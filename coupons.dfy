/**
 * The coupons of useCoupons.ts as values: a generated coupon's percent and
 * amount, prepending it to the owner's list, redeeming it against an order,
 * and the available/used views.
 */
module Coupons {
  import opened Wrappers
  import opened Seqs
  import opened Owners

  datatype Coupon = Coupon(
    id: string,
    userId: string,
    discountPercent: int,
    discountAmount: int,
    originalAmount: int,
    isUsed: bool,
    createdAt: string,
    orderId: Option<string>)

  /**
   * `Math.floor(Math.random() * 13) + 3`, given the draw `r` from [0, 1):
   * always an integer from 3 to 15.
   */
  function Percent(r: real): (p: int)
    requires 0.0 <= r < 1.0
    ensures 3 <= p <= 15
  {
    var scaled := r * 13.0;
    assert 0.0 <= scaled < 13.0;
    scaled.Floor + 3
  }

  /** Every percent from 3 to 15 is drawn by some `r`. */
  lemma PercentCoversRange(p: int)
    requires 3 <= p <= 15
    ensures 0.0 <= (p - 3) as real / 13.0 < 1.0
    ensures Percent((p - 3) as real / 13.0) == p
  {
    var r := (p - 3) as real / 13.0;
    assert r * 13.0 == (p - 3) as real;
  }

  /**
   * `Math.floor(amount * percent / 100)`: the largest integer whose
   * hundredfold does not exceed `amount * percent`.
   */
  function DiscountFor(amount: int, percent: int): (d: int)
    ensures d * 100 <= amount * percent < d * 100 + 100
  {
    amount * percent / 100
  }

  /** For a non-negative amount and a percent from 0 to 100, the discount is between 0 and the amount. */
  lemma DiscountWithinAmount(amount: int, percent: int)
    requires amount >= 0 && 0 <= percent <= 100
    ensures 0 <= DiscountFor(amount, percent) <= amount
  {
    var d := DiscountFor(amount, percent);
    assert amount * percent <= amount * 100;
    assert 0 <= amount * percent;
  }

  /** The record `generateRandomCoupon` builds from the draw, the order amount and the given id and time. */
  function NewCoupon(id: string, owner: Option<string>, r: real, amount: int, createdAt: string): (c: Coupon)
    requires 0.0 <= r < 1.0
    ensures 3 <= c.discountPercent <= 15
    ensures c.discountAmount == DiscountFor(amount, c.discountPercent)
    ensures amount >= 0 ==> 0 <= c.discountAmount <= amount
    ensures c.originalAmount == amount && !c.isUsed && c.orderId.None?
    ensures c.userId == OwnerTag(owner)
  {
    var percent := Percent(r);
    assert amount >= 0 ==> 0 <= DiscountFor(amount, percent) <= amount by {
      if amount >= 0 {
        DiscountWithinAmount(amount, percent);
      }
    }
    Coupon(id, OwnerTag(owner), percent, DiscountFor(amount, percent), amount, false, createdAt, None)
  }

  /** `useCoupon`: the coupons with the id become used, for this order; no guard against reuse. */
  function Redeemed(coupons: seq<Coupon>, couponId: string, orderId: string): (r: seq<Coupon>)
    ensures |r| == |coupons|
    ensures forall i :: 0 <= i < |coupons| ==>
      r[i] == if coupons[i].id == couponId then coupons[i].(isUsed := true, orderId := Some(orderId)) else coupons[i]
  {
    Map(coupons, (c: Coupon) => if c.id == couponId then c.(isUsed := true, orderId := Some(orderId)) else c)
  }

  /** What `useCoupon` returns: the first redeemed coupon with the id, or nothing. */
  function RedeemResult(coupons: seq<Coupon>, couponId: string, orderId: string): (r: Option<Coupon>)
    ensures r.None? <==> forall c :: c in coupons ==> c.id != couponId
    ensures r.Some? ==> r.value.id == couponId && r.value.isUsed && r.value.orderId == Some(orderId)
    ensures r.Some? ==> exists c :: c in coupons && r.value == c.(isUsed := true, orderId := Some(orderId))
  {
    var after := Redeemed(coupons, couponId, orderId);
    assert forall c :: c in coupons && c.id == couponId ==> c.(isUsed := true, orderId := Some(orderId)) in after by {
      forall c | c in coupons && c.id == couponId
        ensures c.(isUsed := true, orderId := Some(orderId)) in after
      {
        var i :| 0 <= i < |coupons| && coupons[i] == c;
        assert after[i] == c.(isUsed := true, orderId := Some(orderId));
      }
    }
    Find(after, (c: Coupon) => c.id == couponId)
  }

  /** `getAvailableCoupons`. */
  function Available(coupons: seq<Coupon>): (r: seq<Coupon>)
    ensures forall c :: c in r <==> c in coupons && !c.isUsed
  {
    Filter(coupons, (c: Coupon) => !c.isUsed)
  }

  /** `getUsedCoupons`. */
  function Used(coupons: seq<Coupon>): (r: seq<Coupon>)
    ensures forall c :: c in r <==> c in coupons && c.isUsed
  {
    Filter(coupons, (c: Coupon) => c.isUsed)
  }

  /** The available and used views partition the list: every coupon is in exactly one, as often as stored. */
  lemma AvailableUsedPartition(coupons: seq<Coupon>)
    ensures multiset(Available(coupons)) + multiset(Used(coupons)) == multiset(coupons)
  {
    FilterMultiset(coupons, (c: Coupon) => !c.isUsed);
    FilterMultiset(coupons, (c: Coupon) => c.isUsed);
  }

  /** Redeeming never makes a used coupon available again, and leaves other coupons alone. */
  lemma RedeemNeverUnuses(coupons: seq<Coupon>, couponId: string, orderId: string)
    ensures forall c :: c in Used(coupons) && c.id != couponId ==> c in Used(Redeemed(coupons, couponId, orderId))
    ensures forall c :: c in Redeemed(coupons, couponId, orderId) && c.id == couponId ==> c in Used(Redeemed(coupons, couponId, orderId))
    ensures |Used(coupons)| <= |Used(Redeemed(coupons, couponId, orderId))|
  {
    var after := Redeemed(coupons, couponId, orderId);
    forall c | c in Used(coupons) && c.id != couponId ensures c in after {
      var i :| 0 <= i < |coupons| && coupons[i] == c;
      assert after[i] == c;
    }
    UsedCountGrows(coupons, couponId, orderId);
  }

  lemma {:induction false} UsedCountGrows(coupons: seq<Coupon>, couponId: string, orderId: string)
    ensures |Used(coupons)| <= |Used(Redeemed(coupons, couponId, orderId))|
  {
    if coupons != [] {
      UsedCountGrows(coupons[1..], couponId, orderId);
      var after := Redeemed(coupons, couponId, orderId);
      assert after[1..] == Redeemed(coupons[1..], couponId, orderId);
      assert Used(after) == (if after[0].isUsed then [after[0]] else []) + Used(after[1..]);
    }
  }

  /** With no guard, redeeming again against another order overwrites the recorded order. */
  lemma RedeemAgainOverwrites(coupons: seq<Coupon>, couponId: string, first: string, second: string)
    ensures Redeemed(Redeemed(coupons, couponId, first), couponId, second) == Redeemed(coupons, couponId, second)
  {
    var twice := Redeemed(Redeemed(coupons, couponId, first), couponId, second);
    assert forall i :: 0 <= i < |coupons| ==> twice[i] == Redeemed(coupons, couponId, second)[i];
  }
}
