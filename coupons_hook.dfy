/** The state of `useCoupons` over the shared store: the owner's coupons under `coupons_<owner>`. */
module CouponsHook {
  import opened Wrappers
  import opened Owners
  import opened Coupons
  import opened Storage

  class CouponWallet {
    const store: Store
    const owner: Option<string>
    var coupons: seq<Coupon>

    /** `getCouponsKey`. */
    function Key(): string {
      ShardKey(CouponsPrefix, owner)
    }

    /** The hook's list is what the store holds under the owner's key. */
    ghost predicate InSync()
      reads this, store
    {
      Key() in store.entries && store.entries[Key()] == CouponList(coupons)
    }

    /** The load: the stored coupons, or none when nothing is stored or it does not parse. */
    constructor (store: Store, owner: Option<string>)
      ensures this.store == store && this.owner == owner
      ensures coupons == if Key() in store.entries && store.entries[Key()].CouponList? then store.entries[Key()].coupons else []
    {
      this.store := store;
      this.owner := owner;
      new;
      var key := ShardKey(CouponsPrefix, owner);
      if key in store.entries && store.entries[key].CouponList? {
        coupons := store.entries[key].coupons;
      } else {
        coupons := [];
      }
    }

    /** `saveToStorage`. */
    method Save(cs: seq<Coupon>)
      modifies this, store
      ensures store.entries == Written(old(store.entries), Key(), CouponList(cs), store.acceptsWrites)
      ensures store.writes == old(store.writes) + [Key()]
      ensures coupons == if store.acceptsWrites then cs else old(coupons)
      ensures store.acceptsWrites ==> InSync()
    {
      var ok := store.SetItem(Key(), CouponList(cs));
      if ok {
        coupons := cs;
      }
    }

    /**
     * `generateRandomCoupon`, given the random draw `r`, the id and the
     * time: the new coupon goes in front of the existing ones.
     */
    method GenerateRandomCoupon(id: string, r: real, amount: int, createdAt: string) returns (c: Coupon)
      requires 0.0 <= r < 1.0
      modifies this, store
      ensures c == NewCoupon(id, owner, r, amount, createdAt)
      ensures store.entries == Written(old(store.entries), Key(), CouponList([c] + old(coupons)), store.acceptsWrites)
      ensures store.writes == old(store.writes) + [Key()]
      ensures coupons == if store.acceptsWrites then [c] + old(coupons) else old(coupons)
    {
      c := NewCoupon(id, owner, r, amount, createdAt);
      Save([c] + coupons);
    }

    /** `useCoupon`: the answer is the redeemed coupon, whether or not the store takes the write. */
    method UseCoupon(couponId: string, orderId: string) returns (r: Option<Coupon>)
      modifies this, store
      ensures r == RedeemResult(old(coupons), couponId, orderId)
      ensures store.entries == Written(old(store.entries), Key(), CouponList(Redeemed(old(coupons), couponId, orderId)), store.acceptsWrites)
      ensures store.writes == old(store.writes) + [Key()]
      ensures coupons == if store.acceptsWrites then Redeemed(old(coupons), couponId, orderId) else old(coupons)
    {
      var next := Redeemed(coupons, couponId, orderId);
      r := RedeemResult(coupons, couponId, orderId);
      Save(next);
    }
  }
}
