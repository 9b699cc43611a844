/** The state of `useCart` over the shared store: the owner's lines under `cart_<owner>`. */
module CartHook {
  import opened Wrappers
  import opened Owners
  import opened Cart
  import opened Storage

  class ShoppingCart {
    const store: Store
    const owner: Option<string>
    var lines: seq<CartItem>

    /** `getCartKey`. */
    function Key(): string {
      ShardKey(CartPrefix, owner)
    }

    /** The hook's lines are what the store holds under the owner's key. */
    ghost predicate InSync()
      reads this, store
    {
      Key() in store.entries && store.entries[Key()] == CartList(lines)
    }

    /** The load: the stored lines; none stored reads as empty; lines that do not parse are removed. */
    constructor (store: Store, owner: Option<string>)
      modifies store
      ensures this.store == store && this.owner == owner
      ensures Key() !in old(store.entries) ==> lines == [] && store.entries == old(store.entries) && store.writes == old(store.writes)
      ensures Key() in old(store.entries) && old(store.entries)[Key()].CartList? ==>
        lines == old(store.entries)[Key()].lines && store.entries == old(store.entries) && store.writes == old(store.writes)
      ensures Key() in old(store.entries) && !old(store.entries)[Key()].CartList? ==>
        lines == [] && store.entries == old(store.entries) - {Key()} && store.writes == old(store.writes) + [Key()]
    {
      this.store := store;
      this.owner := owner;
      new;
      var key := ShardKey(CartPrefix, owner);
      if key in store.entries {
        match store.entries[key]
        case CartList(ls) => lines := ls;
        case _ =>
          store.RemoveItem(key);
          lines := [];
      } else {
        lines := [];
      }
    }

    /** `saveToStorage`. */
    method Save(ls: seq<CartItem>)
      modifies this, store
      ensures store.entries == Written(old(store.entries), Key(), CartList(ls), store.acceptsWrites)
      ensures store.writes == old(store.writes) + [Key()]
      ensures lines == if store.acceptsWrites then ls else old(lines)
      ensures store.acceptsWrites ==> InSync()
    {
      var ok := store.SetItem(Key(), CartList(ls));
      if ok {
        lines := ls;
      }
    }

    /** `addToCart`; a well-formed cart stays well formed. */
    method AddToCart(p: CartProduct)
      modifies this, store
      ensures store.entries == Written(old(store.entries), Key(), CartList(AddedToCart(old(lines), p)), store.acceptsWrites)
      ensures store.writes == old(store.writes) + [Key()]
      ensures lines == if store.acceptsWrites then AddedToCart(old(lines), p) else old(lines)
      ensures WellFormed(old(lines)) ==> WellFormed(lines)
    {
      if WellFormed(lines) {
        AddedKeepsWellFormed(lines, p);
      }
      Save(AddedToCart(lines, p));
    }

    /** `updateQuantity`: below one it is `removeItem`; a well-formed cart stays well formed. */
    method UpdateQuantity(id: int, n: int)
      modifies this, store
      ensures store.entries == Written(old(store.entries), Key(), CartList(QuantitySet(old(lines), id, n)), store.acceptsWrites)
      ensures store.writes == old(store.writes) + [Key()]
      ensures lines == if store.acceptsWrites then QuantitySet(old(lines), id, n) else old(lines)
      ensures WellFormed(old(lines)) ==> WellFormed(lines)
    {
      if WellFormed(lines) {
        QuantitySetKeepsWellFormed(lines, id, n);
      }
      if n < 1 {
        RemoveItem(id);
        return;
      }
      Save(QuantitySet(lines, id, n));
    }

    /** `toggleSelect`; a well-formed cart stays well formed. */
    method ToggleSelect(id: int)
      modifies this, store
      ensures store.entries == Written(old(store.entries), Key(), CartList(SelectionToggled(old(lines), id)), store.acceptsWrites)
      ensures store.writes == old(store.writes) + [Key()]
      ensures lines == if store.acceptsWrites then SelectionToggled(old(lines), id) else old(lines)
      ensures WellFormed(old(lines)) ==> WellFormed(lines)
    {
      if WellFormed(lines) {
        SelectionToggledKeepsWellFormed(lines, id);
      }
      Save(SelectionToggled(lines, id));
    }

    /** `removeItem`; a well-formed cart stays well formed. */
    method RemoveItem(id: int)
      modifies this, store
      ensures store.entries == Written(old(store.entries), Key(), CartList(LineRemoved(old(lines), id)), store.acceptsWrites)
      ensures store.writes == old(store.writes) + [Key()]
      ensures lines == if store.acceptsWrites then LineRemoved(old(lines), id) else old(lines)
      ensures WellFormed(old(lines)) ==> WellFormed(lines)
    {
      if WellFormed(lines) {
        LineRemovedKeepsWellFormed(lines, id);
      }
      Save(LineRemoved(lines, id));
    }

    /** `clearSelectedItems`; a well-formed cart stays well formed. */
    method ClearSelectedItems()
      modifies this, store
      ensures store.entries == Written(old(store.entries), Key(), CartList(SelectedCleared(old(lines))), store.acceptsWrites)
      ensures store.writes == old(store.writes) + [Key()]
      ensures lines == if store.acceptsWrites then SelectedCleared(old(lines)) else old(lines)
      ensures WellFormed(old(lines)) ==> WellFormed(lines)
    {
      if WellFormed(lines) {
        SelectedClearedKeepsWellFormed(lines);
      }
      Save(SelectedCleared(lines));
    }

    /** `clearCart`: the key is removed and the cart is empty. */
    method ClearCart()
      modifies this, store
      ensures store.entries == old(store.entries) - {Key()}
      ensures store.writes == old(store.writes) + [Key()]
      ensures lines == [] && Count(lines) == 0 && SelectedTotal(lines) == 0
    {
      store.RemoveItem(Key());
      lines := [];
    }
  }
}
