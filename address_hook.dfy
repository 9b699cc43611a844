/** The state of `useAddress` over the shared store: the owner's book under `addresses_<owner>`. */
module AddressHook {
  import opened Wrappers
  import opened Owners
  import opened Addresses
  import opened Storage

  class AddressBook {
    const store: Store
    const owner: Option<string>
    var addresses: seq<Address>

    /** `getAddressKey`. */
    function Key(): string {
      ShardKey(AddressesPrefix, owner)
    }

    /** The hook's list is what the store holds under the owner's key. */
    ghost predicate InSync()
      reads this, store
    {
      Key() in store.entries && store.entries[Key()] == AddressList(addresses)
    }

    /** The load: the stored book, or an empty one when none is stored or it does not parse. */
    constructor (store: Store, owner: Option<string>)
      ensures this.store == store && this.owner == owner
      ensures addresses == if Key() in store.entries && store.entries[Key()].AddressList? then store.entries[Key()].addresses else []
    {
      this.store := store;
      this.owner := owner;
      new;
      var key := ShardKey(AddressesPrefix, owner);
      if key in store.entries && store.entries[key].AddressList? {
        addresses := store.entries[key].addresses;
      } else {
        addresses := [];
      }
    }

    /** `saveToStorage`. */
    method Save(book: seq<Address>)
      modifies this, store
      ensures store.entries == Written(old(store.entries), Key(), AddressList(book), store.acceptsWrites)
      ensures store.writes == old(store.writes) + [Key()]
      ensures addresses == if store.acceptsWrites then book else old(addresses)
      ensures store.acceptsWrites ==> InSync()
    {
      var ok := store.SetItem(Key(), AddressList(book));
      if ok {
        addresses := book;
      }
    }

    /** `addAddress`; at most one default address before means at most one after. */
    method AddAddress(id: string, d: AddressDraft)
      modifies this, store
      ensures store.entries == Written(old(store.entries), Key(), AddressList(WithAddress(old(addresses), id, d)), store.acceptsWrites)
      ensures store.writes == old(store.writes) + [Key()]
      ensures addresses == if store.acceptsWrites then WithAddress(old(addresses), id, d) else old(addresses)
      ensures AtMostOneDefault(old(addresses)) ==> AtMostOneDefault(addresses)
    {
      if AtMostOneDefault(addresses) {
        WithAddressKeepsOneDefault(addresses, id, d);
      }
      Save(WithAddress(addresses, id, d));
    }

    /** `updateAddress`; with distinct ids, at most one default address before means at most one after. */
    method UpdateAddress(id: string, u: AddressPatch)
      modifies this, store
      ensures store.entries == Written(old(store.entries), Key(), AddressList(Updated(old(addresses), id, u)), store.acceptsWrites)
      ensures store.writes == old(store.writes) + [Key()]
      ensures addresses == if store.acceptsWrites then Updated(old(addresses), id, u) else old(addresses)
      ensures AtMostOneDefault(old(addresses)) && DistinctIds(old(addresses)) ==> AtMostOneDefault(addresses)
    {
      if AtMostOneDefault(addresses) && DistinctIds(addresses) {
        UpdatedKeepsOneDefault(addresses, id, u);
      }
      Save(Updated(addresses, id, u));
    }

    /** `deleteAddress`. */
    method DeleteAddress(id: string)
      modifies this, store
      ensures store.entries == Written(old(store.entries), Key(), AddressList(Removed(old(addresses), id)), store.acceptsWrites)
      ensures store.writes == old(store.writes) + [Key()]
      ensures addresses == if store.acceptsWrites then Removed(old(addresses), id) else old(addresses)
    {
      Save(Removed(addresses, id));
    }
  }
}
