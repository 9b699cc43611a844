/**
 * The address book of useAddress.ts as values: add, update and delete
 * over one owner's list, and the default-address lookup, with the
 * invariant that at most one address is the default.
 */
module Addresses {
  import opened Wrappers
  import opened Seqs

  datatype Address = Address(id: string, name: string, phone: string, address: string, isDefault: bool)

  /** What `addAddress` receives: an address without its id. */
  datatype AddressDraft = AddressDraft(name: string, phone: string, address: string, isDefault: bool)

  /** A `Partial<Address>`. */
  datatype AddressPatch = AddressPatch(
    id: Option<string>,
    name: Option<string>,
    phone: Option<string>,
    address: Option<string>,
    isDefault: Option<bool>)

  ghost predicate AtMostOneDefault(book: seq<Address>) {
    forall i, j :: 0 <= i < j < |book| && book[i].isDefault ==> !book[j].isDefault
  }

  ghost predicate DistinctIds(book: seq<Address>) {
    forall i, j :: 0 <= i < j < |book| ==> book[i].id != book[j].id
  }

  /** Every address with its default flag cleared. */
  function DefaultsCleared(book: seq<Address>): (r: seq<Address>)
    ensures |r| == |book|
    ensures forall i :: 0 <= i < |book| ==> r[i] == book[i].(isDefault := false)
  {
    Map(book, (a: Address) => a.(isDefault := false))
  }

  /**
   * `addAddress`: the new address goes at the end; when it is the default,
   * every earlier address loses the flag and is otherwise unchanged.
   */
  function WithAddress(book: seq<Address>, id: string, d: AddressDraft): (r: seq<Address>)
    ensures |r| == |book| + 1
    ensures r[|book|] == Address(id, d.name, d.phone, d.address, d.isDefault)
    ensures forall i :: 0 <= i < |book| ==> r[i] == if d.isDefault then book[i].(isDefault := false) else book[i]
  {
    (if d.isDefault then DefaultsCleared(book) else book) + [Address(id, d.name, d.phone, d.address, d.isDefault)]
  }

  /** `{ ...addr, ...updates }`. */
  function Patch(a: Address, u: AddressPatch): Address {
    Address(u.id.GetOr(a.id), u.name.GetOr(a.name), u.phone.GetOr(a.phone), u.address.GetOr(a.address),
            u.isDefault.GetOr(a.isDefault))
  }

  /**
   * `updateAddress`: the patch goes to the addresses with the id; when the
   * patch makes it the default, every address whose (patched) id differs
   * loses the flag.
   */
  function Updated(book: seq<Address>, id: string, u: AddressPatch): (r: seq<Address>)
    ensures |r| == |book|
    ensures forall i :: 0 <= i < |book| ==>
      var a := if book[i].id == id then Patch(book[i], u) else book[i];
      r[i] == if u.isDefault == Some(true) && a.id != id then a.(isDefault := false) else a
  {
    var patched := Map(book, (a: Address) => if a.id == id then Patch(a, u) else a);
    if u.isDefault == Some(true) then Map(patched, (a: Address) => if a.id == id then a else a.(isDefault := false))
    else patched
  }

  /** `deleteAddress`: exactly the addresses with another id remain. */
  function Removed(book: seq<Address>, id: string): (r: seq<Address>)
    ensures forall a :: a in r <==> a in book && a.id != id
    ensures forall a :: multiset(r)[a] == if a.id != id then multiset(book)[a] else 0
  {
    FilterMultiset(book, (a: Address) => a.id != id);
    Filter(book, (a: Address) => a.id != id)
  }

  /** Deleting keeps the other addresses in order: deleting from a concatenation deletes from each part. */
  lemma RemovedKeepsOrder(a: seq<Address>, b: seq<Address>, id: string)
    ensures Removed(a + b, id) == Removed(a, id) + Removed(b, id)
  {
    FilterConcat(a, b, (x: Address) => x.id != id);
  }

  /** Deleting keeps at most one default address. */
  lemma {:induction false} RemovedKeepsOneDefault(book: seq<Address>, id: string)
    requires AtMostOneDefault(book)
    ensures AtMostOneDefault(Removed(book, id))
  {
    if book != [] {
      var rest := Removed(book[1..], id);
      RemovedKeepsOneDefault(book[1..], id);
      if book[0].id != id && book[0].isDefault {
        forall x | x in rest ensures !x.isDefault {
          var k :| 0 <= k < |book[1..]| && book[1..][k] == x;
          assert book[k + 1] == x;
        }
      }
    }
  }

  /** `getDefaultAddress`: the first default address, else the first address, else nothing. */
  function DefaultOf(book: seq<Address>): (r: Option<Address>)
    ensures book == [] <==> r.None?
    ensures r.Some? && r.value.isDefault ==> r.value in book
    ensures r.Some? && r.value.isDefault ==>
      exists i :: 0 <= i < |book| && book[i] == r.value && forall j :: 0 <= j < i ==> !book[j].isDefault
    ensures (exists a :: a in book && a.isDefault) ==> r.Some? && r.value.isDefault
    ensures (forall a :: a in book ==> !a.isDefault) && book != [] ==> r == Some(book[0])
  {
    match Find(book, (a: Address) => a.isDefault)
    case Some(a) => Some(a)
    case None => if book == [] then None else Some(book[0])
  }

  /** Adding keeps at most one default address. */
  lemma WithAddressKeepsOneDefault(book: seq<Address>, id: string, d: AddressDraft)
    requires AtMostOneDefault(book)
    ensures AtMostOneDefault(WithAddress(book, id, d))
  {
    var r := WithAddress(book, id, d);
    forall i, j | 0 <= i < j < |r| && r[i].isDefault ensures !r[j].isDefault {
      assert !d.isDefault;
      assert r[i] == book[i];
      if j < |book| {
        assert r[j] == book[j];
      } else {
        assert r[j].isDefault == d.isDefault;
      }
    }
  }

  /** After adding a default address, it is the one the lookup returns. */
  lemma AddedDefaultIsFound(book: seq<Address>, id: string, d: AddressDraft)
    requires d.isDefault
    ensures DefaultOf(WithAddress(book, id, d)) == Some(Address(id, d.name, d.phone, d.address, true))
  {
    var r := WithAddress(book, id, d);
    var p := (a: Address) => a.isDefault;
    assert NoneBefore(r, p, |book|);
    FindIsFirst(r, p, |book|);
  }

  /** With distinct ids, updating keeps at most one default address. */
  lemma UpdatedKeepsOneDefault(book: seq<Address>, id: string, u: AddressPatch)
    requires AtMostOneDefault(book) && DistinctIds(book)
    ensures AtMostOneDefault(Updated(book, id, u))
  {
    var r := Updated(book, id, u);
    forall i, j | 0 <= i < j < |r| && r[i].isDefault ensures !r[j].isDefault {
      if u.isDefault == Some(true) {
        // the flag survives only on the address carrying `id`, and ids are distinct
        assert book[i].id == id;
        assert book[j].id != id;
      } else {
        if book[i].id != id && book[j].id != id {
          assert r[i] == book[i] && r[j] == book[j];
        }
      }
    }
  }

  /** Making an address the default through update clears every other address's flag. */
  lemma UpdatedDefaultIsOnlyDefault(book: seq<Address>, id: string, u: AddressPatch)
    requires u.isDefault == Some(true)
    ensures forall a :: a in Updated(book, id, u) && a.id != id ==> !a.isDefault
  {
  }

  /**
   * Distinct ids are needed: two addresses sharing the id both become the
   * default when the patch sets the flag.
   */
  lemma UpdatedSharedIdGivesTwoDefaults()
    ensures var book := [Address("a", "n", "p", "x", false), Address("a", "n", "p", "y", false)];
            !AtMostOneDefault(Updated(book, "a", AddressPatch(None, None, None, None, Some(true))))
  {
    var book := [Address("a", "n", "p", "x", false), Address("a", "n", "p", "y", false)];
    var r := Updated(book, "a", AddressPatch(None, None, None, None, Some(true)));
    assert r[0].isDefault && r[1].isDefault;
  }
}
