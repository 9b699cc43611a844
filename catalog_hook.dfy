/** The state of `useProducts` over the shared store: the catalog under `products`. */
module CatalogHook {
  import opened Catalog
  import opened Storage

  class ProductCatalog {
    const store: Store
    var products: seq<Product>

    /** The hook's list is what the store holds. */
    ghost predicate InSync()
      reads this, store
    {
      ProductsKey in store.entries && store.entries[ProductsKey] == ProductList(products)
    }

    /**
     * The load: a stored catalog is used as is; with none stored the seed
     * is used and written; a catalog that does not parse falls back to the
     * seed without a write.
     */
    constructor (store: Store)
      modifies store
      ensures this.store == store
      ensures ProductsKey !in old(store.entries) ==>
        products == Seed() &&
        store.entries == Written(old(store.entries), ProductsKey, ProductList(Seed()), store.acceptsWrites) &&
        store.writes == old(store.writes) + [ProductsKey]
      ensures ProductsKey in old(store.entries) ==>
        store.entries == old(store.entries) && store.writes == old(store.writes) &&
        products == match old(store.entries[ProductsKey]) { case ProductList(ps) => ps case _ => Seed() }
    {
      this.store := store;
      new;
      if ProductsKey in store.entries {
        match store.entries[ProductsKey]
        case ProductList(ps) => products := ps;
        case _ => products := Seed();
      } else {
        products := Seed();
        var _ := store.SetItem(ProductsKey, ProductList(Seed()));
      }
    }

    /** `saveToStorage`: the state follows the store only when the write is accepted. */
    method Save(ps: seq<Product>)
      modifies this, store
      ensures store.entries == Written(old(store.entries), ProductsKey, ProductList(ps), store.acceptsWrites)
      ensures store.writes == old(store.writes) + [ProductsKey]
      ensures products == if store.acceptsWrites then ps else old(products)
      ensures store.acceptsWrites ==> InSync()
    {
      var ok := store.SetItem(ProductsKey, ProductList(ps));
      if ok {
        products := ps;
      }
    }

    /** `addProduct`; distinct ids stay distinct. */
    method AddProduct(d: ProductDraft)
      modifies this, store
      ensures store.entries == Written(old(store.entries), ProductsKey, ProductList(Added(old(products), d)), store.acceptsWrites)
      ensures store.writes == old(store.writes) + [ProductsKey]
      ensures products == if store.acceptsWrites then Added(old(products), d) else old(products)
      ensures DistinctIds(old(products)) ==> DistinctIds(products)
    {
      if DistinctIds(products) {
        AddedKeepsIdsDistinct(products, d);
      }
      Save(Added(products, d));
    }

    /** `updateProduct`. */
    method UpdateProduct(id: int, u: ProductPatch)
      modifies this, store
      ensures store.entries == Written(old(store.entries), ProductsKey, ProductList(Patched(old(products), id, u)), store.acceptsWrites)
      ensures store.writes == old(store.writes) + [ProductsKey]
      ensures products == if store.acceptsWrites then Patched(old(products), id, u) else old(products)
    {
      Save(Patched(products, id, u));
    }

    /** `deleteProduct`. */
    method DeleteProduct(id: int)
      modifies this, store
      ensures store.entries == Written(old(store.entries), ProductsKey, ProductList(Deleted(old(products), id)), store.acceptsWrites)
      ensures store.writes == old(store.writes) + [ProductsKey]
      ensures products == if store.acceptsWrites then Deleted(old(products), id) else old(products)
    {
      Save(Deleted(products, id));
    }
  }
}
