# A verified model of the shop's data hooks

This project models the persistence and consistency layer of a small
single-page shop. Six React hooks keep the shop's records in the
browser's `localStorage`, one string-keyed store that every hook shares:

- `useProducts` keeps the product catalog under `products`.
- `useUsers` keeps the user directory under `registered_users`.
- `useAddress`, `useCart`, `useCoupons` and `useOrders` keep one shard
  per owner under `addresses_<id>`, `cart_<id>`, `coupons_<id>` and
  `orders_<id>`. A visitor who is not signed in uses the `_guest` shard.

Two page handlers act on these records. Paying on the checkout page
redeems the chosen coupon, records the discount on the order and marks
it awaiting shipment. Confirming receipt on the order page completes the
order and credits its total to the user's points under `points_<id>`.

The model follows the code's structure:

- `Storage` is the store. It is a class holding a map from key to a
  parsed value, a ghost log of the keys written, and a flag saying
  whether writes are accepted. When the flag is false the quota is
  exhausted: every `setItem` throws and changes nothing.
- One pure module per hook holds the records and the list transforms
  the hook applies, with lemmas about them: `Catalog`, `Accounts`,
  `Addresses`, `Cart`, `Coupons` and `Orders`.
- One class per hook holds the hook's state list and the shared store:
  `CatalogHook`, `UsersHook`, `AddressHook`, `CartHook`, `CouponsHook`
  and `OrdersHook`. Each method rewrites the owner's key and states the
  exact new entries, the keys it wrote and the new state list.
- `Checkout` and `OrderPage` hold the two page handlers. Each takes the
  page's state as parameters and the hooks it calls as objects.
- `Owners` holds the shard naming. `Seqs`, `Sorting` and `Wrappers` are
  generic helpers: `filter`, `map` and `find`, a stable sort, and
  `Option`.

Where the hooks' documentation and their code disagree, the model
follows the code:

- Redeeming a coupon that is already used is not a no-op. The code
  marks it used again and overwrites its order id (`Coupons.RedeemAgainOverwrites`).
- `createOrder` returns the new id even when the store refuses the write.
- The sales counter of an ordered product rises by `quantity || 1`, so
  a zero quantity counts as one unit.
- The points write in `handleConfirmReceipt` is not inside a `try`. A
  refused write changes nothing in the store either way.

## Model

| member | source | states |
|---|---|---|
| Owners.ShardKey | src/hooks/useAddress.ts:17-19 | the shard key starts with the prefix and ends with the user's id, or with `guest` when nobody is signed in |
| Owners.OwnerTag | src/hooks/useOrders.ts:103 | the owner stamped on a record is never empty: it is the user's id when that is non-empty, otherwise `guest` |
| Owners.ShardKeyInjective | src/hooks/useCart.ts:19-21 | two distinct signed-in users never share a shard |
| Owners.GuestShardCollides | src/hooks/useCoupons.ts:19-21 | the guest's shard is the same key as that of a user whose id is literally `guest` |
| Storage.Written | src/hooks/useCart.ts:44-53 | an accepted write stores the value under the key; every other key is unchanged; a refused write changes nothing |
| Storage.OrderKeys | src/hooks/useOrders.ts:33 | the keys scanned are exactly the stored keys that start with `orders_` |
| Storage.KeysApart | src/hooks/useOrders.ts:123 | every owner's order shard is scanned; the products, users, cart, address, coupon and points keys never are |
| Storage.Store.SetItem | src/hooks/useCart.ts:48 | a write stores the value exactly when the store accepts writes, and is logged |
| Storage.Store.RemoveItem | src/hooks/useCart.ts:103-108 | the key is gone, nothing else changes, and the removal is logged |
| Catalog.Seeded | src/hooks/useProducts.ts:17-277 | a seeded product is active, has sold nothing, and has the given id |
| Catalog.SeedProduct | src/hooks/useProducts.ts:17-277 | seed entry `id` (1 to 20) is active, has sold nothing, and has that id |
| Catalog.SeedFacts | src/hooks/useProducts.ts:17-277 | the seed has 20 products with ids 1 to 20 in order, all active and all at zero sales |
| Catalog.MaxId | src/hooks/useProducts.ts:307 | `Math.max(...ids, 0)` is at least 0 and at least every id, and it is 0 or some product's id |
| Catalog.Added | src/hooks/useProducts.ts:306-310 | the catalog is kept as a prefix; the draft is appended under the id one above the largest existing id (or 1 for an empty catalog), so the new id is greater than every existing id |
| Catalog.AddedKeepsIdsDistinct | src/hooks/useProducts.ts:306-310 | adding a product never creates a duplicate id |
| Catalog.Patched | src/hooks/useProducts.ts:312-317 | the length and order are kept; products with the id are patched and every other product is identical |
| Catalog.Deleted | src/hooks/useProducts.ts:319-322 | exactly the products with another id remain |
| Catalog.DeletedExactly | src/hooks/useProducts.ts:319-322 | each other product keeps its multiplicity, and deletion distributes over concatenation, so order is kept |
| Catalog.IndexOfId | src/hooks/useProducts.ts:325 | the index of the first product with the id, or none when no product has it |
| Catalog.ById | src/hooks/useProducts.ts:324-326 | some stored product with the id, and nothing exactly when no product has it |
| Catalog.Listed | src/hooks/useProducts.ts:328-331 | each active product of the category (any category for `all`) keeps its multiplicity, and every other product is dropped |
| Catalog.ListedKeepsOrder | src/hooks/useProducts.ts:328-331 | the listing distributes over concatenation, so the listed products keep the catalog's order |
| Catalog.RankedBySales | src/hooks/useProducts.ts:333-339 | the ranking has as many products as the listing |
| Catalog.RankedBySalesSpec | src/hooks/useProducts.ts:333-339 | the sorted listing is ordered by sales descending (missing sales read as 0), is a permutation of the listing, and keeps the listing's order among equal sales |
| CatalogHook.ProductCatalog.constructor | src/hooks/useProducts.ts:282-295 | with no catalog stored, the seed is written and used; a stored catalog is used; one that does not parse gives the seed without a write |
| CatalogHook.ProductCatalog.Save | src/hooks/useProducts.ts:297-304 | the catalog is written, and the state follows only when the write is accepted |
| CatalogHook.ProductCatalog.AddProduct | src/hooks/useProducts.ts:306-310 | the added catalog is written, and distinct ids stay distinct |
| CatalogHook.ProductCatalog.UpdateProduct | src/hooks/useProducts.ts:312-317 | the patched catalog is written |
| CatalogHook.ProductCatalog.DeleteProduct | src/hooks/useProducts.ts:319-322 | the catalog without the id is written |
| Accounts.AdminSeed | src/hooks/useUsers.ts:22-35 | the seed directory is one active administrator, `admin_1` with email `admin@mall.com` |
| Accounts.EmailTaken | src/hooks/useUsers.ts:54 | an email is taken exactly when some account has exactly that email (case-sensitive) |
| Accounts.Registered | src/hooks/useUsers.ts:52-71 | registration succeeds exactly when the email is free; a refusal leaves the directory unchanged; a success appends one active user-role account with the given details |
| Accounts.RegisteredKeepsEmailsUnique | src/hooks/useUsers.ts:52-71 | registration keeps emails pairwise distinct |
| Accounts.LoginMatch | src/hooks/useUsers.ts:73-76 | the match is a stored, active account with that email and password, and there is none exactly when no such account exists |
| Accounts.InactiveCannotLogIn | src/hooks/useUsers.ts:73-76 | an email whose accounts are all inactive cannot log in, even with the right password |
| Accounts.RoleUpdated | src/hooks/useUsers.ts:78-83 | only the role of accounts with the id changes |
| Accounts.StatusToggled | src/hooks/useUsers.ts:85-90 | only the active flag of accounts with the id flips |
| Accounts.ToggleTwiceRestores | src/hooks/useUsers.ts:85-90 | toggling twice restores the directory |
| UsersHook.UserDirectory.constructor | src/hooks/useUsers.ts:17-41 | with no directory stored, the admin seed is written and used, or the directory is empty if the write is refused; a stored directory is used; one that does not parse reads as empty |
| UsersHook.UserDirectory.Save | src/hooks/useUsers.ts:43-50 | the directory is written, and the state follows only when the write is accepted |
| UsersHook.UserDirectory.RegisterUser | src/hooks/useUsers.ts:52-71 | the answer is true exactly when the email is free; a refusal writes nothing; a success writes the appended directory and answers true even if the write is refused |
| UsersHook.UserDirectory.UpdateUserRole | src/hooks/useUsers.ts:78-83 | the directory with the role updated is written |
| UsersHook.UserDirectory.ToggleUserStatus | src/hooks/useUsers.ts:85-90 | the directory with the flag toggled is written |
| UsersHook.UserOrderCount | src/hooks/useUsers.ts:92-99 | the count is read from the user's own `orders_` shard: its length, or 0 when it is absent or does not parse |
| UsersHook.OrderCountOfLedger | src/hooks/useUsers.ts:92-99 | for an orders hook in step with the store, the user's count is the number of orders that hook holds for the user |
| UsersHook.OrderCountAfterCreate | src/hooks/useUsers.ts:92-99 | a new order written to a user's shard raises that user's count by one and leaves every other user's count unchanged |
| Addresses.DefaultsCleared | src/hooks/useAddress.ts:52-54 | every address is kept, with its default flag cleared |
| Addresses.WithAddress | src/hooks/useAddress.ts:44-57 | the new address is appended; earlier ones lose their default flag if the new one is default, and are otherwise unchanged |
| Addresses.Updated | src/hooks/useAddress.ts:59-72 | only the address with the id is patched; when the patch makes it default, every other address's flag is cleared |
| Addresses.Removed | src/hooks/useAddress.ts:74-77 | each address with another id keeps its multiplicity, and the addresses with the id are dropped |
| Addresses.RemovedKeepsOrder | src/hooks/useAddress.ts:74-77 | removal distributes over concatenation, so the remaining addresses keep their order |
| Addresses.RemovedKeepsOneDefault | src/hooks/useAddress.ts:74-77 | removing keeps at most one default address |
| Addresses.DefaultOf | src/hooks/useAddress.ts:79-81 | nothing only for an empty book; the first default address when one exists; otherwise the first address |
| Addresses.WithAddressKeepsOneDefault | src/hooks/useAddress.ts:44-57 | adding keeps at most one default address |
| Addresses.AddedDefaultIsFound | src/hooks/useAddress.ts:44-57 | after adding a default address, the lookup returns it |
| Addresses.UpdatedKeepsOneDefault | src/hooks/useAddress.ts:59-72 | with distinct ids, updating keeps at most one default address |
| Addresses.UpdatedDefaultIsOnlyDefault | src/hooks/useAddress.ts:64-69 | making an address the default by update clears the flag of every address with another id |
| Addresses.UpdatedSharedIdGivesTwoDefaults | src/hooks/useAddress.ts:59-72 | two addresses sharing an id both become default, so distinct ids are needed for the invariant |
| AddressHook.AddressBook.constructor | src/hooks/useAddress.ts:21-32 | the stored book, or an empty one when none is stored or it does not parse |
| AddressHook.AddressBook.Save | src/hooks/useAddress.ts:34-42 | the book is written, and the state follows only when the write is accepted |
| AddressHook.AddressBook.AddAddress | src/hooks/useAddress.ts:44-57 | the book with the address added is written, and at most one default address stays at most one |
| AddressHook.AddressBook.UpdateAddress | src/hooks/useAddress.ts:59-72 | the updated book is written, and with distinct ids at most one default address stays at most one |
| AddressHook.AddressBook.DeleteAddress | src/hooks/useAddress.ts:74-77 | the book without the id is written |
| Cart.AddedToCart | src/hooks/useCart.ts:55-70 | a product with a line adds one to that line's quantity and changes nothing else; a new product appends one selected line with quantity 1 |
| Cart.QuantitySet | src/hooks/useCart.ts:72-81 | below 1 the line is removed, each line with another id keeping its multiplicity; otherwise only the matching line's quantity is set |
| Cart.SelectionToggled | src/hooks/useCart.ts:83-89 | only the matching line's selection flips |
| Cart.LineRemoved | src/hooks/useCart.ts:91-95 | each line with another id keeps its multiplicity, and the lines with the id are dropped |
| Cart.SelectedCleared | src/hooks/useCart.ts:97-101 | each unselected line keeps its multiplicity, and the selected lines are dropped |
| Cart.SelectedLines | src/hooks/useCart.ts:114 | each selected line keeps its multiplicity, and the unselected lines are dropped |
| Cart.FiltersKeepOrder | src/hooks/useCart.ts:91-114 | removing a line, clearing the selection and taking the selected lines each distribute over concatenation, so order is kept |
| Cart.Count | src/hooks/useCart.ts:110-112 | with no negative quantity the count is never negative |
| Cart.Amount | src/hooks/useCart.ts:115 | with no negative price or quantity the amount is never negative |
| Cart.SelectedTotal | src/hooks/useCart.ts:114-115 | with no negative price or quantity the total price is never negative |
| Cart.CountConcat | src/hooks/useCart.ts:110-112 | the count of two carts together is the sum of their counts |
| Cart.AmountConcat | src/hooks/useCart.ts:115 | the amount of two carts together is the sum of their amounts |
| Cart.CountAtLeastLines | src/hooks/useCart.ts:110-112 | in a well-formed cart, the count is at least the number of lines |
| Cart.SelectionSplits | src/hooks/useCart.ts:110-115 | count and amount split exactly into the selected and unselected lines, and the selected part of the amount is the total price |
| Cart.SelectedClearedTotalsZero | src/hooks/useCart.ts:97-101 | after clearing the selected lines, the total price is 0 |
| Cart.AddTwiceMerges | src/hooks/useCart.ts:55-70 | adding a new product twice gives one line with quantity 2 |
| Cart.AddedCountsOne | src/hooks/useCart.ts:55-70 | adding a product to a well-formed cart raises the count by exactly one |
| Cart.IncrementedCount | src/hooks/useCart.ts:60-64 | incrementing an existing line of a well-formed cart raises the count by one |
| Cart.AddedKeepsWellFormed | src/hooks/useCart.ts:55-70 | adding keeps one line per product with every quantity at least 1 |
| Cart.QuantitySetKeepsWellFormed | src/hooks/useCart.ts:72-81 | setting a quantity keeps the cart well formed |
| Cart.SelectionToggledKeepsWellFormed | src/hooks/useCart.ts:83-89 | toggling keeps the cart well formed |
| Cart.FilterKeepsWellFormed | src/hooks/useCart.ts:91-101 | any filter of a well-formed cart is well formed |
| Cart.LineRemovedKeepsWellFormed | src/hooks/useCart.ts:91-95 | removing a line keeps the cart well formed |
| Cart.SelectedClearedKeepsWellFormed | src/hooks/useCart.ts:97-101 | clearing the selected lines keeps the cart well formed |
| Cart.ToggleTwiceRestores | src/hooks/useCart.ts:83-89 | toggling twice restores the cart |
| CartHook.ShoppingCart.constructor | src/hooks/useCart.ts:24-41 | the stored lines, or none when nothing is stored; lines that do not parse are removed from the store and read as empty |
| CartHook.ShoppingCart.Save | src/hooks/useCart.ts:44-53 | the lines are written, and the state follows only when the write is accepted |
| CartHook.ShoppingCart.AddToCart | src/hooks/useCart.ts:55-70 | the added cart is written, and a well-formed cart stays well formed |
| CartHook.ShoppingCart.UpdateQuantity | src/hooks/useCart.ts:72-81 | the cart with the quantity set (or the line removed below 1) is written, and it stays well formed |
| CartHook.ShoppingCart.ToggleSelect | src/hooks/useCart.ts:83-89 | the toggled cart is written, and it stays well formed |
| CartHook.ShoppingCart.RemoveItem | src/hooks/useCart.ts:91-95 | the cart without the line is written, and it stays well formed |
| CartHook.ShoppingCart.ClearSelectedItems | src/hooks/useCart.ts:97-101 | the unselected lines are written, and they stay well formed |
| CartHook.ShoppingCart.ClearCart | src/hooks/useCart.ts:103-108 | the key is removed and the cart is empty, with count and total 0 |
| Coupons.Percent | src/hooks/useCoupons.ts:51 | for a draw in [0, 1), the percent is an integer from 3 to 15 |
| Coupons.PercentCoversRange | src/hooks/useCoupons.ts:51 | every percent from 3 to 15 is produced by some draw |
| Coupons.DiscountFor | src/hooks/useCoupons.ts:52 | the discount is the floor of amount times percent over 100 |
| Coupons.DiscountWithinAmount | src/hooks/useCoupons.ts:52 | for a non-negative amount and a percent up to 100, the discount is between 0 and the amount |
| Coupons.NewCoupon | src/hooks/useCoupons.ts:50-62 | the new coupon has a percent from 3 to 15 and the floored discount (within the amount), records the amount and owner, and is unused and unlinked |
| Coupons.Redeemed | src/hooks/useCoupons.ts:71-75 | coupons with the id become used and are linked to the order; the others are unchanged |
| Coupons.RedeemResult | src/hooks/useCoupons.ts:77 | a used coupon with the id linked to the order, redeemed from the list, or nothing exactly when no coupon has the id |
| Coupons.Available | src/hooks/useCoupons.ts:81-83 | exactly the unused coupons |
| Coupons.Used | src/hooks/useCoupons.ts:86-88 | exactly the used coupons |
| Coupons.AvailableUsedPartition | src/hooks/useCoupons.ts:81-88 | the available and used views partition the list, with multiplicity |
| Coupons.RedeemNeverUnuses | src/hooks/useCoupons.ts:71-75 | redeeming never makes a used coupon available again; the redeemed ones are used; the used count never drops |
| Coupons.UsedCountGrows | src/hooks/useCoupons.ts:71-75 | redeeming never lowers the number of used coupons |
| Coupons.RedeemAgainOverwrites | src/hooks/useCoupons.ts:71-75 | redeeming again against another order overwrites the recorded order |
| CouponsHook.CouponWallet.constructor | src/hooks/useCoupons.ts:23-37 | the stored coupons, or none when nothing is stored or it does not parse |
| CouponsHook.CouponWallet.Save | src/hooks/useCoupons.ts:39-47 | the coupons are written, and the state follows only when the write is accepted |
| CouponsHook.CouponWallet.GenerateRandomCoupon | src/hooks/useCoupons.ts:50-68 | the new coupon is returned and written in front of the existing coupons |
| CouponsHook.CouponWallet.UseCoupon | src/hooks/useCoupons.ts:71-78 | the redeemed list is written, and the redeemed coupon is returned even if the write is refused |
| Orders.Snapshot | src/hooks/useOrders.ts:104 | every item is copied with its selection set |
| Orders.SnapshotAmount | src/hooks/useOrders.ts:82 | the snapshot has the same amount as the items |
| Orders.NewOrder | src/hooks/useOrders.ts:101-111 | the new order awaits payment, belongs to the user or `guest`, has no coupon fields, and is priced at the amount of its items and of its own snapshot |
| Orders.BumpOne | src/hooks/useOrders.ts:90-93 | one item's sales bump keeps the catalog's length |
| Orders.SalesBumped | src/hooks/useOrders.ts:84-99 | the sales bump over all items keeps the catalog's length |
| Orders.SalesBumpedSpec | src/hooks/useOrders.ts:84-99 | only sales change; the first product with an id gains the units ordered for it (`quantity || 1`), and all other products are unchanged |
| Orders.UnitsForNonNegative | src/hooks/useOrders.ts:92 | with no negative quantity, the units ordered are never negative |
| Orders.SalesNeverDecrease | src/hooks/useOrders.ts:84-99 | with no negative quantity, no product's sales decrease |
| Orders.StatusSet | src/hooks/useOrders.ts:130-132 | only orders with the id take the status |
| Orders.NeedsWriteIffChanged | src/hooks/useOrders.ts:135-142 | a shard needs a write exactly when the update would change it |
| Orders.StatusSetSettles | src/hooks/useOrders.ts:134-142 | after the update no write is due, and updating again changes nothing |
| OrdersHook.BagRemove | src/hooks/useOrders.ts:35-41 | the orders of a set of shards are those of one shard plus those of the rest |
| OrdersHook.BagMembers | src/hooks/useOrders.ts:35-41 | an order is among those of a set of shards exactly when some readable shard in it holds the order |
| OrdersHook.StatusWrittenOn | src/hooks/useOrders.ts:125-147 | the status rewrite keeps the set of keys |
| OrdersHook.StatusWrittenOnStep | src/hooks/useOrders.ts:125-147 | handling one more shard changes at most that shard, and only when a write is due and accepted |
| OrdersHook.StatusWrittenEverywhere | src/hooks/useOrders.ts:119-154 | after an accepted update every readable `orders_` shard holds its orders with the status set, and every other key is unchanged |
| OrdersHook.StatusWrittenSettles | src/hooks/useOrders.ts:134-142 | after an accepted update every stored order with the id has the status, no shard needs a write, and updating again changes nothing |
| OrdersHook.BumpSales | src/hooks/useOrders.ts:84-99 | the in-place loop over the items leaves the catalog with the sales bump applied |
| OrdersHook.OrderLedger.constructor | src/hooks/useOrders.ts:50-67 | the stored orders, or none when nothing is stored; orders that do not parse are removed from the store and read as empty |
| OrdersHook.OrderLedger.CreateOrder | src/hooks/useOrders.ts:80-116 | a readable catalog gets the sales bump, then the new order is written in front of the owner's orders; the id is returned either way |
| OrdersHook.OrderLedger.GetAllOrders | src/hooks/useOrders.ts:30-48 | with every order shard readable, the listing is newest first and holds exactly the stored orders; otherwise it is empty |
| OrdersHook.OrderLedger.GetOrderById | src/hooks/useOrders.ts:160-176 | the first match in the hook's own list; failing that, the newest (latest creation time) order with the id stored in some shard, and nothing exactly when the listing holds none |
| OrdersHook.FirstMatchIsNewest | src/hooks/useOrders.ts:164-167 | in a listing sorted newest first, the first order with an id is at least as new as every other order with that id |
| OrdersHook.OrderLedger.RewriteShard | src/hooks/useOrders.ts:126-146 | a shard is written, with the status set, exactly when a write is due, which brings the entries one key further towards the full update |
| OrdersHook.OrderLedger.UpdateOrderStatusGlobally | src/hooks/useOrders.ts:119-154 | the entries become the status rewrite; the keys written are exactly the shards needing a write; the hook's list takes the status |
| OrdersHook.OrderLedger.UpdateOrderStatus | src/hooks/useOrders.ts:156-158 | any status may replace any other, through the global update |
| Checkout.DiscountOf | src/pages/Checkout.tsx:70 | the discount is 0 without a coupon and the coupon's amount with one |
| Checkout.FinalPrice | src/pages/Checkout.tsx:68-72 | 0 without an order; otherwise never negative, at least the total less the discount and equal to it or 0; for a discount within the total, price plus discount is the total; for a non-negative discount and total, at most the total |
| Checkout.Discounted | src/pages/Checkout.tsx:90-96 | the order keeps its id, owner, items and status and records its old total, the coupon's discount and id; its new total is not negative, and plus the discount gives the old total when the discount is within it |
| Checkout.ReplaceOrder | src/pages/Checkout.tsx:104-106 | only orders with the id are replaced |
| Checkout.ReplaceThenStatus | src/pages/Checkout.tsx:99-115 | setting the status after the replacement keeps the recorded discount |
| Checkout.RecordCoupon | src/pages/Checkout.tsx:86-111 | the coupon is redeemed, then the order's shard is rewritten with the discount when it is stored and readable |
| Checkout.HandlePay | src/pages/Checkout.tsx:74-121 | without an address or an order nothing changes; otherwise the coupon branch runs, then the order awaits shipment wherever it is stored |
| Checkout.PaidRecordsDiscount | src/pages/Checkout.tsx:86-115 | after an accepted payment with a coupon, the order's shard holds the discounted order awaiting shipment in its place, other orders are unchanged, and the wallet holds the redeemed coupons |
| Checkout.PaidAwaitsShipment | src/pages/Checkout.tsx:115 | after an accepted payment, every stored copy of the order awaits shipment |
| Checkout.PaidWithoutCoupon | src/pages/Checkout.tsx:86-115 | without a coupon only statuses change |
| OrderPage.CreditedPoints | src/pages/Order.tsx:33-36 | nothing stored counts as 0; a stored balance is raised by the total; unreadable text stays unreadable |
| OrderPage.CreditAdds | src/pages/Order.tsx:33-36 | crediting twice is crediting the sum once |
| OrderPage.PointsKey | src/pages/Order.tsx:33 | the points key is the user's `points_` shard |
| OrderPage.HandleConfirmReceipt | src/pages/Order.tsx:27-39 | without an order or a user nothing changes; otherwise the order is completed everywhere, and then the points key is written with the total credited |
| OrderPage.ConfirmedOnce | src/pages/Order.tsx:27-39 | after an accepted confirmation no stored copy of the order is still offered for confirmation, and the points are credited once with the total |
| OrderPage.ConfirmOffered | src/pages/Order.tsx:78-82 | the button is offered only for a shipped order: never one awaiting payment or shipment, nor a completed one |
| OrderPage.ConfirmTwiceCreditsTwice | src/pages/Order.tsx:78-82 | confirming the same order twice credits its total twice; only the hidden button guards against this |

## Left out

- Rendering, routing, toasts, timers and navigation are left out. The
  handlers take the page's state (the order, coupon, address and user)
  as parameters.
- The session bootstrap in the auth context is left out. The owner is a
  parameter: `Some(id)` for a signed-in user, `None` for the guest.
- JSON text is not modelled. A stored value is kept as what it parses to.
  Text that does not parse, or that parses to the wrong kind of record,
  is `Unparseable`.
  - An empty stored string, which the hooks treat like an absent key, is
    not distinguished.
  - A value of another record kind is treated as unparseable, even where
    JavaScript would read an array of another kind.
- Storage failure is one all-or-nothing flag per store. Either every
  write is accepted, or every write throws.
- `Math.random`, `Date.now` and `toLocaleString` are parameters: the
  coupon's draw, ids, and creation times as integers. The percent draw
  is the real number `r` in [0, 1).
- Prices, quantities and points are integers; floating point is not
  modelled. A product's `rating` is display-only and is left out.
- `parseInt` reading a numeric prefix of other text is not modelled.
  Points text is a number or unreadable (`NaN`).
- `Object.keys(localStorage)` returns keys in an unspecified order. The
  model scans the set of keys in any order. `OrdersHook.OrderLedger.GetAllOrders`
  therefore fixes the order only up to equal creation times.
- React's state mechanics are reduced to the state field:
  - a `useEffect` load is the constructor;
  - a state update after a refused write does not happen, as in the code.
  - The polling of the admin views is left out.
- Concurrent tabs writing one shard are out of scope: the model is sequential.
- `OrdersHook.OrderLedger.GetOrderById`: when the hook's own list has no
  match, the contract gives a stored match with the latest creation time,
  but does not say which of several equally new matches is returned. The
  source takes the first of them in the listing.
- The external chat assistant and its network call are not part of this model.
