/** The state of `useUsers` over the shared store: the directory under `registered_users`. */
module UsersHook {
  import opened Wrappers
  import opened Owners
  import opened Accounts
  import opened Orders
  import opened Storage
  import OrdersHook

  class UserDirectory {
    const store: Store
    var users: seq<RegisteredUser>

    /** The hook's list is what the store holds. */
    ghost predicate InSync()
      reads this, store
    {
      UsersKey in store.entries && store.entries[UsersKey] == UserList(users)
    }

    /**
     * The load: a stored directory is used; with none stored the
     * administrator seed is written and used (a refused write leaves the
     * directory empty); a directory that does not parse reads as empty.
     */
    constructor (store: Store, registerDate: string)
      modifies store
      ensures this.store == store
      ensures UsersKey !in old(store.entries) ==>
        store.entries == Written(old(store.entries), UsersKey, UserList(AdminSeed(registerDate)), store.acceptsWrites) &&
        store.writes == old(store.writes) + [UsersKey] &&
        users == if store.acceptsWrites then AdminSeed(registerDate) else []
      ensures UsersKey in old(store.entries) ==>
        store.entries == old(store.entries) && store.writes == old(store.writes) &&
        users == match old(store.entries[UsersKey]) { case UserList(us) => us case _ => [] }
    {
      this.store := store;
      new;
      if UsersKey in store.entries {
        match store.entries[UsersKey]
        case UserList(us) => users := us;
        case _ => users := [];
      } else {
        var ok := store.SetItem(UsersKey, UserList(AdminSeed(registerDate)));
        users := if ok then AdminSeed(registerDate) else [];
      }
    }

    /** `saveToStorage`. */
    method Save(us: seq<RegisteredUser>)
      modifies this, store
      ensures store.entries == Written(old(store.entries), UsersKey, UserList(us), store.acceptsWrites)
      ensures store.writes == old(store.writes) + [UsersKey]
      ensures users == if store.acceptsWrites then us else old(users)
      ensures store.acceptsWrites ==> InSync()
    {
      var ok := store.SetItem(UsersKey, UserList(us));
      if ok {
        users := us;
      }
    }

    /**
     * `registerUser`: a taken email is refused without a write; otherwise
     * the new account is saved and the answer is true even if the store
     * refuses the write.
     */
    method RegisterUser(id: string, email: string, password: string, name: string, registerDate: string)
      returns (ok: bool)
      modifies this, store
      ensures ok <==> forall u :: u in old(users) ==> u.email != email
      ensures !ok ==> store.entries == old(store.entries) && store.writes == old(store.writes) && users == old(users)
      ensures ok ==>
        var next := old(users) + [RegisteredUser(id, email, name, password, User, registerDate, true)];
        store.entries == Written(old(store.entries), UsersKey, UserList(next), store.acceptsWrites) &&
        store.writes == old(store.writes) + [UsersKey] &&
        users == if store.acceptsWrites then next else old(users)
    {
      var outcome := Registered(users, id, email, password, name, registerDate);
      ok := outcome.0;
      if ok {
        Save(outcome.1);
      }
    }

    /** `updateUserRole`. */
    method UpdateUserRole(id: string, role: Role)
      modifies this, store
      ensures store.entries == Written(old(store.entries), UsersKey, UserList(RoleUpdated(old(users), id, role)), store.acceptsWrites)
      ensures store.writes == old(store.writes) + [UsersKey]
      ensures users == if store.acceptsWrites then RoleUpdated(old(users), id, role) else old(users)
    {
      Save(RoleUpdated(users, id, role));
    }

    /** `toggleUserStatus`. */
    method ToggleUserStatus(id: string)
      modifies this, store
      ensures store.entries == Written(old(store.entries), UsersKey, UserList(StatusToggled(old(users), id)), store.acceptsWrites)
      ensures store.writes == old(store.writes) + [UsersKey]
      ensures users == if store.acceptsWrites then StatusToggled(old(users), id) else old(users)
    {
      Save(StatusToggled(users, id));
    }
  }

  /** `getUserOrderCount`: the length of the user's order shard, 0 when it is absent or does not parse. */
  function UserOrderCount(entries: map<string, Value>, userId: string): (n: nat)
    ensures var k := ShardKey(OrdersPrefix, Some(userId));
      n == if k in entries && entries[k].OrderList? then |entries[k].orders| else 0
  {
    var k := OrdersPrefix + userId;
    if k in entries && entries[k].OrderList? then |entries[k].orders| else 0
  }

  /**
   * The count read for a user is the length of the list held by that
   * user's own orders hook, whenever that hook is in step with the store:
   * both read the same `orders_` shard.
   */
  lemma OrderCountOfLedger(ledger: OrdersHook.OrderLedger, userId: string)
    requires ledger.owner == Some(userId) && ledger.InSync()
    ensures UserOrderCount(ledger.store.entries, userId) == |ledger.orders|
  {
  }

  /** A new order accepted into a user's shard raises that user's count by one and nobody else's. */
  lemma OrderCountAfterCreate(entries: map<string, Value>, userId: string, o: Order, os: seq<Order>, other: string)
    requires var k := ShardKey(OrdersPrefix, Some(userId)); k in entries && entries[k] == OrderList(os)
    requires other != userId
    ensures var after := Written(entries, ShardKey(OrdersPrefix, Some(userId)), OrderList([o] + os), true);
      UserOrderCount(after, userId) == UserOrderCount(entries, userId) + 1 &&
      UserOrderCount(after, other) == UserOrderCount(entries, other)
  {
    ShardKeyInjective(OrdersPrefix, userId, other);
  }
}
