/**
 * Who owns a shard. The signed-in user is `Some(id)`; nobody signed in is
 * `None`. The hooks name a shard `prefix + id`, or `prefix + "guest"` when
 * nobody is signed in, and stamp records with the id or `"guest"`.
 */
module Owners {
  import opened Wrappers

  /** `user ? prefix + user.id : prefix + 'guest'`. */
  function ShardKey(prefix: string, owner: Option<string>): (k: string)
    ensures |k| >= |prefix| && k[..|prefix|] == prefix
    ensures owner.Some? ==> k[|prefix|..] == owner.value
    ensures owner.None? ==> k[|prefix|..] == "guest"
  {
    match owner
    case Some(id) => prefix + id
    case None => prefix + "guest"
  }

  /** `user?.id || 'guest'`: an empty id also reads as the guest. */
  function OwnerTag(owner: Option<string>): (t: string)
    ensures t != ""
    ensures owner.Some? && owner.value != "" ==> t == owner.value
  {
    match owner
    case Some(id) => if id == "" then "guest" else id
    case None => "guest"
  }

  /** Two owners share a shard of one prefix only when their keys coincide: distinct ids give distinct shards. */
  lemma ShardKeyInjective(prefix: string, a: string, b: string)
    requires a != b
    ensures ShardKey(prefix, Some(a)) != ShardKey(prefix, Some(b))
  {
    var ka := ShardKey(prefix, Some(a));
    var kb := ShardKey(prefix, Some(b));
    assert ka[|prefix|..] == a && kb[|prefix|..] == b;
  }

  /** The guest shares its shard with a signed-in user whose id is literally "guest". */
  lemma GuestShardCollides(prefix: string)
    ensures ShardKey(prefix, None) == ShardKey(prefix, Some("guest"))
  {
  }
}
