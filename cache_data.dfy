/**
  src/api/middleware/cacheData.ts: serving a collection from the Redis cache
  (cacheData) and evicting it before a delete (deleteCacheData). A cached
  value belongs to the user when its `user_id` is the user's id; a session
  under the same key has no `user_id` and belongs to nobody.
 */
module CacheData {
  import opened Wrappers
  import opened Models
  import opened Http
  import opened Redis

  const NotAuthorized := "This user is not authorized to access this collection"

  /** The cached value under the key belongs to this user. */
  predicate OwnedBy(v: Stored, user: PublicUser) {
    StoredOwner(v) == Some(user.id)
  }

  /**
    cacheData: a miss goes on to the controller; a hit owned by the user is
    served with `fromCache` true; any other hit is refused with 401. The
    cache is only read.
   */
  function CacheData(entries: Entries, user: PublicUser, collectionId: string, now: int): (r: Outcome)
    ensures var hit := Get(entries, collectionId, now);
      && (r == Next <==> hit.None?)
      && (r.Respond? && r.status == 202 <==> hit.Some? && OwnedBy(hit.value, user))
      && (r.Respond? && r.status == 202 ==> r.body == CollectionData(true, hit.value))
      && (r.Respond? && r.status == 401 <==> hit.Some? && !OwnedBy(hit.value, user))
      && (r.Respond? && r.status == 401 ==> r.body == Failed(NotAuthorized))
  {
    match Get(entries, collectionId, now)
    case None => Next
    case Some(results) =>
      if !OwnedBy(results, user) then Respond(401, Failed(NotAuthorized))
      else Respond(202, CollectionData(true, results))
  }

  /** A session stored under the key is never served as a collection. */
  lemma SessionIsNeverServed(entries: Entries, user: PublicUser, key: string, now: int, u: User)
    requires Get(entries, key, now) == Some(SessionOf(u))
    ensures CacheData(entries, user, key, now) == Respond(401, Failed(NotAuthorized))
  {
  }

  /**
    deleteCacheData: an owner's hit is evicted and the request goes on; a
    hit owned by someone else is refused with 401 and kept; a miss goes on
    with the cache unchanged.
   */
  method DeleteCacheData(redis: RedisClient, user: PublicUser, collectionId: string, now: int) returns (outcome: Outcome)
    modifies redis
    ensures var hit := Get(old(redis.entries), collectionId, now);
      hit.Some? && OwnedBy(hit.value, user) ==> outcome == Next && redis.entries == WithoutKey(old(redis.entries), collectionId)
    ensures var hit := Get(old(redis.entries), collectionId, now);
      hit.Some? && !OwnedBy(hit.value, user) ==>
        outcome == Respond(401, Failed(NotAuthorized)) && redis.entries == old(redis.entries)
    ensures Get(old(redis.entries), collectionId, now).None? ==> outcome == Next && redis.entries == old(redis.entries)
  {
    var cacheResults := redis.GetValue(collectionId, now);
    if cacheResults.Some? {
      if !OwnedBy(cacheResults.value, user) {
        outcome := Respond(401, Failed(NotAuthorized));
      } else {
        redis.Del(collectionId);
        outcome := Next;
      }
    } else {
      outcome := Next;
    }
  }
}
