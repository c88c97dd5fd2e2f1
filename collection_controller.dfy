/**
  src/api/controllers/collection.controller.ts: the collection handlers. They
  run after deserializeUser and requireUser, so a user is attached. The
  handlers read the collection id from `req.params.id`, while the routes name
  the parameter `collectionId`; the id is therefore an Option here.
 */
module CollectionController {
  import opened Wrappers
  import opened Models
  import opened Http
  import opened Redis
  import opened Database
  import opened CollectionService

  const CollectionExists := "Collection already exists"
  const NotFound := "This collection wasn't found"
  const NotAuthorized := "This user is not authorized to access this collection"

  /** How long findOne keeps a collection in the cache, in seconds. */
  const CacheSeconds: nat := 180

  /** The id the handlers read: req.params.id. */
  function CollectionIdOf(req: Request): Option<string> {
    Lookup(req.params, "id")
  }

  /** What createCollectionHandler answers for the result of createCollection. */
  function CreateOutcome(created: Result<Collection, StoreError>): (r: Outcome)
    ensures r.Respond? <==> created.Success? || created.error.code == Some(DuplicateKey)
    ensures created.Success? ==> r == Respond(202, CollectionCreated(created.value))
    ensures created.Failure? && created.error.code == Some(DuplicateKey) ==> r == Respond(409, Fail("fail", CollectionExists))
    ensures created.Failure? && created.error.code != Some(DuplicateKey) ==> r == NextWith(Thrown(created.error))
  {
    match created
    case Success(collection) => Respond(202, CollectionCreated(collection))
    case Failure(e) => if e.code == Some(DuplicateKey) then Respond(409, Fail("fail", CollectionExists)) else NextWith(Thrown(e))
  }

  /** createCollectionHandler: creates the collection for the attached user. */
  method CreateCollectionHandler(db: Db, body: CollectionPatch, user: PublicUser, newId: string, fault: Option<StoreError>)
    returns (outcome: Outcome)
    requires db.Valid()
    modifies db
    ensures db.Valid()
    ensures fault.Some? ==> outcome == CreateOutcome(Failure(fault.value)) && db.collections == old(db.collections)
    ensures fault.None? && newId in old(db.collections) ==>
      outcome == Respond(409, Fail("fail", CollectionExists)) && db.collections == old(db.collections)
    ensures fault.None? && newId !in old(db.collections) ==>
      outcome == Respond(202, CollectionCreated(NewCollection(body, user.id, newId)))
      && db.collections == old(db.collections)[newId := NewCollection(body, user.id, newId)]
    ensures db.users == old(db.users)
  {
    var created := CreateCollection(db, body, user.id, newId, fault);
    outcome := CreateOutcome(created);
  }

  /**
    findAllCollectionsHandler: the attached user's collections, filtered by
    the `title` query when there is one.
   */
  function FindAllCollectionsHandler(collections: map<string, Collection>, user: PublicUser, req: Request): (r: Outcome)
    ensures r.Respond? && r.status == 202 && r.body.CollectionList?
    ensures forall k :: k in r.body.collections ==> k in collections && r.body.collections[k].userId == user.id
    ensures r.body.collections == FindAllCollections(collections, user.id, Lookup(req.query, "title"))
  {
    Respond(202, CollectionList(FindAllCollections(collections, user.id, Lookup(req.query, "title"))))
  }

  /**
    Only the caller's id and the `title` query reach the service: two
    requests with the same title list the same collections, and without a
    title every collection of the caller is listed.
   */
  lemma FindAllReadsOnlyTitle(collections: map<string, Collection>, user: PublicUser, req: Request, other: Request, k: string)
    requires Lookup(other.query, "title") == Lookup(req.query, "title")
    ensures FindAllCollectionsHandler(collections, user, other) == FindAllCollectionsHandler(collections, user, req)
    ensures "title" !in req.query ==>
      (k in FindAllCollectionsHandler(collections, user, req).body.collections <==> k in collections && collections[k].userId == user.id)
  {
    if "title" !in req.query {
      FindAllWithoutTitle(collections, user.id, k);
    }
  }

  /** What findOneCollectionHandler answers: 404 when missing, 401 for someone else's, the collection for its owner. */
  function FindOne(collections: map<string, Collection>, user: PublicUser, id: Option<string>): (r: Outcome)
    ensures r == Respond(404, Failed(NotFound)) <==> FindCollectionById(collections, id).None?
    ensures r == Respond(401, Failed(NotAuthorized)) <==>
      FindCollectionById(collections, id).Some? && FindCollectionById(collections, id).value.userId != user.id
    ensures r.Respond? && r.status == 202 <==>
      FindCollectionById(collections, id).Some? && FindCollectionById(collections, id).value.userId == user.id
    ensures r.Respond? && r.status == 202 ==>
      r.body == CollectionData(false, CachedCollection(FindCollectionById(collections, id).value))
  {
    match FindCollectionById(collections, id)
    case None => Respond(404, Failed(NotFound))
    case Some(results) =>
      if results.userId != user.id then Respond(401, Failed(NotAuthorized))
      else Respond(202, CollectionData(false, CachedCollection(results)))
  }

  /** The owner has a collection under this id. */
  predicate Owns(collections: map<string, Collection>, user: PublicUser, id: Option<string>) {
    var collection := FindCollectionById(collections, id);
    collection.Some? && collection.value.userId == user.id
  }

  /**
    findOneCollectionHandler: for the owner, the collection is cached for 180
    seconds unless the key already holds a value (NX), and sent with
    `fromCache` false; otherwise the cache is unchanged.
   */
  method FindOneCollectionHandler(req: Request, user: PublicUser, db: Db, redis: RedisClient, now: int)
    returns (outcome: Outcome)
    modifies redis
    ensures outcome == FindOne(db.collections, user, CollectionIdOf(req))
    ensures Owns(db.collections, user, CollectionIdOf(req)) ==>
      var id := CollectionIdOf(req).value;
      redis.entries == WithSetNx(old(redis.entries), id, CacheSeconds, CachedCollection(db.collections[id]), now)
    ensures !Owns(db.collections, user, CollectionIdOf(req)) ==> redis.entries == old(redis.entries)
  {
    var collectionId := CollectionIdOf(req);
    var results := FindCollectionById(db.collections, collectionId);
    if results.Some? {
      if results.value.userId != user.id {
        outcome := Respond(401, Failed(NotAuthorized));
      } else {
        var _ := redis.SetNx(collectionId.value, CacheSeconds, CachedCollection(results.value), now);
        outcome := Respond(202, CollectionData(false, CachedCollection(results.value)));
      }
    } else {
      outcome := Respond(404, Failed(NotFound));
    }
  }

  /** The cache write after findOne never replaces a live value, and otherwise caches the collection for 180 seconds. */
  lemma FindOneCacheWrite(entries: Entries, id: string, c: Collection, now: int, t: int)
    ensures Get(entries, id, now).Some? ==> WithSetNx(entries, id, CacheSeconds, CachedCollection(c), now) == entries
    ensures Get(entries, id, now).None? && now <= t < now + 180 ==>
      Get(WithSetNx(entries, id, CacheSeconds, CachedCollection(c), now), id, t) == Some(CachedCollection(c))
  {
    SetNxKeepsLiveValue(entries, id, CacheSeconds, CachedCollection(c), now);
  }

  /**
    updateCollectionHandler: anyone but the owner, including a request for a
    collection that does not exist, gets 401 and the table is unchanged; the
    owner's collection is patched and the answer is 202.
   */
  method UpdateCollectionHandler(req: Request, user: PublicUser, body: CollectionPatch, db: Db) returns (outcome: Outcome)
    requires db.Valid()
    modifies db
    ensures db.Valid()
    ensures !Owns(old(db.collections), user, CollectionIdOf(req)) ==>
      outcome == Respond(401, Failed(NotAuthorized)) && db.collections == old(db.collections)
    ensures Owns(old(db.collections), user, CollectionIdOf(req)) ==>
      outcome == Respond(202, Ok) && db.collections == UpdatedTable(old(db.collections), body, CollectionIdOf(req))
    ensures db.users == old(db.users)
  {
    var collectionId := CollectionIdOf(req);
    var collection := FindCollectionById(db.collections, collectionId);
    if collection.None? || collection.value.userId != user.id {
      outcome := Respond(401, Failed(NotAuthorized));
    } else {
      var _ := UpdateCollectionById(db, body, collectionId);
      outcome := Respond(202, Ok);
    }
  }

  /**
    deleteCollectionHandler: the same ownership test as update; only the
    owner's collection is deleted.
   */
  method DeleteCollectionHandler(req: Request, user: PublicUser, db: Db) returns (outcome: Outcome)
    requires db.Valid()
    modifies db
    ensures db.Valid()
    ensures !Owns(old(db.collections), user, CollectionIdOf(req)) ==>
      outcome == Respond(401, Failed(NotAuthorized)) && db.collections == old(db.collections)
    ensures Owns(old(db.collections), user, CollectionIdOf(req)) ==>
      outcome == Respond(202, Ok) && db.collections == DeletedTable(old(db.collections), CollectionIdOf(req))
    ensures db.users == old(db.users)
  {
    var collectionId := CollectionIdOf(req);
    var collection := FindCollectionById(db.collections, collectionId);
    if collection.None? || collection.value.userId != user.id {
      outcome := Respond(401, Failed(NotAuthorized));
    } else {
      var _ := DeleteCollectionById(db, collectionId);
      outcome := Respond(202, Ok);
    }
  }

  /**
    Update and delete answer 401, not 404, for a collection that does not
    exist: the optional chaining yields undefined, which is not the user's id.
   */
  lemma MissingIsUnauthorized(collections: map<string, Collection>, user: PublicUser, req: Request)
    requires CollectionIdOf(req).Some? && CollectionIdOf(req).value !in collections
    ensures !Owns(collections, user, CollectionIdOf(req))
    ensures FindOne(collections, user, CollectionIdOf(req)) == Respond(404, Failed(NotFound))
  {
  }

  /**
    Under the declared routes the only parameter is `collectionId`, so the
    handlers see no id: findOne answers 404, and update and delete answer
    401, whatever the table holds.
   */
  lemma RouteParameterMismatch(collections: map<string, Collection>, user: PublicUser, collectionId: string)
    ensures var req := Request(None, map[], map["collectionId" := collectionId], map[]);
      && FindOne(collections, user, CollectionIdOf(req)) == Respond(404, Failed(NotFound))
      && !Owns(collections, user, CollectionIdOf(req))
  {
    var req := Request(None, map[], map["collectionId" := collectionId], map[]);
    assert "id" !in req.params;
  }

  /** The table without the user's collections. */
  function WithoutCollectionsOf(collections: map<string, Collection>, userId: string): (r: map<string, Collection>)
    ensures forall k :: k in r <==> k in collections && collections[k].userId != userId
    ensures forall k :: k in r ==> r[k] == collections[k]
  {
    map k | k in collections && collections[k].userId != userId :: collections[k]
  }

  /**
    deleteAllCollectionsHandler: deletes every collection findAllCollections
    gives for the user, one at a time, then answers 402. The deletes are not
    awaited in the source; here they happen in order.
   */
  method DeleteAllCollectionsHandler(user: PublicUser, db: Db) returns (outcome: Outcome)
    requires db.Valid()
    modifies db
    ensures db.Valid()
    ensures db.collections == WithoutCollectionsOf(old(db.collections), user.id)
    ensures db.users == old(db.users)
    ensures outcome == Respond(402, Ok)
  {
    var collections := FindAllCollections(db.collections, user.id, None);
    var pending := collections.Keys;
    while pending != {}
      invariant db.Valid()
      invariant db.users == old(db.users)
      invariant pending <= collections.Keys
      invariant db.collections == old(db.collections) - (collections.Keys - pending)
      decreases |pending|
    {
      var id :| id in pending;
      var _ := DeleteCollectionById(db, Some(id));
      pending := pending - {id};
    }
    assert forall k :: k in collections.Keys <==> k in old(db.collections) && old(db.collections)[k].userId == user.id by {
      forall k {
        FindAllWithoutTitle(old(db.collections), user.id, k);
      }
    }
    outcome := Respond(402, Ok);
  }
}
