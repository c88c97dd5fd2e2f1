/**
  src/api/services/collection.service.ts: the collection table operations.
  The table maps each collection's id to the collection; a Mongoose call
  given an undefined id finds nothing, so ids arrive as Option.
 */
module CollectionService {
  import opened Wrappers
  import opened Models
  import opened Strings
  import opened Http
  import opened Database

  /** The collection createCollection stores: the input with `user_id` set to the caller. */
  function NewCollection(data: CollectionPatch, userId: string, id: string): Collection {
    Collection(id, userId, data.title, data.description, if data.cards.Some? then data.cards.value else [])
  }

  /** The caller's id overrides any `user_id` in the input. */
  lemma CallerOwnsNewCollection(data: CollectionPatch, userId: string, id: string, claimed: Option<string>)
    ensures NewCollection(data.(userId := claimed), userId, id) == NewCollection(data, userId, id)
    ensures NewCollection(data, userId, id).userId == userId
  {
  }

  /**
    createCollection: stores the new collection under a fresh id. The one
    unique index is the id, so a taken id is a duplicate-key error; `fault`
    is any other error the store raises.
   */
  method CreateCollection(db: Db, data: CollectionPatch, userId: string, newId: string, fault: Option<StoreError>)
    returns (r: Result<Collection, StoreError>)
    requires db.Valid()
    modifies db
    ensures db.Valid()
    ensures fault.Some? ==> r == Failure(fault.value) && db.collections == old(db.collections)
    ensures fault.None? && newId in old(db.collections) ==>
      r == Failure(StoreError(Some(DuplicateKey))) && db.collections == old(db.collections)
    ensures fault.None? && newId !in old(db.collections) ==>
      r == Success(NewCollection(data, userId, newId))
      && db.collections == old(db.collections)[newId := NewCollection(data, userId, newId)]
    ensures db.users == old(db.users)
  {
    if fault.Some? {
      return Failure(fault.value);
    }
    if newId in db.collections {
      return Failure(StoreError(Some(DuplicateKey)));
    }
    var collection := NewCollection(data, userId, newId);
    db.collections := db.collections[newId := collection];
    r := Success(collection);
  }

  /**
    The title filter: an absent or empty title matches everything; otherwise
    the collection's title must contain the query, ignoring case.
   */
  predicate TitleMatches(c: Collection, title: Option<string>) {
    title.None? || title.value == "" ||
    (c.title.Some? && Contains(ToLower(c.title.value), ToLower(title.value)))
  }

  /** findAllCollections: the caller's collections whose title matches. */
  function FindAllCollections(collections: map<string, Collection>, userId: string, title: Option<string>): (r: map<string, Collection>)
    ensures forall k :: k in r ==> k in collections && r[k] == collections[k] && r[k].userId == userId
  {
    map k | k in collections && collections[k].userId == userId && TitleMatches(collections[k], title) :: collections[k]
  }

  /** Without a title every collection of the caller is found, and nobody else's. */
  lemma FindAllWithoutTitle(collections: map<string, Collection>, userId: string, k: string)
    ensures k in FindAllCollections(collections, userId, None) <==> k in collections && collections[k].userId == userId
    ensures FindAllCollections(collections, userId, Some("")) == FindAllCollections(collections, userId, None)
  {
  }

  /**
    With a non-empty title, exactly the caller's collections whose title
    contains the query, ignoring case, are found; one without a title never is.
   */
  lemma {:induction false} FindAllByTitle(collections: map<string, Collection>, userId: string, t: string, k: string)
    ensures t != "" ==>
      (k in FindAllCollections(collections, userId, Some(t)) <==>
        k in collections && collections[k].userId == userId && collections[k].title.Some?
        && Contains(ToLower(collections[k].title.value), ToLower(t)))
  {
  }

  /** A title only narrows the result. */
  lemma TitleNarrows(collections: map<string, Collection>, userId: string, title: Option<string>)
    ensures FindAllCollections(collections, userId, title).Keys <= FindAllCollections(collections, userId, None).Keys
  {
  }

  /** The match ignores the case of the query. */
  lemma TitleIgnoresCase(collections: map<string, Collection>, userId: string, title: string)
    ensures FindAllCollections(collections, userId, Some(ToLower(title))) == FindAllCollections(collections, userId, Some(title))
  {
    LowerIdempotent(title);
    assert ToLower(title) == "" <==> title == "";
  }

  /** findCollectionById: the collection stored under the id; nothing for an absent id. */
  function FindCollectionById(collections: map<string, Collection>, id: Option<string>): (r: Option<Collection>)
    ensures r.Some? <==> id.Some? && id.value in collections
    ensures r.Some? ==> r.value == collections[id.value]
  {
    if id.Some? && id.value in collections then Some(collections[id.value]) else None
  }

  /** The update findByIdAndUpdate applies: every field the patch carries replaces the stored one. */
  function ApplyPatch(c: Collection, p: CollectionPatch): Collection {
    Collection(
      c.id,
      if p.userId.Some? then p.userId.value else c.userId,
      if p.title.Some? then p.title else c.title,
      if p.description.Some? then p.description else c.description,
      if p.cards.Some? then p.cards.value else c.cards)
  }

  /**
    A patch keeps the id, leaves the fields it does not carry alone, and
    applying it twice is applying it once.
   */
  lemma PatchProperties(c: Collection, p: CollectionPatch)
    ensures ApplyPatch(c, p).id == c.id
    ensures ApplyPatch(c, CollectionPatch(None, None, None, None)) == c
    ensures ApplyPatch(ApplyPatch(c, p), p) == ApplyPatch(c, p)
    ensures p.userId.None? ==> ApplyPatch(c, p).userId == c.userId
    ensures p.title.None? ==> ApplyPatch(c, p).title == c.title
    ensures p.description.None? ==> ApplyPatch(c, p).description == c.description
    ensures p.cards.None? ==> ApplyPatch(c, p).cards == c.cards
  {
  }

  /** The table after updateCollectionById: only the collection with this id changes. */
  function UpdatedTable(collections: map<string, Collection>, data: CollectionPatch, id: Option<string>): (r: map<string, Collection>)
    ensures r.Keys == collections.Keys
    ensures forall k :: k in r && (id.None? || k != id.value) ==> r[k] == collections[k]
    ensures id.Some? && id.value in collections ==> r[id.value] == ApplyPatch(collections[id.value], data)
  {
    if id.Some? && id.value in collections then collections[id.value := ApplyPatch(collections[id.value], data)]
    else collections
  }

  /** updateCollectionById: findByIdAndUpdate, which gives back the collection as it was before. */
  method UpdateCollectionById(db: Db, data: CollectionPatch, id: Option<string>) returns (previous: Option<Collection>)
    requires db.Valid()
    modifies db
    ensures db.Valid()
    ensures previous == FindCollectionById(old(db.collections), id)
    ensures db.collections == UpdatedTable(old(db.collections), data, id)
    ensures db.users == old(db.users)
  {
    previous := FindCollectionById(db.collections, id);
    if previous.Some? {
      db.collections := db.collections[id.value := ApplyPatch(previous.value, data)];
    }
  }

  /** The table after deleteCollectionById: only the collection with this id is gone. */
  function DeletedTable(collections: map<string, Collection>, id: Option<string>): (r: map<string, Collection>)
    ensures forall k :: k in r <==> k in collections && (id.None? || k != id.value)
    ensures forall k :: k in r ==> r[k] == collections[k]
  {
    if id.Some? then collections - {id.value} else collections
  }

  /** deleteCollectionById: findByIdAndDelete, which gives back the deleted collection. */
  method DeleteCollectionById(db: Db, id: Option<string>) returns (deleted: Option<Collection>)
    requires db.Valid()
    modifies db
    ensures db.Valid()
    ensures deleted == FindCollectionById(old(db.collections), id)
    ensures db.collections == DeletedTable(old(db.collections), id)
    ensures db.users == old(db.users)
  {
    deleted := FindCollectionById(db.collections, id);
    if id.Some? {
      db.collections := db.collections - {id.value};
    }
  }

  /** A collection with one more card at the end. */
  function WithCard(c: Collection, card: Card): (r: Collection)
    ensures |r.cards| == |c.cards| + 1 && r.cards[..|c.cards|] == c.cards && r.cards[|c.cards|] == card
    ensures r.(cards := c.cards) == c
  {
    c.(cards := c.cards + [card])
  }

  function NotFoundMessage(collectionId: string): string {
    "Collection with ID " + collectionId + " not found."
  }

  /**
    createCard: a missing collection is an error and changes nothing;
    otherwise the card with its fresh id is appended to that collection's
    cards and returned.
   */
  method CreateCard(db: Db, collectionId: string, data: CardData, newCardId: string) returns (r: Result<Card, string>)
    requires db.Valid()
    modifies db
    ensures db.Valid()
    ensures collectionId !in old(db.collections) ==>
      r == Failure(NotFoundMessage(collectionId)) && db.collections == old(db.collections)
    ensures collectionId in old(db.collections) ==>
      r == Success(Card(data.lexi, data.description, newCardId))
      && db.collections == old(db.collections)[collectionId := WithCard(old(db.collections)[collectionId], r.value)]
    ensures db.users == old(db.users)
  {
    var collection := FindCollectionById(db.collections, Some(collectionId));
    if collection.None? {
      return Failure(NotFoundMessage(collectionId));
    }
    var cardWithId := Card(data.lexi, data.description, newCardId);
    db.collections := db.collections[collectionId := WithCard(collection.value, cardWithId)];
    r := Success(cardWithId);
  }
}
