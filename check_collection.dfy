/**
  src/api/middleware/checkCollection.ts: answers 404 for a missing
  collection, 403 for someone else's, and lets the owner on. It reads the
  route parameter `collectionId` and only reads the collection table.
 */
module CheckCollection {
  import opened Wrappers
  import opened Models
  import opened Http
  import opened CollectionService

  const NotFound := "A collection with this ID wasn't found"
  const NotAuthorized := "This user is not authorized to access this collection"

  function CheckCollection(collections: map<string, Collection>, user: PublicUser, req: Request): (r: Outcome)
    ensures var id := Lookup(req.params, "collectionId");
      && (r == Respond(404, Fail("fail", NotFound)) <==> FindCollectionById(collections, id).None?)
      && (r == Respond(403, Fail("failed", NotAuthorized)) <==>
            FindCollectionById(collections, id).Some? && FindCollectionById(collections, id).value.userId != user.id)
      && (r == Next <==> FindCollectionById(collections, id).Some? && FindCollectionById(collections, id).value.userId == user.id)
  {
    var collection := FindCollectionById(collections, Lookup(req.params, "collectionId"));
    if collection.None? then Respond(404, Fail("fail", NotFound))
    else if collection.value.userId != user.id then Respond(403, Fail("failed", NotAuthorized))
    else Next
  }

  /**
    Not found takes precedence: whoever asks about an id that is not in the
    table gets 404, and the owner of the collection under an id is let on.
   */
  lemma NotFoundBeforeOwnership(collections: map<string, Collection>, u: PublicUser, v: PublicUser, req: Request)
    requires "collectionId" in req.params && req.params["collectionId"] !in collections
    ensures CheckCollection(collections, u, req) == CheckCollection(collections, v, req) == Respond(404, Fail("fail", NotFound))
  {
  }

  /** Only the `collectionId` parameter of the request is read. */
  lemma OnlyCollectionIdIsRead(collections: map<string, Collection>, user: PublicUser, req: Request, other: Request)
    requires Lookup(other.params, "collectionId") == Lookup(req.params, "collectionId")
    ensures CheckCollection(collections, user, other) == CheckCollection(collections, user, req)
  {
  }
}
