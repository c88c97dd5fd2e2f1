/**
  The MongoDB collections the core reads and writes (src/api/helpers/connectDB.ts
  connects them): users in their natural order, and collections by id.
 */
module Database {
  import opened Models

  class Db {
    var users: seq<User>
    var collections: map<string, Collection>

    /** Every collection is stored under its own id. */
    ghost predicate Valid()
      reads this
    {
      forall k :: k in collections ==> collections[k].id == k
    }

    constructor ()
      ensures users == [] && collections == map[] && Valid()
    {
      users := [];
      collections := map[];
    }
  }
}
