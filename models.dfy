/**
  The documents the core passes around: users, collections and cards
  (src/api/models/collection.model.ts; the user model itself is not part of
  this model, so its fields are those the core reads), and the JSON values
  the Redis client holds.
 */
module Models {
  import opened Wrappers

  /** A user document; `password` holds the stored hash. */
  datatype User = User(id: string, email: string, username: string, password: string, role: string)

  /** A user with the `password` field omitted. */
  datatype PublicUser = PublicUser(id: string, email: string, username: string, role: string)

  /** omit(user, ['password']) */
  function Omit(u: User): PublicUser {
    PublicUser(u.id, u.email, u.username, u.role)
  }

  /** Two users have the same projection exactly when they differ at most in their password. */
  lemma OmitForgetsOnlyPassword(u: User, v: User)
    ensures Omit(u) == Omit(v) <==> u.(password := v.password) == v
  {
  }

  /** The fields of a card as the service receives them. */
  datatype CardData = CardData(lexi: string, description: string)

  /** A stored card: its fields plus the generated `id`. */
  datatype Card = Card(lexi: string, description: string, id: string)

  /** A stored collection; `title` and `description` are optional in the model. */
  datatype Collection = Collection(
    id: string,
    userId: string,
    title: Option<string>,
    description: Option<string>,
    cards: seq<Card>)

  /** A Partial<Collection>: the fields a request body may carry. */
  datatype CollectionPatch = CollectionPatch(
    userId: Option<string>,
    title: Option<string>,
    description: Option<string>,
    cards: Option<seq<Card>>)

  /**
    What the Redis client holds under a key, before JSON.stringify: a user
    (a session, written by signToken) or a collection (a cached copy).
   */
  datatype Stored = SessionOf(user: User) | CachedCollection(collection: Collection)

  /** JSON.parse(value)._id */
  function StoredId(v: Stored): string {
    match v
    case SessionOf(u) => u.id
    case CachedCollection(c) => c.id
  }

  /** JSON.parse(value).user_id: a session has no such field. */
  function StoredOwner(v: Stored): Option<string> {
    match v
    case SessionOf(_) => None
    case CachedCollection(c) => Some(c.userId)
  }
}
