/** The mutation resolvers as they run: step by step against one shared
    store object, each proved to end in the state and answer that `Schema`
    specifies and to keep the store invariant. */
module Server {
  import opened Wrappers
  import opened Catalog
  import opened Directory
  import Schema
  import SchemaProperties

  /** The shared store that `photosModel` and `userModel` update in place. */
  class Db {
    var photos: map<PhotoId, int>
    var users: seq<User>
    var nextId: UserId

    /** The store's contents as a value. */
    function Snapshot(): Schema.State
      reads this
    {
      Schema.State(photos, users, nextId)
    }

    ghost predicate Valid()
      reads this
    {
      Schema.WellFormed(Snapshot())
    }

    /** A store holding the given photos and no users; generated user ids
        start at 1, so none is falsy. */
    constructor (catalog: map<PhotoId, int>)
      requires forall p :: p in catalog ==> catalog[p] >= 0
      ensures Valid()
      ensures photos == catalog && users == [] && nextId == 1
    {
      photos := catalog;
      users := [];
      nextId := 1;
    }

    /** `photosModel.addLike({ _id })`. */
    method AddLike(photoId: PhotoId)
      modifies this
      ensures photos == Catalog.AddLike(old(photos), photoId)
      ensures users == old(users) && nextId == old(nextId)
    {
      photos := Catalog.AddLike(photos, photoId);
    }

    /** `photosModel.removeLike({ _id })`. */
    method RemoveLike(photoId: PhotoId)
      modifies this
      ensures photos == Catalog.RemoveLike(old(photos), photoId)
      ensures users == old(users) && nextId == old(nextId)
    {
      photos := Catalog.RemoveLike(photos, photoId);
    }

    /** `userModel.addFav({ _id, photoId })`. */
    method AddFav(userId: UserId, photoId: PhotoId)
      modifies this
      ensures users == Directory.AddFav(old(users), userId, photoId)
      ensures photos == old(photos) && nextId == old(nextId)
    {
      users := Directory.AddFav(users, userId, photoId);
    }

    /** `userModel.removeFav({ _id, photoId })`. */
    method RemoveFav(userId: UserId, photoId: PhotoId)
      modifies this
      ensures users == Directory.RemoveFav(old(users), userId, photoId)
      ensures photos == old(photos) && nextId == old(nextId)
    {
      users := Directory.RemoveFav(users, userId, photoId);
    }

    /** `userModel.create({ email, password })`: appends a user with the next
        fresh id and returns it. */
    method Create(email: string, password: string) returns (user: User)
      modifies this
      ensures user == User(old(nextId), email, password, {})
      ensures users == old(users) + [user]
      ensures nextId == old(nextId) + 1 && photos == old(photos)
    {
      user := User(nextId, email, password, {});
      users := Directory.Create(users, nextId, email, password);
      nextId := nextId + 1;
    }
  }

  /** `Mutation.likeAnonymousPhoto`. */
  method LikeAnonymousPhoto(db: Db, photoId: PhotoId) returns (r: Result<PhotoView, Schema.Error>)
    requires db.Valid()
    modifies db
    ensures db.Valid()
    ensures Schema.Step(db.Snapshot(), r) == Schema.LikeAnonymousPhoto(old(db.Snapshot()), photoId)
  {
    var photo := Find(db.photos, photoId, None);
    if photo.None? {
      return Failure(Schema.PhotoNotFound(photoId));
    }
    db.AddLike(photoId);
    var actual := Find(db.photos, photoId, None);
    r := Success(actual.value);
    SchemaProperties.LikeAnonymousPhotoKeepsWellFormed(old(db.Snapshot()), photoId);
  }

  /** `Mutation.likePhoto`. */
  method LikePhoto(db: Db, ctx: Schema.Context, photoId: PhotoId) returns (r: Result<PhotoView, Schema.Error>)
    requires db.Valid()
    modifies db
    ensures db.Valid()
    ensures Schema.Step(db.Snapshot(), r) == Schema.LikePhoto(old(db.Snapshot()), ctx, photoId)
  {
    var logged := Schema.CheckIsUserLogged(db.Snapshot(), ctx);
    if logged.Failure? {
      return Failure(logged.error);
    }
    var userId := logged.value.id;
    var photo := Find(db.photos, photoId, None);
    if photo.None? {
      return Failure(Schema.PhotoNotFound(photoId));
    }
    var hasFav := HasFav(db.users, userId, photoId);
    if hasFav {
      db.RemoveLike(photoId);
      db.RemoveFav(userId, photoId);
    } else {
      db.AddLike(photoId);
      db.AddFav(userId, photoId);
    }
    var favs := Schema.TryGetFavsFromUserLogged(db.Snapshot(), ctx);
    var actual := Find(db.photos, photoId, Some(favs));
    r := Success(actual.value);
    SchemaProperties.LikePhotoKeepsWellFormed(old(db.Snapshot()), ctx, photoId);
  }

  /** `Mutation.signup`; `hash` stands for what `userModel.create` does to
      the password, `secret` for the signing secret. */
  method Signup(db: Db, email: string, password: string, hash: string -> string, secret: string)
    returns (r: Result<Schema.Token, Schema.Error>)
    requires db.Valid()
    modifies db
    ensures db.Valid()
    ensures Schema.Step(db.Snapshot(), r) == Schema.Signup(old(db.Snapshot()), email, password, hash, secret)
  {
    var existing := FindByEmail(db.users, email);
    if existing.Some? {
      return Failure(Schema.UserAlreadyExists);
    }
    var newUser := db.Create(email, hash(password));
    r := Success(Schema.Token(newUser.id, newUser.email, secret, Schema.SignupExpiry));
    SchemaProperties.SignupKeepsWellFormed(old(db.Snapshot()), email, password, hash, secret);
  }
}
