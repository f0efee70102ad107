/** The GraphQL resolvers: identity helpers, the two like mutations, signup,
    login and the photo queries, each as a function of the store's state.
    A mutation yields the state after the call together with what the
    resolver returns or throws. */
module Schema {
  import opened Wrappers
  import opened Catalog
  import opened Directory

  /** Lifetime of the token issued by `signup`. */
  const SignupExpiry: string := "1y"
  /** Lifetime of the token issued by `login`. */
  const LoginExpiry: string := "1d"

  /** The two collections the resolvers use; `nextId` stands for the store's
      generator of fresh user ids. */
  datatype State = State(photos: map<PhotoId, int>, users: seq<User>, nextId: UserId)

  /** The per-request context: `_id` and `email` of the caller, either may be
      absent. */
  datatype Context = Context(id: Option<UserId>, email: Option<string>)

  /** The errors the resolvers throw. */
  datatype Error =
    | NotLoggedIn            // 'you must be logged in to perform this action'
    | UserDoesNotExist       // 'user does not exist'
    | PhotoNotFound(photoId: PhotoId)
    | UserAlreadyExists      // 'User already exists'
    | NoUserWithEmail        // 'No user with that email'
    | IncorrectPassword      // 'Incorrect password'

  /** A signed session token: the claims `{ _id, email }`, the signing secret
      and the `expiresIn` option. Signing itself is not modelled. */
  datatype Token = Token(userId: UserId, email: string, secret: string, expiresIn: string)

  /** Outcome of a mutation: the new state and the resolver's answer. */
  datatype Step<T> = Step(after: State, result: Result<T, Error>)

  /** The store invariant kept by every mutation: user ids are below the
      generator and distinct, emails are distinct, favourites name existing
      photos, and each like counter is at least the number of users that
      have the photo as a favourite (so it is never negative). */
  ghost predicate WellFormed(s: State)
  {
    (forall i :: 0 <= i < |s.users| ==> s.users[i].id < s.nextId) &&
    (forall i, j :: 0 <= i < j < |s.users| ==> s.users[i].id != s.users[j].id) &&
    (forall i, j :: 0 <= i < j < |s.users| ==> s.users[i].email != s.users[j].email) &&
    (forall i, p :: 0 <= i < |s.users| && p in s.users[i].favs ==> p in s.photos) &&
    (forall p :: p in s.photos ==> FavCount(s.users, p) <= s.photos[p])
  }

  /** Some user has this email (an absent email matches nobody). */
  ghost predicate Registered(users: seq<User>, email: Option<string>)
  {
    email.Some? && exists i :: 0 <= i < |users| && users[i].email == email.value
  }

  /** `userModel.find({ email })` with the email taken from a context. */
  function FindUser(users: seq<User>, email: Option<string>): (r: Option<nat>)
    ensures r.None? <==> !Registered(users, email)
    ensures r.Some? ==> r.value < |users| && Some(users[r.value].email) == email
    ensures r.Some? ==> forall j :: 0 <= j < r.value ==> Some(users[j].email) != email
  {
    match email
    case None => None
    case Some(e) => FindByEmail(users, e)
  }

  /** `checkIsUserLogged`: throws when the context has no `_id`, or when no
      user has the context's email; otherwise returns that user. */
  function CheckIsUserLogged(s: State, ctx: Context): (r: Result<User, Error>)
    ensures r == Failure(NotLoggedIn) <==> ctx.id.None?
    ensures r == Failure(UserDoesNotExist) <==> ctx.id.Some? && !Registered(s.users, ctx.email)
    ensures r.Success? <==> ctx.id.Some? && Registered(s.users, ctx.email)
    ensures r.Success? ==> Some(r.value.email) == ctx.email
    ensures r.Success? ==>
      exists i :: 0 <= i < |s.users| && s.users[i] == r.value &&
        forall j :: 0 <= j < i ==> Some(s.users[j].email) != ctx.email
  {
    if ctx.id.None? then Failure(NotLoggedIn)
    else
      match FindUser(s.users, ctx.email)
      case None => Failure(UserDoesNotExist)
      case Some(i) => Success(s.users[i])
  }

  /** `tryGetFavsFromUserLogged`: never throws; the logged user's favourites,
      or the empty set when the identity check fails. */
  function TryGetFavsFromUserLogged(s: State, ctx: Context): (r: set<PhotoId>)
    ensures CheckIsUserLogged(s, ctx).Failure? ==> r == {}
    ensures CheckIsUserLogged(s, ctx).Success? ==> r == CheckIsUserLogged(s, ctx).value.favs
  {
    match CheckIsUserLogged(s, ctx)
    case Failure(_) => {}
    case Success(user) =>
      match FindByEmail(s.users, user.email)
      case None => {}
      case Some(i) => s.users[i].favs
  }

  /** `Mutation.likeAnonymousPhoto`: fails on an unknown photo and changes
      nothing; otherwise adds exactly one like to that photo and to nothing
      else. */
  function LikeAnonymousPhoto(s: State, photoId: PhotoId): (r: Step<PhotoView>)
    ensures photoId !in s.photos ==> r == Step(s, Failure(PhotoNotFound(photoId)))
    ensures photoId in s.photos ==>
      && r.after.users == s.users && r.after.nextId == s.nextId
      && r.after.photos.Keys == s.photos.Keys
      && r.after.photos[photoId] == s.photos[photoId] + 1
      && (forall q :: q in s.photos && q != photoId ==> r.after.photos[q] == s.photos[q])
      && r.result == Success(PhotoView(photoId, s.photos[photoId] + 1, None))
  {
    match Find(s.photos, photoId, None)
    case None => Step(s, Failure(PhotoNotFound(photoId)))
    case Some(_) =>
      var photos := AddLike(s.photos, photoId);
      Step(s.(photos := photos), Success(Find(photos, photoId, None).value))
  }

  /** The state change at the heart of `likePhoto`: when the user has the
      photo as a favourite, one like and the favourite are taken away,
      otherwise one like and the favourite are added. */
  function ToggleFav(s: State, userId: UserId, photoId: PhotoId): (r: State)
    ensures r.nextId == s.nextId && r.photos.Keys == s.photos.Keys
    ensures forall q :: q in s.photos && q != photoId ==> r.photos[q] == s.photos[q]
    ensures |r.users| == |s.users|
    ensures forall i :: 0 <= i < |s.users| ==>
      r.users[i].id == s.users[i].id && r.users[i].email == s.users[i].email
  {
    if HasFav(s.users, userId, photoId)
    then s.(photos := RemoveLike(s.photos, photoId), users := RemoveFav(s.users, userId, photoId))
    else s.(photos := AddLike(s.photos, photoId), users := AddFav(s.users, userId, photoId))
  }

  /** `Mutation.likePhoto`: the identity check first, then the photo check,
      each failing with no change; then a toggle of the favourite of the user
      found by the identity check, with one like added or taken away. The
      returned photo carries the caller's favourites after the toggle. */
  function LikePhoto(s: State, ctx: Context, photoId: PhotoId): (r: Step<PhotoView>)
    ensures CheckIsUserLogged(s, ctx).Failure? ==>
      r == Step(s, Failure(CheckIsUserLogged(s, ctx).error))
    ensures CheckIsUserLogged(s, ctx).Success? && photoId !in s.photos ==>
      r == Step(s, Failure(PhotoNotFound(photoId)))
    ensures r.result.Success? <==> CheckIsUserLogged(s, ctx).Success? && photoId in s.photos
    ensures r.result.Success? ==>
      r.after == ToggleFav(s, CheckIsUserLogged(s, ctx).value.id, photoId)
    ensures r.result.Success? ==>
      && r.after.nextId == s.nextId
      && r.after.photos.Keys == s.photos.Keys
      && (forall q :: q in s.photos && q != photoId ==> r.after.photos[q] == s.photos[q])
      && |r.after.users| == |s.users|
      && (forall i :: 0 <= i < |s.users| ==>
            r.after.users[i].id == s.users[i].id && r.after.users[i].email == s.users[i].email)
      && r.result.value.id == photoId
      && r.result.value.likes == r.after.photos[photoId]
      && r.result.value.favs == Some(TryGetFavsFromUserLogged(r.after, ctx))
  {
    match CheckIsUserLogged(s, ctx)
    case Failure(e) => Step(s, Failure(e))
    case Success(user) =>
      if Find(s.photos, photoId, None).None? then Step(s, Failure(PhotoNotFound(photoId)))
      else
        var s' := ToggleFav(s, user.id, photoId);
        var favs := TryGetFavsFromUserLogged(s', ctx);
        Step(s', Success(Find(s'.photos, photoId, Some(favs)).value))
  }

  /** `Mutation.signup`: refuses an email that is already registered and
      changes nothing; otherwise appends exactly one user with that email, no
      favourites and a fresh id, and issues a one-year token for it.
      `hash` stands for what `userModel.create` stores for the password. */
  function Signup(s: State, email: string, password: string, hash: string -> string, secret: string): (r: Step<Token>)
    ensures Registered(s.users, Some(email)) <==> r.result == Failure(UserAlreadyExists)
    ensures Registered(s.users, Some(email)) ==> r.after == s
    ensures !Registered(s.users, Some(email)) ==>
      && r.after.photos == s.photos
      && |r.after.users| == |s.users| + 1
      && r.after.users[..|s.users|] == s.users
      && r.after.users[|s.users|] == User(s.nextId, email, hash(password), {})
      && r.after.nextId > s.nextId
      && r.result == Success(Token(s.nextId, email, secret, SignupExpiry))
  {
    match FindByEmail(s.users, email)
    case Some(_) => Step(s, Failure(UserAlreadyExists))
    case None =>
      var users := Create(s.users, s.nextId, email, hash(password));
      var user := users[|s.users|];
      Step(State(s.photos, users, s.nextId + 1), Success(Token(user.id, user.email, secret, SignupExpiry)))
  }

  /** `Mutation.login`: fails for an unknown email or when `compare` (the
      password check) rejects the stored password; otherwise issues a one-day
      token for the user with that email. It never changes the store. */
  function Login(s: State, email: string, password: string, compare: (string, string) -> bool, secret: string): (r: Result<Token, Error>)
    ensures r == Failure(NoUserWithEmail) <==> !Registered(s.users, Some(email))
    ensures forall i :: 0 <= i < |s.users| && s.users[i].email == email
                        && (forall j :: 0 <= j < i ==> s.users[j].email != email) ==>
      r == if compare(password, s.users[i].password)
           then Success(Token(s.users[i].id, email, secret, LoginExpiry))
           else Failure(IncorrectPassword)
  {
    match FindByEmail(s.users, email)
    case None => Failure(NoUserWithEmail)
    case Some(i) =>
      var user := s.users[i];
      if !compare(password, user.password) then Failure(IncorrectPassword)
      else Success(Token(user.id, user.email, secret, LoginExpiry))
  }

  /** `Query.favs`: requires a logged-in user and lists that user's
      favourites, passing them along as the favourite set. */
  function Favs(s: State, ctx: Context): (r: Result<PhotoListing, Error>)
    ensures r.Failure? <==> CheckIsUserLogged(s, ctx).Failure?
    ensures r.Failure? ==> r.error == CheckIsUserLogged(s, ctx).error
    ensures r.Success? ==>
      var favs := CheckIsUserLogged(s, ctx).value.favs;
      r.value == ByIds(favs, favs)
  {
    match CheckIsUserLogged(s, ctx)
    case Failure(e) => Failure(e)
    case Success(user) =>
      match FindByEmail(s.users, user.email)
      case None => Failure(UserDoesNotExist)
      case Some(i) => Success(ByIds(s.users[i].favs, s.users[i].favs))
  }

  /** `Query.photos`: never fails; lists a category with the caller's
      favourites when the identity check succeeds and with none otherwise. */
  function Photos(s: State, ctx: Context, categoryId: Option<CategoryId>): (r: PhotoListing)
    ensures r.ByCategory? && r.categoryId == categoryId
    ensures CheckIsUserLogged(s, ctx).Failure? ==> r.favs == {}
    ensures CheckIsUserLogged(s, ctx).Success? ==> r.favs == CheckIsUserLogged(s, ctx).value.favs
  {
    ByCategory(categoryId, TryGetFavsFromUserLogged(s, ctx))
  }
}
