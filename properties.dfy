/** Properties that relate several resolver calls, and the store invariant
    that every mutation keeps. */
module SchemaProperties {
  import opened Wrappers
  import opened Catalog
  import opened Directory
  import opened Schema

  /** An anonymous like keeps the store invariant. */
  lemma LikeAnonymousPhotoKeepsWellFormed(s: State, photoId: PhotoId)
    requires WellFormed(s)
    ensures WellFormed(LikeAnonymousPhoto(s, photoId).after)
  {
  }

  /** An anonymous like never takes a like away from any photo. */
  lemma LikeAnonymousPhotoNeverDecreases(s: State, photoId: PhotoId)
    ensures forall q :: q in s.photos ==>
      q in LikeAnonymousPhoto(s, photoId).after.photos && LikeAnonymousPhoto(s, photoId).after.photos[q] >= s.photos[q]
  {
  }

  /** On a known user and photo, `ToggleFav` flips the favourite of the
      user addressed by the id and moves that photo's counter by one in the
      same direction; nothing else changes. */
  lemma ToggleFavFlips(s: State, userId: UserId, photoId: PhotoId)
    requires photoId in s.photos && FindById(s.users, userId).Some?
    ensures var j := FindById(s.users, userId).value;
      var r := ToggleFav(s, userId, photoId);
      && (photoId in s.users[j].favs ==>
            r.photos == s.photos[photoId := s.photos[photoId] - 1] &&
            r.users == s.users[j := s.users[j].(favs := s.users[j].favs - {photoId})])
      && (photoId !in s.users[j].favs ==>
            r.photos == s.photos[photoId := s.photos[photoId] + 1] &&
            r.users == s.users[j := s.users[j].(favs := s.users[j].favs + {photoId})])
  {
  }

  /** Toggling twice restores the state. */
  lemma ToggleFavTwice(s: State, userId: UserId, photoId: PhotoId)
    requires photoId in s.photos && FindById(s.users, userId).Some?
    ensures ToggleFav(ToggleFav(s, userId, photoId), userId, photoId) == s
  {
    var s1 := ToggleFav(s, userId, photoId);
    if HasFav(s.users, userId, photoId) {
      assert s1.users == RemoveFav(s.users, userId, photoId);
      assert s1.photos == RemoveLike(s.photos, photoId);
      assert !HasFav(s1.users, userId, photoId);
      RemoveFavThenAddFav(s.users, userId, photoId);
      assert AddLike(s1.photos, photoId) == s.photos;
    } else {
      assert s1.users == AddFav(s.users, userId, photoId);
      assert s1.photos == AddLike(s.photos, photoId);
      assert HasFav(s1.users, userId, photoId);
      AddFavThenRemoveFav(s.users, userId, photoId);
      assert RemoveLike(s1.photos, photoId) == s.photos;
    }
  }

  /** Replacing the favourites of one user and moving the counters by at
      least what that user's favourites changed keeps the store invariant. */
  lemma {:induction false} ReplaceFavsKeepsWellFormed(s: State, t: State, i: nat)
    requires WellFormed(s) && i < |s.users|
    requires t.nextId == s.nextId && t.photos.Keys == s.photos.Keys
    requires |t.users| == |s.users| && t.users == s.users[i := t.users[i]]
    requires t.users[i].id == s.users[i].id && t.users[i].email == s.users[i].email
    requires t.users[i].favs <= t.photos.Keys
    requires forall p :: p in s.photos ==>
      t.photos[p] - s.photos[p] >= Favours(t.users[i], p) - Favours(s.users[i], p)
    ensures WellFormed(t)
  {
    forall p | p in t.photos
      ensures FavCount(t.users, p) <= t.photos[p]
    {
      FavCountUpdate(s.users, i, t.users[i], p);
    }
    forall k, p | 0 <= k < |t.users| && p in t.users[k].favs
      ensures p in t.photos
    {
      if k != i { assert t.users[k] == s.users[k]; }
    }
  }

  /** For a well-formed store, the caller of a successful `likePhoto` is the
      unique user with the context's email; the call toggles that user's
      favourite, moves the counter by one in the same direction, leaves every
      other user alone, and the returned favourite set contains the photo
      exactly when it was just added. */
  lemma {:induction false} LikePhotoToggles(s: State, ctx: Context, photoId: PhotoId, i: nat)
    requires WellFormed(s)
    requires i < |s.users| && ctx.id.Some? && ctx.email == Some(s.users[i].email)
    requires photoId in s.photos
    ensures var r := LikePhoto(s, ctx, photoId);
      && r.result.Success?
      && (photoId in s.users[i].favs ==>
            r.after.photos[photoId] == s.photos[photoId] - 1 &&
            r.after.users[i].favs == s.users[i].favs - {photoId})
      && (photoId !in s.users[i].favs ==>
            r.after.photos[photoId] == s.photos[photoId] + 1 &&
            r.after.users[i].favs == s.users[i].favs + {photoId})
      && (forall j :: 0 <= j < |s.users| && j != i ==> r.after.users[j] == s.users[j])
      && r.result.value.favs == Some(r.after.users[i].favs)
      && (photoId in r.after.users[i].favs <==> photoId !in s.users[i].favs)
  {
    var user := CheckIsUserLogged(s, ctx).value;
    assert user == s.users[i] by {
      var k := FindUser(s.users, ctx.email).value;
      assert s.users[k].email == s.users[i].email;
    }
    assert FindById(s.users, user.id) == Some(i) by {
      var k := FindById(s.users, user.id).value;
      assert s.users[k].id == s.users[i].id;
    }
    ToggleFavFlips(s, user.id, photoId);
    var r := LikePhoto(s, ctx, photoId);
    assert r.after == ToggleFav(s, user.id, photoId);
    assert CheckIsUserLogged(r.after, ctx).Success?;
    var k := FindUser(r.after.users, ctx.email).value;
    assert r.after.users[k].email == s.users[i].email;
    assert k == i;
  }

  /** `ToggleFav` on a known user and photo keeps the store invariant: the
      counter moves in step with the favourite. */
  lemma ToggleFavKeepsWellFormed(s: State, userId: UserId, photoId: PhotoId)
    requires WellFormed(s)
    requires photoId in s.photos && FindById(s.users, userId).Some?
    ensures WellFormed(ToggleFav(s, userId, photoId))
  {
    var j := FindById(s.users, userId).value;
    var t := ToggleFav(s, userId, photoId);
    ToggleFavFlips(s, userId, photoId);
    ReplaceFavsKeepsWellFormed(s, t, j);
  }

  /** `likePhoto` keeps the store invariant; in particular it never drives a
      like counter below zero. */
  lemma LikePhotoKeepsWellFormed(s: State, ctx: Context, photoId: PhotoId)
    requires WellFormed(s)
    ensures WellFormed(LikePhoto(s, ctx, photoId).after)
  {
    if LikePhoto(s, ctx, photoId).result.Success? {
      LikePhotoIsToggle(s, ctx, photoId);
      ToggleFavKeepsWellFormed(s, CheckIsUserLogged(s, ctx).value.id, photoId);
    }
  }

  /** `signup` keeps the store invariant: the refused duplicate keeps emails
      unique and the new user gets a fresh id and no favourites. */
  lemma SignupKeepsWellFormed(s: State, email: string, password: string, hash: string -> string, secret: string)
    requires WellFormed(s)
    ensures WellFormed(Signup(s, email, password, hash, secret).after)
  {
  }

  /** A successful `likePhoto` is a `ToggleFav` for the caller's id, which
      names an existing user. */
  lemma LikePhotoIsToggle(s: State, ctx: Context, photoId: PhotoId)
    requires CheckIsUserLogged(s, ctx).Success? && photoId in s.photos
    ensures var id := CheckIsUserLogged(s, ctx).value.id;
      FindById(s.users, id).Some? && LikePhoto(s, ctx, photoId).after == ToggleFav(s, id, photoId)
  {
    var user := CheckIsUserLogged(s, ctx).value;
    var a := FindUser(s.users, ctx.email).value;
    assert s.users[a].id == user.id;
  }

  /** The identity check finds a user with the same id in any state that
      keeps every user's id and email. */
  lemma {:induction false} SameCaller(s: State, t: State, ctx: Context)
    requires |t.users| == |s.users|
    requires forall i :: 0 <= i < |s.users| ==>
      t.users[i].id == s.users[i].id && t.users[i].email == s.users[i].email
    requires CheckIsUserLogged(s, ctx).Success?
    ensures CheckIsUserLogged(t, ctx).Success?
    ensures CheckIsUserLogged(t, ctx).value.id == CheckIsUserLogged(s, ctx).value.id
  {
  }

  /** Two successive `likePhoto` calls with the same context on the same photo
      (both past the identity and photo checks) restore the store exactly:
      like counters and favourites alike. */
  lemma {:induction false} LikePhotoTwiceRestores(s: State, ctx: Context, photoId: PhotoId)
    requires CheckIsUserLogged(s, ctx).Success? && photoId in s.photos
    ensures var s1 := LikePhoto(s, ctx, photoId).after;
      LikePhoto(s1, ctx, photoId).result.Success? && LikePhoto(s1, ctx, photoId).after == s
  {
    LikePhotoIsToggle(s, ctx, photoId);
    var id := CheckIsUserLogged(s, ctx).value.id;
    var s1 := LikePhoto(s, ctx, photoId).after;
    SameCaller(s, s1, ctx);
    LikePhotoIsToggle(s1, ctx, photoId);
    ToggleFavTwice(s, id, photoId);
  }

  /** After a successful signup, logging in with the same email succeeds with
      a one-day token for the new user whenever the password check accepts the
      password against what was stored, and fails with `IncorrectPassword`
      otherwise. */
  lemma SignupThenLogin(s: State, email: string, password: string, hash: string -> string,
                        compare: (string, string) -> bool, secret: string, attempt: string)
    requires Signup(s, email, password, hash, secret).result.Success?
    ensures var s1 := Signup(s, email, password, hash, secret).after;
      Login(s1, email, attempt, compare, secret) ==
        if compare(attempt, hash(password))
        then Success(Token(s.nextId, email, secret, LoginExpiry))
        else Failure(IncorrectPassword)
  {
  }

  /** A failed `signup` issues no token and a second signup with the same
      email always fails. */
  lemma SignupTwiceFails(s: State, email: string, password: string, password2: string,
                         hash: string -> string, secret: string)
    requires Signup(s, email, password, hash, secret).result.Success?
    ensures var s1 := Signup(s, email, password, hash, secret).after;
      Signup(s1, email, password2, hash, secret) == Step(s1, Failure(UserAlreadyExists))
  {
  }

  /** An anonymous context cannot list favourites, while the category listing
      still succeeds with no favourites passed along. */
  lemma AnonymousQueries(s: State, categoryId: Option<CategoryId>)
    ensures Favs(s, Context(None, None)) == Failure(NotLoggedIn)
    ensures Photos(s, Context(None, None), categoryId) == ByCategory(categoryId, {})
  {
  }

  /** A worked trace: an anonymous like takes photo 7 from 0 to 1 like, a
      like by a signed-up user takes it to 2 and adds the favourite, and the
      same user's second like takes it back to 1 and drops the favourite. */
  lemma ExampleTrace(hash: string -> string, secret: string)
    ensures var s0 := State(map[7 := 0], [], 1);
      var s1 := Signup(s0, "b@x.com", "pw", hash, secret).after;
      var ctx := Context(Some(1), Some("b@x.com"));
      var s2 := LikeAnonymousPhoto(s1, 7).after;
      var s3 := LikePhoto(s2, ctx, 7).after;
      var s4 := LikePhoto(s3, ctx, 7).after;
      && s2.photos[7] == 1
      && s3.photos[7] == 2 && 7 in s3.users[0].favs
      && s4.photos[7] == 1 && 7 !in s4.users[0].favs
  {
  }
}
