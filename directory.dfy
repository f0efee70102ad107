/** The user collection (the `userModel` module): users are documents kept in
    insertion order; a lookup returns the first matching document. */
module Directory {
  import opened Wrappers
  import opened Catalog

  type UserId = nat

  /** A user document: its id, its email, the stored password and the ids of
      the photos it has as favourites. */
  datatype User = User(id: UserId, email: string, password: string, favs: set<PhotoId>)

  /** Index of the first element of `s` that satisfies `matches`. */
  function FirstIndex<T>(s: seq<T>, matches: T -> bool): (r: Option<nat>)
    ensures r.Some? ==> r.value < |s| && matches(s[r.value])
    ensures r.Some? ==> forall j :: 0 <= j < r.value ==> !matches(s[j])
    ensures r.None? <==> forall j :: 0 <= j < |s| ==> !matches(s[j])
  {
    if |s| == 0 then None
    else if matches(s[0]) then Some(0)
    else
      match FirstIndex(s[1..], matches)
      case None => None
      case Some(k) => Some(k + 1)
  }

  /** `userModel.find({ email })`. */
  function FindByEmail(users: seq<User>, email: string): (r: Option<nat>)
    ensures r.Some? ==> r.value < |users| && users[r.value].email == email
    ensures r.Some? ==> forall j :: 0 <= j < r.value ==> users[j].email != email
    ensures r.None? <==> forall j :: 0 <= j < |users| ==> users[j].email != email
  {
    FirstIndex(users, (u: User) => u.email == email)
  }

  /** The document addressed by `{ _id: id }`. */
  function FindById(users: seq<User>, id: UserId): (r: Option<nat>)
    ensures r.Some? ==> r.value < |users| && users[r.value].id == id
    ensures r.Some? ==> forall j :: 0 <= j < r.value ==> users[j].id != id
    ensures r.None? <==> forall j :: 0 <= j < |users| ==> users[j].id != id
  {
    FirstIndex(users, (u: User) => u.id == id)
  }

  /** `userModel.hasFav({ _id, photoId })`: false for an unknown user. */
  function HasFav(users: seq<User>, id: UserId, photoId: PhotoId): (r: bool)
    ensures r <==> exists i :: 0 <= i < |users| && users[i].id == id && photoId in users[i].favs
                                && forall j :: 0 <= j < i ==> users[j].id != id
  {
    match FindById(users, id)
    case None => false
    case Some(i) => photoId in users[i].favs
  }

  /** Replaces the favourites of the user addressed by `id`; no effect on an
      unknown id. */
  function SetFavs(users: seq<User>, id: UserId, favs: set<PhotoId>): (r: seq<User>)
    ensures |r| == |users|
    ensures forall i :: 0 <= i < |users| ==>
      r[i].id == users[i].id && r[i].email == users[i].email && r[i].password == users[i].password
    ensures FindById(users, id).None? ==> r == users
    ensures FindById(users, id).Some? ==>
              var i := FindById(users, id).value;
              r[i].favs == favs && forall j :: 0 <= j < |users| && j != i ==> r[j] == users[j]
  {
    match FindById(users, id)
    case None => users
    case Some(i) => users[i := users[i].(favs := favs)]
  }

  /** `userModel.addFav({ _id, photoId })`: afterwards the user addressed by
      `id` has the photo; ids and emails stay as they were. */
  function AddFav(users: seq<User>, id: UserId, photoId: PhotoId): (r: seq<User>)
    ensures |r| == |users|
    ensures forall i :: 0 <= i < |users| ==> r[i].id == users[i].id && r[i].email == users[i].email
    ensures HasFav(r, id, photoId) <==> FindById(users, id).Some?
    ensures FindById(users, id).None? ==> r == users
    ensures FindById(users, id).Some? ==>
      var i := FindById(users, id).value;
      && r[i] == users[i].(favs := users[i].favs + {photoId})
      && forall j :: 0 <= j < |users| && j != i ==> r[j] == users[j]
  {
    match FindById(users, id)
    case None => users
    case Some(i) => SetFavs(users, id, users[i].favs + {photoId})
  }

  /** `userModel.removeFav({ _id, photoId })`: afterwards the user addressed
      by `id` no longer has the photo; ids and emails stay as they were. */
  function RemoveFav(users: seq<User>, id: UserId, photoId: PhotoId): (r: seq<User>)
    ensures |r| == |users|
    ensures forall i :: 0 <= i < |users| ==> r[i].id == users[i].id && r[i].email == users[i].email
    ensures !HasFav(r, id, photoId)
    ensures FindById(users, id).None? ==> r == users
    ensures FindById(users, id).Some? ==>
      var i := FindById(users, id).value;
      && r[i] == users[i].(favs := users[i].favs - {photoId})
      && forall j :: 0 <= j < |users| && j != i ==> r[j] == users[j]
  {
    match FindById(users, id)
    case None => users
    case Some(i) => SetFavs(users, id, users[i].favs - {photoId})
  }

  /** `userModel.create({ email, password })`: a new document with no
      favourites, appended to the collection. */
  function Create(users: seq<User>, id: UserId, email: string, password: string): (r: seq<User>)
    ensures |r| == |users| + 1 && r[..|users|] == users
    ensures r[|users|] == User(id, email, password, {})
  {
    users + [User(id, email, password, {})]
  }

  /** `removeFav` after `hasFav` is undone by `addFav`. */
  lemma RemoveFavThenAddFav(users: seq<User>, id: UserId, photoId: PhotoId)
    requires HasFav(users, id, photoId)
    ensures AddFav(RemoveFav(users, id, photoId), id, photoId) == users
  {
    var j := FindById(users, id).value;
    var r := RemoveFav(users, id, photoId);
    assert FindById(r, id) == Some(j) by {
      var b := FindById(r, id).value;
      assert users[b].id == r[b].id;
    }
    assert r[j].favs + {photoId} == users[j].favs;
    assert r[j].(favs := users[j].favs) == users[j];
  }

  /** `addFav` on a known user without the favourite is undone by
      `removeFav`. */
  lemma AddFavThenRemoveFav(users: seq<User>, id: UserId, photoId: PhotoId)
    requires FindById(users, id).Some? && !HasFav(users, id, photoId)
    ensures RemoveFav(AddFav(users, id, photoId), id, photoId) == users
  {
    var j := FindById(users, id).value;
    var r := AddFav(users, id, photoId);
    assert FindById(r, id) == Some(j) by {
      var b := FindById(r, id).value;
      assert users[b].id == r[b].id;
    }
    assert r[j].favs - {photoId} == users[j].favs;
    assert r[j].(favs := users[j].favs) == users[j];
  }

  /** 1 when `u` has `p` as a favourite, else 0. */
  function Favours(u: User, p: PhotoId): nat
  {
    if p in u.favs then 1 else 0
  }

  /** Number of users that have `p` as a favourite. */
  function FavCount(users: seq<User>, p: PhotoId): nat
  {
    if |users| == 0 then 0
    else FavCount(users[..|users| - 1], p) + Favours(users[|users| - 1], p)
  }

  /** Replacing one document changes the count by what that document
      contributes. */
  lemma {:induction false} FavCountUpdate(users: seq<User>, i: nat, u: User, p: PhotoId)
    requires i < |users|
    ensures FavCount(users[i := u], p) == FavCount(users, p) - Favours(users[i], p) + Favours(u, p)
    decreases |users|
  {
    var n := |users|;
    var v := users[i := u];
    if i == n - 1 {
      assert v[..n - 1] == users[..n - 1];
    } else {
      assert v[..n - 1] == users[..n - 1][i := u];
      FavCountUpdate(users[..n - 1], i, u, p);
    }
  }
}
