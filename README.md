# Photo likes and favourites: a Dafny model of the GraphQL resolvers

This project models the resolver layer of a small photo backend (`schema.js`).
The backend keeps two collections:

- photos, each with a like counter;
- users, each with an email, a stored password and a set of favourite photo ids.

The resolvers work on these collections in two identity modes:

- `likeAnonymousPhoto` only ever adds a like;
- `likePhoto` needs a logged-in caller and toggles that caller's favourite, moving the counter with it;
- `signup` and `login` issue session tokens;
- the `favs` and `photos` queries list photos, passing along the caller's favourites.

Modules:

- `Wrappers` (wrappers.dfy): `Option` and `Result`.
- `Catalog` (catalog.dfy): the photo collection (`photosModel`): find, add a like, remove a like; the returned photo view; listing requests.
- `Directory` (directory.dfy): the user collection (`userModel`). Users are documents in insertion order and a lookup returns the first match. It provides find by email or id, `hasFav`, `addFav`, `removeFav` and `create`. `FavCount` counts the users that favour a photo.
- `Schema` (schema.dfy): every resolver as a function of the store's state. A mutation yields a `Step`: the state after the call and the value returned or the error thrown. `WellFormed` is the store invariant:
  - user ids are fresh and distinct, and emails are distinct;
  - favourites name existing photos;
  - every like counter is at least the number of users favouring that photo, so it is never negative.
- `SchemaProperties` (properties.dfy): lemmas relating several calls: the invariant is kept, the toggle undoes itself, and login succeeds after signup.
- `Server` (server.dfy): the shared store as a class `Db` whose fields the store operations update in place. The three mutation resolvers are methods that follow the source step by step. Each is proved to end in exactly the state and answer that `Schema` specifies, and to keep `WellFormed`.

Two points where the code does less than its documented intent; the model follows the code:

- The identity check (`checkIsUserLogged`) only tests that the context has an `_id`. It then looks the user up by the context's **email**, not by the id. `likePhoto` toggles the favourite of the user found that way.
- Nothing in the resolvers guards a like counter against going below zero. Instead, `WellFormed` is proved to be kept by every mutation, and it implies that the counter taken down by `likePhoto` is positive.

## Model

| member | source | states |
|---|---|---|
| `Directory.FindByEmail` | schema.js:67 | the first user whose email matches, or none exactly when no user has that email |
| `Directory.FindById` | schema.js:108 | the first user with the given id, or none exactly when no user has it |
| `Directory.HasFav` | schema.js:108 | true exactly when the user addressed by the id has the photo as a favourite |
| `Directory.AddFav` | schema.js:116 | the user addressed by the id gains the photo among its favourites and nothing else changes: its other fields and favourites and every other user stay as they were; an unknown id leaves the collection unchanged |
| `Directory.RemoveFav` | schema.js:112 | the user addressed by the id loses the photo from its favourites and nothing else changes: its other fields and favourites and every other user stay as they were; an unknown id leaves the collection unchanged |
| `Directory.RemoveFavThenAddFav` | schema.js:111-116 | removing a favourite the user has and adding it back gives the original collection |
| `Directory.AddFavThenRemoveFav` | schema.js:111-116 | adding a favourite a known user lacks and removing it again gives the original collection |
| `Directory.Create` | schema.js:139-142 | exactly one user is appended, with the given email and password and no favourites; earlier users are untouched |
| `Catalog.Find` | schema.js:88 | finds the photo exactly when its id is in the collection; the view carries its counter and the favourite set passed along |
| `Catalog.AddLike` | schema.js:93 | the photo gets one more like; no other counter and no key changes |
| `Catalog.RemoveLike` | schema.js:111 | the photo gets one like fewer; no other counter and no key changes |
| `Schema.FindUser` | schema.js:67 | `userModel.find({ email })` with the context's email: the first user with that email, or none exactly when no user has it (an absent email matches nobody) |
| `Schema.CheckIsUserLogged` | schema.js:62-71 | fails with "not logged in" exactly when the context has no `_id`, and with "user does not exist" exactly when no user has the context's email; it succeeds exactly when the context has an `_id` and some user has its email, and then returns the first stored user with that email |
| `Schema.TryGetFavsFromUserLogged` | schema.js:73-81 | never fails: the logged user's favourites, or the empty set whenever the identity check fails |
| `Schema.LikeAnonymousPhoto` | schema.js:85-97 | an unknown photo fails with the state unchanged; otherwise that photo's counter rises by exactly one, no other photo and no user changes, and the returned photo shows the new count |
| `Schema.ToggleFav` | schema.js:108-117 | the toggle touches no other photo's counter, keeps the photo keys, the user ids and emails, and the id generator |
| `Schema.LikePhoto` | schema.js:98-125 | identity failures and an unknown photo (checked after identity) fail with no state change; success exactly when both checks pass; on success the new state is exactly `ToggleFav` for the caller's id (so only the photo's counter and that user's favourites change), and the returned photo carries the new counter and the caller's favourites after the change |
| `Schema.Signup` | schema.js:127-150 | an already registered email fails with "user already exists" and changes nothing; otherwise exactly one user with that email, a fresh id and no favourites is appended, photos are unchanged, and a one-year token for it is returned |
| `Schema.Login` | schema.js:153-176 | fails with "no user with that email" exactly when the email is unregistered; for the user with that email, fails with "incorrect password" when the password check rejects it and otherwise returns a one-day token for that user |
| `Schema.Favs` | schema.js:179-183 | fails exactly when the identity check fails, with its error; otherwise lists the logged user's favourites, passing them along as the favourite set |
| `Schema.Photos` | schema.js:191-194 | never fails; lists the requested category, with the caller's favourites when the identity check succeeds and with none otherwise |
| `SchemaProperties.LikeAnonymousPhotoKeepsWellFormed` | schema.js:93 | an anonymous like keeps the store invariant |
| `SchemaProperties.LikeAnonymousPhotoNeverDecreases` | schema.js:85-97 | an anonymous like never lowers any counter |
| `SchemaProperties.ToggleFavFlips` | schema.js:108-117 | with the favourite present, one like and the favourite are removed; otherwise one like and the favourite are added; nothing else changes |
| `SchemaProperties.ToggleFavTwice` | schema.js:108-117 | toggling the same user and photo twice restores the state |
| `SchemaProperties.ToggleFavKeepsWellFormed` | schema.js:108-117 | the toggle keeps the store invariant, so a counter is never taken below zero |
| `SchemaProperties.LikePhotoToggles` | schema.js:98-125 | in a well-formed store a logged-in like flips the favourite of the user with the context's email, moves the counter by one in the same direction, leaves other users alone, and the returned favourite set contains the photo exactly when it was just added |
| `SchemaProperties.LikePhotoKeepsWellFormed` | schema.js:98-125 | `likePhoto` keeps the store invariant |
| `SchemaProperties.LikePhotoTwiceRestores` | schema.js:108-117 | two successive successful `likePhoto` calls with the same context and photo restore the counters and the favourites exactly |
| `SchemaProperties.SignupKeepsWellFormed` | schema.js:133-142 | `signup` keeps the store invariant, including unique emails |
| `SchemaProperties.SignupTwiceFails` | schema.js:133-137 | after a successful signup, a second signup with the same email fails and changes nothing |
| `SchemaProperties.SignupThenLogin` | schema.js:139-175 | after a successful signup, login with that email gives a one-day token for the new user when the password check accepts, and "incorrect password" otherwise |
| `SchemaProperties.AnonymousQueries` | schema.js:179-194 | with no identity, `favs` fails with "not logged in" and `photos` lists the category with an empty favourite set |
| `SchemaProperties.ExampleTrace` | schema.js:85-125 | anonymous like 0 to 1; a signed-up user's like 1 to 2 and adds the favourite; the same user's second like 2 to 1 and drops it |
| `Server.Db.AddLike` | schema.js:93 | the photo collection becomes `Catalog.AddLike` of the old one; users are unchanged |
| `Server.Db.RemoveLike` | schema.js:111 | the photo collection becomes `Catalog.RemoveLike` of the old one; users are unchanged |
| `Server.Db.AddFav` | schema.js:116 | the user collection becomes `Directory.AddFav` of the old one; photos are unchanged |
| `Server.Db.RemoveFav` | schema.js:112 | the user collection becomes `Directory.RemoveFav` of the old one; photos are unchanged |
| `Server.Db.Create` | schema.js:139-142 | appends and returns one user with the next fresh id; photos are unchanged |
| `Server.LikeAnonymousPhoto` | schema.js:85-97 | the in-place resolver ends in the state and answer of `Schema.LikeAnonymousPhoto` and keeps the invariant |
| `Server.LikePhoto` | schema.js:98-125 | the in-place resolver ends in the state and answer of `Schema.LikePhoto` and keeps the invariant |
| `Server.Signup` | schema.js:127-150 | the in-place resolver ends in the state and answer of `Schema.Signup` and keeps the invariant |

## Left out

- `Query.photo` (schema.js:187-190) is not modelled. It reads an undefined variable `id` instead of its `_id` argument, so its behaviour cannot be stated.
- `Query.categories` is not modelled: it hands the call straight to the category collection, which is not part of this model.
- The GraphQL type declarations (schema.js:8-60) are not modelled: they declare types only.
- The one-second delays in `signup` and `login` are left out: they affect timing only.
- Each resolver call is modelled as atomic. Concurrent requests are out of scope. This covers the race between reading `hasFav` and writing the favourite in `likePhoto`. It also covers `signup`'s `find` followed by `create` across an `await` (schema.js:133-142): two concurrent signups with one email could both pass the check. The unique-email part of `WellFormed` holds only because each call is atomic.
- Token signing is symbolic. `Token` records the claims `{ _id, email }`, the secret and the expiry option (`1y` for signup, `1d` for login). The cryptography, the issue time and the decoding of a token into the request context are not modelled.
- The signing secret, read from the environment, is a parameter.
- `Schema.Login`: the password comparison is a parameter `compare`.
- `Schema.Signup`: what `userModel.create` stores for the password (presumably a hash) is a parameter `hash`. The collection's id generation is a counter `nextId`.
- `Directory.FindByEmail`: every store call in the identity helpers, the like resolvers and `favs` is made without `await`. The model treats all of them as synchronous calls that return their value:
  - `userModel.find` at schema.js:67, 76 and 181;
  - `photosModel.find`, `addLike` and `removeLike` at schema.js:88, 93, 95, 103, 111, 115 and 122;
  - `userModel.hasFav`, `addFav` and `removeFav` at schema.js:108, 112 and 116.
  If any of them returned a promise instead, the source would behave differently from the model. For example, a pending `photosModel.find` would never raise "Couldn't find photo", and a pending `hasFav` would always take the remove branch of the toggle.
- Only an absent `_id` counts as "not logged in". Other falsy JavaScript values (`0`, `""`) are not modelled: user ids stand for the identifiers the store generates, and those are never falsy. To match, the `Db` generator starts at 1. A context without an email matches no user.
- The `liked` flag is computed inside `photosModel.find`/`list`, which is not part of this model. Returned photos and listing requests only carry the favourite set the resolver passes along.
- `photosModel.list` is not part of this model either. The queries return the listing request, not the photos it would produce.
- Behaviour of the store operations on an unknown id is assumed to be a no-op. The resolvers never reach that case.
- `Schema.Favs`: it looks the user up a second time. Should that lookup find nobody, the source would throw a type error; the model reports "user does not exist". That case cannot arise after a successful identity check.
- The database connection modules (`db.js`, `adapter.js`, `adapterUser.js`, `adapternach.js`) are process plumbing and are not modelled.
