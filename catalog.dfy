/** The photo collection (the `photosModel` module): each photo has a like
    counter. */
module Catalog {
  import opened Wrappers

  type PhotoId = nat
  type CategoryId = nat

  /** A photo as a resolver returns it: the counter after the operation and
      the favourite set the resolver passed along for the `liked` annotation
      (`None` when it passed none). */
  datatype PhotoView = PhotoView(id: PhotoId, likes: int, favs: Option<set<PhotoId>>)

  /** A listing request handed to `photosModel.list`: which photos, and the
      favourite set passed along with them. */
  datatype PhotoListing =
    | ByCategory(categoryId: Option<CategoryId>, favs: set<PhotoId>)
    | ByIds(ids: set<PhotoId>, favs: set<PhotoId>)

  /** `photosModel.find({ _id, favs })`. */
  function Find(photos: map<PhotoId, int>, id: PhotoId, favs: Option<set<PhotoId>>): (r: Option<PhotoView>)
    ensures r.Some? <==> id in photos
    ensures r.Some? ==> r.value.id == id && r.value.likes == photos[id] && r.value.favs == favs
  {
    if id in photos then Some(PhotoView(id, photos[id], favs)) else None
  }

  /** `photosModel.addLike({ _id })`: one more like; no effect on an unknown id. */
  function AddLike(photos: map<PhotoId, int>, id: PhotoId): (r: map<PhotoId, int>)
    ensures r.Keys == photos.Keys
    ensures id in photos ==> r[id] == photos[id] + 1
    ensures forall q :: q in photos && q != id ==> r[q] == photos[q]
  {
    if id in photos then photos[id := photos[id] + 1] else photos
  }

  /** `photosModel.removeLike({ _id })`: one like fewer; no effect on an
      unknown id. */
  function RemoveLike(photos: map<PhotoId, int>, id: PhotoId): (r: map<PhotoId, int>)
    ensures r.Keys == photos.Keys
    ensures id in photos ==> r[id] == photos[id] - 1
    ensures forall q :: q in photos && q != id ==> r[q] == photos[q]
  {
    if id in photos then photos[id := photos[id] - 1] else photos
  }
}
