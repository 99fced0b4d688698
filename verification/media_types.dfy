/**
 * The domain records of the media tracker (a movie, TV show or book in a
 * user's collection, its review and its seasons), the update object that
 * overlays some of an item's fields, and the record an item is built from
 * before it receives an id and an added date.
 */
module MediaTypes {
  import opened Common

  /** The three kinds of media; there is no fourth. */
  datatype MediaType = Movie | Tv | Book

  /**
   * One season of a TV show. `number` and `watched` are always present;
   * `episodesWatched`, `totalEpisodes` and `rating` are optional.
   */
  datatype Season = Season(
    number: int,
    watched: bool,
    episodesWatched: Option<int>,
    totalEpisodes: Option<int>,
    rating: Option<real>)

  /** A review always carries a rating, a text and a date (`yyyy-mm-dd`). */
  datatype Review = Review(rating: real, text: string, date: string)

  /**
   * A catalogued item. `id`, `title`, `mediaType` and `addedDate` are
   * required; everything else is optional. `seasons` is meant for TV shows
   * only, but nothing in the type ties it to `mediaType`.
   */
  datatype MediaItem = MediaItem(
    id: string,
    title: string,
    mediaType: MediaType,
    imageUrl: Option<string>,
    creator: Option<string>,
    releaseYear: Option<nat>,
    addedDate: string,
    review: Option<Review>,
    seasons: Option<seq<Season>>,
    originalCreatorId: Option<string>)

  /** `Omit<MediaItem, "id" | "addedDate">`: what the add flows receive. */
  datatype MediaDraft = MediaDraft(
    title: string,
    mediaType: MediaType,
    imageUrl: Option<string>,
    creator: Option<string>,
    releaseYear: Option<nat>,
    review: Option<Review>,
    seasons: Option<seq<Season>>,
    originalCreatorId: Option<string>)

  /** `Partial<MediaItem>`: each key is either absent or present with a value. */
  datatype Patch = Patch(
    id: Field<string>,
    title: Field<string>,
    mediaType: Field<MediaType>,
    imageUrl: Field<Option<string>>,
    creator: Field<Option<string>>,
    releaseYear: Field<Option<nat>>,
    addedDate: Field<string>,
    review: Field<Option<Review>>,
    seasons: Field<Option<seq<Season>>>,
    originalCreatorId: Field<Option<string>>)

  /** The update object with no keys. */
  const NoChanges := Patch(Keep, Keep, Keep, Keep, Keep, Keep, Keep, Keep, Keep, Keep)

  /** `{ ...item, ...updates }`: every key present in `p` replaces the item's field. */
  function Overlay(item: MediaItem, p: Patch): MediaItem {
    MediaItem(
      p.id.Over(item.id),
      p.title.Over(item.title),
      p.mediaType.Over(item.mediaType),
      p.imageUrl.Over(item.imageUrl),
      p.creator.Over(item.creator),
      p.releaseYear.Over(item.releaseYear),
      p.addedDate.Over(item.addedDate),
      p.review.Over(item.review),
      p.seasons.Over(item.seasons),
      p.originalCreatorId.Over(item.originalCreatorId))
  }

  /**
   * Overlaying is a right-biased merge: the empty update changes nothing, a
   * key present with `undefined` clears an optional field, and overlaying
   * the same update twice is the same as overlaying it once.
   */
  lemma OverlayLaws(item: MediaItem, p: Patch)
    ensures Overlay(item, NoChanges) == item
    ensures Overlay(Overlay(item, p), p) == Overlay(item, p)
    ensures p.imageUrl == Set(None) ==> Overlay(item, p).imageUrl == None
    ensures p.id == Keep ==> Overlay(item, p).id == item.id
  {
  }

  /** `{ ...draft, id, addedDate }`: a draft completed into an item. */
  function WithIdentity(d: MediaDraft, id: string, addedDate: string): (item: MediaItem)
    ensures item.id == id && item.addedDate == addedDate
  {
    MediaItem(id, d.title, d.mediaType, d.imageUrl, d.creator, d.releaseYear, addedDate,
              d.review, d.seasons, d.originalCreatorId)
  }

  /** The string `item.type` prints as in a template string. */
  function TypeName(t: MediaType): string {
    match t
    case Movie => "movie"
    case Tv => "tv"
    case Book => "book"
  }

  /** The three type names are distinct, so the name determines the type. */
  lemma TypeNameInjective(a: MediaType, b: MediaType)
    ensures TypeName(a) == TypeName(b) <==> a == b
  {
  }
}
