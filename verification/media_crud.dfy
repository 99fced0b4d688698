/**
 * The persistence-gated media list: the same add, update and delete as the
 * in-memory store, but each one first checks that a user is signed in,
 * then calls the backend, and changes the local list only when the backend
 * reports success. The backend is a success/failure outcome passed in;
 * the shared-image registry is an external call that may fail.
 */
module MediaCrud {
  import opened Common
  import opened Text
  import opened MediaTypes
  import opened MediaUtils
  import opened MediaContext

  // ---------------------------------------------------------------------
  // TV rating recompute
  // ---------------------------------------------------------------------

  /**
   * The review after the rating recompute: the season mean as rating, the
   * existing review's text and date when there is one, otherwise "" and
   * today's date (`{ ...(review || { text: "", date }), rating }`).
   */
  function ReviewWithRating(review: Option<Review>, avg: real, today: string): (r: Review)
    ensures r.rating == avg
    ensures review.Some? ==> r.text == review.value.text && r.date == review.value.date
    ensures review.None? ==> r.text == "" && r.date == today
  {
    match review
    case Some(rv) => rv.(rating := avg)
    case None => Review(avg, "", today)
  }

  /**
   * When adding: a TV item with seasons whose mean is positive gets that
   * mean as its review rating, but only when it has no review or a review
   * rated 0; a review the user rated is left alone.
   */
  predicate AddRecomputes(item: MediaItem) {
    item.mediaType == Tv && item.seasons.Some?
    && CalculateAverageRating(item.seasons.value) > 0.0
    && (item.review.None? || item.review.value.rating == 0.0)
  }

  function ApplyAddRating(item: MediaItem, today: string): (r: MediaItem)
    ensures r.(review := item.review) == item
    ensures AddRecomputes(item) ==>
      r.review == Some(ReviewWithRating(item.review, CalculateAverageRating(item.seasons.value), today))
    ensures !AddRecomputes(item) ==> r == item
  {
    if AddRecomputes(item) then
      item.(review := Some(ReviewWithRating(item.review, CalculateAverageRating(item.seasons.value), today)))
    else item
  }

  /**
   * When updating: if the update carries seasons and the merged item is a
   * TV show whose season mean is positive, the mean replaces the review
   * rating whatever the previous rating was.
   */
  predicate UpdateRecomputes(updated: MediaItem, p: Patch) {
    p.seasons.Set? && p.seasons.value.Some? && updated.mediaType == Tv
    && CalculateAverageRating(p.seasons.value.value) > 0.0
  }

  function ApplyUpdateRating(updated: MediaItem, p: Patch, today: string): (r: MediaItem)
    ensures r.(review := updated.review) == updated
    ensures UpdateRecomputes(updated, p) ==>
      r.review == Some(ReviewWithRating(updated.review, CalculateAverageRating(p.seasons.value.value), today))
    ensures !UpdateRecomputes(updated, p) ==> r == updated
  {
    if UpdateRecomputes(updated, p) then
      updated.(review := Some(ReviewWithRating(updated.review, CalculateAverageRating(p.seasons.value.value), today)))
    else updated
  }

  /** The merged item an update stores: the overlay, then the rating recompute. */
  function UpdatedItem(existing: MediaItem, p: Patch, today: string): MediaItem {
    ApplyUpdateRating(Overlay(existing, p), p, today)
  }

  /**
   * Applying the add rule twice is applying it once: after it fires the
   * review rating is the positive mean, so it does not fire again.
   */
  lemma AddRatingIdempotent(item: MediaItem, today: string)
    ensures ApplyAddRating(ApplyAddRating(item, today), today) == ApplyAddRating(item, today)
  {
    var once := ApplyAddRating(item, today);
    if AddRecomputes(item) {
      assert once.review.value.rating > 0.0;
      assert !AddRecomputes(once);
    }
  }

  /** Re-sending the same seasons after an update stores the same item again. */
  lemma UpdateRatingIdempotent(existing: MediaItem, p: Patch, today: string)
    ensures UpdatedItem(UpdatedItem(existing, p, today), p, today) == UpdatedItem(existing, p, today)
  {
    var once := UpdatedItem(existing, p, today);
    OverlayLaws(existing, p);
    if p.review.Set? {
      assert Overlay(once, p) == Overlay(existing, p);
    } else {
      assert Overlay(once, p) == once;
    }
  }

  /**
   * The two rules disagree on a TV show the user already rated 3 with one
   * season rated 5: adding it keeps the rating 3, updating its seasons
   * overwrites it with 5.
   */
  lemma AddAndUpdateRulesDiffer()
    ensures var seasons := [Season(1, true, None, None, Some(5.0))];
      var item := MediaItem("tv1", "Show", Tv, None, None, None, "2024-01-01",
                            Some(Review(3.0, "good", "2024-01-01")), Some(seasons), None);
      var p := NoChanges.(seasons := Set(Some(seasons)));
      && ApplyAddRating(item, "2024-02-02").review.value.rating == 3.0
      && UpdatedItem(item, p, "2024-02-02").review.value.rating == 5.0
  {
    var seasons := [Season(1, true, None, None, Some(5.0))];
    assert RatedSeasons(seasons[1..]) == [];
    assert RatedSeasons(seasons) == seasons;
    assert CalculateAverageRating(seasons) == 5.0;
  }

  /**
   * With every defined season rating in [0, 5] and at least one defined,
   * the recomputed review rating of either rule stays in [0, 5].
   */
  lemma RecomputedRatingInRange(seasons: seq<Season>, review: Option<Review>, today: string)
    requires exists i :: 0 <= i < |seasons| && seasons[i].rating.Some?
    requires forall i :: 0 <= i < |seasons| && seasons[i].rating.Some? ==>
      0.0 <= seasons[i].rating.value <= 5.0
    ensures 0.0 <= ReviewWithRating(review, CalculateAverageRating(seasons), today).rating <= 5.0
  {
    AverageWithinBounds(seasons, 0.0, 5.0);
  }

  // ---------------------------------------------------------------------
  // Shared-image gate
  // ---------------------------------------------------------------------

  /** An image URL worth sharing: non-empty and without `?`. */
  predicate ShareableUrl(url: string) {
    url != "" && '?' !in url
  }

  /** On add: the item's image URL is shared when it is truthy and has no `?`. */
  function SharedImageOnAdd(item: MediaItem): (r: Option<string>)
    ensures r.Some? <==> item.imageUrl.Some? && ShareableUrl(item.imageUrl.value)
    ensures r.Some? ==> r == item.imageUrl
  {
    if item.imageUrl.Some? && ShareableUrl(item.imageUrl.value) then item.imageUrl else None
  }

  /** On update: the new URL is shared when it is present, truthy, changed and has no `?`. */
  function SharedImageOnUpdate(existing: MediaItem, p: Patch): (r: Option<string>)
    ensures r.Some? <==> p.imageUrl.Set? && p.imageUrl.value.Some? && ShareableUrl(p.imageUrl.value.value)
                         && p.imageUrl.value != existing.imageUrl
    ensures r.Some? ==> r == p.imageUrl.value
  {
    if p.imageUrl.Set? && p.imageUrl.value.Some? && ShareableUrl(p.imageUrl.value.value)
       && p.imageUrl.value != existing.imageUrl
    then p.imageUrl.value
    else None
  }

  /**
   * A generated placeholder is never shared, neither on add nor as the new
   * URL of an update, because every placeholder URL contains a `?`.
   */
  lemma PlaceholderNeverShared(title: string, t: MediaType, item: MediaItem, existing: MediaItem, p: Patch)
    ensures item.imageUrl == Some(GeneratePlaceholderImage(title, t)) ==> SharedImageOnAdd(item).None?
    ensures p.imageUrl == Set(Some(GeneratePlaceholderImage(title, t))) ==> SharedImageOnUpdate(existing, p).None?
  {
  }

  // ---------------------------------------------------------------------
  // Stored rows
  // ---------------------------------------------------------------------

  /**
   * The row an insert writes for `item` (the backend adds the row id):
   * a missing review writes null rating, text and date, and an empty
   * `originalCreatorId` is written as null.
   */
  function ToDbRow(item: MediaItem, userId: string, rowId: string): (r: DbRow)
    ensures r.id == rowId && r.userId == userId
    ensures r.reviewRating.Some? <==> item.review.Some?
    ensures r.reviewText.Some? <==> item.review.Some?
    ensures r.reviewDate.Some? <==> item.review.Some?
    ensures r.originalCreatorId != Some("")
  {
    DbRow(rowId, userId, item.title, item.mediaType, item.imageUrl, item.creator, item.releaseYear,
          item.addedDate,
          if item.review.Some? then Some(item.review.value.rating) else None,
          if item.review.Some? then Some(item.review.value.text) else None,
          if item.review.Some? then Some(item.review.value.date) else None,
          item.seasons,
          if item.originalCreatorId == Some("") then None else item.originalCreatorId)
  }

  /**
   * Writing an item and reading it back gives the item with the row id in
   * place of the local id, provided its review (if any) is rated non-zero
   * and dated, and its original creator id is not the empty string.
   */
  lemma StoredItemRoundTrip(item: MediaItem, userId: string, rowId: string, today: string)
    requires item.review.Some? ==> item.review.value.rating != 0.0 && item.review.value.date != ""
    requires item.originalCreatorId != Some("")
    ensures TransformDbItem(ToDbRow(item, userId, rowId), today) == item.(id := rowId)
  {
  }

  /** A review rated 0 does not survive a reload, even when it has text. */
  lemma ZeroRatedReviewIsLost(item: MediaItem, userId: string, rowId: string, today: string)
    requires item.review.Some? && item.review.value.rating == 0.0
    ensures TransformDbItem(ToDbRow(item, userId, rowId), today).review.None?
  {
  }

  /** `rows.map(transformDbItemToMediaItem)`. */
  function TransformAll(rows: seq<DbRow>, today: string): (items: seq<MediaItem>)
    ensures |items| == |rows|
    ensures forall k :: 0 <= k < |rows| ==> items[k] == TransformDbItem(rows[k], today)
  {
    if rows == [] then [] else [TransformDbItem(rows[0], today)] + TransformAll(rows[1..], today)
  }

  /** `items.map(item => item.id === id ? updated : item)`. */
  function ReplaceById(items: seq<MediaItem>, id: string, updated: MediaItem): (r: seq<MediaItem>)
    ensures |r| == |items|
    ensures forall k :: 0 <= k < |items| ==> r[k] == (if items[k].id == id then updated else items[k])
  {
    if items == [] then []
    else [if items[0].id == id then updated else items[0]] + ReplaceById(items[1..], id, updated)
  }

  /**
   * When no recompute happens and at most one item has the id, the
   * persisted update leaves the list exactly as the in-memory store's
   * merge-update would.
   */
  lemma UpdateAgreesWithStore(items: seq<MediaItem>, id: string, p: Patch, today: string)
    requires forall i, j :: 0 <= i < j < |items| && items[i].id == id ==> items[j].id != id
    requires FindById(items, id).Some?
    requires !UpdateRecomputes(Overlay(FindById(items, id).value, p), p)
    ensures ReplaceById(items, id, UpdatedItem(FindById(items, id).value, p, today)) == UpdateById(items, id, p)
  {
    var existing := FindById(items, id).value;
    var k :| 0 <= k < |items| && items[k] == existing && existing.id == id;
    var updated := UpdatedItem(existing, p, today);
    assert updated == Overlay(existing, p);
    var a := ReplaceById(items, id, updated);
    var b := UpdateById(items, id, p);
    forall j | 0 <= j < |items|
      ensures a[j] == b[j]
    {
      if items[j].id == id {
        assert j == k;
      }
    }
    assert a == b;
  }

  /** Signed in means a truthy user id. */
  predicate SignedIn(userId: Option<string>) {
    userId.Some? && userId.value != ""
  }

  /** The media list of one signed-in (or signed-out) user, kept in step with the backend. */
  class MediaCrud {
    const userId: Option<string>
    var media: seq<MediaItem>
    var isLoading: bool

    constructor(userId: Option<string>, media: seq<MediaItem>)
      ensures this.userId == userId && this.media == media && isLoading
    {
      this.userId := userId;
      this.media := media;
      isLoading := true;
    }

    /**
     * `loadMediaItems`: signed out, the list is emptied; signed in, a
     * successful fetch replaces it with the mapped rows and a failed one
     * keeps it. Loading ends in every case.
     */
    method Load(response: Result<seq<DbRow>, string>, today: string)
      modifies this
      ensures !SignedIn(userId) ==> media == []
      ensures SignedIn(userId) && response.Ok? ==> media == TransformAll(response.value, today)
      ensures SignedIn(userId) && response.Err? ==> media == old(media)
      ensures !isLoading
    {
      if !SignedIn(userId) {
        media := [];
        isLoading := false;
        return;
      }
      isLoading := true;
      if response.Ok? {
        media := TransformAll(response.value, today);
      }
      isLoading := false;
    }

    /**
     * `addMediaItem`: builds the item (local id and today's date), applies
     * the add rating rule, asks the shared-image registry to record its URL
     * when the gate allows, then inserts. The list gains the item at its end
     * only when both external calls succeed. Returns the URL handed to the
     * registry, if any.
     */
    method Add(draft: MediaDraft, now: nat, today: string, shareFails: bool, insertFails: bool)
      returns (shared: Option<string>)
      modifies this
      ensures var item := ApplyAddRating(WithIdentity(draft, MakeId(draft.mediaType, now), today), today);
        && (!SignedIn(userId) ==> shared.None? && media == old(media))
        && (SignedIn(userId) ==> shared == SharedImageOnAdd(item))
        && (SignedIn(userId) && !(shared.Some? && shareFails) && !insertFails ==> media == old(media) + [item])
        && ((shared.Some? && shareFails) || insertFails ==> media == old(media))
      ensures isLoading == old(isLoading)
    {
      shared := None;
      if !SignedIn(userId) {
        return;
      }
      var item := WithIdentity(draft, MakeId(draft.mediaType, now), today);
      item := ApplyAddRating(item, today);
      shared := SharedImageOnAdd(item);
      if shared.Some? && shareFails {
        return;
      }
      if insertFails {
        return;
      }
      media := media + [item];
    }

    /**
     * `updateMediaItem`: an unknown id takes the error path and changes
     * nothing. Otherwise the merged item (with the update rating rule) is
     * computed, its new URL is offered to the registry when the gate
     * allows, and on a successful write every item with the id is replaced
     * by it. Returns the URL handed to the registry, if any.
     */
    method Update(id: string, p: Patch, today: string, shareFails: bool, writeFails: bool)
      returns (shared: Option<string>)
      modifies this
      ensures !SignedIn(userId) || FindById(old(media), id).None? ==> shared.None? && media == old(media)
      ensures SignedIn(userId) && FindById(old(media), id).Some? ==>
        var existing := FindById(old(media), id).value;
        && shared == SharedImageOnUpdate(existing, p)
        && (!(shared.Some? && shareFails) && !writeFails ==>
              media == ReplaceById(old(media), id, UpdatedItem(existing, p, today)))
        && ((shared.Some? && shareFails) || writeFails ==> media == old(media))
      ensures isLoading == old(isLoading)
    {
      shared := None;
      if !SignedIn(userId) {
        return;
      }
      var found := FindById(media, id);
      if found.None? {
        return;
      }
      var existing := found.value;
      var updated := UpdatedItem(existing, p, today);
      shared := SharedImageOnUpdate(existing, p);
      if shared.Some? && shareFails {
        return;
      }
      if writeFails {
        return;
      }
      media := ReplaceById(media, id, updated);
    }

    /** `deleteMediaItem`: on a successful delete every item with the id is dropped. */
    method Delete(id: string, deleteFails: bool)
      modifies this
      ensures SignedIn(userId) && !deleteFails ==> media == RemoveId(old(media), id)
      ensures !SignedIn(userId) || deleteFails ==> media == old(media)
      ensures isLoading == old(isLoading)
    {
      if !SignedIn(userId) || deleteFails {
        return;
      }
      media := RemoveId(media, id);
    }
  }
}
