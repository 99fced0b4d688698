/**
 * The detail page's edit form: fields seeded from the item, a season list
 * edited with the bounded add/remove (new seasons rated 0), the toggle and
 * the per-season rating, a digit-only year input, and the update record a
 * save sends.
 */
module MediaEditFormModel {
  import opened Common
  import opened Text
  import opened MediaTypes
  import opened Seasons
  import opened MediaUtils

  /** `releaseYear?.toString() || ""`. */
  function YearText(year: Option<nat>): (s: string)
    ensures YearInputAccepted(s)
  {
    if year.Some? then Decimal(year.value) else ""
  }

  /**
   * `handleSaveDetails`: sends title, type and seasons always (seasons even
   * for a movie or book), an empty creator as absent and the year parsed
   * when the field is non-empty; the other keys are left out.
   */
  function DetailsPatch(title: string, creator: string, year: string, t: MediaType, seasons: seq<Season>): (p: Patch)
    requires YearInputAccepted(year)
    ensures p.id == Keep && p.imageUrl == Keep && p.addedDate == Keep
    ensures p.review == Keep && p.originalCreatorId == Keep
    ensures p.creator != Set(Some(""))
    ensures p.releaseYear.Set? && (p.releaseYear.value.Some? <==> year != "")
  {
    NoChanges.(
      title := Set(title),
      creator := Set(if creator == "" then None else Some(creator)),
      releaseYear := Set(if year == "" then None else Some(DigitsValue(year))),
      mediaType := Set(t),
      seasons := Set(Some(seasons)))
  }

  /**
   * A save changes exactly title, creator, year, type and seasons of the
   * item it is merged into, and keeps its id, image, added date, review and
   * attribution.
   */
  lemma SaveChangesOnlyDetails(item: MediaItem, title: string, creator: string, year: string,
                               t: MediaType, seasons: seq<Season>)
    requires YearInputAccepted(year)
    ensures Overlay(item, DetailsPatch(title, creator, year, t, seasons)) ==
      item.(title := title, creator := if creator == "" then None else Some(creator),
            releaseYear := if year == "" then None else Some(DigitsValue(year)),
            mediaType := t, seasons := Some(seasons))
  {
  }

  /**
   * Saving without editing gives back the item, except that an empty
   * creator becomes absent and missing seasons become an empty list: the
   * year survives the round trip through its decimal text.
   */
  lemma UneditedSaveKeepsItem(item: MediaItem)
    ensures Overlay(item, DetailsPatch(item.title, item.creator.GetOr(""), YearText(item.releaseYear),
                                       item.mediaType, item.seasons.GetOr([])))
      == item.(creator := if item.creator == Some("") then None else item.creator,
               seasons := Some(item.seasons.GetOr([])))
  {
    if item.releaseYear.Some? {
      DigitsValueOfDecimal(item.releaseYear.value);
    }
  }

  /**
   * A season added by the edit form is rated 0, and the stored mean counts
   * it: the sum of the defined ratings stays, their number grows by one.
   */
  lemma AddedSeasonCountsInMean(ss: seq<Season>)
    requires |ss| < MaxSeasons
    ensures var rated := RatedSeasons(ss);
      CalculateAverageRating(AppendSeason(ss, Some(0.0))) == RatingSum(rated) / ((|rated| + 1) as real)
  {
    var extra := Season(|ss| + 1, false, None, None, Some(0.0));
    var rated := RatedSeasons(ss);
    assert AppendSeason(ss, Some(0.0)) == ss + [extra];
    RatedSeasonsOfConcat(ss, [extra]);
    assert RatedSeasons([extra]) == [extra];
    RatingSumOfConcat(rated, [extra]);
    assert RatingSum([extra]) == 0.0;
    var grown := RatedSeasons(ss + [extra]);
    assert grown == rated + [extra];
    assert |grown| == |rated| + 1 && RatingSum(grown) == RatingSum(rated);
  }

  class MediaEditForm {
    var title: string
    var creator: string
    var releaseYear: string
    var mediaType: MediaType
    var seasons: seq<Season>

    /** The year field is empty or all digits. */
    ghost predicate Valid()
      reads this
    {
      YearInputAccepted(releaseYear)
    }

    constructor(item: MediaItem)
      ensures Valid()
      ensures title == item.title && creator == item.creator.GetOr("")
      ensures releaseYear == YearText(item.releaseYear) && mediaType == item.mediaType
      ensures seasons == item.seasons.GetOr([])
    {
      title := item.title;
      creator := item.creator.GetOr("");
      releaseYear := YearText(item.releaseYear);
      mediaType := item.mediaType;
      seasons := item.seasons.GetOr([]);
    }

    /** `handleSeasonToggle(n)`. */
    method ToggleSeason(n: int)
      requires Valid()
      modifies this
      ensures Valid() && seasons == ToggleWatched(old(seasons), n)
      ensures Contiguous(old(seasons)) ==> Contiguous(seasons)
      ensures title == old(title) && creator == old(creator) && releaseYear == old(releaseYear)
      ensures mediaType == old(mediaType)
    {
      seasons := ToggleWatched(seasons, n);
    }

    /** `handleSeasonRatingChange(n, v)`. */
    method RateSeason(n: int, v: real)
      requires Valid()
      modifies this
      ensures Valid() && seasons == SetSeasonRating(old(seasons), n, v)
      ensures Contiguous(old(seasons)) ==> Contiguous(seasons)
      ensures title == old(title) && creator == old(creator) && releaseYear == old(releaseYear)
      ensures mediaType == old(mediaType)
    {
      seasons := SetSeasonRating(seasons, n, v);
    }

    /** `handleAddSeason`: a new unwatched season rated 0, unless there are already 20. */
    method AddSeason()
      requires Valid()
      modifies this
      ensures Valid() && seasons == AppendSeason(old(seasons), Some(0.0))
      ensures Contiguous(old(seasons)) ==> Contiguous(seasons)
      ensures title == old(title) && creator == old(creator) && releaseYear == old(releaseYear)
      ensures mediaType == old(mediaType)
    {
      if Contiguous(seasons) {
        ResizeKeepsNumbering(seasons, Some(0.0));
      }
      seasons := AppendSeason(seasons, Some(0.0));
    }

    /** `handleRemoveSeason`: the last season goes, unless at most one is left. */
    method RemoveSeason()
      requires Valid()
      modifies this
      ensures Valid() && seasons == DropLastSeason(old(seasons))
      ensures Contiguous(old(seasons)) ==> Contiguous(seasons)
      ensures title == old(title) && creator == old(creator) && releaseYear == old(releaseYear)
      ensures mediaType == old(mediaType)
    {
      if Contiguous(seasons) {
        ResizeKeepsNumbering(seasons, None);
      }
      seasons := DropLastSeason(seasons);
    }

    /** The year input keeps a value only when it is empty or all digits. */
    method ChangeReleaseYear(value: string)
      requires Valid()
      modifies this
      ensures Valid() && releaseYear == (if YearInputAccepted(value) then value else old(releaseYear))
      ensures title == old(title) && creator == old(creator) && seasons == old(seasons)
      ensures mediaType == old(mediaType)
    {
      if value == [] || AllDigits(value) {
        releaseYear := value;
      }
    }

    /** The update record the save button sends. */
    function SaveDetails(): Patch
      reads this
      requires Valid()
    {
      DetailsPatch(title, creator, releaseYear, mediaType, seasons)
    }
  }
}
