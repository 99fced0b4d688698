/**
 * The "add new media" page: a form whose season list is edited with the
 * bounded add/remove and the toggle, whose year and review inputs filter
 * what they accept, and whose submit builds the draft handed to the store.
 */
module AddMediaPage {
  import opened Common
  import opened Text
  import opened MediaTypes
  import opened Seasons
  import opened MediaUtils
  import opened MediaCrud

  /** Why a submit is refused. */
  datatype SubmitError = BlankTitle

  /** A snapshot of every field of the form, to say what a handler leaves alone. */
  datatype FormState = FormState(
    title: string,
    mediaType: MediaType,
    creator: string,
    releaseYear: string,
    imageUrl: string,
    rating: real,
    review: string,
    seasons: seq<Season>)

  /** The season the add page starts with: number 1, unwatched, no rating. */
  const FirstSeason := Season(1, false, None, None, None)

  /**
   * A draft from the add page never triggers the add rating rule: its
   * seasons carry no rating, so their mean is 0.
   */
  lemma UnratedDraftKeepsReview(d: MediaDraft, id: string, today: string)
    requires d.seasons.Some? ==> Unrated(d.seasons.value)
    ensures ApplyAddRating(WithIdentity(d, id, today), today) == WithIdentity(d, id, today)
  {
    if d.seasons.Some? {
      AverageOfUnratedIsZero(d.seasons.value);
    }
  }

  class AddMediaForm {
    var title: string
    var mediaType: MediaType
    var creator: string
    var releaseYear: string
    var imageUrl: string
    var rating: real
    var review: string
    var seasons: seq<Season>

    function State(): FormState
      reads this
    {
      FormState(title, mediaType, creator, releaseYear, imageUrl, rating, review, seasons)
    }

    /**
     * What the handlers keep true: seasons numbered 1..n with 1 <= n <= 20
     * and no ratings, and a year field that is empty or all digits.
     */
    ghost predicate Valid()
      reads this
    {
      Contiguous(seasons) && InBounds(seasons) && Unrated(seasons)
      && YearInputAccepted(releaseYear)
    }

    /**
     * The review text passes the 200-word test. Only `ChangeReview` writes
     * the review; every other handler keeps it, as its `State()` clause says.
     */
    ghost predicate ReviewWithinLimit()
      reads this
    {
      ReviewEditAccepted(review)
    }

    constructor()
      ensures Valid() && ReviewWithinLimit()
      ensures State() == FormState("", Movie, "", "", "", 0.0, "", [FirstSeason])
    {
      title, mediaType, creator, releaseYear, imageUrl := "", Movie, "", "", "";
      rating, review, seasons := 0.0, "", [FirstSeason];
      assert Trim("") == "";
      assert SplitWs("") == [""];
    }

    /** `handleAddSeason`: a new unwatched, unrated season, unless there are already 20. */
    method AddSeason()
      requires Valid()
      modifies this
      ensures Valid()
      ensures State() == old(State()).(seasons := AppendSeason(old(seasons), None))
    {
      ResizeKeepsNumbering(seasons, None);
      seasons := AppendSeason(seasons, None);
    }

    /** `handleRemoveSeason`: the last season goes, unless only one is left. */
    method RemoveSeason()
      requires Valid()
      modifies this
      ensures Valid()
      ensures State() == old(State()).(seasons := DropLastSeason(old(seasons)))
    {
      ResizeKeepsNumbering(seasons, None);
      seasons := DropLastSeason(seasons);
    }

    /** `toggleSeasonWatched(n)`: flips the watched flag of season `n` only. */
    method ToggleSeasonWatched(n: int)
      requires Valid()
      modifies this
      ensures Valid()
      ensures State() == old(State()).(seasons := ToggleWatched(old(seasons), n))
    {
      ToggleTouchesOneSeason(seasons, n);
      seasons := ToggleWatched(seasons, n);
    }

    /** The year input keeps a value only when it is empty or all digits. */
    method ChangeReleaseYear(value: string)
      requires Valid()
      modifies this
      ensures Valid()
      ensures State() == old(State()).(releaseYear := if YearInputAccepted(value) then value else old(releaseYear))
    {
      if value == [] || AllDigits(value) {
        releaseYear := value;
      }
    }

    /** The review box keeps a value only when it passes the 200-word test. */
    method ChangeReview(value: string)
      requires Valid() && ReviewWithinLimit()
      modifies this
      ensures Valid() && ReviewWithinLimit() && WordCounter(review) <= MaxReviewWords
      ensures State() == old(State()).(review := if ReviewEditAccepted(value) then value else old(review))
    {
      var next := if ReviewEditAccepted(value) then value else review;
      AcceptedReviewFitsCounter(next);
      review := next;
    }

    /** The star widget's change callback. */
    method ChangeRating(r: real)
      requires Valid()
      modifies this
      ensures Valid()
      ensures State() == old(State()).(rating := r)
    {
      rating := r;
    }

    /** `parseInt(releaseYear)` when the field is non-empty. */
    function YearValue(): Option<nat>
      reads this
      requires YearInputAccepted(releaseYear)
    {
      if releaseYear == "" then None else Some(DigitsValue(releaseYear))
    }

    /**
     * `handleSubmit`: refused exactly when the title is blank. Otherwise the
     * draft has a review exactly when a rating is set or the review text is
     * not blank, has seasons exactly when the type is TV, and maps an empty
     * creator, image URL or year to absent.
     */
    function Submit(today: string): (r: Result<MediaDraft, SubmitError>)
      reads this
      requires YearInputAccepted(releaseYear)
      ensures r.Err? <==> IsBlank(title)
      ensures r.Ok? ==>
        && r.value.title == title && r.value.mediaType == mediaType
        && r.value.creator == (if creator == "" then None else Some(creator))
        && r.value.imageUrl == (if imageUrl == "" then None else Some(imageUrl))
        && r.value.releaseYear == (if releaseYear == "" then None else Some(DigitsValue(releaseYear)))
        && (r.value.review.Some? <==> rating != 0.0 || !IsBlank(review))
        && (r.value.review.Some? ==> r.value.review.value == Review(rating, review, today))
        && r.value.seasons == (if mediaType == Tv then Some(seasons) else None)
        && r.value.originalCreatorId.None?
    {
      if Trim(title) == "" then Err(BlankTitle)
      else
        Ok(MediaDraft(
          title,
          mediaType,
          imageUrl := if imageUrl == "" then None else Some(imageUrl),
          creator := if creator == "" then None else Some(creator),
          releaseYear := YearValue(),
          review := if rating != 0.0 || Trim(review) != "" then Some(Review(rating, review, today)) else None,
          seasons := if mediaType == Tv then Some(seasons) else None,
          originalCreatorId := None))
    }
  }
}
