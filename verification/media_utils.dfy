/**
 * The pure helpers of the media layer: the deterministic placeholder cover
 * URL, the season-rating mean used when a TV show is saved, and the mapping
 * from a stored row to an in-memory item.
 */
module MediaUtils {
  import opened Common
  import opened Text
  import opened MediaTypes

  // ---------------------------------------------------------------------
  // Placeholder image
  // ---------------------------------------------------------------------

  /**
   * The seed: the sum, over the code points of the title, of the first
   * UTF-16 code unit of each (an astral character contributes its high
   * surrogate). It is never negative, so `Math.abs(seed)` is the seed itself.
   */
  function Seed(title: string): (seed: nat)
    ensures seed <= 0xFFFF * |title|
  {
    if title == [] then 0 else FirstCodeUnit(title[0]) + Seed(title[1..])
  }

  /** The seed only depends on the multiset of characters: it adds up over concatenation. */
  lemma {:induction false} SeedOfConcat(a: string, b: string)
    ensures Seed(a + b) == Seed(a) + Seed(b)
  {
    if a == [] {
      assert a + b == b;
    } else {
      assert (a + b)[0] == a[0];
      assert (a + b)[1..] == a[1..] + b;
      SeedOfConcat(a[1..], b);
    }
  }

  /** A photo id is non-empty and has no `?`, so it cannot end a URL's path early. */
  predicate PlainPhotoId(id: string) {
    id != [] && '?' !in id
  }

  function MoviePhotos(): (ids: seq<string>)
    ensures |ids| == 5 && forall k :: 0 <= k < 5 ==> PlainPhotoId(ids[k])
  {
    ["photo-1478720568477-152d9b164e26", "photo-1485846234645-a62644f84728",
     "photo-1440404653325-ab127d49abc1", "photo-1536440136628-849c177e76a1",
     "photo-1517604931442-7e0c8ed2963c"]
  }

  function TvPhotos(): (ids: seq<string>)
    ensures |ids| == 5 && forall k :: 0 <= k < 5 ==> PlainPhotoId(ids[k])
  {
    ["photo-1522869635100-9f4c5e86aa37", "photo-1593359677879-a4bb92f829d1",
     "photo-1593784991095-a205069470b6", "photo-1593784991086-c8c04647eb22",
     "photo-1611162617474-5b21e879e113"]
  }

  function BookPhotos(): (ids: seq<string>)
    ensures |ids| == 5 && forall k :: 0 <= k < 5 ==> PlainPhotoId(ids[k])
  {
    ["photo-1495446815901-a7297e633e8d", "photo-1544947950-fa07a98d237f",
     "photo-1512820790803-83ca734da794", "photo-1507842217343-583bb7270b66",
     "photo-1516979187457-637abb4f9353"]
  }

  /** The five stock photo ids each media type chooses from. */
  function ImagePool(t: MediaType): (ids: seq<string>)
    ensures |ids| == 5 && forall k :: 0 <= k < 5 ==> PlainPhotoId(ids[k])
  {
    match t
    case Movie => MoviePhotos()
    case Tv => TvPhotos()
    case Book => BookPhotos()
  }

  const UnsplashPrefix := "https://images.unsplash.com/"

  /** The hue parameter: `seed % 360`. */
  function Hue(seed: nat): (hue: nat)
    ensures hue < 360
  {
    seed % 360
  }

  /** The saturation parameter: `(seed % 50) + 30`. */
  function Saturation(seed: nat): (sat: nat)
    ensures 30 <= sat <= 79
  {
    seed % 50 + 30
  }

  /** The query string appended to the chosen photo. */
  function PlaceholderQuery(seed: nat): (q: string)
    ensures q != [] && q[0] == '?'
  {
    "?auto=format&fit=crop&w=800&q=80&sat=" + Decimal(Saturation(seed)) + "&hue=" + Decimal(Hue(seed))
  }

  /**
   * `generatePlaceholderImage(title, type)`: a photo of the type's own pool
   * at index `seed % 5`, followed by the query. The URL always starts with
   * the Unsplash prefix and always contains a `?`.
   */
  function GeneratePlaceholderImage(title: string, t: MediaType): (url: string)
    ensures |UnsplashPrefix| < |url| && url[..|UnsplashPrefix|] == UnsplashPrefix
    ensures '?' in url
  {
    var seed := Seed(title);
    var url := UnsplashPrefix + ImagePool(t)[seed % 5] + PlaceholderQuery(seed);
    assert url[|UnsplashPrefix| + |ImagePool(t)[seed % 5]|] == '?';
    url
  }

  /** The text before the first `c` in `s` (all of `s` when there is none). */
  function BeforeFirst(s: string, c: char): (p: string)
    ensures |p| <= |s| && p == s[..|p|] && c !in p
    ensures |p| < |s| ==> s[|p|] == c
  {
    if s == [] || s[0] == c then [] else [s[0]] + BeforeFirst(s[1..], c)
  }

  lemma {:induction false} BeforeFirstOfConcat(a: string, b: string, c: char)
    requires c !in a && b != [] && b[0] == c
    ensures BeforeFirst(a + b, c) == a
  {
    if a != [] {
      assert (a + b)[1..] == a[1..] + b;
      BeforeFirstOfConcat(a[1..], b, c);
    }
  }

  /** The Unsplash prefix has no `?`, so the URL's query starts after the photo id. */
  lemma PrefixHasNoQuery()
    ensures '?' !in UnsplashPrefix
  {
    assert UnsplashPrefix == "https://images.unsplash.com/";
  }

  /**
   * The placeholder URL can be read back: what precedes its first `?` is the
   * Unsplash prefix followed by exactly the photo picked from the type's
   * pool at index `seed % 5`, and the parameters after it are a saturation
   * in [30, 79] and a hue in [0, 359].
   */
  lemma PlaceholderUrlDecomposes(title: string, t: MediaType)
    ensures var seed := Seed(title);
      && BeforeFirst(GeneratePlaceholderImage(title, t), '?') == UnsplashPrefix + ImagePool(t)[seed % 5]
      && 30 <= Saturation(seed) <= 79 && Hue(seed) < 360
  {
    var seed := Seed(title);
    var id := ImagePool(t)[seed % 5];
    var head := UnsplashPrefix + id;
    PrefixHasNoQuery();
    assert PlainPhotoId(id);
    assert '?' !in head;
    BeforeFirstOfConcat(head, PlaceholderQuery(seed), '?');
  }

  // ---------------------------------------------------------------------
  // Season-rating mean
  // ---------------------------------------------------------------------

  /** The seasons whose rating is defined (`rating !== undefined`; a 0 rating counts). */
  function RatedSeasons(seasons: seq<Season>): (rated: seq<Season>)
    ensures |rated| <= |seasons|
    ensures forall k :: 0 <= k < |rated| ==> rated[k].rating.Some?
    ensures (exists i :: 0 <= i < |seasons| && seasons[i].rating.Some?) ==> rated != []
  {
    if seasons == [] then []
    else (if seasons[0].rating.Some? then [seasons[0]] else []) + RatedSeasons(seasons[1..])
  }

  /** The sum of the ratings (`season.rating || 0`). */
  function RatingSum(seasons: seq<Season>): real {
    if seasons == [] then 0.0 else seasons[0].rating.GetOr(0.0) + RatingSum(seasons[1..])
  }

  /** `calculateAverageRating`: the mean of the defined ratings, or 0 when there are none. */
  function CalculateAverageRating(seasons: seq<Season>): real {
    var rated := RatedSeasons(seasons);
    if |rated| == 0 then 0.0 else RatingSum(rated) / (|rated| as real)
  }

  /**
   * The value is the mean of the defined ratings: 0 when there are none,
   * and otherwise the number that, taken once per rated season, adds up to
   * their sum.
   */
  lemma MeanTimesCountIsSum(seasons: seq<Season>)
    ensures var rated := RatedSeasons(seasons);
      && (rated == [] ==> CalculateAverageRating(seasons) == 0.0)
      && (rated != [] ==> CalculateAverageRating(seasons) * (|rated| as real) == RatingSum(rated))
  {
  }

  /** `x` added up `n` times, so that the sum bounds below stay linear. */
  function Times(x: real, n: nat): real {
    if n == 0 then 0.0 else x + Times(x, n - 1)
  }

  lemma {:induction false} TimesIsProduct(x: real, n: nat)
    ensures Times(x, n) == x * (n as real)
  {
    if n > 0 {
      TimesIsProduct(x, n - 1);
      assert x * (n as real) == x * ((n - 1) as real) + x;
    }
  }

  /** The defined ratings add up to between `lo` and `hi` times their number. */
  lemma {:induction false} RatedSumBounds(seasons: seq<Season>, lo: real, hi: real)
    requires forall i :: 0 <= i < |seasons| && seasons[i].rating.Some? ==> lo <= seasons[i].rating.value <= hi
    ensures var rated := RatedSeasons(seasons);
      Times(lo, |rated|) <= RatingSum(rated) <= Times(hi, |rated|)
  {
    if seasons != [] {
      var rest := seasons[1..];
      assert forall i :: 0 <= i < |rest| && rest[i].rating.Some? ==> lo <= rest[i].rating.value <= hi by {
        forall i | 0 <= i < |rest| && rest[i].rating.Some? ensures lo <= rest[i].rating.value <= hi {
          assert rest[i] == seasons[i + 1];
        }
      }
      RatedSumBounds(rest, lo, hi);
      var tail := RatedSeasons(rest);
      if seasons[0].rating.Some? {
        var x := seasons[0].rating.value;
        var rated := [seasons[0]] + tail;
        assert RatedSeasons(seasons) == rated;
        assert rated[1..] == tail;
        assert RatingSum(rated) == x + RatingSum(tail);
        assert Times(lo, |rated|) == lo + Times(lo, |tail|);
        assert Times(hi, |rated|) == hi + Times(hi, |tail|);
      } else {
        assert RatedSeasons(seasons) == tail;
      }
    }
  }

  lemma MeanBounds(sum: real, n: real, lo: real, hi: real)
    requires n > 0.0 && lo * n <= sum <= hi * n
    ensures lo <= sum / n <= hi
  {
    var m := sum / n;
    assert m * n == sum;
    assert (m - lo) * n == sum - lo * n;
    assert (hi - m) * n == hi * n - sum;
  }

  /** A sum between `k` copies of `lo` and `k` copies of `hi`, divided by `k`, is between `lo` and `hi`. */
  lemma MeanOfTimesBounds(sum: real, k: nat, lo: real, hi: real)
    requires k > 0 && Times(lo, k) <= sum <= Times(hi, k)
    ensures lo <= sum / (k as real) <= hi
  {
    TimesIsProduct(lo, k);
    TimesIsProduct(hi, k);
    MeanBounds(sum, k as real, lo, hi);
  }

  /**
   * The mean lies between the lowest and highest defined rating: when every
   * defined rating is in [lo, hi] and at least one is defined, so is the
   * result. With lo = 0 and hi = 5 the stored review rating stays in [0, 5].
   */
  lemma AverageWithinBounds(seasons: seq<Season>, lo: real, hi: real)
    requires exists i :: 0 <= i < |seasons| && seasons[i].rating.Some?
    requires forall i :: 0 <= i < |seasons| && seasons[i].rating.Some? ==> lo <= seasons[i].rating.value <= hi
    ensures lo <= CalculateAverageRating(seasons) <= hi
  {
    var rated := RatedSeasons(seasons);
    RatedSumBounds(seasons, lo, hi);
    MeanOfTimesBounds(RatingSum(rated), |rated|, lo, hi);
  }

  /** Keeping the rated seasons distributes over concatenation. */
  lemma {:induction false} RatedSeasonsOfConcat(a: seq<Season>, b: seq<Season>)
    ensures RatedSeasons(a + b) == RatedSeasons(a) + RatedSeasons(b)
  {
    if a == [] {
      assert a + b == b;
    } else {
      assert (a + b)[1..] == a[1..] + b;
      RatedSeasonsOfConcat(a[1..], b);
    }
  }

  /** A season is kept exactly when it is in the list and has a rating. */
  lemma {:induction false} RatedSeasonsMembers(seasons: seq<Season>, x: Season)
    ensures x in RatedSeasons(seasons) <==> x in seasons && x.rating.Some?
  {
    if seasons != [] {
      RatedSeasonsMembers(seasons[1..], x);
      assert seasons == [seasons[0]] + seasons[1..];
    }
  }

  /** The rating sum distributes over concatenation. */
  lemma {:induction false} RatingSumOfConcat(a: seq<Season>, b: seq<Season>)
    ensures RatingSum(a + b) == RatingSum(a) + RatingSum(b)
  {
    if a == [] {
      assert a + b == b;
    } else {
      assert (a + b)[1..] == a[1..] + b;
      RatingSumOfConcat(a[1..], b);
    }
  }

  /** With no defined rating the mean is 0. */
  lemma {:induction false} AverageOfUnratedIsZero(seasons: seq<Season>)
    requires forall k :: 0 <= k < |seasons| ==> seasons[k].rating.None?
    ensures CalculateAverageRating(seasons) == 0.0
  {
    if seasons != [] {
      AverageOfUnratedIsZero(seasons[1..]);
      assert RatedSeasons(seasons) == RatedSeasons(seasons[1..]);
    }
  }

  /** A season rated 0 is counted: ratings 4 and 0 average to 2, not 4. */
  lemma ZeroRatingIsCounted()
    ensures CalculateAverageRating([Season(1, true, None, None, Some(4.0)),
                                    Season(2, false, None, None, Some(0.0))]) == 2.0
  {
    var ss := [Season(1, true, None, None, Some(4.0)), Season(2, false, None, None, Some(0.0))];
    assert RatedSeasons(ss[1..]) == [ss[1]];
    assert RatedSeasons(ss) == ss;
    assert RatingSum(ss) == 4.0;
  }

  // ---------------------------------------------------------------------
  // Stored row to item
  // ---------------------------------------------------------------------

  /** A row of the `media_items` table (`null` columns are `None`). */
  datatype DbRow = DbRow(
    id: string,
    userId: string,
    title: string,
    mediaType: MediaType,
    imageUrl: Option<string>,
    creator: Option<string>,
    releaseYear: Option<nat>,
    addedDate: string,
    reviewRating: Option<real>,
    reviewText: Option<string>,
    reviewDate: Option<string>,
    seasons: Option<seq<Season>>,
    originalCreatorId: Option<string>)

  /** JavaScript truthiness of an optional string. */
  predicate Truthy(s: Option<string>) {
    s.Some? && s.value != ""
  }

  /**
   * `transformDbItemToMediaItem`: copies the columns one to one; builds a
   * review only when `review_rating` is truthy (present and non-zero), with
   * the text defaulting to "" and the date to today; leaves `seasons` out
   * when the column is null.
   */
  function TransformDbItem(row: DbRow, today: string): (item: MediaItem)
    ensures item.review.Some? <==> row.reviewRating.Some? && row.reviewRating.value != 0.0
    ensures item.review.Some? ==>
      && item.review.value.rating == row.reviewRating.value
      && item.review.value.text == row.reviewText.GetOr("")
      && item.review.value.date == (if Truthy(row.reviewDate) then row.reviewDate.value else today)
    ensures item.seasons == row.seasons && item.id == row.id && item.title == row.title
    ensures item.mediaType == row.mediaType && item.addedDate == row.addedDate
    ensures item.imageUrl == row.imageUrl && item.creator == row.creator
    ensures item.releaseYear == row.releaseYear && item.originalCreatorId == row.originalCreatorId
  {
    var review :=
      if row.reviewRating.Some? && row.reviewRating.value != 0.0 then
        Some(Review(row.reviewRating.value,
                    row.reviewText.GetOr(""),
                    if Truthy(row.reviewDate) then row.reviewDate.value else today))
      else None;
    MediaItem(row.id, row.title, row.mediaType, row.imageUrl, row.creator, row.releaseYear,
              row.addedDate, review, row.seasons, row.originalCreatorId)
  }
}
