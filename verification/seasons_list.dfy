/**
 * The season list shown on the detail page: its own average rating (which,
 * unlike the stored mean, ignores seasons rated 0), when that average is
 * displayed, the per-season marks, and when the add and remove buttons are
 * disabled.
 */
module SeasonsListView {
  import opened Common
  import opened MediaTypes
  import opened Seasons
  import opened MediaUtils

  /** A JavaScript number as far as this view needs one: a real, or NaN from 0 / 0. */
  datatype Num = Finite(value: real) | NaN

  /** `s.rating !== undefined && s.rating > 0`. */
  predicate PositivelyRated(s: Season) {
    s.rating.Some? && s.rating.value > 0.0
  }

  /** The seasons with a positive rating, in list order. */
  function PositiveSeasons(ss: seq<Season>): (r: seq<Season>)
    ensures |r| <= |ss|
    ensures forall k :: 0 <= k < |r| ==> PositivelyRated(r[k])
    ensures r == [] <==> forall i :: 0 <= i < |ss| ==> !PositivelyRated(ss[i])
  {
    if ss == [] then []
    else (if PositivelyRated(ss[0]) then [ss[0]] else []) + PositiveSeasons(ss[1..])
  }

  /**
   * `averageSeasonRating`: 0 for an empty list; otherwise the sum of the
   * positive ratings over their number, which is 0 / 0 (NaN) when no rating
   * is positive.
   */
  function AverageSeasonRating(ss: seq<Season>): Num {
    if |ss| > 0 then
      var pos := PositiveSeasons(ss);
      if |pos| == 0 then NaN else Finite(RatingSum(pos) / (|pos| as real))
    else Finite(0.0)
  }

  /** `averageSeasonRating > 0` (false for NaN). */
  predicate ShowsAverage(ss: seq<Season>) {
    AverageSeasonRating(ss).Finite? && AverageSeasonRating(ss).value > 0.0
  }

  /**
   * The view's average is 0 for an empty list, NaN when no season is
   * positively rated, and otherwise the mean of the positive ratings: the
   * number that, taken once per positively rated season, adds up to their
   * sum.
   */
  lemma ViewAverageIsMeanOfPositive(ss: seq<Season>)
    ensures var pos := PositiveSeasons(ss);
      && (ss == [] ==> AverageSeasonRating(ss) == Finite(0.0))
      && (ss != [] && pos == [] ==> AverageSeasonRating(ss) == NaN)
      && (pos != [] ==> AverageSeasonRating(ss).Finite?
                        && AverageSeasonRating(ss).value * (|pos| as real) == RatingSum(pos))
  {
  }

  lemma {:induction false} PositiveSumIsPositive(pos: seq<Season>)
    requires pos != [] && forall k :: 0 <= k < |pos| ==> PositivelyRated(pos[k])
    ensures RatingSum(pos) > 0.0
  {
    if |pos| > 1 {
      PositiveSumIsPositive(pos[1..]);
    }
  }

  /**
   * The average line appears exactly when some season has a positive
   * rating. An empty list gives 0 and a non-empty list without positive
   * ratings gives NaN, and neither is shown.
   */
  lemma AverageShownIffSomePositive(ss: seq<Season>)
    ensures ShowsAverage(ss) <==> exists i :: 0 <= i < |ss| && PositivelyRated(ss[i])
    ensures ss == [] ==> AverageSeasonRating(ss) == Finite(0.0)
    ensures ss != [] && (forall i :: 0 <= i < |ss| ==> !PositivelyRated(ss[i])) ==> AverageSeasonRating(ss) == NaN
  {
    var pos := PositiveSeasons(ss);
    if pos != [] {
      PositiveSumIsPositive(pos);
      var n := |pos| as real;
      var m := RatingSum(pos) / n;
      assert m * n == RatingSum(pos);
    }
  }

  /**
   * The two averages disagree about a season rated 0: ratings 4 and 0 give
   * 2 as the stored mean but 4 in this view.
   */
  lemma AveragesDisagreeOnZero()
    ensures var ss := [Season(1, true, None, None, Some(4.0)), Season(2, false, None, None, Some(0.0))];
      CalculateAverageRating(ss) == 2.0 && AverageSeasonRating(ss) == Finite(4.0)
  {
    var ss := [Season(1, true, None, None, Some(4.0)), Season(2, false, None, None, Some(0.0))];
    ZeroRatingIsCounted();
    assert PositiveSeasons(ss[1..]) == [];
    assert PositiveSeasons(ss) == [ss[0]];
    assert RatingSum([ss[0]]) == 4.0;
  }

  lemma {:induction false} AllPositiveFiltersAgree(ss: seq<Season>)
    requires forall i :: 0 <= i < |ss| ==> PositivelyRated(ss[i])
    ensures PositiveSeasons(ss) == ss && RatedSeasons(ss) == ss
  {
    if ss != [] {
      AllPositiveFiltersAgree(ss[1..]);
    }
  }

  /** When every season has a positive rating, both averages are the same number. */
  lemma AveragesAgreeWhenAllPositive(ss: seq<Season>)
    requires ss != [] && forall i :: 0 <= i < |ss| ==> PositivelyRated(ss[i])
    ensures AverageSeasonRating(ss) == Finite(CalculateAverageRating(ss))
  {
    AllPositiveFiltersAgree(ss);
  }

  /** A season added with rating 0 leaves this view's average as it was. */
  lemma ZeroSeasonLeavesViewAverage(ss: seq<Season>)
    requires 0 < |ss| < MaxSeasons
    ensures AverageSeasonRating(AppendSeason(ss, Some(0.0))) == AverageSeasonRating(ss)
  {
    var extra := Season(|ss| + 1, false, None, None, Some(0.0));
    PositiveSeasonsOfConcat(ss, [extra]);
    assert PositiveSeasons([extra]) == [];
    assert PositiveSeasons(ss + [extra]) == PositiveSeasons(ss);
  }

  lemma {:induction false} PositiveSeasonsOfConcat(a: seq<Season>, b: seq<Season>)
    ensures PositiveSeasons(a + b) == PositiveSeasons(a) + PositiveSeasons(b)
  {
    if a == [] {
      assert a + b == b;
    } else {
      var head := if PositivelyRated(a[0]) then [a[0]] else [];
      assert (a + b)[0] == a[0] && (a + b)[1..] == a[1..] + b;
      assert PositiveSeasons(a + b) == head + PositiveSeasons(a[1..] + b);
      PositiveSeasonsOfConcat(a[1..], b);
      assert PositiveSeasons(a) == head + PositiveSeasons(a[1..]);
    }
  }

  /** A season is kept exactly when it is in the list and rated above zero. */
  lemma {:induction false} PositiveSeasonsMembers(ss: seq<Season>, x: Season)
    ensures x in PositiveSeasons(ss) <==> x in ss && PositivelyRated(x)
  {
    if ss != [] {
      PositiveSeasonsMembers(ss[1..], x);
      assert ss == [ss[0]] + ss[1..];
    }
  }

  /** The view-mode mark after the season label. */
  function WatchedMark(s: Season): string {
    if s.watched then " ✓" else ""
  }

  /** `season.rating ? ... : ""`: the rating suffix appears for a truthy rating. */
  predicate RatingSuffixShown(s: Season) {
    s.rating.Some? && s.rating.value != 0.0
  }

  /**
   * For ratings that are never negative, a season shows its rating suffix
   * exactly when this view's average counts it, and it shows the check
   * mark exactly when it is watched.
   */
  lemma MarksMatchAverage(s: Season)
    requires s.rating.Some? ==> s.rating.value >= 0.0
    ensures RatingSuffixShown(s) <==> PositivelyRated(s)
    ensures WatchedMark(s) != "" <==> s.watched
  {
  }

  /** `disabled={seasons.length <= 1}` on remove. */
  predicate RemoveDisabled(ss: seq<Season>) {
    |ss| <= 1
  }

  /** `disabled={seasons.length >= 20}` on add. */
  predicate AddDisabled(ss: seq<Season>) {
    |ss| >= MaxSeasons
  }

  /** A button is disabled exactly when its handler would do nothing. */
  lemma DisabledExactlyWhenNoOp(ss: seq<Season>, rating: Option<real>)
    ensures RemoveDisabled(ss) <==> DropLastSeason(ss) == ss
    ensures AddDisabled(ss) <==> AppendSeason(ss, rating) == ss
  {
    if !RemoveDisabled(ss) {
      assert |DropLastSeason(ss)| < |ss|;
    }
    if !AddDisabled(ss) {
      assert |AppendSeason(ss, rating)| > |ss|;
    }
  }
}
