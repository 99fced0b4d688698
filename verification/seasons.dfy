/**
 * The season-list operations shared by the two TV-season editors (the add
 * page and the edit form): bounded append and remove, toggling the watched
 * flag by season number, and rating a season by number. The invariant they
 * keep is that season numbers run 1, 2, ..., n without gaps.
 */
module Seasons {
  import opened Common
  import opened MediaTypes

  /** Neither editor lets the list grow past 20 seasons. */
  const MaxSeasons := 20

  /** Season numbers are exactly 1..n, in order. */
  predicate Contiguous(ss: seq<Season>) {
    forall i :: 0 <= i < |ss| ==> ss[i].number == i + 1
  }

  /** Between 1 and 20 seasons. */
  predicate InBounds(ss: seq<Season>) {
    1 <= |ss| <= MaxSeasons
  }

  /** No season has a rating (the add page never sets one). */
  predicate Unrated(ss: seq<Season>) {
    forall i :: 0 <= i < |ss| ==> ss[i].rating.None?
  }

  /**
   * The add-season handler: nothing at 20 or more seasons, otherwise a new
   * unwatched season numbered `|ss| + 1` with the given rating (the add page
   * leaves it unset, the edit form sets it to 0).
   */
  function AppendSeason(ss: seq<Season>, rating: Option<real>): seq<Season> {
    if |ss| >= MaxSeasons then ss
    else ss + [Season(|ss| + 1, false, None, None, rating)]
  }

  /** The remove-season handler: nothing at 1 season or fewer, otherwise the last one goes. */
  function DropLastSeason(ss: seq<Season>): seq<Season> {
    if |ss| <= 1 then ss else ss[..|ss| - 1]
  }

  /** One season after a toggle of season `n`. */
  function Toggled(s: Season, n: int): Season {
    if s.number == n then s.(watched := !s.watched) else s
  }

  /** One season after season `n` is rated `v`. */
  function Rated(s: Season, n: int, v: real): Season {
    if s.number == n then s.(rating := Some(v)) else s
  }

  /**
   * `seasons.map(...)` with the toggle: every season numbered `n` has its
   * watched flag flipped, every other season is kept as it is.
   */
  function ToggleWatched(ss: seq<Season>, n: int): (r: seq<Season>)
    ensures |r| == |ss|
    ensures forall i :: 0 <= i < |ss| ==> r[i] == Toggled(ss[i], n) && r[i].number == ss[i].number
  {
    if ss == [] then [] else [Toggled(ss[0], n)] + ToggleWatched(ss[1..], n)
  }

  /**
   * `seasons.map(...)` with a new rating: every season numbered `n` gets
   * rating `v`, every other season is kept as it is.
   */
  function SetSeasonRating(ss: seq<Season>, n: int, v: real): (r: seq<Season>)
    ensures |r| == |ss|
    ensures forall i :: 0 <= i < |ss| ==> r[i] == Rated(ss[i], n, v) && r[i].number == ss[i].number
  {
    if ss == [] then [] else [Rated(ss[0], n, v)] + SetSeasonRating(ss[1..], n, v)
  }

  /**
   * Adding and removing keep the numbering contiguous and keep the length
   * within 1..20; adding at 20 and removing at 1 change nothing; otherwise
   * adding lengthens the list by one season numbered `|ss| + 1` and removing
   * shortens it by one, keeping the other seasons.
   */
  lemma ResizeKeepsNumbering(ss: seq<Season>, rating: Option<real>)
    requires Contiguous(ss)
    ensures Contiguous(AppendSeason(ss, rating)) && Contiguous(DropLastSeason(ss))
    ensures InBounds(ss) ==> InBounds(AppendSeason(ss, rating)) && InBounds(DropLastSeason(ss))
    ensures |ss| < MaxSeasons ==>
      |AppendSeason(ss, rating)| == |ss| + 1 && AppendSeason(ss, rating)[..|ss|] == ss
      && AppendSeason(ss, rating)[|ss|] == Season(|ss| + 1, false, None, None, rating)
    ensures |ss| > 1 ==> DropLastSeason(ss) == ss[..|ss| - 1]
    ensures |ss| >= MaxSeasons ==> AppendSeason(ss, rating) == ss
    ensures |ss| <= 1 ==> DropLastSeason(ss) == ss
  {
  }

  /**
   * On a contiguous list the toggle touches exactly the season at index
   * `n - 1`; with no season numbered `n` it changes nothing. The numbering
   * stays contiguous, and toggling twice restores the list.
   */
  lemma ToggleTouchesOneSeason(ss: seq<Season>, n: int)
    requires Contiguous(ss)
    ensures var r := ToggleWatched(ss, n);
      && Contiguous(r)
      && (forall i :: 0 <= i < |ss| && i != n - 1 ==> r[i] == ss[i])
      && (1 <= n <= |ss| ==> r[n - 1] == ss[n - 1].(watched := !ss[n - 1].watched))
      && (!(1 <= n <= |ss|) ==> r == ss)
      && ToggleWatched(r, n) == ss
  {
    var r := ToggleWatched(ss, n);
    var back := ToggleWatched(r, n);
    assert forall i :: 0 <= i < |ss| ==> back[i] == ss[i];
  }

  /**
   * On a contiguous list rating season `n` sets the rating of exactly the
   * season at index `n - 1` and keeps everything else.
   */
  lemma RatingTouchesOneSeason(ss: seq<Season>, n: int, v: real)
    requires Contiguous(ss)
    ensures var r := SetSeasonRating(ss, n, v);
      && Contiguous(r)
      && (forall i :: 0 <= i < |ss| && i != n - 1 ==> r[i] == ss[i])
      && (1 <= n <= |ss| ==> r[n - 1] == ss[n - 1].(rating := Some(v)))
      && (!(1 <= n <= |ss|) ==> r == ss)
  {
  }
}
