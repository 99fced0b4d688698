/**
 * The home page's "recently added" strip: the whole collection, newest
 * first, cut to six items.
 */
module HomePage {
  import opened MediaTypes
  import opened MediaContext
  import opened MediaOrder

  const RecentCount := 6

  /** `[...movies, ...tvShows, ...books].sort(newest first).slice(0, 6)`. */
  function RecentMedia(movies: seq<MediaItem>, tvShows: seq<MediaItem>, books: seq<MediaItem>): (r: seq<MediaItem>)
    ensures |r| <= RecentCount
  {
    Take(SortDesc(movies + tvShows + books), RecentCount)
  }

  /** Cutting a list short keeps, for every date, a prefix of that date's items. */
  lemma {:induction false} OnDateOfPrefix(s: seq<MediaItem>, n: nat, d: string)
    requires n <= |s|
    ensures OnDate(s[..n], d) <= OnDate(s, d)
  {
    assert s == s[..n] + s[n..];
    OnDateOfConcat(s[..n], s[n..], d);
  }

  /**
   * The strip holds six items when the collection has six or more and the
   * whole collection otherwise; every item comes from the collection; it
   * is newest first; items of the same date keep the order of the
   * concatenation; and no item left out is newer than one shown.
   */
  lemma RecentMediaSpec(movies: seq<MediaItem>, tvShows: seq<MediaItem>, books: seq<MediaItem>)
    ensures var all := movies + tvShows + books;
      var r := RecentMedia(movies, tvShows, books);
      && |r| == (if |all| < RecentCount then |all| else RecentCount)
      && multiset(r) <= multiset(all)
      && NewestFirst(r)
      && (forall d :: OnDate(r, d) <= OnDate(all, d))
      && (forall x :: x in multiset(all) - multiset(r) ==>
            forall k :: 0 <= k < |r| ==> NotOlder(r[k], x))
  {
    var all := movies + tvShows + books;
    var s := SortDesc(all);
    var r := RecentMedia(movies, tvShows, books);
    SortDescNewestFirst(all);
    assert r == s[..|r|];
    OmittedNotNewer(s, |r|);
    forall d
      ensures OnDate(r, d) <= OnDate(all, d)
    {
      OnDateOfPrefix(s, |r|, d);
      SortDescStable(all, d);
    }
  }

  /**
   * Cutting a newest-first list at `n` leaves out nothing newer than what
   * it keeps, and keeps part of the list.
   */
  lemma OmittedNotNewer(s: seq<MediaItem>, n: nat)
    requires NewestFirst(s) && n <= |s|
    ensures multiset(s[..n]) <= multiset(s)
    ensures forall x :: x in multiset(s) - multiset(s[..n]) ==>
      forall k :: 0 <= k < n ==> NotOlder(s[k], x)
  {
    assert s == s[..n] + s[n..];
    assert multiset(s) == multiset(s[..n]) + multiset(s[n..]);
    forall x | x in multiset(s) - multiset(s[..n])
      ensures forall k :: 0 <= k < n ==> NotOlder(s[k], x)
    {
      assert x in multiset(s[n..]);
      ShownNotOlderThanRest(s, n, x);
    }
  }

  /** In a newest-first list, every item before position `n` is not older than any item from `n` on. */
  lemma ShownNotOlderThanRest(s: seq<MediaItem>, n: nat, x: MediaItem)
    requires NewestFirst(s) && n <= |s| && x in s[n..]
    ensures forall k :: 0 <= k < n ==> NotOlder(s[k], x)
  {
    var j :| 0 <= j < |s[n..]| && s[n..][j] == x;
    assert s[n + j] == x;
  }

  /**
   * Fed with the collection's three per-type views, the strip draws on the
   * whole collection: six of its items, or all of them when it has fewer.
   */
  lemma RecentMediaOfCollection(media: seq<MediaItem>)
    ensures var r := RecentMedia(OfType(media, Movie), OfType(media, Tv), OfType(media, Book));
      && multiset(r) <= multiset(media)
      && |r| == (if |media| < RecentCount then |media| else RecentCount)
  {
    PartitionPermutes(media);
    PartitionCount(media);
    RecentMediaSpec(OfType(media, Movie), OfType(media, Tv), OfType(media, Book));
  }
}
