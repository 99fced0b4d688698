/**
 * The signed-in user's own profile page: a login prompt when signed out, a
 * spinner while the collection loads, and otherwise the collection in four
 * tabs with a count per tab.
 */
module ProfilePage {
  import opened Common
  import opened MediaTypes
  import opened MediaContext
  import opened MediaOrder
  import opened ProfileMedia

  /** The number shown on each tab. */
  datatype MediaCount = MediaCount(all: nat, movie: nat, tv: nat, book: nat)

  /** What the page renders. */
  datatype ProfileView =
    | LoginPrompt
    | LoadingCollection
    | Collection(count: MediaCount, lists: MediaLists)

  /**
   * The page for the context's three lists: signed out gives only the login
   * prompt; signed in and loading gives the spinner; otherwise `all` is the
   * three lists concatenated and sorted newest first, each type tab is the
   * context list unchanged, and each count is its tab's length.
   */
  function View(user: Option<string>, movies: seq<MediaItem>, tvShows: seq<MediaItem>,
                books: seq<MediaItem>, isLoading: bool): (v: ProfileView)
    ensures v == LoginPrompt <==> user.None?
    ensures v == LoadingCollection <==> user.Some? && isLoading
    ensures v.Collection? ==>
      && v.lists.movie == movies && v.lists.tv == tvShows && v.lists.book == books
      && v.count.all == |movies| + |tvShows| + |books|
      && multiset(v.lists.all) == multiset(movies + tvShows + books)
      && v.count == MediaCount(|v.lists.all|, |v.lists.movie|, |v.lists.tv|, |v.lists.book|)
  {
    if user.None? then LoginPrompt
    else if isLoading then LoadingCollection
    else
      var count := MediaCount(|movies| + |tvShows| + |books|, |movies|, |tvShows|, |books|);
      Collection(count, MediaLists(SortDesc(movies + tvShows + books), movies, tvShows, books))
  }

  /**
   * Over the collection's own views, the page shows the whole collection:
   * the "all" tab is the collection newest first and counts every item,
   * and the page agrees with the lists another user's profile would build
   * from the same items, up to the order of `all` among same-day items.
   */
  lemma ViewOfCollection(user: string, media: seq<MediaItem>)
    ensures var v := View(Some(user), OfType(media, Movie), OfType(media, Tv), OfType(media, Book), false);
      && v.Collection?
      && v.count.all == |media|
      && multiset(v.lists.all) == multiset(media)
      && NewestFirst(v.lists.all)
      && v.lists.movie == ListsOf(media).movie && v.lists.tv == ListsOf(media).tv
      && v.lists.book == ListsOf(media).book
      && multiset(v.lists.all) == multiset(ListsOf(media).all)
  {
    PartitionPermutes(media);
    PartitionCount(media);
    SortDescNewestFirst(OfType(media, Movie) + OfType(media, Tv) + OfType(media, Book));
  }
}
