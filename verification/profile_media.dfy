/**
 * The media shown on another user's profile: fetched rows turned into
 * items, split by type in fetch order and, as one list, sorted newest
 * first. The viewer's own profile is served from the collection instead,
 * so no fetch is made for it.
 */
module ProfileMedia {
  import opened Common
  import opened MediaTypes
  import opened MediaUtils
  import opened MediaContext
  import opened MediaOrder
  import MediaCrud

  /** The four lists of a profile: everything, and each type on its own. */
  datatype MediaLists = MediaLists(
    all: seq<MediaItem>,
    movie: seq<MediaItem>,
    tv: seq<MediaItem>,
    book: seq<MediaItem>)

  const NoMedia := MediaLists([], [], [], [])

  /**
   * The lists built from the fetched items: the type filters are taken in
   * fetch order, before the sort, and `all` is the items newest first.
   */
  function ListsOf(items: seq<MediaItem>): (l: MediaLists)
    ensures l.movie == OfType(items, Movie) && l.tv == OfType(items, Tv) && l.book == OfType(items, Book)
    ensures multiset(l.all) == multiset(items)
  {
    MediaLists(SortDesc(items), OfType(items, Movie), OfType(items, Tv), OfType(items, Book))
  }

  /**
   * The lists agree with each other: `all` is newest first, holds exactly
   * the items of the three type lists, and is as long as they are together.
   */
  lemma ListsAgree(items: seq<MediaItem>)
    ensures var l := ListsOf(items);
      && NewestFirst(l.all)
      && multiset(l.all) == multiset(l.movie + l.tv + l.book)
      && |l.movie| + |l.tv| + |l.book| == |l.all|
  {
    SortDescNewestFirst(items);
    PartitionPermutes(items);
    PartitionCount(items);
  }

  /** The profile's lists and whether a fetch is running. */
  class ProfileMediaLoader {
    var profileMedia: MediaLists
    var loadingMedia: bool

    constructor()
      ensures profileMedia == NoMedia && !loadingMedia
    {
      profileMedia := NoMedia;
      loadingMedia := false;
    }

    /**
     * The fetch effect. Nothing happens when there is no profile id or the
     * profile is the viewer's own. Otherwise the rows of that user are
     * fetched: on success the lists are rebuilt from them, on failure they
     * stay as they were, and loading ends either way.
     */
    method Fetch(displayUserId: Option<string>, isCurrentUserProfile: bool,
                 response: Result<seq<DbRow>, string>, today: string)
      modifies this
      ensures !Truthy(displayUserId) || isCurrentUserProfile ==>
        profileMedia == old(profileMedia) && loadingMedia == old(loadingMedia)
      ensures Truthy(displayUserId) && !isCurrentUserProfile ==>
        && !loadingMedia
        && profileMedia == (if response.Ok? then ListsOf(MediaCrud.TransformAll(response.value, today))
                            else old(profileMedia))
    {
      if !Truthy(displayUserId) || isCurrentUserProfile {
        return;
      }
      loadingMedia := true;
      if response.Ok? {
        profileMedia := ListsOf(MediaCrud.TransformAll(response.value, today));
      }
      loadingMedia := false;
    }
  }
}
