/**
 * The detail page of one item: a local copy of the item that the page's
 * handlers change alongside the collection (shared image selection, image
 * generation, field updates, deletion), and the controls it shows to a
 * signed-in user.
 */
module MediaDetailPage {
  import opened Common
  import opened MediaTypes
  import opened MediaUtils
  import opened MediaContext

  /**
   * `mediaItem.originalCreatorId || user?.id`: the attribution already on
   * the item when it is set (non-empty), else the current user's id, else
   * none.
   */
  function Attribution(existing: Option<string>, user: Option<string>): (a: Option<string>)
    ensures Truthy(existing) ==> a == existing
    ensures !Truthy(existing) ==> a == user
  {
    if Truthy(existing) then existing else user
  }

  /** The update a shared-image selection sends: the image and the attribution. */
  function SharedImagePatch(item: MediaItem, imageUrl: string, user: Option<string>): (p: Patch)
    ensures p.id == Keep
  {
    NoChanges.(imageUrl := Set(Some(imageUrl)),
               originalCreatorId := Set(Attribution(item.originalCreatorId, user)))
  }

  /** A run of shared-image selections, each as (image, selecting user). */
  function SelectAll(item: MediaItem, picks: seq<(string, Option<string>)>): (r: MediaItem)
    ensures picks == [] ==> r == item
    decreases |picks|
  {
    if picks == [] then item
    else SelectAll(Overlay(item, SharedImagePatch(item, picks[0].0, picks[0].1)), picks[1..])
  }

  /**
   * A selection changes only the image and the attribution; it sets the
   * image to the one selected, and it keeps an attribution that is set.
   */
  lemma SelectionKeepsAttribution(item: MediaItem, imageUrl: string, user: Option<string>)
    ensures var after := Overlay(item, SharedImagePatch(item, imageUrl, user));
      && after.imageUrl == Some(imageUrl)
      && after == item.(imageUrl := Some(imageUrl), originalCreatorId := after.originalCreatorId)
      && (Truthy(item.originalCreatorId) ==> after.originalCreatorId == item.originalCreatorId)
      && (!Truthy(item.originalCreatorId) ==> after.originalCreatorId == user)
  {
  }

  /**
   * Attribution is never overwritten: once an item carries a creator id,
   * any run of selections by any users keeps it, and only the image of the
   * last selection remains.
   */
  lemma {:induction false} AttributionNeverOverwritten(item: MediaItem, picks: seq<(string, Option<string>)>)
    requires Truthy(item.originalCreatorId)
    ensures SelectAll(item, picks).originalCreatorId == item.originalCreatorId
    ensures picks != [] ==> SelectAll(item, picks).imageUrl == Some(picks[|picks| - 1].0)
    decreases |picks|
  {
    if picks != [] {
      var next := Overlay(item, SharedImagePatch(item, picks[0].0, picks[0].1));
      AttributionNeverOverwritten(next, picks[1..]);
    }
  }

  /**
   * The first selection made by a signed-in user on an unattributed item
   * credits that user for good.
   */
  lemma FirstSelectorIsCredited(item: MediaItem, imageUrl: string, userId: string, later: seq<(string, Option<string>)>)
    requires !Truthy(item.originalCreatorId) && userId != ""
    ensures SelectAll(item, [(imageUrl, Some(userId))] + later).originalCreatorId == Some(userId)
  {
    var picks := [(imageUrl, Some(userId))] + later;
    var next := Overlay(item, SharedImagePatch(item, imageUrl, Some(userId)));
    assert picks[1..] == later;
    AttributionNeverOverwritten(next, later);
  }

  /** What the item column shows below the details. */
  datatype Controls = ReviewAndDelete | SignInPrompt

  /** The review section and the actions for a signed-in user; a sign-in prompt otherwise. */
  function ControlsFor(user: Option<string>): (c: Controls)
    ensures c == ReviewAndDelete <==> user.Some?
    ensures c == SignInPrompt <==> user.None?
  {
    if user.Some? then ReviewAndDelete else SignInPrompt
  }

  class MediaDetail {
    /** The collection the page reads from and writes to. */
    const store: MediaStore
    var mediaItem: Option<MediaItem>
    var isGeneratingImage: bool

    /**
     * The page's copy is the collection's: the id still finds that very
     * item in the collection.
     */
    ghost predicate InSync()
      reads this, store
    {
      mediaItem.Some? ==> FindById(store.media, mediaItem.value.id) == mediaItem
    }

    /** The page starts from the collection's item with the route id ("" when there is none). */
    constructor(store: MediaStore, routeId: Option<string>)
      ensures this.store == store
      ensures mediaItem == FindById(store.media, routeId.GetOr("")) && !isGeneratingImage
      ensures InSync()
    {
      this.store := store;
      mediaItem := FindById(store.media, routeId.GetOr(""));
      isGeneratingImage := false;
    }

    /** `handleDelete`: deletes the item from the collection only when one is loaded. */
    method HandleDelete()
      modifies store
      ensures old(mediaItem).None? ==> store.media == old(store.media)
      ensures old(mediaItem).Some? ==>
        && store.media == RemoveId(old(store.media), old(mediaItem).value.id)
        && FindById(store.media, old(mediaItem).value.id).None?
    {
      if mediaItem.Some? {
        store.DeleteMediaItem(mediaItem.value.id);
      }
    }

    /**
     * `handleSelectSharedImage(url)`: without an item nothing happens.
     * Otherwise the image is set and the attribution kept or, when unset,
     * given to the current user, both in the collection and on the page,
     * which stay in step.
     */
    method HandleSelectSharedImage(imageUrl: string, user: Option<string>)
      modifies this, store
      ensures old(mediaItem).None? ==> mediaItem == old(mediaItem) && store.media == old(store.media)
      ensures old(mediaItem).Some? ==>
        var item := old(mediaItem).value;
        var p := SharedImagePatch(item, imageUrl, user);
        && store.media == UpdateById(old(store.media), item.id, p)
        && mediaItem == Some(Overlay(item, p))
      ensures isGeneratingImage == old(isGeneratingImage)
      ensures old(InSync()) ==> InSync()
    {
      if mediaItem.None? {
        return;
      }
      var item := mediaItem.value;
      var p := SharedImagePatch(item, imageUrl, user);
      FindAfterUpdate(store.media, item.id, p);
      store.UpdateMediaItem(item.id, p);
      mediaItem := Some(Overlay(item, p));
    }

    /**
     * `handleGenerateImage`: nothing happens without an item or with an
     * empty title. Otherwise the generator runs (`generated` is its result,
     * `None` when it throws): a URL becomes the item's image in the
     * collection and on the page; a failure changes neither. Generation has
     * ended afterwards.
     */
    method HandleGenerateImage(generated: Option<string>)
      modifies this, store
      ensures old(mediaItem).None? || old(mediaItem).value.title == "" ==>
        mediaItem == old(mediaItem) && store.media == old(store.media)
        && isGeneratingImage == old(isGeneratingImage)
      ensures old(mediaItem).Some? && old(mediaItem).value.title != "" ==>
        var item := old(mediaItem).value;
        var p := NoChanges.(imageUrl := Set(generated));
        && !isGeneratingImage
        && (generated.Some? ==> store.media == UpdateById(old(store.media), item.id, p)
                                && mediaItem == Some(item.(imageUrl := generated)))
        && (generated.None? ==> store.media == old(store.media) && mediaItem == old(mediaItem))
      ensures old(InSync()) ==> InSync()
    {
      if mediaItem.None? || mediaItem.value.title == "" {
        return;
      }
      isGeneratingImage := true;
      if generated.Some? {
        var item := mediaItem.value;
        var p := NoChanges.(imageUrl := Set(generated));
        FindAfterUpdate(store.media, item.id, p);
        store.UpdateMediaItem(item.id, p);
        mediaItem := Some(Overlay(item, p));
      }
      isGeneratingImage := false;
    }

    /**
     * `handleUpdateMediaItem(id, updates)`: the collection is updated by id,
     * and the page's copy is overlaid with the updates whatever the id, so
     * the two stay in step when the id is the page's own and the updates
     * leave the id alone.
     */
    method HandleUpdateMediaItem(id: string, updates: Patch)
      modifies this, store
      ensures store.media == UpdateById(old(store.media), id, updates)
      ensures mediaItem == (if old(mediaItem).Some? then Some(Overlay(old(mediaItem).value, updates)) else None)
      ensures isGeneratingImage == old(isGeneratingImage)
      ensures old(InSync()) && updates.id == Keep && (old(mediaItem).Some? ==> id == old(mediaItem).value.id)
              ==> InSync()
    {
      if updates.id == Keep {
        FindAfterUpdate(store.media, id, updates);
      }
      store.UpdateMediaItem(id, updates);
      if mediaItem.Some? {
        mediaItem := Some(Overlay(mediaItem.value, updates));
      }
    }
  }
}
