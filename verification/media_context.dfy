/**
 * The in-memory media collection: a list of items that is appended to,
 * merge-updated by id and filtered by id, together with the lookups and the
 * three per-type views read from it.
 */
module MediaContext {
  import opened Common
  import opened Text
  import opened MediaTypes

  /** `items.filter(item => item.type === t)`, in list order. */
  function OfType(items: seq<MediaItem>, t: MediaType): (r: seq<MediaItem>)
    ensures |r| <= |items|
    ensures forall k :: 0 <= k < |r| ==> r[k].mediaType == t
  {
    if items == [] then []
    else (if items[0].mediaType == t then [items[0]] else []) + OfType(items[1..], t)
  }

  /** The filter keeps exactly the items of the type: an item is in the view iff it is in the list with that type. */
  lemma {:induction false} OfTypeMembers(items: seq<MediaItem>, t: MediaType, x: MediaItem)
    ensures x in OfType(items, t) <==> x in items && x.mediaType == t
  {
    if items != [] {
      OfTypeMembers(items[1..], t, x);
      assert items == [items[0]] + items[1..];
    }
  }

  /** Filtering distributes over concatenation, so the filter keeps list order. */
  lemma {:induction false} OfTypeOfConcat(a: seq<MediaItem>, b: seq<MediaItem>, t: MediaType)
    ensures OfType(a + b, t) == OfType(a, t) + OfType(b, t)
  {
    if a == [] {
      assert a + b == b;
    } else {
      assert (a + b)[1..] == a[1..] + b;
      OfTypeOfConcat(a[1..], b, t);
    }
  }

  /** Every item is exactly one of a movie, a TV show or a book: the three views add up to the list. */
  lemma {:induction false} PartitionCount(items: seq<MediaItem>)
    ensures |OfType(items, Movie)| + |OfType(items, Tv)| + |OfType(items, Book)| == |items|
  {
    if items != [] {
      PartitionCount(items[1..]);
    }
  }

  /**
   * The three views together hold exactly the items of the list, each as
   * often as the list does: they are a permutation of it.
   */
  lemma {:induction false} PartitionPermutes(items: seq<MediaItem>)
    ensures multiset(OfType(items, Movie) + OfType(items, Tv) + OfType(items, Book)) == multiset(items)
  {
    if items != [] {
      var x, rest := items[0], items[1..];
      PartitionPermutes(rest);
      var m, t, b := OfType(rest, Movie), OfType(rest, Tv), OfType(rest, Book);
      assert multiset(m + t + b) == multiset(m) + multiset(t) + multiset(b);
      assert multiset(items) == multiset{x} + multiset(rest) by {
        assert items == [x] + rest;
      }
      match x.mediaType
      case Movie =>
        assert OfType(items, Movie) == [x] + m;
        assert OfType(items, Tv) == t && OfType(items, Book) == b;
      case Tv =>
        assert OfType(items, Tv) == [x] + t;
        assert OfType(items, Movie) == m && OfType(items, Book) == b;
      case Book =>
        assert OfType(items, Book) == [x] + b;
        assert OfType(items, Movie) == m && OfType(items, Tv) == t;
    }
  }

  /** The index of the first item with the given id, or `|items|` when there is none. */
  function FirstIndexOf(items: seq<MediaItem>, id: string): (k: nat)
    ensures k <= |items|
    ensures forall j :: 0 <= j < k ==> items[j].id != id
    ensures k < |items| ==> items[k].id == id
  {
    if items == [] then 0
    else if items[0].id == id then 0
    else 1 + FirstIndexOf(items[1..], id)
  }

  /** `items.find(item => item.id === id)`: the first item with that id, if any. */
  function FindById(items: seq<MediaItem>, id: string): (r: Option<MediaItem>)
    ensures r.None? <==> forall j :: 0 <= j < |items| ==> items[j].id != id
    ensures r.Some? ==> exists k :: 0 <= k < |items| && items[k] == r.value && r.value.id == id
                          && forall j :: 0 <= j < k ==> items[j].id != id
  {
    var k := FirstIndexOf(items, id);
    if k < |items| then Some(items[k]) else None
  }

  /** `items.map(item => item.id === id ? { ...item, ...updates } : item)`. */
  function UpdateById(items: seq<MediaItem>, id: string, p: Patch): (r: seq<MediaItem>)
    ensures |r| == |items|
    ensures forall k :: 0 <= k < |items| ==>
      r[k] == (if items[k].id == id then Overlay(items[k], p) else items[k])
  {
    if items == [] then []
    else [if items[0].id == id then Overlay(items[0], p) else items[0]] + UpdateById(items[1..], id, p)
  }

  /** Updating an id that no item carries returns the list unchanged. */
  lemma UnknownIdUpdateIsNoOp(items: seq<MediaItem>, id: string, p: Patch)
    requires forall k :: 0 <= k < |items| ==> items[k].id != id
    ensures UpdateById(items, id, p) == items
  {
    var r := UpdateById(items, id, p);
    assert forall k :: 0 <= k < |items| ==> r[k] == items[k];
  }

  /** An update that leaves ids alone leaves the first index of every id where it was. */
  lemma {:induction false} FirstIndexAfterUpdate(items: seq<MediaItem>, id: string, p: Patch)
    requires p.id == Keep
    ensures FirstIndexOf(UpdateById(items, id, p), id) == FirstIndexOf(items, id)
  {
    if items != [] {
      var r := UpdateById(items, id, p);
      assert r[0].id == items[0].id;
      assert r[1..] == UpdateById(items[1..], id, p);
      FirstIndexAfterUpdate(items[1..], id, p);
    }
  }

  /**
   * After an update that leaves ids alone, looking the id up finds the
   * updated version of what it found before.
   */
  lemma FindAfterUpdate(items: seq<MediaItem>, id: string, p: Patch)
    requires p.id == Keep
    ensures FindById(UpdateById(items, id, p), id) ==
      if FindById(items, id).Some? then Some(Overlay(FindById(items, id).value, p)) else None
  {
    FirstIndexAfterUpdate(items, id, p);
  }

  /** `items.filter(item => item.id !== id)`. */
  function RemoveId(items: seq<MediaItem>, id: string): (r: seq<MediaItem>)
    ensures |r| <= |items|
    ensures forall k :: 0 <= k < |r| ==> r[k].id != id && r[k] in items
    ensures forall k :: 0 <= k < |items| && items[k].id != id ==> items[k] in r
    ensures (forall k :: 0 <= k < |items| ==> items[k].id != id) ==> r == items
  {
    if items == [] then []
    else (if items[0].id != id then [items[0]] else []) + RemoveId(items[1..], id)
  }

  /** Removal distributes over concatenation, so the survivors keep their relative order. */
  lemma {:induction false} RemoveIdOfConcat(a: seq<MediaItem>, b: seq<MediaItem>, id: string)
    ensures RemoveId(a + b, id) == RemoveId(a, id) + RemoveId(b, id)
  {
    if a == [] {
      assert a + b == b;
    } else {
      assert (a + b)[1..] == a[1..] + b;
      RemoveIdOfConcat(a[1..], b, id);
    }
  }

  /** The local id of a new item: its type name followed by the millisecond timestamp. */
  function MakeId(t: MediaType, now: nat): (id: string)
    ensures |TypeName(t)| < |id| && id[..|TypeName(t)|] == TypeName(t)
    ensures AllDigits(id[|TypeName(t)|..])
  {
    TypeName(t) + Decimal(now)
  }

  /**
   * A local id determines both the type and the timestamp it was made from:
   * two items added at different milliseconds, or of different types, never
   * share an id.
   */
  lemma MakeIdInjective(t1: MediaType, now1: nat, t2: MediaType, now2: nat)
    ensures MakeId(t1, now1) == MakeId(t2, now2) <==> t1 == t2 && now1 == now2
  {
    if MakeId(t1, now1) == MakeId(t2, now2) {
      var a := MakeId(t1, now1);
      assert a[0] == TypeName(t1)[0];
      assert a[0] == TypeName(t2)[0];
      assert t1 == t2;
      var n := |TypeName(t1)|;
      assert a[n..] == Decimal(now1);
      assert a[n..] == Decimal(now2);
      DigitsValueOfDecimal(now1);
      DigitsValueOfDecimal(now2);
    }
  }

  /** The collection held by the media provider. */
  class MediaStore {
    var media: seq<MediaItem>

    constructor()
      ensures media == []
    {
      media := [];
    }

    function Movies(): seq<MediaItem>
      reads this
    {
      OfType(media, Movie)
    }

    function TvShows(): seq<MediaItem>
      reads this
    {
      OfType(media, Tv)
    }

    function Books(): seq<MediaItem>
      reads this
    {
      OfType(media, Book)
    }

    /**
     * `addMediaItem`: appends one item built from the draft, with the id made
     * from its type and the current time and with today's date as added date.
     */
    method AddMediaItem(draft: MediaDraft, now: nat, today: string)
      modifies this
      ensures media == old(media) + [WithIdentity(draft, MakeId(draft.mediaType, now), today)]
      ensures |Movies()| + |TvShows()| + |Books()| == |media|
    {
      media := media + [WithIdentity(draft, MakeId(draft.mediaType, now), today)];
      PartitionCount(media);
    }

    /** `updateMediaItem`: overlays the update on every item with the id. */
    method UpdateMediaItem(id: string, p: Patch)
      modifies this
      ensures media == UpdateById(old(media), id, p)
    {
      media := UpdateById(media, id, p);
    }

    /** `deleteMediaItem`: drops every item with the id. */
    method DeleteMediaItem(id: string)
      modifies this
      ensures media == RemoveId(old(media), id)
    {
      media := RemoveId(media, id);
    }

    function GetMediaItemById(id: string): Option<MediaItem>
      reads this
    {
      FindById(media, id)
    }

    function GetMediaItemsByType(t: MediaType): seq<MediaItem>
      reads this
    {
      OfType(media, t)
    }

    /** The user id is not consulted: the whole list is returned. */
    function GetUserMediaItems(userId: string): seq<MediaItem>
      reads this
    {
      media
    }
  }
}
