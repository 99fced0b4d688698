/**
 * The newest-first order of the collection pages. Items are compared by
 * their added date, a calendar date written `yyyy-mm-dd`, whose
 * chronological order is the lexicographic order of its text; the sort is
 * stable, so items added on the same day keep the order they came in.
 */
module MediaOrder {
  import opened MediaTypes

  /** Lexicographic order on strings, character by character. */
  predicate LexLe(a: string, b: string)
    decreases |a|
  {
    a == [] || (b != [] && (a[0] < b[0] || (a[0] == b[0] && LexLe(a[1..], b[1..]))))
  }

  lemma {:induction false} LexLeReflexive(a: string)
    ensures LexLe(a, a)
    decreases |a|
  {
    if a != [] {
      LexLeReflexive(a[1..]);
    }
  }

  lemma {:induction false} LexLeTotal(a: string, b: string)
    ensures LexLe(a, b) || LexLe(b, a)
    decreases |a|
  {
    if a != [] && b != [] && a[0] == b[0] {
      LexLeTotal(a[1..], b[1..]);
    }
  }

  lemma {:induction false} LexLeAntisymmetric(a: string, b: string)
    requires LexLe(a, b) && LexLe(b, a)
    ensures a == b
    decreases |a|
  {
    if a != [] {
      LexLeAntisymmetric(a[1..], b[1..]);
      assert a == [a[0]] + a[1..];
      assert b == [b[0]] + b[1..];
    }
  }

  lemma {:induction false} LexLeTransitive(a: string, b: string, c: string)
    requires LexLe(a, b) && LexLe(b, c)
    ensures LexLe(a, c)
    decreases |a|
  {
    if a != [] && a[0] == b[0] && b[0] == c[0] {
      LexLeTransitive(a[1..], b[1..], c[1..]);
    }
  }

  /** `x` was added no earlier than `y`: the comparator does not put `y` first. */
  predicate NotOlder(x: MediaItem, y: MediaItem) {
    LexLe(y.addedDate, x.addedDate)
  }

  /** Newest first: no item is followed by a newer one. */
  predicate NewestFirst(s: seq<MediaItem>) {
    forall i, j :: 0 <= i < j < |s| ==> NotOlder(s[i], s[j])
  }

  /**
   * Places `x` in a newest-first list in front of the first item it is not
   * older than, so ahead of the items of its own date.
   */
  function Insert(x: MediaItem, t: seq<MediaItem>): (r: seq<MediaItem>)
    ensures |r| == |t| + 1
    ensures multiset(r) == multiset{x} + multiset(t)
  {
    if t == [] || NotOlder(x, t[0]) then [x] + t
    else
      assert t == [t[0]] + t[1..];
      [t[0]] + Insert(x, t[1..])
  }

  /**
   * `s.sort((a, b) => date(b) - date(a))`: a stable sort, newest first.
   * Each item is inserted into the sorted rest of the list.
   */
  function SortDesc(s: seq<MediaItem>): (r: seq<MediaItem>)
    ensures |r| == |s|
    ensures multiset(r) == multiset(s)
  {
    if s == [] then []
    else
      assert s == [s[0]] + s[1..];
      Insert(s[0], SortDesc(s[1..]))
  }

  lemma {:induction false} InsertNewestFirst(x: MediaItem, t: seq<MediaItem>)
    requires NewestFirst(t)
    ensures NewestFirst(Insert(x, t))
  {
    var r := Insert(x, t);
    if t == [] {
    } else if NotOlder(x, t[0]) {
      forall j | 1 <= j < |r|
        ensures NotOlder(r[0], r[j])
      {
        if j > 1 {
          LexLeTransitive(t[j - 1].addedDate, t[0].addedDate, x.addedDate);
        }
      }
    } else {
      LexLeTotal(x.addedDate, t[0].addedDate);
      InsertNewestFirst(x, t[1..]);
      var rest := Insert(x, t[1..]);
      assert r == [t[0]] + rest;
      forall j | 0 <= j < |rest|
        ensures NotOlder(t[0], rest[j])
      {
        assert rest[j] in multiset(rest);
        if rest[j] != x {
          assert rest[j] in multiset(t[1..]);
          var k :| 0 <= k < |t[1..]| && t[1..][k] == rest[j];
          assert t[k + 1] == rest[j];
        }
      }
    }
  }

  /** The sorted list is newest first. */
  lemma {:induction false} SortDescNewestFirst(s: seq<MediaItem>)
    ensures NewestFirst(SortDesc(s))
  {
    if s != [] {
      SortDescNewestFirst(s[1..]);
      InsertNewestFirst(s[0], SortDesc(s[1..]));
    }
  }

  /** The items added on day `d`, in list order. */
  function OnDate(s: seq<MediaItem>, d: string): (r: seq<MediaItem>)
    ensures |r| <= |s|
    ensures forall k :: 0 <= k < |r| ==> r[k].addedDate == d
  {
    if s == [] then []
    else (if s[0].addedDate == d then [s[0]] else []) + OnDate(s[1..], d)
  }

  lemma {:induction false} OnDateOfConcat(a: seq<MediaItem>, b: seq<MediaItem>, d: string)
    ensures OnDate(a + b, d) == OnDate(a, d) + OnDate(b, d)
  {
    if a == [] {
      assert a + b == b;
    } else {
      assert (a + b)[1..] == a[1..] + b;
      OnDateOfConcat(a[1..], b, d);
    }
  }

  lemma {:induction false} InsertOnDate(x: MediaItem, t: seq<MediaItem>, d: string)
    ensures OnDate(Insert(x, t), d) == (if x.addedDate == d then [x] else []) + OnDate(t, d)
  {
    if t == [] || NotOlder(x, t[0]) {
      OnDateOfConcat([x], t, d);
    } else {
      LexLeReflexive(x.addedDate);
      assert t[0].addedDate != x.addedDate;
      InsertOnDate(x, t[1..], d);
      OnDateOfConcat([t[0]], Insert(x, t[1..]), d);
      OnDateOfConcat([t[0]], t[1..], d);
      assert t == [t[0]] + t[1..];
    }
  }

  /**
   * The sort is stable: for every date, the items added that day appear in
   * the sorted list in the order they had before.
   */
  lemma {:induction false} SortDescStable(s: seq<MediaItem>, d: string)
    ensures OnDate(SortDesc(s), d) == OnDate(s, d)
  {
    if s != [] {
      SortDescStable(s[1..], d);
      InsertOnDate(s[0], SortDesc(s[1..]), d);
    }
  }

  /** Sorting a list that is already newest first leaves it as it is. */
  lemma {:induction false} SortDescOfSorted(s: seq<MediaItem>)
    requires NewestFirst(s)
    ensures SortDesc(s) == s
  {
    if s != [] {
      assert NewestFirst(s[1..]);
      SortDescOfSorted(s[1..]);
      assert s == [s[0]] + s[1..];
      if |s| > 1 {
        assert NotOlder(s[0], s[1]);
      }
    }
  }

  /** `s.slice(0, n)`. */
  function Take(s: seq<MediaItem>, n: nat): (r: seq<MediaItem>)
    ensures |r| == (if n < |s| then n else |s|)
    ensures r == s[..|r|]
  {
    if n < |s| then s[..n] else s
  }
}
