/**
 * The follow-graph client. The `follows` table is a set of
 * (follower, following) pairs; being a set, it holds each pair at most
 * once, which is the table's uniqueness constraint. Backend failures are
 * parameters.
 */
module Follow {
  import opened Common

  /** One row of the `follows` table. */
  datatype Edge = Edge(follower: string, following: string)

  /** What a follow or unfollow reports, and the table it leaves. */
  datatype Outcome = Outcome(ok: bool, edges: set<Edge>)

  /**
   * `followUser(target)`: refused when signed out or when following oneself.
   * Otherwise the pair is inserted. `insertFails` is an insert error other
   * than the unique-constraint violation (network, permission, ...): it is
   * rethrown and reports false whether or not the pair is there. Without
   * such an error, a pair already present violates the unique constraint,
   * which counts as success, and a new pair is added.
   */
  function FollowResult(edges: set<Edge>, current: Option<string>, target: string, insertFails: bool): (o: Outcome)
    ensures o.ok <==> current.Some? && current.value != target && !insertFails
    ensures o.ok ==> o.edges == edges + {Edge(current.value, target)}
    ensures !o.ok ==> o.edges == edges
  {
    if current.None? then Outcome(false, edges)
    else if current.value == target then Outcome(false, edges)
    else if insertFails then Outcome(false, edges)
    else if Edge(current.value, target) in edges then Outcome(true, edges)
    else Outcome(true, edges + {Edge(current.value, target)})
  }

  /**
   * `unfollowUser(target)`: refused when signed out; otherwise the pair is
   * deleted (nothing to delete is not an error) unless the backend fails.
   */
  function UnfollowResult(edges: set<Edge>, current: Option<string>, target: string, deleteFails: bool): (o: Outcome)
    ensures o.ok <==> current.Some? && !deleteFails
    ensures o.ok ==> o.edges == edges - {Edge(current.value, target)}
    ensures !o.ok ==> o.edges == edges
  {
    if current.None? || deleteFails then Outcome(false, edges)
    else Outcome(true, edges - {Edge(current.value, target)})
  }

  /** No one follows themself. */
  predicate NoSelfFollows(edges: set<Edge>) {
    forall e :: e in edges ==> e.follower != e.following
  }

  /** Following never creates a self-follow, and unfollowing never does either. */
  lemma FollowKeepsNoSelfFollows(edges: set<Edge>, current: Option<string>, target: string, fails: bool)
    requires NoSelfFollows(edges)
    ensures NoSelfFollows(FollowResult(edges, current, target, fails).edges)
    ensures NoSelfFollows(UnfollowResult(edges, current, target, fails).edges)
  {
  }

  /**
   * Following twice is following once: when the second insert hits only the
   * unique constraint, it reports success without a second row. When it
   * fails otherwise, it reports false and the table keeps the first call's
   * pair.
   */
  lemma FollowTwiceIsFollowOnce(edges: set<Edge>, current: Option<string>, target: string, fails1: bool, fails2: bool)
    ensures var first := FollowResult(edges, current, target, fails1);
      first.ok ==> FollowResult(first.edges, current, target, fails2) == Outcome(!fails2, first.edges)
  {
  }

  /**
   * An insert failure other than the unique-constraint violation reports
   * false even for a pair that is already in the table.
   */
  lemma PresentPairStillFailsOnError(edges: set<Edge>, follower: string, target: string)
    requires follower != target && Edge(follower, target) in edges
    ensures FollowResult(edges, Some(follower), target, true) == Outcome(false, edges)
    ensures FollowResult(edges, Some(follower), target, false) == Outcome(true, edges)
  {
  }

  /** Unfollowing is idempotent: a second successful delete leaves the same table. */
  lemma UnfollowTwiceIsUnfollowOnce(edges: set<Edge>, current: Option<string>, target: string)
    ensures var first := UnfollowResult(edges, current, target, false);
      UnfollowResult(first.edges, current, target, false) == first
  {
  }

  /** Following someone not yet followed and then unfollowing them restores the table. */
  lemma FollowThenUnfollowRestores(edges: set<Edge>, current: Option<string>, target: string, fails: bool)
    requires current.Some? && Edge(current.value, target) !in edges
    ensures var first := FollowResult(edges, current, target, fails);
      first.ok ==> UnfollowResult(first.edges, current, target, false).edges == edges
  {
  }

  /** The users who follow `u`. */
  function FollowersOf(edges: set<Edge>, u: string): set<string> {
    set e | e in edges && e.following == u :: e.follower
  }

  /** The users `u` follows. */
  function FollowingOf(edges: set<Edge>, u: string): set<string> {
    set e | e in edges && e.follower == u :: e.following
  }

  /** A profile as the list query joins it. */
  datatype ProfileInfo = ProfileInfo(username: Option<string>, avatarUrl: Option<string>)

  /** A row of the list query: the id at the other end, and its joined profile (null when missing). */
  datatype FollowRow = FollowRow(otherId: string, profile: Option<ProfileInfo>)

  /** An entry of the followers or following list. */
  datatype ProfileWithFollow = ProfileWithFollow(id: string, username: Option<string>, avatarUrl: Option<string>, isFollowing: bool)

  /** The two lists the client can fetch. */
  datatype Direction = Followers | Following

  /** The client's view of the table and its loading flag. */
  class FollowClient {
    var edges: set<Edge>
    var isLoading: bool

    constructor(edges: set<Edge>)
      ensures this.edges == edges && !isLoading
    {
      this.edges := edges;
      isLoading := false;
    }

    /** `followUser`: the table becomes `FollowResult(...)`'s, and loading ends. */
    method FollowUser(current: Option<string>, target: string, insertFails: bool) returns (ok: bool)
      modifies this
      ensures Outcome(ok, edges) == FollowResult(old(edges), current, target, insertFails)
      ensures !isLoading
    {
      isLoading := true;
      var o := FollowResult(edges, current, target, insertFails);
      ok := o.ok;
      edges := o.edges;
      isLoading := false;
    }

    /** `unfollowUser`: the table becomes `UnfollowResult(...)`'s, and loading ends. */
    method UnfollowUser(current: Option<string>, target: string, deleteFails: bool) returns (ok: bool)
      modifies this
      ensures Outcome(ok, edges) == UnfollowResult(old(edges), current, target, deleteFails)
      ensures !isLoading
    {
      isLoading := true;
      var o := UnfollowResult(edges, current, target, deleteFails);
      ok := o.ok;
      edges := o.edges;
      isLoading := false;
    }

    /**
     * `checkIsFollowing(target)`: whether the pair (current user, target)
     * is in the table; the signed-out user is looked up as "". Not found
     * and any other failure both give false.
     */
    function CheckIsFollowing(current: Option<string>, target: string, queryFails: bool): (r: bool)
      reads this
      ensures r ==> Edge(current.GetOr(""), target) in edges
      ensures !queryFails && Edge(current.GetOr(""), target) in edges ==> r
    {
      !queryFails && Edge(current.GetOr(""), target) in edges
    }

    /**
     * `getFollowCounts(u)`: the number of users following `u` and the
     * number `u` follows, or zero for both when either query fails.
     */
    method GetFollowCounts(u: string, queryFails: bool) returns (followers: nat, following: nat)
      ensures queryFails ==> followers == 0 && following == 0
      ensures !queryFails ==> followers == |FollowersOf(edges, u)| && following == |FollowingOf(edges, u)|
    {
      if queryFails {
        return 0, 0;
      }
      followers := |FollowersOf(edges, u)|;
      following := |FollowingOf(edges, u)|;
    }

    /**
     * `getFollowList`: a failed query, or any row whose profile is missing
     * (reading a field of null throws), gives []. Otherwise each row
     * becomes an entry in order, marked as followed only when a user is
     * signed in and that user's own check finds the pair; a check whose
     * query fails (the ids in `failingChecks`) marks it not followed.
     */
    function GetFollowList(rows: Result<seq<FollowRow>, string>, current: Option<string>, failingChecks: set<string>): (list: seq<ProfileWithFollow>)
      reads this
      ensures rows.Err? ==> list == []
      ensures rows.Ok? && (exists k :: 0 <= k < |rows.value| && rows.value[k].profile.None?) ==> list == []
      ensures rows.Ok? && (forall k :: 0 <= k < |rows.value| ==> rows.value[k].profile.Some?) ==>
        |list| == |rows.value|
        && forall k :: 0 <= k < |list| ==>
          && list[k].id == rows.value[k].otherId
          && list[k].username == rows.value[k].profile.value.username
          && list[k].avatarUrl == rows.value[k].profile.value.avatarUrl
          && (list[k].isFollowing <==>
                current.Some? && current.value != "" && list[k].id !in failingChecks
                && Edge(current.value, list[k].id) in edges)
      ensures current.None? ==> forall k :: 0 <= k < |list| ==> !list[k].isFollowing
    {
      if rows.Err? then []
      else if exists k :: 0 <= k < |rows.value| && rows.value[k].profile.None? then []
      else Entries(rows.value, current, failingChecks)
    }

    /** The entries for rows that all have a profile. */
    function Entries(rows: seq<FollowRow>, current: Option<string>, failingChecks: set<string>): (list: seq<ProfileWithFollow>)
      reads this
      requires forall k :: 0 <= k < |rows| ==> rows[k].profile.Some?
      ensures |list| == |rows|
      ensures forall k :: 0 <= k < |list| ==>
        && list[k].id == rows[k].otherId
        && list[k].username == rows[k].profile.value.username
        && list[k].avatarUrl == rows[k].profile.value.avatarUrl
        && (list[k].isFollowing <==>
              current.Some? && current.value != "" && list[k].id !in failingChecks
              && Edge(current.value, list[k].id) in edges)
    {
      if rows == [] then []
      else
        var id := rows[0].otherId;
        var following := current.Some? && current.value != ""
                         && CheckIsFollowing(current, id, id in failingChecks);
        [ProfileWithFollow(id, rows[0].profile.value.username, rows[0].profile.value.avatarUrl, following)]
        + Entries(rows[1..], current, failingChecks)
    }
  }
}
