/**
 * The followers/following dialog: two lists, one per tab, filled for the
 * active tab; follow and unfollow buttons that flip one entry's flag after
 * a successful call; and the rule for which button a row shows.
 */
module FollowersModalModel {
  import opened Common
  import opened Follow

  /** `list.map(p => p.id === id ? { ...p, isFollowing: value } : p)`. */
  function MarkFollowing(list: seq<ProfileWithFollow>, id: string, value: bool): (r: seq<ProfileWithFollow>)
    ensures |r| == |list|
    ensures forall k :: 0 <= k < |list| ==>
      r[k] == (if list[k].id == id then list[k].(isFollowing := value) else list[k])
  {
    if list == [] then []
    else [if list[0].id == id then list[0].(isFollowing := value) else list[0]]
         + MarkFollowing(list[1..], id, value)
  }

  /**
   * Marking is last-write-wins: marking the same id twice is the second
   * marking alone, and marking an id no entry has changes nothing.
   */
  lemma MarkFollowingLastWins(list: seq<ProfileWithFollow>, id: string, v1: bool, v2: bool)
    ensures MarkFollowing(MarkFollowing(list, id, v1), id, v2) == MarkFollowing(list, id, v2)
    ensures (forall k :: 0 <= k < |list| ==> list[k].id != id) ==> MarkFollowing(list, id, v1) == list
  {
    var a := MarkFollowing(MarkFollowing(list, id, v1), id, v2);
    assert forall k :: 0 <= k < |list| ==> a[k] == MarkFollowing(list, id, v2)[k];
    if forall k :: 0 <= k < |list| ==> list[k].id != id {
      assert forall k :: 0 <= k < |list| ==> MarkFollowing(list, id, v1)[k] == list[k];
    }
  }

  /** The button a row shows. */
  datatype RowAction = NoButton | FollowAction | UnfollowAction

  /**
   * In the followers tab the row of the dialog's own user has no button and
   * the others show unfollow or follow by their flag; in the following tab
   * every row shows unfollow, whatever its flag.
   */
  function RowButton(tab: Direction, entry: ProfileWithFollow, modalUserId: string): (a: RowAction)
    ensures a == NoButton <==> tab == Followers && entry.id == modalUserId
    ensures tab == Following ==> a == UnfollowAction
    ensures tab == Followers && entry.id != modalUserId ==>
      (a == UnfollowAction <==> entry.isFollowing)
  {
    match tab
    case Followers =>
      if entry.id == modalUserId then NoButton
      else if entry.isFollowing then UnfollowAction
      else FollowAction
    case Following => UnfollowAction
  }

  class FollowersModal {
    /** The user whose connections are listed. */
    const userId: string
    var activeTab: Direction
    var followers: seq<ProfileWithFollow>
    var following: seq<ProfileWithFollow>
    var isLoading: bool
    var actionInProgress: Option<string>

    constructor(userId: string, initialTab: Direction)
      ensures this.userId == userId && activeTab == initialTab
      ensures followers == [] && following == [] && isLoading && actionInProgress.None?
    {
      this.userId := userId;
      activeTab := initialTab;
      followers := [];
      following := [];
      isLoading := true;
      actionInProgress := None;
    }

    /** The list of the active tab. */
    function ActiveList(): seq<ProfileWithFollow>
      reads this
    {
      if activeTab == Followers then followers else following
    }

    /** `handleTabChange`. */
    method ChangeTab(t: Direction)
      modifies this
      ensures activeTab == t && followers == old(followers) && following == old(following)
      ensures isLoading == old(isLoading) && actionInProgress == old(actionInProgress)
    {
      activeTab := t;
    }

    /**
     * `loadFollowData`: only the active tab's list is refetched (the list
     * call itself turns every failure into []), and loading ends.
     */
    method LoadFollowData(client: FollowClient, current: Option<string>,
                          rows: Result<seq<FollowRow>, string>, failingChecks: set<string>)
      modifies this
      ensures activeTab == Followers ==>
        followers == client.GetFollowList(rows, current, failingChecks) && following == old(following)
      ensures activeTab == Following ==>
        following == client.GetFollowList(rows, current, failingChecks) && followers == old(followers)
      ensures !isLoading && activeTab == old(activeTab) && actionInProgress == old(actionInProgress)
    {
      isLoading := true;
      var list := client.GetFollowList(rows, current, failingChecks);
      if activeTab == Followers {
        followers := list;
      } else {
        following := list;
      }
      isLoading := false;
    }

    /**
     * `handleFollow(profileId)`: after a successful follow the entries with
     * that id in the active tab's list are marked followed; the other list,
     * the other entries and the lengths do not change; on failure neither
     * list changes. No action is in progress afterwards.
     */
    method HandleFollow(profileId: string, client: FollowClient, current: Option<string>, fails: bool)
      modifies this, client
      ensures var o := FollowResult(old(client.edges), current, profileId, fails);
        && client.edges == o.edges
        && (o.ok && activeTab == Followers ==> followers == MarkFollowing(old(followers), profileId, true) && following == old(following))
        && (o.ok && activeTab == Following ==> following == MarkFollowing(old(following), profileId, true) && followers == old(followers))
        && (!o.ok ==> followers == old(followers) && following == old(following))
      ensures actionInProgress.None? && activeTab == old(activeTab) && isLoading == old(isLoading)
    {
      actionInProgress := Some(profileId);
      var ok := client.FollowUser(current, profileId, fails);
      if ok {
        if activeTab == Followers {
          followers := MarkFollowing(followers, profileId, true);
        } else {
          following := MarkFollowing(following, profileId, true);
        }
      }
      actionInProgress := None;
    }

    /** `handleUnfollow(profileId)`: the same as a follow, marking the entries not followed. */
    method HandleUnfollow(profileId: string, client: FollowClient, current: Option<string>, fails: bool)
      modifies this, client
      ensures var o := UnfollowResult(old(client.edges), current, profileId, fails);
        && client.edges == o.edges
        && (o.ok && activeTab == Followers ==> followers == MarkFollowing(old(followers), profileId, false) && following == old(following))
        && (o.ok && activeTab == Following ==> following == MarkFollowing(old(following), profileId, false) && followers == old(followers))
        && (!o.ok ==> followers == old(followers) && following == old(following))
      ensures actionInProgress.None? && activeTab == old(activeTab) && isLoading == old(isLoading)
    {
      actionInProgress := Some(profileId);
      var ok := client.UnfollowUser(current, profileId, fails);
      if ok {
        if activeTab == Followers {
          followers := MarkFollowing(followers, profileId, false);
        } else {
          following := MarkFollowing(following, profileId, false);
        }
      }
      actionInProgress := None;
    }
  }
}
