/**
 * The follow button on another user's profile: hidden on the viewer's own
 * profile and when signed out, seeded by a status check, and toggling
 * between follow and unfollow. Its `isFollowing` flag stays in step with
 * the follow table.
 */
module FollowButtonModel {
  import opened Common
  import opened Follow

  /** The button is rendered only for a signed-in viewer looking at someone else. */
  predicate Visible(user: Option<string>, userId: string) {
    user.Some? && user.value != userId
  }

  /**
   * The button is shown exactly when a follow would be accepted: a follow
   * through a visible button succeeds unless the backend fails, and a hidden
   * button stands for a follow the client refuses.
   */
  lemma VisibleIffFollowAllowed(edges: set<Edge>, user: Option<string>, userId: string)
    ensures Visible(user, userId) <==> FollowResult(edges, user, userId, false).ok
  {
  }

  class FollowButton {
    /** The profile the button belongs to. */
    const userId: string
    var isFollowing: bool
    var isLoading: bool

    constructor(userId: string)
      ensures this.userId == userId && !isFollowing && isLoading
    {
      this.userId := userId;
      isFollowing := false;
      isLoading := true;
    }

    /** The flag agrees with the table: the viewer follows `userId` exactly when the button says so. */
    ghost predicate InSync(user: Option<string>, client: FollowClient)
      reads this, client
    {
      user.Some? ==> (isFollowing <==> Edge(user.value, userId) in client.edges)
    }

    /**
     * The status effect: skipped (only loading ends) when signed out or on
     * one's own profile; otherwise the flag is set from the check.
     */
    method CheckFollowStatus(user: Option<string>, client: FollowClient, queryFails: bool)
      modifies this
      ensures !Visible(user, userId) ==> isFollowing == old(isFollowing)
      ensures Visible(user, userId) ==> isFollowing == client.CheckIsFollowing(user, userId, queryFails)
      ensures Visible(user, userId) && !queryFails ==> InSync(user, client)
      ensures !isLoading
    {
      if !Visible(user, userId) {
        isLoading := false;
        return;
      }
      isLoading := true;
      isFollowing := client.CheckIsFollowing(user, userId, queryFails);
      isLoading := false;
    }

    /**
     * `handleToggleFollow`: nothing when signed out. Otherwise unfollow when
     * following and follow when not; on success the flag flips and the new
     * value is reported (`Some(v)`), on failure nothing changes here. The
     * flag stays in step with the table.
     */
    method ToggleFollow(user: Option<string>, client: FollowClient, fails: bool) returns (notified: Option<bool>)
      modifies this, client
      ensures user.None? ==> notified.None? && isFollowing == old(isFollowing) && client.edges == old(client.edges)
      ensures user.Some? && old(isFollowing) ==>
        var o := UnfollowResult(old(client.edges), user, userId, fails);
        client.edges == o.edges && isFollowing == (old(isFollowing) != o.ok)
      ensures user.Some? && !old(isFollowing) ==>
        var o := FollowResult(old(client.edges), user, userId, fails);
        client.edges == o.edges && isFollowing == (old(isFollowing) != o.ok)
      ensures notified.Some? ==> isFollowing == !old(isFollowing) && notified.value == isFollowing
      ensures notified.None? ==> isFollowing == old(isFollowing)
      ensures old(InSync(user, client)) ==> InSync(user, client)
      ensures isLoading == old(isLoading)
    {
      notified := None;
      if user.None? {
        return;
      }
      var ok;
      if isFollowing {
        ok := client.UnfollowUser(user, userId, fails);
      } else {
        ok := client.FollowUser(user, userId, fails);
      }
      if ok {
        isFollowing := !isFollowing;
        notified := Some(isFollowing);
      }
    }
  }
}
