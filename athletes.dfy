/**
 * src/components/Athletes.tsx: the list of followed athlete ids and the
 * follow button. `handleFollow` replaces the list by a new one, which is
 * modelled as a field the method reassigns.
 */
module Athletes {
  import opened Lists

  class FollowList {
    var followed: seq<string>

    /** The ids are distinct, as every list reached by following and unfollowing is. */
    ghost predicate Valid()
      reads this
    {
      NoDuplicates(followed)
    }

    /** The page starts out following athletes "2" and "4". */
    constructor ()
      ensures followed == ["2", "4"]
      ensures Valid()
    {
      followed := ["2", "4"];
    }

    /**
     * `handleFollow`: unfollow (filter the id out) when it is followed,
     * follow (append it at the end) otherwise. Membership of that id flips,
     * every other id stays as it was and in the same relative order.
     */
    method HandleFollow(athleteId: string)
      requires Valid()
      modifies this
      ensures Valid()
      ensures followed == Toggle(old(followed), athleteId)
      ensures athleteId in followed <==> athleteId !in old(followed)
      ensures athleteId !in old(followed) ==> followed == old(followed) + [athleteId]
      ensures Remove(followed, athleteId) == Remove(old(followed), athleteId)
    {
      ToggleKeepsNoDuplicates(followed, athleteId);
      ToggleKeepsOthers(followed, athleteId);
      if athleteId in followed {
        followed := Remove(followed, athleteId);
      } else {
        followed := followed + [athleteId];
      }
    }

    /** The button reads "Following" exactly when the id is followed. */
    function Label(athleteId: string): (text: string)
      reads this
      ensures text == "Following" <==> athleteId in followed
      ensures text == "Follow" <==> athleteId !in followed
    {
      if athleteId in followed then "Following" else "Follow"
    }
  }

  /** Following a new athlete and unfollowing them again gives back the same list. */
  method FollowUnfollow(page: FollowList, athleteId: string)
    requires page.Valid() && athleteId !in page.followed
    modifies page
    ensures page.followed == old(page.followed)
    ensures page.Label(athleteId) == "Follow"
  {
    ToggleTwiceAbsent(page.followed, athleteId);
    page.HandleFollow(athleteId);
    page.HandleFollow(athleteId);
  }
}
