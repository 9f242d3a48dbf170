/** The "who to follow" panel of src/components/profile/FollowSuggestions.jsx:
    which users are suggested and in what order, and what a follow changes.
    The reads and writes of user documents are parameters. */
module FollowSuggestions {
  import opened Common
  import opened Sorting
  import NotificationService

  /** The fields of a user document the panel reads. */
  datatype UserDoc = UserDoc(id: string, uid: Option<string>, followers: Option<seq<string>>)

  const DefaultMaxSuggestions: int := 5

  /** An `updateDoc` with `arrayUnion`: `value` joins the list `field` of
      the user document `docId`. */
  datatype ArrayUnion = ArrayUnion(docId: string, field: string, value: string)

  /** The notification `handleFollow` asks for once both writes have landed
      (FollowSuggestions.jsx:84-91). */
  function FollowNotice(me: string, userId: string): (req: NotificationService.Request)
    ensures req.userId == Some(userId) && req.relatedUserId == Some(me) && req.relatedPostId.None?
    ensures req.kind == "follow" && req.link == Some("/profile/" + me)
  {
    NotificationService.Request(Some(userId), "follow", "Có người theo dõi bạn", "đã theo dõi bạn",
                                Some("/profile/" + me), Some(me), None)
  }

  /** `a.followers?.length || 0`. */
  function FollowerCount(u: UserDoc): nat {
    if u.followers.Some? then |u.followers.value| else 0
  }

  /** The comparator `bFollowers - aFollowers` as "may come first". */
  function MoreFollowers(a: UserDoc, b: UserDoc): bool {
    FollowerCount(a) >= FollowerCount(b)
  }

  lemma MoreFollowersIsPreorder()
    ensures TotalPreorder(MoreFollowers)
  {
  }

  /** The filter of FollowSuggestions.jsx:43-48: a uid, not the viewer, not
      already followed. */
  predicate Eligible(u: UserDoc, me: string, followingList: seq<string>) {
    Truthy(u.uid) && u.uid.value != me && u.uid.value !in followingList
  }

  function EligibleUsers(users: seq<UserDoc>, me: string, followingList: seq<string>): (r: seq<UserDoc>)
    ensures |r| <= |users|
    ensures forall u :: u in r <==> u in users && Eligible(u, me, followingList)
  {
    if users == [] then []
    else (if Eligible(users[0], me, followingList) then [users[0]] else []) + EligibleUsers(users[1..], me, followingList)
  }

  /** The eligible users, most followed first. */
  function Ranked(users: seq<UserDoc>, me: string, followingList: seq<string>): seq<UserDoc> {
    SortBy(EligibleUsers(users, me, followingList), MoreFollowers)
  }

  /** The suggestions (FollowSuggestions.jsx:38-57). */
  function Suggestions(users: seq<UserDoc>, me: string, followingList: seq<string>, maxSuggestions: int): seq<UserDoc> {
    Take(Ranked(users, me, followingList), maxSuggestions)
  }

  /** Every suggestion is an eligible user; there are at most
      `maxSuggestions` of them, most followed first, and no eligible user
      left out has more followers than any suggestion. */
  lemma {:induction false} SuggestionsAreTopEligible(users: seq<UserDoc>, me: string, followingList: seq<string>, maxSuggestions: int)
    requires maxSuggestions >= 0
    ensures var r := Suggestions(users, me, followingList, maxSuggestions);
            var all := Ranked(users, me, followingList);
            && |r| <= maxSuggestions && r == all[..|r|]
            && (forall u :: u in r ==> u in users && Eligible(u, me, followingList))
            && (forall i, j :: 0 <= i < j < |r| ==> FollowerCount(r[i]) >= FollowerCount(r[j]))
            && (forall i, j :: 0 <= i < |r| <= j < |all| ==> FollowerCount(r[i]) >= FollowerCount(all[j]))
    ensures multiset(Ranked(users, me, followingList)) == multiset(EligibleUsers(users, me, followingList))
  {
    var eligible := EligibleUsers(users, me, followingList);
    var all := Ranked(users, me, followingList);
    MoreFollowersIsPreorder();
    SortSorts(eligible, MoreFollowers);
    SortPermutes(eligible, MoreFollowers);
    var r := Suggestions(users, me, followingList, maxSuggestions);
    forall u | u in r ensures u in users && Eligible(u, me, followingList) {
      assert u in multiset(all);
      assert u in multiset(eligible);
    }
    forall i, j | 0 <= i < |r| <= j < |all| ensures FollowerCount(r[i]) >= FollowerCount(all[j]) {
      assert r[i] == all[i];
      assert MoreFollowers(all[i], all[j]);
    }
    forall i, j | 0 <= i < j < |r| ensures FollowerCount(r[i]) >= FollowerCount(r[j]) {
      assert MoreFollowers(all[i], all[j]);
    }
  }

  /** `prev.filter(user => user.uid !== userId)`. */
  function WithoutUid(s: seq<UserDoc>, uid: string): (r: seq<UserDoc>)
    ensures |r| <= |s|
    ensures forall u :: u in r <==> u in s && u.uid != Some(uid)
  {
    if s == [] then []
    else (if s[0].uid == Some(uid) then [] else [s[0]]) + WithoutUid(s[1..], uid)
  }

  class SuggestionPanel {
    var following: set<string>
    var suggestions: seq<UserDoc>
    var loading: bool

    constructor()
      ensures following == {} && suggestions == [] && loading
    {
      following, suggestions, loading := {}, [], true;
    }

    /** The fetch effect (FollowSuggestions.jsx:19-66): `followingList` is the
        viewer's stored list (None when that read fails) and `users` the
        user collection (None when that read fails). */
    method Load(signedIn: bool, me: string, followingList: Option<seq<string>>, users: Option<seq<UserDoc>>, maxSuggestions: int)
      modifies this
      ensures !loading
      ensures !signedIn || followingList.None? ==> following == old(following) && suggestions == old(suggestions)
      ensures signedIn && followingList.Some? ==> following == set t | t in followingList.value
      ensures signedIn && followingList.Some? && users.None? ==> suggestions == old(suggestions)
      ensures signedIn && followingList.Some? && users.Some? ==>
        suggestions == Suggestions(users.value, me, followingList.value, maxSuggestions)
    {
      if !signedIn {
        loading := false;
        return;
      }
      loading := true;
      if followingList.Some? {
        following := set t | t in followingList.value;
        if users.Some? {
          suggestions := Suggestions(users.value, me, followingList.value, maxSuggestions);
        }
      }
      loading := false;
    }

    /** `handleFollow(userId)` (FollowSuggestions.jsx:68-95): `firstOk` and
        `secondOk` say whether the two `updateDoc` calls succeed. `writes` are
        the writes that landed; the panel changes and the notification is
        requested only after both. A failed second write leaves the first in
        place while the panel shows nothing new. */
    method Follow(me: Option<string>, userId: string, firstOk: bool, secondOk: bool)
      returns (writes: seq<ArrayUnion>, notice: Option<NotificationService.Request>)
      modifies this
      ensures me.None? ==> writes == []
      ensures me.Some? ==>
        writes == (if firstOk then [ArrayUnion(me.value, "following", userId)] else [])
                  + (if firstOk && secondOk then [ArrayUnion(userId, "followers", me.value)] else [])
      ensures me.Some? && firstOk && secondOk ==>
        && following == old(following) + {userId} && suggestions == WithoutUid(old(suggestions), userId)
        && notice == Some(FollowNotice(me.value, userId))
      ensures !(me.Some? && firstOk && secondOk) ==>
        following == old(following) && suggestions == old(suggestions) && notice.None?
      ensures loading == old(loading)
    {
      writes, notice := [], None;
      if me.None? {
        return;
      }
      if !firstOk {
        return;
      }
      writes := writes + [ArrayUnion(me.value, "following", userId)];
      if !secondOk {
        return;
      }
      writes := writes + [ArrayUnion(userId, "followers", me.value)];
      following := following + {userId};
      suggestions := WithoutUid(suggestions, userId);
      notice := Some(FollowNotice(me.value, userId));
    }

    /** Whether the panel renders anything (FollowSuggestions.jsx:97-99). */
    function Renders(signedIn: bool): (r: bool)
      reads this
      ensures r <==> signedIn && !loading && |suggestions| > 0
    {
      signedIn && !loading && |suggestions| != 0
    }
  }
}
