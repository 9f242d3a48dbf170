/** The module-level user-info cache of src/hooks/useUserInfo.js: what a
    profile snapshot, a subscription error, the initial cached read and
    `clearUserInfoCache` do to the cache and to the info the hook shows. */
module UserInfo {
  import opened Common

  /** The fields of a user document the hook reads. */
  datatype UserDoc = UserDoc(displayName: Option<string>, photoURL: Option<string>)

  /** The normalised info the hook stores and shows. */
  datatype Info = Info(displayName: string, photoURL: Option<string>)

  /** `{ displayName: data.displayName || 'Người dùng', photoURL: data.photoURL || null }`
      (src/hooks/useUserInfo.js:27-30). */
  function Normalize(d: UserDoc): (i: Info)
    ensures i.displayName != "" && (i.photoURL.Some? ==> i.photoURL.value != "")
    ensures Truthy(d.displayName) ==> i.displayName == d.displayName.value
    ensures !Truthy(d.displayName) ==> i.displayName == DefaultUserName
    ensures i.photoURL == if Truthy(d.photoURL) then d.photoURL else None
  {
    Info(OrElse(d.displayName, DefaultUserName), if Truthy(d.photoURL) then d.photoURL else None)
  }

  /** Normalised info is a fixed point: storing it back and reading it again
      changes nothing. */
  lemma {:induction false} NormalizeIsIdempotent(d: UserDoc)
    ensures var i := Normalize(d);
            Normalize(UserDoc(Some(i.displayName), i.photoURL)) == i
  {
  }

  /** What the effect does when it starts (src/hooks/useUserInfo.js:11-18, 59-63). */
  datatype Start = Start(subscribes: bool, shown: Option<Info>, loading: bool)

  class UserInfoCache {
    var entries: map<string, Info>

    constructor()
      ensures entries == map[]
    {
      entries := map[];
    }

    /** The start of the effect for `userId`, in a hook that currently shows
        `current`: no id means no info and no subscription; otherwise the
        cached info, if any, is shown at once, and without it the hook keeps
        showing what it showed until the first snapshot arrives. */
    method Subscribe(userId: Option<string>, current: Option<Info>) returns (s: Start)
      ensures !Truthy(userId) ==> s == Start(false, None, false)
      ensures Truthy(userId) && userId.value in entries ==> s == Start(true, Some(entries[userId.value]), false)
      ensures Truthy(userId) && userId.value !in entries ==> s == Start(true, current, true)
    {
      if !Truthy(userId) {
        return Start(false, None, false);
      }
      var id := userId.value;
      if id in entries {
        s := Start(true, Some(entries[id]), false);
      } else {
        s := Start(true, current, true);
      }
    }

    /** A snapshot of the user document (src/hooks/useUserInfo.js:24-46).
        `written` says whether the cache entry was overwritten. */
    method OnSnapshot(userId: string, doc: Option<UserDoc>) returns (shown: Option<Info>, written: bool)
      modifies this
      ensures doc.None? ==> entries == old(entries) - {userId} && shown.None? && !written
      ensures doc.Some? ==>
        && (written <==> userId !in old(entries) || old(entries)[userId] != Normalize(doc.value))
        && entries == old(entries)[userId := Normalize(doc.value)]
        && shown == Some(Normalize(doc.value))
    {
      if doc.None? {
        entries := entries - {userId};
        return None, false;
      }
      var info := Normalize(doc.value);
      if userId !in entries || entries[userId].photoURL != info.photoURL || entries[userId].displayName != info.displayName {
        entries := entries[userId := info];
        shown, written := Some(info), true;
      } else {
        shown, written := Some(entries[userId]), false;
        assert entries == old(entries)[userId := info];
      }
    }

    /** A subscription error (src/hooks/useUserInfo.js:47-56): the cached info,
        if any, else none. */
    method OnError(userId: string) returns (shown: Option<Info>)
      ensures shown.Some? <==> userId in entries
      ensures shown.Some? ==> shown.value == entries[userId]
    {
      if userId in entries {
        shown := Some(entries[userId]);
      } else {
        shown := None;
      }
    }

    /** `clearUserInfoCache(userId)` (src/hooks/useUserInfo.js:71-77). */
    method Clear(userId: Option<string>)
      modifies this
      ensures Truthy(userId) ==> entries == old(entries) - {userId.value}
      ensures !Truthy(userId) ==> entries == map[]
    {
      if Truthy(userId) {
        entries := entries - {userId.value};
      } else {
        entries := map[];
      }
    }
  }

  /** Clearing one id leaves every other entry in place. */
  lemma {:induction false} ClearOneKeepsOthers(entries: map<string, Info>, id: string, other: string)
    requires other != id
    ensures other in entries - {id} <==> other in entries
    ensures other in entries ==> (entries - {id})[other] == entries[other]
  {
  }
}
