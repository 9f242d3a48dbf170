/** One toast of src/components/notifications/ToastNotification.jsx: where
    a click leads, when a click or the close button marks the notification
    read, and the name shown. */
module ToastNotification {
  import opened Common
  import opened Notifications

  /** The name shown when neither the live user info nor the stored name
      is set; the literal string of ToastNotification.jsx:73. */
  const UnknownName: string := "Ai ฤรณ"

  /** `getNotificationLink()` (ToastNotification.jsx:34-50). */
  function LinkOf(n: Notification): (r: string)
    ensures r != ""
    ensures Truthy(n.link) ==> r == n.link.value
    ensures !Truthy(n.link) ==> StartsWith(r, "/")
    ensures !Truthy(n.link) && (n.kind == "like" || n.kind == "comment") ==>
      r == (if Truthy(n.relatedPostId) then "/?postId=" + n.relatedPostId.value else "/")
    ensures !Truthy(n.link) && n.kind == "message" ==>
      r == (if Truthy(n.relatedUserId) then "/chat?userId=" + n.relatedUserId.value else "/chat")
    ensures !Truthy(n.link) && n.kind == "follow" ==>
      r == (if Truthy(n.relatedUserId) then "/profile/" + n.relatedUserId.value else "/")
    ensures !Truthy(n.link) && n.kind !in {"like", "comment", "message", "follow"} ==> r == "/"
  {
    if Truthy(n.link) then n.link.value
    else if n.kind == "like" || n.kind == "comment" then
      if Truthy(n.relatedPostId) then "/?postId=" + n.relatedPostId.value else "/"
    else if n.kind == "message" then
      if Truthy(n.relatedUserId) then "/chat?userId=" + n.relatedUserId.value else "/chat"
    else if n.kind == "follow" then
      if Truthy(n.relatedUserId) then "/profile/" + n.relatedUserId.value else "/"
    else "/"
  }

  /** What a handler does: whether it calls `onMarkAsRead(id)`, where it
      navigates, and that it calls `onClose()`. */
  datatype Effects = Effects(markRead: bool, navigateTo: Option<string>, close: bool)

  /** `handleClick` (ToastNotification.jsx:52-62): the link '#' is not followed. */
  function Click(n: Notification, hasMarkHandler: bool): Effects {
    var link := LinkOf(n);
    Effects(!n.read && hasMarkHandler, if link != "#" then Some(link) else None, true)
  }

  /** `handleCloseClick` (ToastNotification.jsx:64-71). */
  function CloseClick(n: Notification, hasMarkHandler: bool): Effects {
    Effects(!n.read && hasMarkHandler, None, true)
  }

  /** Both handlers mark the notification read under the same condition,
      unread with a handler, and both always close the toast; only a click
      navigates, and only to a generated link or a stored one other than '#'. */
  lemma {:induction false} ClickAndCloseAgree(n: Notification, hasMarkHandler: bool)
    ensures Click(n, hasMarkHandler).markRead == CloseClick(n, hasMarkHandler).markRead
    ensures Click(n, hasMarkHandler).markRead <==> !n.read && hasMarkHandler
    ensures Click(n, hasMarkHandler).close && CloseClick(n, hasMarkHandler).close
    ensures CloseClick(n, hasMarkHandler).navigateTo.None?
    ensures Click(n, hasMarkHandler).navigateTo.None? <==> Truthy(n.link) && n.link.value == "#"
  {
  }

  /** The name shown (ToastNotification.jsx:73): the live name, else the
      stored name, else the fixed string. */
  function DisplayName(liveName: Option<string>, relatedUserName: Option<string>): (r: string)
    ensures r != ""
    ensures Truthy(liveName) ==> r == liveName.value
    ensures !Truthy(liveName) && Truthy(relatedUserName) ==> r == relatedUserName.value
    ensures !Truthy(liveName) && !Truthy(relatedUserName) ==> r == UnknownName
  {
    OrElse(liveName, OrElse(relatedUserName, UnknownName))
  }

  /** After the mark-as-read the click asks for, the notification reads as
      read in the list and no other notification changed. */
  lemma {:induction false} ClickMarksOnlyThisRead(ns: seq<Notification>, i: nat)
    requires i < |ns| && !ns[i].read
    ensures Click(ns[i], true).markRead
    ensures var after := MarkAsRead(true, ns, ns[i].id);
            after[i].read && forall j :: 0 <= j < |ns| && ns[j].id != ns[i].id ==> after[j] == ns[j]
  {
  }
}
