/** The notification list of src/hooks/useNotifications.js: the unread count
    and the two mark-as-read operations, each described by the list as it
    reads once its writes have landed. */
module Notifications {
  import opened Common

  /** A notification document. `kind` is the stored `type`. */
  datatype Notification = Notification(
    id: string, userId: string, kind: string, title: string, message: string,
    link: Option<string>, relatedUserId: Option<string>, relatedPostId: Option<string>,
    relatedUserName: Option<string>, read: bool)

  /** `notifications.filter(n => !n.read).length` (src/hooks/useNotifications.js:31-33). */
  function UnreadCount(ns: seq<Notification>): (r: nat)
    ensures r <= |ns|
    ensures r == 0 <==> forall i :: 0 <= i < |ns| ==> ns[i].read
  {
    if ns == [] then 0 else (if ns[0].read then 0 else 1) + UnreadCount(ns[1..])
  }

  /** The list with `read` set on every notification whose id is in `ids`. */
  function WithRead(ns: seq<Notification>, ids: set<string>): (r: seq<Notification>)
    ensures |r| == |ns|
    ensures forall i :: 0 <= i < |ns| ==> r[i] == if ns[i].id in ids then ns[i].(read := true) else ns[i]
  {
    if ns == [] then [] else
      [if ns[0].id in ids then ns[0].(read := true) else ns[0]] + WithRead(ns[1..], ids)
  }

  /** `markAsRead(id)` (src/hooks/useNotifications.js:45-56): signed out, nothing
      is written; otherwise exactly the notification with that id becomes read. */
  function MarkAsRead(signedIn: bool, ns: seq<Notification>, id: string): (r: seq<Notification>)
    ensures !signedIn ==> r == ns
    ensures |r| == |ns|
    ensures signedIn ==> forall i :: 0 <= i < |ns| ==>
      (ns[i].id == id ==> r[i] == ns[i].(read := true)) && (ns[i].id != id ==> r[i] == ns[i])
  {
    if signedIn then WithRead(ns, {id}) else ns
  }

  /** The ids of the unread notifications (src/hooks/useNotifications.js:62). */
  function UnreadIds(ns: seq<Notification>): (r: set<string>)
    ensures forall i :: 0 <= i < |ns| && !ns[i].read ==> ns[i].id in r
    ensures forall id :: id in r ==> exists i :: 0 <= i < |ns| && !ns[i].read && ns[i].id == id
  {
    if ns == [] then {}
    else
      var rest := UnreadIds(ns[1..]);
      assert forall id :: id in rest ==> exists i :: 0 <= i < |ns| && !ns[i].read && ns[i].id == id by {
        forall id | id in rest ensures exists i :: 0 <= i < |ns| && !ns[i].read && ns[i].id == id {
          var j :| 0 <= j < |ns[1..]| && !ns[1..][j].read && ns[1..][j].id == id;
          assert ns[j + 1] == ns[1..][j];
        }
      }
      if ns[0].read then rest else {ns[0].id} + rest
  }

  /** `markAllAsRead()` (src/hooks/useNotifications.js:58-69): signed out,
      nothing is written; otherwise every unread notification is written read. */
  function MarkAllAsRead(signedIn: bool, ns: seq<Notification>): (r: seq<Notification>)
    ensures !signedIn ==> r == ns
    ensures signedIn ==> UnreadCount(r) == 0
    ensures |r| == |ns| && forall i :: 0 <= i < |ns| ==> r[i] == ns[i].(read := true) || r[i] == ns[i]
  {
    if signedIn then WithRead(ns, UnreadIds(ns)) else ns
  }

  /** Marking one notification read lowers the unread count by the number of
      unread notifications carrying that id, and by nothing else. */
  lemma {:induction false} MarkAsReadCount(ns: seq<Notification>, id: string)
    ensures UnreadCount(MarkAsRead(true, ns, id)) == UnreadCount(ns) - UnreadWithId(ns, id)
  {
    if ns != [] {
      MarkAsReadCount(ns[1..], id);
      assert MarkAsRead(true, ns, id)[1..] == MarkAsRead(true, ns[1..], id);
    }
  }

  /** A notification added at the end counts once when unread. */
  lemma {:induction false} UnreadCountAppend(ns: seq<Notification>, n: Notification)
    ensures UnreadCount(ns + [n]) == UnreadCount(ns) + (if n.read then 0 else 1)
  {
    if ns != [] {
      UnreadCountAppend(ns[1..], n);
      assert (ns + [n])[1..] == ns[1..] + [n];
    }
  }

  /** How many unread notifications carry `id`. */
  function UnreadWithId(ns: seq<Notification>, id: string): nat {
    if ns == [] then 0 else (if !ns[0].read && ns[0].id == id then 1 else 0) + UnreadWithId(ns[1..], id)
  }
}
