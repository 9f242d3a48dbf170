/** `createNotification` of src/services/notificationService.js: the checks
    before a notification is written and the record written. The two user
    document reads and the write are parameters. */
module NotificationService {
  import opened Common
  import opened Notifications

  /** The caller's arguments; any of them may be missing. */
  datatype Request = Request(
    userId: Option<string>, kind: string, title: string, message: string,
    link: Option<string>, relatedUserId: Option<string>, relatedPostId: Option<string>)

  /** The fields of the related user's document the service reads. */
  datatype RelatedUser = RelatedUser(displayName: Option<string>, photoURL: Option<string>)

  /** The record passed to `addDoc` (the creation time is left out). */
  datatype Record = Record(
    userId: string, kind: string, title: string, message: string,
    link: Option<string>, relatedUserId: Option<string>, relatedUserName: Option<string>,
    relatedUserPhotoURL: Option<string>, relatedPostId: Option<string>, read: bool)

  /** The service's answer: `{ success: true }` or `{ success: false, error }`. */
  datatype Reply = Created | Failed(error: string)

  const MissingUserId: string := "Missing userId"
  const UserNotFound: string := "User not found"

  /** JavaScript's `s || null`. */
  function OrNull(s: Option<string>): (r: Option<string>)
    ensures r.Some? <==> Truthy(s)
    ensures r.Some? ==> r == s
  {
    if Truthy(s) then s else None
  }

  /** The related user's name and photo (notificationService.js:13-27):
      `related` is the document (None when it does not exist) or the
      message its read failed with, which is ignored. */
  function RelatedFields(relatedUserId: Option<string>, related: Result<Option<RelatedUser>, string>): (r: (Option<string>, Option<string>))
    ensures r.0.Some? <==> Truthy(relatedUserId) && related.Success? && related.value.Some?
    ensures r.0.Some? ==> r.0.value == OrElse(related.value.value.displayName, DefaultUserName)
    ensures r.1.Some? ==>
      Truthy(relatedUserId) && related.Success? && related.value.Some?
      && r.1 == related.value.value.photoURL && r.1.value != ""
  {
    if Truthy(relatedUserId) && related.Success? && related.value.Some? then
      var u := related.value.value;
      (Some(OrElse(u.displayName, DefaultUserName)), OrNull(u.photoURL))
    else (None, None)
  }

  /** `createNotification(request)`: `recipient` says whether the recipient's
      document exists (or the message its read failed with), `related` is the
      related user read, `writeError` the message the write failed with, if
      it failed. The result pairs the record written, if any, with the reply. */
  function CreateNotification(req: Request, recipient: Result<bool, string>,
                              related: Result<Option<RelatedUser>, string>,
                              writeError: Option<string>): (r: (Option<Record>, Reply))
    ensures !Truthy(req.userId) ==> r == (None, Failed(MissingUserId))
    ensures Truthy(req.userId) && recipient.Failure? ==> r == (None, Failed(recipient.error))
    ensures Truthy(req.userId) && recipient == Success(false) ==> r == (None, Failed(UserNotFound))
    ensures r.0.Some? <==> Truthy(req.userId) && recipient == Success(true)
    ensures r.0.Some? ==> r.1 == (if writeError.Some? then Failed(writeError.value) else Created)
  {
    if !Truthy(req.userId) then (None, Failed(MissingUserId))
    else match recipient
      case Failure(m) => (None, Failed(m))
      case Success(found) =>
        if !found then (None, Failed(UserNotFound))
        else
          var fields := RelatedFields(req.relatedUserId, related);
          var rec := Record(req.userId.value, req.kind, req.title, req.message,
                            OrNull(req.link), OrNull(req.relatedUserId), fields.0, fields.1,
                            OrNull(req.relatedPostId), false);
          (Some(rec), if writeError.Some? then Failed(writeError.value) else Created)
  }

  /** The record holds the request's fields: missing or empty optional
      fields are stored as null, the recipient is the request's, and it is
      unread. */
  lemma RecordFields(req: Request, related: Result<Option<RelatedUser>, string>, writeError: Option<string>)
    requires Truthy(req.userId)
    ensures var rec := CreateNotification(req, Success(true), related, writeError).0.value;
            && rec.userId == req.userId.value && !rec.read
            && rec.kind == req.kind && rec.title == req.title && rec.message == req.message
            && rec.link == OrNull(req.link) && rec.relatedUserId == OrNull(req.relatedUserId)
            && rec.relatedPostId == OrNull(req.relatedPostId)
            && (rec.relatedUserName.Some? ==> rec.relatedUserId.Some?)
  {
  }

  /** The notification a stored record becomes once it has an id. */
  function Stored(rec: Record, id: string): (n: Notification)
    ensures n.id == id && n.userId == rec.userId && n.read == rec.read
  {
    Notification(id, rec.userId, rec.kind, rec.title, rec.message, rec.link,
                 rec.relatedUserId, rec.relatedPostId, rec.relatedUserName, rec.read)
  }

  /** A created notification raises its recipient's unread count by one. */
  lemma {:induction false} CreatedRaisesUnread(req: Request, related: Result<Option<RelatedUser>, string>,
                                               ns: seq<Notification>, id: string)
    requires Truthy(req.userId)
    ensures var rec := CreateNotification(req, Success(true), related, None).0.value;
            UnreadCount(ns + [Stored(rec, id)]) == UnreadCount(ns) + 1
  {
    var rec := CreateNotification(req, Success(true), related, None).0.value;
    UnreadCountAppend(ns, Stored(rec, id));
  }
}
