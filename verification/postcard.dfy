/** The like button and delete confirmation of
    src/components/posts/PostCard.jsx: the optimistic like toggle with its
    rollback, and the owner guard on deleting a post. A like click is split
    at its `await`: `Click` runs up to the call of `onLike`, `Settle` runs
    once that call has answered. */
module PostCard {
  import opened Common
  import opened Posts

  const LikeErrorDefault: string := "Có lỗi xảy ra khi thích bài viết"
  const DeleteErrorDefault: string := "Có lỗi xảy ra khi xóa bài viết"

  /** `post.likes?.includes(uid) || false` and `post.likes?.length || 0`
      (PostCard.jsx:31-34). */
  function InitialLike(likes: Option<seq<string>>, uid: Option<string>): (r: (bool, int))
    ensures likes.None? ==> r == (false, 0)
    ensures likes.Some? ==> r.1 == |likes.value| && (r.0 <==> uid.Some? && uid.value in likes.value)
  {
    if likes.None? then (false, 0)
    else (uid.Some? && uid.value in likes.value, |likes.value|)
  }

  /** The count the rollback writes as the code stands (PostCard.jsx:54, 60):
      `newIsLiked ? likeCount : likeCount + 1` with the pre-click count. */
  function RollbackCountAsWritten(wasLiked: bool, count: int): int {
    if !wasLiked then count else count + 1
  }

  /** A failed unlike leaves the count one above its value before the click:
      a post liked once by its viewer shows 1, the click shows 0, and after
      the failure the heart is filled again next to a count of 2. */
  lemma {:induction false} FailedUnlikeOvercounts(count: int)
    ensures RollbackCountAsWritten(true, count) == count + 1
    ensures RollbackCountAsWritten(true, count) != count
    ensures RollbackCountAsWritten(false, count) == count
  {
  }

  /** How the `onLike` call ended: there is no handler, it answered, or it threw. */
  datatype LikeOutcome = NoHandler | Answered(success: bool, error: Option<string>) | Threw

  predicate Failed(o: LikeOutcome) {
    (o.Answered? && !o.success) || o.Threw?
  }

  /** The optimistic count shown while a click is in flight. */
  function Optimistic(wasLiked: bool, count: int): (r: int)
    ensures r == count + 1 || r == count - 1
    ensures wasLiked <==> r < count
  {
    if !wasLiked then count + 1 else count - 1
  }

  /** When the user's id is in the likes list at most once, the optimistic
      count is the length of the list `likePost` writes for the same click. */
  lemma {:induction false} OptimisticMatchesServer(likes: seq<string>, uid: string)
    requires Count(likes, uid) <= 1
    ensures Optimistic(uid in likes, |likes|) == |UpdatedLikes(likes, uid, uid in likes)|
  {
    CountZeroIffAbsent(likes, uid);
    if uid in likes {
      RemoveAllLength(likes, uid);
    }
  }

  /** After `likePost` has written the toggled list, a card built from the
      new post shows what the click showed optimistically: the heart flipped
      and the count one up or down. */
  lemma {:induction false} InitialLikeAfterToggle(likes: seq<string>, uid: string)
    requires Count(likes, uid) <= 1
    ensures var after := InitialLike(Some(UpdatedLikes(likes, uid, uid in likes)), Some(uid));
            && after.0 == !(uid in likes)
            && after.1 == Optimistic(uid in likes, InitialLike(Some(likes), Some(uid)).1)
  {
    OptimisticMatchesServer(likes, uid);
  }

  class LikeButton {
    var isLiked: bool
    var likeCount: int
    /** A like call is in flight. */
    var liking: bool
    var showLikeAlert: bool
    var likeError: Option<string>
    /** The `isLiked` and `likeCount` the in-flight call's closure captured. */
    var pendingWasLiked: bool
    var pendingCount: int

    /** While a call is in flight, the shown state is the optimistic flip of
        the captured one. */
    ghost predicate Valid()
      reads this
    {
      liking ==> isLiked == !pendingWasLiked && likeCount == Optimistic(pendingWasLiked, pendingCount)
    }

    constructor(likes: Option<seq<string>>, uid: Option<string>)
      ensures Valid() && !liking && !showLikeAlert && likeError.None?
      ensures (isLiked, likeCount) == InitialLike(likes, uid)
    {
      var init := InitialLike(likes, uid);
      isLiked, likeCount := init.0, init.1;
      liking, showLikeAlert, likeError := false, false, None;
      pendingWasLiked, pendingCount := false, 0;
    }

    /** `handleLike` up to its `await` (PostCard.jsx:36-51): the request it
        makes is the pre-click `isLiked`, or none. */
    method Click(signedIn: bool) returns (request: Option<bool>)
      requires Valid()
      modifies this
      ensures Valid()
      ensures !signedIn ==>
        request.None? && showLikeAlert && isLiked == old(isLiked) && likeCount == old(likeCount) && liking == old(liking)
      ensures signedIn && old(liking) ==> request.None? && unchanged(this)
      ensures signedIn && !old(liking) ==>
        && request == Some(old(isLiked)) && liking
        && isLiked == !old(isLiked) && likeCount == Optimistic(old(isLiked), old(likeCount))
        && pendingWasLiked == old(isLiked) && pendingCount == old(likeCount)
    {
      if !signedIn {
        showLikeAlert := true;
        return None;
      }
      if liking {
        return None;
      }
      liking := true;
      pendingWasLiked, pendingCount := isLiked, likeCount;
      var newIsLiked := !isLiked;
      isLiked := newIsLiked;
      likeCount := if newIsLiked then likeCount + 1 else likeCount - 1;
      request := Some(pendingWasLiked);
    }

    /** `handleLike` after its `await` (PostCard.jsx:51-63), with the
        intended rollback: a failure restores the state before the click. */
    method Settle(outcome: LikeOutcome)
      requires Valid() && liking
      modifies this
      ensures Valid() && !liking
      ensures Failed(outcome) ==> isLiked == old(pendingWasLiked) && likeCount == old(pendingCount)
      ensures !Failed(outcome) ==> isLiked == old(isLiked) && likeCount == old(likeCount)
      ensures outcome.Answered? && !outcome.success ==>
        likeError == Some(if Truthy(outcome.error) then outcome.error.value else LikeErrorDefault)
      ensures !(outcome.Answered? && !outcome.success) ==> likeError == old(likeError)
    {
      match outcome {
        case Answered(success, error) =>
          if !success {
            isLiked := pendingWasLiked;
            likeCount := pendingCount;
            likeError := Some(OrElse(error, LikeErrorDefault));
          }
        case Threw =>
          isLiked := pendingWasLiked;
          likeCount := pendingCount;
        case NoHandler =>
      }
      liking := false;
    }
  }

  /** What the delete confirmation did. */
  datatype DeleteOutcome = NotOwner | Deleted | DeleteFailed(message: string)

  /** `confirmDelete` (PostCard.jsx:71-88): only the post's owner reaches the
      delete; `error` is the failure of `deleteDoc`, if any, with its message. */
  function ConfirmDelete(uid: Option<string>, owner: string, error: Option<Option<string>>): (r: DeleteOutcome)
    ensures r.NotOwner? <==> uid != Some(owner)
    ensures r.Deleted? <==> uid == Some(owner) && error.None?
    ensures r.DeleteFailed? ==> r.message == OrElse(error.value, DeleteErrorDefault) && r.message != ""
  {
    if uid.None? || uid.value != owner then NotOwner
    else if error.None? then Deleted
    else DeleteFailed(OrElse(error.value, DeleteErrorDefault))
  }
}
