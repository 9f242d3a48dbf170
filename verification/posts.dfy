/** The read-compute-write steps of src/hooks/usePosts.js: liking a post,
    adding a comment or a reply, reacting to a comment and deleting a comment
    with its replies. Each operation takes the document it read (or `None` when
    it does not exist) and returns what it writes back, or the error it reports. */
module Posts {
  import opened Common

  /** emoji -> user ids that reacted with it. */
  type Reactions = map<string, seq<string>>

  datatype Comment = Comment(
    id: string, userId: string, userName: string, userPhotoURL: string,
    text: string, createdAt: string, reactions: Reactions,
    replyTo: Option<string>, level: nat)

  datatype Post = Post(
    id: string, userId: string, likes: seq<string>,
    comments: seq<Comment>, commentCount: int)

  datatype PostError =
    | NotSignedIn | EmptyComment | PostNotFound | CommentNotFound | TooDeep | NotAuthor
  {
    /** The message the hook returns for this error. */
    function Message(): string {
      match this
      case NotSignedIn => "Bạn cần đăng nhập"
      case EmptyComment => "Vui lòng nhập bình luận"
      case PostNotFound => "Bài viết không tồn tại"
      case CommentNotFound => "Bình luận không tồn tại"
      case TooDeep => "Không thể trả lời quá 3 tầng"
      case NotAuthor => "Bạn không có quyền xóa bình luận này"
    }
  }

  /** Deepest reply level a comment may have. */
  const MaxReplyLevel: nat := 2

  function AuthorName(u: Session): string {
    OrElse(u.profileName, OrElse(u.authName, DefaultUserName))
  }

  function AuthorPhoto(u: Session): string {
    OrElse(u.profilePhoto, OrElse(u.authPhoto, ""))
  }

  // ---------------------------------------------------------------- likes

  /** The likes list `likePost` writes (src/hooks/usePosts.js:143-148). */
  function UpdatedLikes(likes: seq<string>, uid: string, isLiked: bool): (r: seq<string>)
    ensures isLiked ==> uid !in r && forall v :: v != uid ==> Count(r, v) == Count(likes, v)
    ensures !isLiked ==> |r| == |likes| + 1 && r[..|likes|] == likes && r[|likes|] == uid
  {
    if isLiked then
      RemoveAllKeepsOthers(likes, uid);
      RemoveAll(likes, uid)
    else likes + [uid]
  }

  /** Liking appends without a duplicate check, so a second like adds a second copy. */
  lemma {:induction false} LikeCountsCopies(likes: seq<string>, uid: string)
    ensures Count(UpdatedLikes(likes, uid, false), uid) == Count(likes, uid) + 1
  {
    CountAppend(likes, [uid], uid);
  }

  /** Unliking after a like leaves no copy of the user, whatever was there before. */
  lemma {:induction false} LikeThenUnlike(likes: seq<string>, uid: string)
    ensures UpdatedLikes(UpdatedLikes(likes, uid, false), uid, true) == RemoveAll(likes, uid)
  {
    RemoveAllAppended(likes, uid);
  }

  lemma {:induction false} RemoveAllAppended(s: seq<string>, uid: string)
    ensures RemoveAll(s + [uid], uid) == RemoveAll(s, uid)
  {
    if s == [] {
      assert s + [uid] == [uid];
      assert [uid][1..] == [];
    } else {
      assert (s + [uid])[1..] == s[1..] + [uid];
      RemoveAllAppended(s[1..], uid);
    }
  }

  datatype LikeWrite = LikeWrite(likes: seq<string>, notifyOwner: bool)

  /** `likePost(postId, isLiked)` (src/hooks/usePosts.js:129-173). */
  function LikePost(user: Option<Session>, post: Option<Post>, isLiked: bool): (r: Result<LikeWrite, PostError>)
    ensures user.None? ==> r == Failure(NotSignedIn)
    ensures user.Some? && post.None? ==> r == Failure(PostNotFound)
    ensures user.Some? && post.Some? ==>
      r.Success?
      && r.value.likes == UpdatedLikes(post.value.likes, user.value.uid, isLiked)
      && (r.value.notifyOwner <==> !isLiked && post.value.userId != user.value.uid)
  {
    if user.None? then Failure(NotSignedIn)
    else if post.None? then Failure(PostNotFound)
    else
      var uid := user.value.uid;
      Success(LikeWrite(UpdatedLikes(post.value.likes, uid, isLiked), !isLiked && post.value.userId != uid))
  }

  // ------------------------------------------------------------- comments

  /** `comments.findIndex(c => c.id === id)`; `find` returns the comment at that index. */
  function FindIndex(cs: seq<Comment>, id: string): (r: Option<nat>)
    ensures r.None? <==> forall j :: 0 <= j < |cs| ==> cs[j].id != id
    ensures r.Some? ==> r.value < |cs| && cs[r.value].id == id
                        && forall j :: 0 <= j < r.value ==> cs[j].id != id
  {
    if cs == [] then None
    else if cs[0].id == id then Some(0)
    else match FindIndex(cs[1..], id)
      case None => None
      case Some(k) => Some(k + 1)
  }

  /** Comment ids are pairwise distinct. */
  predicate UniqueIds(cs: seq<Comment>) {
    forall i, j :: 0 <= i < |cs| && 0 <= j < |cs| && cs[i].id == cs[j].id ==> i == j
  }

  /** A reply sits strictly deeper than every comment carrying its parent's id.
      This is what makes the reply graph acyclic, so that the recursive reply
      walks of deleteComment and of the comment view terminate. */
  predicate ParentBelow(cs: seq<Comment>) {
    forall i, j :: 0 <= i < |cs| && 0 <= j < |cs| && cs[i].replyTo == Some(cs[j].id) ==> cs[j].level < cs[i].level
  }

  /** At most one emoji per user, no empty list, no user twice in one list. */
  predicate ReactionsOk(rs: Reactions) {
    && (forall e :: e in rs ==> rs[e] != [] && NoDup(rs[e]))
    && (forall e1, e2, u :: e1 in rs && e2 in rs && u in rs[e1] && u in rs[e2] ==> e1 == e2)
  }

  /** Stored levels count reply layers: a comment without a parent id is at
      level 0, and a reply sits exactly one level below its parent. */
  predicate LevelsExact(cs: seq<Comment>) {
    && (forall i :: 0 <= i < |cs| && !Truthy(cs[i].replyTo) ==> cs[i].level == 0)
    && (forall i, j :: 0 <= i < |cs| && 0 <= j < |cs| && cs[i].replyTo == Some(cs[j].id) ==> cs[i].level == cs[j].level + 1)
  }

  /** What every comment list written by this hook satisfies. */
  predicate ThreadInvariant(cs: seq<Comment>) {
    && (forall i :: 0 <= i < |cs| ==> cs[i].id != "")
    && UniqueIds(cs)
    && ParentBelow(cs)
    && LevelsExact(cs)
    && (forall i :: 0 <= i < |cs| ==> cs[i].level <= MaxReplyLevel)
    && (forall i :: 0 <= i < |cs| ==> ReactionsOk(cs[i].reactions))
  }

  /** A freshly generated id is non-empty, used by no comment and no comment's parent. */
  predicate FreshId(cs: seq<Comment>, id: string) {
    id != "" && forall i :: 0 <= i < |cs| ==> cs[i].id != id && cs[i].replyTo != Some(id)
  }

  datatype CommentWrite = CommentWrite(post: Post, notify: Option<string>)

  /** The level `addComment` gives a new comment, or TooDeep
      (src/hooks/usePosts.js:190-199): an unknown parent leaves it at level 0. */
  function AddLevel(cs: seq<Comment>, replyTo: Option<string>): (r: Result<nat, PostError>)
    ensures r.Failure? ==> r.error == TooDeep
    ensures !Truthy(replyTo) ==> r == Success(0)
    ensures Truthy(replyTo) && FindIndex(cs, replyTo.value).None? ==> r == Success(0)
    ensures Truthy(replyTo) && FindIndex(cs, replyTo.value).Some? ==>
      var parent := cs[FindIndex(cs, replyTo.value).value];
      (r.Success? <==> parent.level + 1 <= MaxReplyLevel)
      && (r.Success? ==> r.value == parent.level + 1)
  {
    if !Truthy(replyTo) then Success(0)
    else match FindIndex(cs, replyTo.value)
      case None => Success(0)
      case Some(k) =>
        var level := cs[k].level + 1;
        if level > MaxReplyLevel then Failure(TooDeep) else Success(level)
  }

  /** `addComment(postId, commentText, replyTo)` (src/hooks/usePosts.js:175-237).
      `newId` and `now` stand for the generated id and the creation time. */
  function AddComment(user: Option<Session>, post: Option<Post>, commentText: string,
                      replyTo: Option<string>, newId: string, now: string): (r: Result<CommentWrite, PostError>)
    ensures user.None? ==> r == Failure(NotSignedIn)
    ensures user.Some? && IsBlank(commentText) ==> r == Failure(EmptyComment)
    ensures user.Some? && !IsBlank(commentText) && post.None? ==> r == Failure(PostNotFound)
    ensures r.Success? ==>
      user.Some? && post.Some? && AddLevel(post.value.comments, replyTo).Success?
      && |r.value.post.comments| == |post.value.comments| + 1
      && var old_ := post.value;
         var c := r.value.post.comments[|old_.comments|];
         && r.value.post == old_.(comments := old_.comments + [c], commentCount := old_.commentCount + 1)
         && c.id == newId && c.userId == user.value.uid && c.text == Trim(commentText)
         && c.reactions == map[] && c.level == AddLevel(old_.comments, replyTo).value
         && c.replyTo == (if Truthy(replyTo) then replyTo else None)
         && (r.value.notify == if old_.userId != user.value.uid && !Truthy(replyTo) then Some(old_.userId) else None)
    ensures user.Some? && !IsBlank(commentText) && post.Some? ==>
      (r.Failure? <==> AddLevel(post.value.comments, replyTo).Failure?)
  {
    if user.None? then Failure(NotSignedIn)
    else if IsBlank(commentText) then Failure(EmptyComment)
    else if post.None? then Failure(PostNotFound)
    else
      var u := user.value;
      var p := post.value;
      match AddLevel(p.comments, replyTo)
      case Failure(e) => Failure(e)
      case Success(level) =>
        var c := Comment(newId, u.uid, AuthorName(u), AuthorPhoto(u), Trim(commentText), now, map[],
                         if Truthy(replyTo) then replyTo else None, level);
        var notify := if p.userId != u.uid && !Truthy(replyTo) then Some(p.userId) else None;
        Success(CommentWrite(p.(comments := p.comments + [c], commentCount := p.commentCount + 1), notify))
  }

  /** `replyComment(postId, parentCommentId, replyText, replyToUserId, replyToUserName)`
      (src/hooks/usePosts.js:239-300). Unlike `addComment`, an unknown parent is an error. */
  function ReplyComment(user: Option<Session>, post: Option<Post>, parentId: string, replyText: string,
                        replyToUserId: string, replyToUserName: string,
                        newId: string, now: string): (r: Result<CommentWrite, PostError>)
    ensures user.None? ==> r == Failure(NotSignedIn)
    ensures user.Some? && IsBlank(replyText) ==> r == Failure(EmptyComment)
    ensures user.Some? && !IsBlank(replyText) && post.None? ==> r == Failure(PostNotFound)
    ensures user.Some? && !IsBlank(replyText) && post.Some? ==>
      match FindIndex(post.value.comments, parentId)
      case None => r == Failure(CommentNotFound)
      case Some(k) =>
        var parent := post.value.comments[k];
        (parent.level + 1 > MaxReplyLevel ==> r == Failure(TooDeep))
        && (parent.level + 1 <= MaxReplyLevel ==> r.Success?)
    ensures r.Success? ==>
      user.Some? && post.Some? && FindIndex(post.value.comments, parentId).Some?
      && |r.value.post.comments| == |post.value.comments| + 1
      && var old_ := post.value;
         var parent := old_.comments[FindIndex(old_.comments, parentId).value];
         var c := r.value.post.comments[|old_.comments|];
         && r.value.post == old_.(comments := old_.comments + [c], commentCount := old_.commentCount + 1)
         && c.id == newId && c.userId == user.value.uid && c.reactions == map[]
         && c.replyTo == Some(parentId) && c.level == parent.level + 1 <= MaxReplyLevel
         && c.text == "@" + replyToUserName + " " + Trim(replyText)
         && (r.value.notify == if replyToUserId != user.value.uid then Some(replyToUserId) else None)
  {
    if user.None? then Failure(NotSignedIn)
    else if IsBlank(replyText) then Failure(EmptyComment)
    else if post.None? then Failure(PostNotFound)
    else
      var u := user.value;
      var p := post.value;
      match FindIndex(p.comments, parentId)
      case None => Failure(CommentNotFound)
      case Some(k) =>
        var level := p.comments[k].level + 1;
        if level > MaxReplyLevel then Failure(TooDeep)
        else
          var c := Comment(newId, u.uid, AuthorName(u), AuthorPhoto(u),
                           "@" + replyToUserName + " " + Trim(replyText), now, map[], Some(parentId), level);
          var notify := if replyToUserId != u.uid then Some(replyToUserId) else None;
          Success(CommentWrite(p.(comments := p.comments + [c], commentCount := p.commentCount + 1), notify))
  }

  lemma {:induction false} AppendKeepsInvariant(cs: seq<Comment>, c: Comment)
    requires ThreadInvariant(cs) && FreshId(cs, c.id) && c.replyTo != Some(c.id)
    requires c.level <= MaxReplyLevel && ReactionsOk(c.reactions)
    requires !Truthy(c.replyTo) ==> c.level == 0
    requires c.replyTo.Some? && FindIndex(cs, c.replyTo.value).Some? ==>
               cs[FindIndex(cs, c.replyTo.value).value].level + 1 == c.level
    ensures ThreadInvariant(cs + [c])
  {
    var ds := cs + [c];
    forall i, j | 0 <= i < |ds| && 0 <= j < |ds| && ds[i].replyTo == Some(ds[j].id)
      ensures ds[j].level + 1 == ds[i].level
    {
      if i == |cs| && j < |cs| {
        var k := FindIndex(cs, c.replyTo.value).value;
        assert cs[k].id == cs[j].id;
      }
    }
  }

  /** New comments and replies keep the thread invariant, given a fresh id. */
  lemma {:induction false} AddCommentKeepsInvariant(user: Option<Session>, post: Option<Post>, commentText: string,
                                                    replyTo: Option<string>, newId: string, now: string)
    requires post.Some? && ThreadInvariant(post.value.comments) && FreshId(post.value.comments, newId)
    requires replyTo != Some(newId)
    ensures var r := AddComment(user, post, commentText, replyTo, newId, now);
            r.Success? ==> ThreadInvariant(r.value.post.comments)
  {
    var r := AddComment(user, post, commentText, replyTo, newId, now);
    if r.Success? {
      var cs := post.value.comments;
      var c := r.value.post.comments[|cs|];
      assert r.value.post.comments == cs + [c];
      AppendKeepsInvariant(cs, c);
    }
  }

  lemma {:induction false} ReplyCommentKeepsInvariant(user: Option<Session>, post: Option<Post>, parentId: string,
                                                      replyText: string, replyToUserId: string,
                                                      replyToUserName: string, newId: string, now: string)
    requires post.Some? && ThreadInvariant(post.value.comments) && FreshId(post.value.comments, newId)
    ensures var r := ReplyComment(user, post, parentId, replyText, replyToUserId, replyToUserName, newId, now);
            r.Success? ==> ThreadInvariant(r.value.post.comments)
  {
    var r := ReplyComment(user, post, parentId, replyText, replyToUserId, replyToUserName, newId, now);
    if r.Success? {
      var cs := post.value.comments;
      var c := r.value.post.comments[|cs|];
      assert r.value.post.comments == cs + [c];
      var k := FindIndex(cs, parentId).value;
      assert cs[k].id == parentId;
      AppendKeepsInvariant(cs, c);
    }
  }

  // ------------------------------------------------------------ reactions

  /** Every list loses its first copy of `uid`; a list left empty is dropped
      (the `forEach` over the keys, src/hooks/usePosts.js:337-345). */
  function Stripped(rs: Reactions, uid: string): Reactions {
    map k | k in rs && !(uid in rs[k] && RemoveFirst(rs[k], uid) == [])
      :: if uid in rs[k] then RemoveFirst(rs[k], uid) else rs[k]
  }

  /** The reactions of a comment after `uid` reacts with `emoji`
      (src/hooks/usePosts.js:322-347). */
  function ToggledReactions(rs: Reactions, emoji: string, uid: string): Reactions {
    var own := if emoji in rs then rs[emoji] else [];
    if uid in own then
      var rest := RemoveFirst(own, uid);
      if rest == [] then rs - {emoji} else rs[emoji := rest]
    else
      Stripped(rs, uid)[emoji := own + [uid]]
  }

  /** The in-place update `reactToComment` performs on the fetched reactions
      object (src/hooks/usePosts.js:322-347). */
  method ToggleReaction(reactions: Reactions, emoji: string, uid: string) returns (rs: Reactions)
    ensures rs == ToggledReactions(reactions, emoji, uid)
  {
    rs := reactions;
    if emoji !in rs {
      rs := rs[emoji := []];
    }
    ghost var base := rs;
    var userIds := rs[emoji];
    if uid in userIds {
      userIds := RemoveFirst(userIds, uid);
      if userIds == [] {
        rs := rs - {emoji};
      } else {
        rs := rs[emoji := userIds];
      }
    } else {
      var keys := rs.Keys;
      while keys != {}
        invariant keys <= base.Keys
        invariant forall k :: k in keys ==> k in rs && rs[k] == base[k]
        invariant forall k :: k in rs <==>
          k in base && (k in keys || !(uid in base[k] && RemoveFirst(base[k], uid) == []))
        invariant forall k :: k in rs && k !in keys ==>
          rs[k] == if uid in base[k] then RemoveFirst(base[k], uid) else base[k]
        decreases keys
      {
        var k :| k in keys;
        if uid in rs[k] {
          var rest := RemoveFirst(rs[k], uid);
          if rest == [] {
            rs := rs - {k};
          } else {
            rs := rs[k := rest];
          }
        }
        keys := keys - {k};
      }
      assert rs == Stripped(base, uid);
      rs := rs[emoji := userIds + [uid]];
      assert emoji !in reactions ==> Stripped(base, uid)[emoji := [uid]] == Stripped(reactions, uid)[emoji := [uid]];
    }
  }

  /** Reacting is a toggle: afterwards the user holds `emoji` exactly when they did not before. */
  lemma {:induction false} ReactionIsToggle(rs: Reactions, emoji: string, uid: string)
    requires ReactionsOk(rs)
    ensures var r := ToggledReactions(rs, emoji, uid);
            (emoji in r && uid in r[emoji]) <==> !(emoji in rs && uid in rs[emoji])
  {
    if emoji in rs && uid in rs[emoji] {
      RemoveFirstOfNoDup(rs[emoji], uid);
    }
  }

  /** Reacting keeps at most one emoji per user, non-empty lists and no duplicates. */
  lemma {:induction false} ToggleKeepsReactionsOk(rs: Reactions, emoji: string, uid: string)
    requires ReactionsOk(rs)
    ensures ReactionsOk(ToggledReactions(rs, emoji, uid))
  {
    var r := ToggledReactions(rs, emoji, uid);
    var own := if emoji in rs then rs[emoji] else [];
    if uid in own {
      RemoveFirstOfNoDup(own, uid);
    } else {
      var s := Stripped(rs, uid);
      forall k | k in s ensures s[k] != [] && NoDup(s[k]) && uid !in s[k] {
        if uid in rs[k] {
          RemoveFirstOfNoDup(rs[k], uid);
        }
      }
      assert emoji in rs ==> NoDup(own);
      assert NoDup(own + [uid]);
      forall e, u | e in r && u in r[e]
        ensures (e == emoji && (u == uid || u in own)) || (e != emoji && e in rs && u in rs[e] && u != uid)
      {
      }
    }
  }

  /** Reacting with a new emoji moves the user off the emoji they held before. */
  lemma {:induction false} ReactionSwitchesEmoji(rs: Reactions, held: string, emoji: string, uid: string)
    requires ReactionsOk(rs) && held in rs && uid in rs[held] && held != emoji
    ensures var r := ToggledReactions(rs, emoji, uid);
            && emoji in r && uid in r[emoji]
            && (forall e :: e in r && e != emoji ==> uid !in r[e])
            && (held in r <==> rs[held] != [uid])
  {
    var r := ToggledReactions(rs, emoji, uid);
    assert !(emoji in rs && uid in rs[emoji]);
    forall e | e in r && e != emoji ensures uid !in r[e] {
      RemoveFirstOfNoDup(rs[e], uid);
    }
    assert |RemoveFirst(rs[held], uid)| == |rs[held]| - 1;
    assert rs[held] == [uid] <==> |rs[held]| == 1 by {
      if |rs[held]| == 1 {
        assert rs[held][0] == uid;
      }
    }
  }

  /** Other users' reactions are left exactly as they were. */
  lemma {:induction false} ToggleKeepsOtherUsers(rs: Reactions, emoji: string, uid: string, v: string, e: string)
    requires v != uid
    ensures var r := ToggledReactions(rs, emoji, uid);
            (e in r && v in r[e]) <==> (e in rs && v in rs[e])
  {
    var own := if emoji in rs then rs[emoji] else [];
    if e in rs && uid in rs[e] && v in rs[e] {
      assert v in RemoveFirst(rs[e], uid);
    }
  }

  /** Reacting twice with the same emoji restores the reactions of a user who had none. */
  lemma {:induction false} ReactTwiceRestores(rs: Reactions, emoji: string, uid: string)
    requires ReactionsOk(rs) && forall e :: e in rs ==> uid !in rs[e]
    ensures ToggledReactions(ToggledReactions(rs, emoji, uid), emoji, uid) == rs
  {
    var own := if emoji in rs then rs[emoji] else [];
    assert uid !in own;
    var r1 := ToggledReactions(rs, emoji, uid);
    StrippedWithoutUser(rs, uid);
    assert r1 == rs[emoji := own + [uid]];
    assert r1[emoji] == own + [uid] && uid in r1[emoji];
    RemoveFirstAppend(own, uid);
    var r2 := ToggledReactions(r1, emoji, uid);
    if own == [] {
      assert emoji !in rs;
      assert r2 == r1 - {emoji};
    } else {
      assert r2 == r1[emoji := own];
      assert rs[emoji] == own;
    }
  }

  /** A user holding no reaction is stripped from nothing. */
  lemma StrippedWithoutUser(rs: Reactions, uid: string)
    requires forall e :: e in rs ==> uid !in rs[e]
    ensures Stripped(rs, uid) == rs
  {
  }

  /** `reactToComment(postId, commentId, emoji)` (src/hooks/usePosts.js:302-364):
      only the first comment with that id changes, and only its reactions. */
  method ReactToComment(user: Option<Session>, post: Option<Post>, commentId: string, emoji: string)
    returns (r: Result<seq<Comment>, PostError>)
    ensures user.None? ==> r == Failure(NotSignedIn)
    ensures user.Some? && post.None? ==> r == Failure(PostNotFound)
    ensures user.Some? && post.Some? ==>
      var cs := post.value.comments;
      match FindIndex(cs, commentId)
      case None => r == Failure(CommentNotFound)
      case Some(k) =>
        && r.Success? && |r.value| == |cs|
        && r.value[k] == cs[k].(reactions := ToggledReactions(cs[k].reactions, emoji, user.value.uid))
        && forall j :: 0 <= j < |cs| && j != k ==> r.value[j] == cs[j]
  {
    if user.None? {
      return Failure(NotSignedIn);
    }
    if post.None? {
      return Failure(PostNotFound);
    }
    var cs := post.value.comments;
    var idx := FindIndex(cs, commentId);
    if idx.None? {
      return Failure(CommentNotFound);
    }
    var k := idx.value;
    var reactions := ToggleReaction(cs[k].reactions, emoji, user.value.uid);
    r := Success(cs[k := cs[k].(reactions := reactions)]);
  }

  lemma {:induction false} ReactKeepsInvariant(cs: seq<Comment>, k: nat, emoji: string, uid: string)
    requires ThreadInvariant(cs) && k < |cs|
    ensures ThreadInvariant(cs[k := cs[k].(reactions := ToggledReactions(cs[k].reactions, emoji, uid))])
  {
    ToggleKeepsReactionsOk(cs[k].reactions, emoji, uid);
  }

  // ------------------------------------------------------------- deletion

  function MaxLevel(cs: seq<Comment>): (m: nat)
    ensures forall i :: 0 <= i < |cs| ==> cs[i].level <= m
  {
    if cs == [] then 0
    else var m := MaxLevel(cs[1..]); if cs[0].level > m then cs[0].level else m
  }

  /** The ids `findReplies(cs[p].id)` pushes when it scans the comments from
      index `i` on: each direct reply, followed by everything found below it
      (src/hooks/usePosts.js:391-398). */
  function Replies(cs: seq<Comment>, p: nat, i: nat): seq<string>
    requires ParentBelow(cs) && p < |cs| && i <= |cs|
    decreases MaxLevel(cs) - cs[p].level, |cs| - i
  {
    if i == |cs| then []
    else if cs[i].replyTo == Some(cs[p].id) then
      [cs[i].id] + Replies(cs, i, 0) + Replies(cs, p, i + 1)
    else Replies(cs, p, i + 1)
  }

  /** The recursive `findReplies` closure: appends to `toDelete` the ids of all
      replies below `cs[p]` (src/hooks/usePosts.js:391-398). */
  method FindReplies(cs: seq<Comment>, p: nat, toDelete: seq<string>) returns (out: seq<string>)
    requires ParentBelow(cs) && p < |cs|
    ensures out == toDelete + Replies(cs, p, 0)
    decreases MaxLevel(cs) - cs[p].level
  {
    out := toDelete;
    var i := 0;
    while i < |cs|
      invariant 0 <= i <= |cs|
      invariant out + Replies(cs, p, i) == toDelete + Replies(cs, p, 0)
    {
      if cs[i].replyTo == Some(cs[p].id) {
        out := out + [cs[i].id];
        out := FindReplies(cs, i, out);
      }
      i := i + 1;
    }
  }

  /** `comments.filter(c => !ids.includes(c.id))`. */
  function Survivors(cs: seq<Comment>, ids: seq<string>): (r: seq<Comment>)
    ensures |r| <= |cs|
    ensures forall c :: c in r <==> c in cs && c.id !in ids
  {
    if cs == [] then []
    else if cs[0].id in ids then Survivors(cs[1..], ids)
    else [cs[0]] + Survivors(cs[1..], ids)
  }

  /** Survivors keep their relative order: filtering a concatenation is the
      concatenation of the filtered parts. */
  lemma {:induction false} SurvivorsKeepOrder(a: seq<Comment>, b: seq<Comment>, ids: seq<string>)
    ensures Survivors(a + b, ids) == Survivors(a, ids) + Survivors(b, ids)
  {
    if a == [] {
      assert a + b == b;
    } else {
      assert (a + b)[1..] == a[1..] + b;
      SurvivorsKeepOrder(a[1..], b, ids);
    }
  }

  /** `cs[i]` hangs below a comment with id `rootId` through a chain of replyTo links. */
  predicate DescendsFrom(cs: seq<Comment>, i: nat, rootId: string)
    requires ParentBelow(cs) && i < |cs|
    decreases cs[i].level
  {
    match cs[i].replyTo
    case None => false
    case Some(p) =>
      p == rootId || exists j :: 0 <= j < |cs| && cs[j].id == p && DescendsFrom(cs, j, rootId)
  }

  /** Everything `findReplies` collects hangs below the root. */
  lemma {:induction false} RepliesDescend(cs: seq<Comment>, p: nat, i: nat, rootId: string, x: string)
    requires ParentBelow(cs) && p < |cs| && i <= |cs|
    requires cs[p].id == rootId || DescendsFrom(cs, p, rootId)
    requires x in Replies(cs, p, i)
    ensures exists k :: 0 <= k < |cs| && cs[k].id == x && DescendsFrom(cs, k, rootId)
    decreases MaxLevel(cs) - cs[p].level, |cs| - i
  {
    if cs[i].replyTo == Some(cs[p].id) {
      assert DescendsFrom(cs, i, rootId);
      if x == cs[i].id {
      } else if x in Replies(cs, i, 0) {
        RepliesDescend(cs, i, 0, rootId, x);
      } else {
        RepliesDescend(cs, p, i + 1, rootId, x);
      }
    } else {
      RepliesDescend(cs, p, i + 1, rootId, x);
    }
  }

  /** A direct reply found at or after index `i` is collected. */
  lemma {:induction false} DirectReplyFound(cs: seq<Comment>, p: nat, i: nat, k: nat)
    requires ParentBelow(cs) && p < |cs| && i <= k < |cs| && cs[k].replyTo == Some(cs[p].id)
    ensures cs[k].id in Replies(cs, p, i)
    decreases k - i
  {
    if i < k && cs[i].replyTo != Some(cs[p].id) {
      DirectReplyFound(cs, p, i + 1, k);
    } else if i < k {
      DirectReplyFound(cs, p, i + 1, k);
    }
  }

  /** Once a comment's id is collected, so is everything collected below it. */
  lemma {:induction false} SubtreeCollected(cs: seq<Comment>, p: nat, i: nat, j: nat, x: string)
    requires ParentBelow(cs) && UniqueIds(cs) && p < |cs| && i <= |cs| && j < |cs|
    requires cs[j].id in Replies(cs, p, i) && x in Replies(cs, j, 0)
    ensures x in Replies(cs, p, i)
    decreases MaxLevel(cs) - cs[p].level, |cs| - i
  {
    if cs[i].replyTo == Some(cs[p].id) {
      if cs[j].id == cs[i].id {
        assert j == i;
      } else if cs[j].id in Replies(cs, i, 0) {
        SubtreeCollected(cs, i, 0, j, x);
      } else {
        SubtreeCollected(cs, p, i + 1, j, x);
      }
    } else {
      SubtreeCollected(cs, p, i + 1, j, x);
    }
  }

  lemma {:induction false} DescendantsCollected(cs: seq<Comment>, r: nat, k: nat)
    requires ParentBelow(cs) && UniqueIds(cs) && r < |cs| && k < |cs|
    requires DescendsFrom(cs, k, cs[r].id)
    ensures cs[k].id in Replies(cs, r, 0)
    decreases cs[k].level
  {
    var p := cs[k].replyTo.value;
    if p == cs[r].id {
      DirectReplyFound(cs, r, 0, k);
    } else {
      var j :| 0 <= j < |cs| && cs[j].id == p && DescendsFrom(cs, j, cs[r].id);
      DescendantsCollected(cs, r, j);
      DirectReplyFound(cs, j, 0, k);
      SubtreeCollected(cs, r, 0, j, cs[k].id);
    }
  }

  /** The ids deleteComment removes: the comment itself, then its replies. */
  function DeletedIds(cs: seq<Comment>, k: nat): seq<string>
    requires ParentBelow(cs) && k < |cs|
  {
    [cs[k].id] + Replies(cs, k, 0)
  }

  /** deleteComment removes the comment and exactly the comments hanging below it. */
  lemma {:induction false} DeletesExactlySubtree(cs: seq<Comment>, k: nat, m: nat)
    requires ParentBelow(cs) && UniqueIds(cs) && k < |cs| && m < |cs|
    ensures cs[m].id in DeletedIds(cs, k) <==> m == k || DescendsFrom(cs, m, cs[k].id)
  {
    if cs[m].id in Replies(cs, k, 0) {
      RepliesDescend(cs, k, 0, cs[k].id, cs[m].id);
      var w :| 0 <= w < |cs| && cs[w].id == cs[m].id && DescendsFrom(cs, w, cs[k].id);
      assert w == m;
    }
    if m != k && DescendsFrom(cs, m, cs[k].id) {
      DescendantsCollected(cs, k, m);
    }
  }

  /** `Math.max(0, n)`. */
  function ClampZero(n: int): (r: int)
    ensures r >= 0 && (n >= 0 ==> r == n) && (n < 0 ==> r == 0)
  {
    if n < 0 then 0 else n
  }

  /** `deleteComment(postId, commentId)` (src/hooks/usePosts.js:366-416). */
  method DeleteComment(user: Option<Session>, post: Option<Post>, commentId: string) returns (r: Result<Post, PostError>)
    requires post.Some? ==> ParentBelow(post.value.comments)
    ensures user.None? ==> r == Failure(NotSignedIn)
    ensures user.Some? && post.None? ==> r == Failure(PostNotFound)
    ensures user.Some? && post.Some? ==>
      var p := post.value;
      match FindIndex(p.comments, commentId)
      case None => r == Failure(CommentNotFound)
      case Some(k) =>
        if p.comments[k].userId != user.value.uid then r == Failure(NotAuthor)
        else
          var ids := DeletedIds(p.comments, k);
          r == Success(p.(comments := Survivors(p.comments, ids),
                          commentCount := ClampZero(p.commentCount - |ids|)))
  {
    if user.None? {
      r := Failure(NotSignedIn);
    } else if post.None? {
      r := Failure(PostNotFound);
    } else {
      var p := post.value;
      match FindIndex(p.comments, commentId) {
        case None =>
          r := Failure(CommentNotFound);
        case Some(k) =>
          if p.comments[k].userId != user.value.uid {
            r := Failure(NotAuthor);
          } else {
            var ids := FindReplies(p.comments, k, [commentId]);
            assert ids == DeletedIds(p.comments, k);
            r := Success(p.(comments := Survivors(p.comments, ids), commentCount := ClampZero(p.commentCount - |ids|)));
          }
      }
    }
  }

  lemma {:induction false} SurvivorsKeepUniqueIds(cs: seq<Comment>, ids: seq<string>)
    requires UniqueIds(cs)
    ensures UniqueIds(Survivors(cs, ids))
  {
    if cs != [] {
      assert UniqueIds(cs[1..]);
      SurvivorsKeepUniqueIds(cs[1..], ids);
      var rest := Survivors(cs[1..], ids);
      if cs[0].id !in ids {
        forall j | 0 <= j < |rest| ensures rest[j].id != cs[0].id {
          assert rest[j] in cs[1..];
        }
      }
    }
  }

  /** Deleting keeps the thread invariant. */
  lemma {:induction false} DeleteKeepsInvariant(cs: seq<Comment>, ids: seq<string>)
    requires ThreadInvariant(cs)
    ensures ThreadInvariant(Survivors(cs, ids))
  {
    var ds := Survivors(cs, ids);
    SurvivorsKeepUniqueIds(cs, ids);
    forall i, j | 0 <= i < |ds| && 0 <= j < |ds| && ds[i].replyTo == Some(ds[j].id)
      ensures ds[j].level + 1 == ds[i].level
    {
      assert ds[i] in cs && ds[j] in cs;
      var a :| 0 <= a < |cs| && cs[a] == ds[i];
      var b :| 0 <= b < |cs| && cs[b] == ds[j];
    }
    forall i | 0 <= i < |ds|
      ensures ds[i].level <= MaxReplyLevel && ReactionsOk(ds[i].reactions)
      ensures !Truthy(ds[i].replyTo) ==> ds[i].level == 0
    {
      assert ds[i] in cs;
    }
  }
}
