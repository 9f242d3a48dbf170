/** How src/components/posts/Comments.jsx lays out the comments of a post:
    top-level comments and reply buckets, the collapsed "last 3" view, the
    recursive render with its nesting levels, and the submit guards. */
module CommentThreads {
  import opened Common
  import opened Posts

  /** `comments.filter(c => !c.replyTo)`. */
  function TopLevel(cs: seq<Comment>): (r: seq<Comment>)
    ensures |r| <= |cs|
    ensures forall c :: c in r <==> c in cs && !Truthy(c.replyTo)
  {
    if cs == [] then []
    else if !Truthy(cs[0].replyTo) then [cs[0]] + TopLevel(cs[1..])
    else TopLevel(cs[1..])
  }

  /** The replies stored under key `k` of `repliesMap`, in their original order. */
  function Bucket(cs: seq<Comment>, k: string): (r: seq<Comment>)
    ensures |r| <= |cs|
    ensures forall c :: c in r <==> c in cs && Truthy(c.replyTo) && c.replyTo.value == k
  {
    if cs == [] then []
    else if Truthy(cs[0].replyTo) && cs[0].replyTo.value == k then [cs[0]] + Bucket(cs[1..], k)
    else Bucket(cs[1..], k)
  }

  lemma {:induction false} BucketSnoc(cs: seq<Comment>, c: Comment, k: string)
    ensures Bucket(cs + [c], k) == Bucket(cs, k) + (if Truthy(c.replyTo) && c.replyTo.value == k then [c] else [])
  {
    if cs == [] {
      assert [c][1..] == [];
    } else {
      assert (cs + [c])[1..] == cs[1..] + [c];
      BucketSnoc(cs[1..], c, k);
    }
  }

  lemma {:induction false} TopLevelSnoc(cs: seq<Comment>, c: Comment)
    ensures TopLevel(cs + [c]) == TopLevel(cs) + (if !Truthy(c.replyTo) then [c] else [])
  {
    if cs == [] {
      assert [c][1..] == [];
    } else {
      assert (cs + [c])[1..] == cs[1..] + [c];
      TopLevelSnoc(cs[1..], c);
    }
  }

  /** The `forEach` that fills `repliesMap` (src/components/posts/Comments.jsx:222-231):
      a key exists exactly for the parent ids that some reply names, and holds
      those replies in order. */
  method BuildRepliesMap(cs: seq<Comment>) returns (m: map<string, seq<Comment>>)
    ensures forall k :: k in m <==> Bucket(cs, k) != []
    ensures forall k :: k in m ==> m[k] == Bucket(cs, k)
  {
    m := map[];
    for i := 0 to |cs|
      invariant forall k :: k in m <==> Bucket(cs[..i], k) != []
      invariant forall k :: k in m ==> m[k] == Bucket(cs[..i], k)
    {
      var c := cs[i];
      assert cs[..i + 1] == cs[..i] + [c];
      forall k ensures Bucket(cs[..i + 1], k) == Bucket(cs[..i], k) + (if Truthy(c.replyTo) && c.replyTo.value == k then [c] else []) {
        BucketSnoc(cs[..i], c, k);
      }
      if Truthy(c.replyTo) {
        var key := c.replyTo.value;
        var bucket := if key in m then m[key] else [];
        assert bucket == Bucket(cs[..i], key);
        m := m[key := bucket + [c]];
      }
    }
    assert cs[..|cs|] == cs;
  }

  /** Every comment is either top level or in exactly one bucket, the one
      named by its `replyTo`. */
  lemma {:induction false} EveryCommentPlacedOnce(cs: seq<Comment>, c: Comment, k: string)
    requires c in cs
    ensures c in TopLevel(cs) <==> !Truthy(c.replyTo)
    ensures c in Bucket(cs, k) <==> Truthy(c.replyTo) && k == c.replyTo.value
  {
  }

  /** `displayComments` (src/components/posts/Comments.jsx:236-239): all
      top-level comments, or only the last three (`slice(-3)`). */
  function DisplayComments(topLevel: seq<Comment>, showAll: bool): (r: seq<Comment>)
    ensures showAll ==> r == topLevel
    ensures !showAll ==> (|r| == (if |topLevel| < 3 then |topLevel| else 3)
                          && r == topLevel[|topLevel| - |r|..])
  {
    if showAll then topLevel
    else if |topLevel| <= 3 then topLevel
    else topLevel[|topLevel| - 3..]
  }

  /** The "show all N comments" button (src/components/posts/Comments.jsx:347). */
  predicate ShowExpand(topLevel: seq<Comment>, showAll: bool) {
    |topLevel| > 3 && !showAll
  }

  /** The "collapse" button (src/components/posts/Comments.jsx:356). */
  predicate ShowCollapse(topLevel: seq<Comment>, showAll: bool) {
    showAll && |topLevel| > 3
  }

  /** A button is offered exactly when collapsing hides something, and the
      two buttons never show together. */
  lemma {:induction false} ButtonsOnlyWhenMoreThanThree(topLevel: seq<Comment>, showAll: bool)
    ensures ShowExpand(topLevel, showAll) || ShowCollapse(topLevel, showAll) <==> |topLevel| > 3
    ensures !(ShowExpand(topLevel, showAll) && ShowCollapse(topLevel, showAll))
    ensures ShowExpand(topLevel, showAll) <==> |DisplayComments(topLevel, showAll)| < |topLevel|
  {
  }

  /** One rendered `CommentItem` and the `level` it is rendered at. */
  datatype Rendered = Rendered(comment: Comment, level: nat)

  /** Comments whose replies can be rendered without running forever. */
  predicate Renderable(cs: seq<Comment>) {
    ParentBelow(cs)
  }

  lemma {:induction false} ReplyIsDeeper(cs: seq<Comment>, c: Comment, r: Comment)
    requires Renderable(cs) && c in cs && r in Bucket(cs, c.id)
    ensures r in cs && c.level < r.level <= MaxLevel(cs)
  {
    var i :| 0 <= i < |cs| && cs[i] == r;
    var j :| 0 <= j < |cs| && cs[j] == c;
  }

  /** `renderCommentWithReplies(comment, level)` (src/components/posts/Comments.jsx:318-341):
      the comment, then each of its replies one level deeper. */
  function Render(cs: seq<Comment>, c: Comment, level: nat): seq<Rendered>
    requires Renderable(cs) && c in cs
    decreases MaxLevel(cs) - c.level, 1, 0
  {
    [Rendered(c, level)] + RenderList(cs, Bucket(cs, c.id), level + 1, c.level)
  }

  /** `replies.map(reply => renderCommentWithReplies(reply, level))`, for the
      replies of a comment at stored level `parentLevel`. */
  function RenderList(cs: seq<Comment>, rs: seq<Comment>, level: nat, parentLevel: nat): seq<Rendered>
    requires Renderable(cs)
    requires forall r :: r in rs ==> r in cs && parentLevel < r.level
    decreases MaxLevel(cs) - parentLevel, 0, |rs|
  {
    if rs == [] then []
    else
      ReplyIsBelowMax(cs, rs[0]);
      Render(cs, rs[0], level) + RenderList(cs, rs[1..], level, parentLevel)
  }

  lemma {:induction false} ReplyIsBelowMax(cs: seq<Comment>, r: Comment)
    requires r in cs
    ensures r.level <= MaxLevel(cs)
  {
  }

  /** `displayComments.map(comment => renderCommentWithReplies(comment, 0))`. */
  function RenderTops(cs: seq<Comment>, tops: seq<Comment>): seq<Rendered>
    requires Renderable(cs) && forall c :: c in tops ==> c in cs
  {
    if tops == [] then [] else Render(cs, tops[0], 0) + RenderTops(cs, tops[1..])
  }

  /** The rendered thread (src/components/posts/Comments.jsx:343-364). */
  function RenderThread(cs: seq<Comment>, showAll: bool): seq<Rendered>
    requires Renderable(cs)
  {
    RenderTops(cs, DisplayComments(TopLevel(cs), showAll))
  }

  /** Entry `j` is the parent of entry `k`, one render level up. */
  predicate ParentAt(out: seq<Rendered>, j: nat, k: nat)
    requires j < |out| && k < |out|
  {
    out[k].comment.replyTo == Some(out[j].comment.id) && out[j].level + 1 == out[k].level
  }

  /** Every entry is a comment of `cs`, and is either one of `roots` at
      `level` or sits one level below an earlier entry that is its parent. */
  predicate Anchored(cs: seq<Comment>, out: seq<Rendered>, level: nat, roots: seq<Comment>) {
    forall k :: 0 <= k < |out| ==>
      && out[k].comment in cs
      && ((out[k].level == level && out[k].comment in roots)
          || exists j :: 0 <= j < k && ParentAt(out, j, k))
  }

  lemma {:induction false} AnchoredConcat(cs: seq<Comment>, a: seq<Rendered>, b: seq<Rendered>, level: nat,
                                          ra: seq<Comment>, rb: seq<Comment>)
    requires Anchored(cs, a, level, ra) && Anchored(cs, b, level, rb)
    ensures Anchored(cs, a + b, level, ra + rb)
  {
    var out := a + b;
    forall k | 0 <= k < |out|
      ensures out[k].comment in cs
      ensures !(out[k].level == level && out[k].comment in ra + rb) ==> exists j :: 0 <= j < k && ParentAt(out, j, k)
    {
      if k < |a| {
        if !(a[k].level == level && a[k].comment in ra) {
          var j :| 0 <= j < k && ParentAt(a, j, k);
          assert ParentAt(out, j, k);
        }
      } else {
        if !(b[k - |a|].level == level && b[k - |a|].comment in rb) {
          var j :| 0 <= j < k - |a| && ParentAt(b, j, k - |a|);
          assert ParentAt(out, j + |a|, k);
        }
      }
    }
  }

  lemma {:induction false} AnchoredUnderParent(cs: seq<Comment>, c: Comment, level: nat, b: seq<Rendered>, rs: seq<Comment>)
    requires c in cs && Anchored(cs, b, level + 1, rs)
    requires forall r :: r in rs ==> r.replyTo == Some(c.id)
    ensures Anchored(cs, [Rendered(c, level)] + b, level, [c])
  {
    var out := [Rendered(c, level)] + b;
    forall k | 0 < k < |out|
      ensures out[k].comment in cs && exists j :: 0 <= j < k && ParentAt(out, j, k)
    {
      if b[k - 1].level == level + 1 && b[k - 1].comment in rs {
        assert ParentAt(out, 0, k);
      } else {
        var j :| 0 <= j < k - 1 && ParentAt(b, j, k - 1);
        assert ParentAt(out, j + 1, k);
      }
    }
  }

  lemma {:induction false} RenderAnchored(cs: seq<Comment>, c: Comment, level: nat)
    requires Renderable(cs) && c in cs
    ensures Anchored(cs, Render(cs, c, level), level, [c])
    decreases MaxLevel(cs) - c.level, 1, 0
  {
    var rs := Bucket(cs, c.id);
    forall r | r in rs ensures r in cs && c.level < r.level {
      ReplyIsDeeper(cs, c, r);
    }
    RenderListAnchored(cs, rs, level + 1, c.level);
    AnchoredUnderParent(cs, c, level, RenderList(cs, rs, level + 1, c.level), rs);
  }

  lemma {:induction false} RenderListAnchored(cs: seq<Comment>, rs: seq<Comment>, level: nat, parentLevel: nat)
    requires Renderable(cs)
    requires forall r :: r in rs ==> r in cs && parentLevel < r.level
    ensures Anchored(cs, RenderList(cs, rs, level, parentLevel), level, rs)
    decreases MaxLevel(cs) - parentLevel, 0, |rs|
  {
    if rs != [] {
      ReplyIsBelowMax(cs, rs[0]);
      RenderAnchored(cs, rs[0], level);
      RenderListAnchored(cs, rs[1..], level, parentLevel);
      AnchoredConcat(cs, Render(cs, rs[0], level), RenderList(cs, rs[1..], level, parentLevel), level, [rs[0]], rs[1..]);
      assert [rs[0]] + rs[1..] == rs;
    }
  }

  lemma {:induction false} RenderTopsAnchored(cs: seq<Comment>, tops: seq<Comment>)
    requires Renderable(cs) && forall c :: c in tops ==> c in cs
    ensures Anchored(cs, RenderTops(cs, tops), 0, tops)
  {
    if tops != [] {
      RenderAnchored(cs, tops[0], 0);
      RenderTopsAnchored(cs, tops[1..]);
      AnchoredConcat(cs, Render(cs, tops[0], 0), RenderTops(cs, tops[1..]), 0, [tops[0]], tops[1..]);
      assert [tops[0]] + tops[1..] == tops;
    }
  }

  /** Every rendered comment is a displayed top-level comment at level 0, or a
      reply drawn exactly one level below its parent, which was rendered
      before it. So a reply whose parent is missing or hidden by the collapse
      is never rendered. */
  lemma {:induction false} ThreadIsAnchored(cs: seq<Comment>, showAll: bool)
    requires Renderable(cs)
    ensures var out := RenderThread(cs, showAll);
            forall k :: 0 <= k < |out| ==>
              && out[k].comment in cs
              && ((out[k].level == 0 && out[k].comment in DisplayComments(TopLevel(cs), showAll))
                  || exists j :: 0 <= j < k && ParentAt(out, j, k))
  {
    RenderTopsAnchored(cs, DisplayComments(TopLevel(cs), showAll));
  }

  /** `canReply` (src/components/posts/Comments.jsx:76): the reply button and
      the reply input are offered only below render level 2. */
  predicate CanReply(level: nat) {
    level < 2
  }

  /** In a thread written by the post hooks, the render level of every entry is
      its stored level, so the reply button is offered exactly where
      `replyComment` accepts a reply. */
  lemma {:induction false} RenderLevelIsStoredLevel(cs: seq<Comment>, showAll: bool, k: nat)
    requires ThreadInvariant(cs)
    requires k < |RenderThread(cs, showAll)|
    ensures var e := RenderThread(cs, showAll)[k];
            && e.level == e.comment.level
            && (CanReply(e.level) <==> e.comment.level + 1 <= MaxReplyLevel)
    decreases k
  {
    var out := RenderThread(cs, showAll);
    ThreadIsAnchored(cs, showAll);
    var e := out[k];
    var i :| 0 <= i < |cs| && cs[i] == e.comment;
    if e.level == 0 && e.comment in DisplayComments(TopLevel(cs), showAll) {
      assert e.comment in TopLevel(cs);
    } else {
      var j :| 0 <= j < k && ParentAt(out, j, k);
      RenderLevelIsStoredLevel(cs, showAll, j);
      var pj :| 0 <= pj < |cs| && cs[pj] == out[j].comment;
      assert cs[i].replyTo == Some(cs[pj].id);
    }
  }

  /** The comment form's guard (src/components/posts/Comments.jsx:243) and the
      reply form's (src/components/posts/Comments.jsx:55): blank text, or a
      submit still in flight, sends nothing. */
  predicate SubmitAllowed(text: string, inFlight: bool) {
    !IsBlank(text) && !inFlight
  }

  /** Whatever the form lets through passes the hook's own blank check: the
      comment form sends its text as typed and `addComment` trims it; the
      reply form sends the trimmed text and `replyComment` trims it again. */
  lemma {:induction false} SubmittedTextIsNotBlank(text: string, inFlight: bool)
    requires SubmitAllowed(text, inFlight)
    ensures !IsBlank(text) && !IsBlank(Trim(text))
    ensures Trim(Trim(text)) == Trim(text)
  {
    TrimTwice(text);
  }
}
