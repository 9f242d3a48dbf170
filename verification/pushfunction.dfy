/** The Cloud Function of functions/index.js that fans a new notification
    out to the recipient's push tokens and prunes the tokens whose delivery
    failed. The token document read and the multicast send are parameters. */
module PushFunction {
  import opened Common
  import opened PushTokens

  /** The fields of the created notification document the function reads. */
  datatype NotificationDoc = NotificationDoc(
    userId: string, title: Option<string>, message: Option<string>, kind: Option<string>,
    link: Option<string>, relatedUserId: Option<string>, relatedPostId: Option<string>)

  /** The multicast message, without its token list. */
  datatype Payload = Payload(
    title: string, body: string, kind: string, relatedUserId: string, relatedPostId: string,
    link: string, notificationId: string, webTitle: string, webBody: string, tag: string, fcmLink: string)

  const DefaultTitle: string := "Social Custom"
  const DefaultBody: string := "Bạn có thông báo mới"
  const DefaultTag: string := "social-custom-notification"

  /** The payload (functions/index.js:34-60): each field falls back to its
      default when the notification's value is missing or empty, and the
      web-push copy agrees with the plain one. */
  function BuildPayload(n: NotificationDoc, notificationId: string): (p: Payload)
    ensures p.title == p.webTitle && p.body == p.webBody && p.link == p.fcmLink
    ensures p.title == (if Truthy(n.title) then n.title.value else DefaultTitle)
    ensures p.body == (if Truthy(n.message) then n.message.value else DefaultBody)
    ensures p.link == (if Truthy(n.link) then n.link.value else "/")
    ensures p.tag == (if Truthy(n.kind) then n.kind.value else DefaultTag)
    ensures p.kind == (if Truthy(n.kind) then n.kind.value else "")
    ensures p.tag != "" && p.title != "" && p.body != "" && p.link != ""
    ensures p.notificationId == notificationId
  {
    Payload(
      OrElse(n.title, DefaultTitle), OrElse(n.message, DefaultBody), OrElse(n.kind, ""),
      OrElse(n.relatedUserId, ""), OrElse(n.relatedPostId, ""), OrElse(n.link, "/"), notificationId,
      OrElse(n.title, DefaultTitle), OrElse(n.message, DefaultBody), OrElse(n.kind, DefaultTag),
      OrElse(n.link, "/"))
  }

  /** The tokens at the failed positions, in order, one entry per failure. */
  function FailedAt(tokens: seq<string>, ok: seq<bool>): (r: seq<string>)
    requires |ok| == |tokens|
    ensures |r| <= |tokens|
    ensures forall t :: t in r <==> exists i :: 0 <= i < |tokens| && !ok[i] && tokens[i] == t
  {
    if tokens == [] then []
    else
      var k := |tokens| - 1;
      var r := FailedAt(tokens[..k], ok[..k]) + (if ok[k] then [] else [tokens[k]]);
      assert forall t :: t in r <==> exists i :: 0 <= i < |tokens| && !ok[i] && tokens[i] == t by {
        forall t | t in r ensures exists i :: 0 <= i < |tokens| && !ok[i] && tokens[i] == t {
          if t !in FailedAt(tokens[..k], ok[..k]) {
            assert !ok[k] && tokens[k] == t;
          } else {
            var i :| 0 <= i < k && !ok[..k][i] && tokens[..k][i] == t;
            assert !ok[i] && tokens[i] == t;
          }
        }
        forall t | exists i :: 0 <= i < |tokens| && !ok[i] && tokens[i] == t ensures t in r {
          var i :| 0 <= i < |tokens| && !ok[i] && tokens[i] == t;
          if i < k {
            assert !ok[..k][i] && tokens[..k][i] == t;
          }
        }
      }
      r
  }

  /** Number of successful positions (`response.successCount`). */
  function Successes(ok: seq<bool>): (n: nat)
    ensures n <= |ok|
  {
    if ok == [] then 0 else Successes(ok[..|ok| - 1]) + (if ok[|ok| - 1] then 1 else 0)
  }

  /** All positions succeeded exactly when no flag is false. */
  lemma {:induction false} AllSucceeded(ok: seq<bool>)
    ensures Successes(ok) == |ok| <==> false !in ok
  {
    if ok != [] {
      var k := |ok| - 1;
      AllSucceeded(ok[..k]);
      assert ok == ok[..k] + [ok[k]];
      assert false in ok <==> false in ok[..k] || !ok[k];
    }
  }

  /** Every position counts once, as a success or as a failed token. */
  lemma {:induction false} SuccessesPlusFailures(tokens: seq<string>, ok: seq<bool>)
    requires |ok| == |tokens|
    ensures Successes(ok) + |FailedAt(tokens, ok)| == |tokens|
  {
    if tokens != [] {
      var k := |tokens| - 1;
      SuccessesPlusFailures(tokens[..k], ok[..k]);
    }
  }

  /** The `forEach` push loop of functions/index.js:69-74. */
  method CollectFailed(tokens: seq<string>, ok: seq<bool>) returns (failedTokens: seq<string>)
    requires |ok| == |tokens|
    ensures failedTokens == FailedAt(tokens, ok)
  {
    failedTokens := [];
    var idx := 0;
    while idx < |ok|
      invariant 0 <= idx <= |ok|
      invariant failedTokens == FailedAt(tokens[..idx], ok[..idx])
    {
      assert tokens[..idx + 1][..idx] == tokens[..idx] && ok[..idx + 1][..idx] == ok[..idx];
      if !ok[idx] {
        failedTokens := failedTokens + [tokens[idx]];
      }
      idx := idx + 1;
    }
    assert tokens[..idx] == tokens && ok[..idx] == ok;
  }

  /** `tokens.filter(token => !failedTokens.includes(token))` (functions/index.js:77). */
  function ValidTokens(tokens: seq<string>, failed: seq<string>): (r: seq<string>)
    ensures |r| <= |tokens|
    ensures forall t :: t in r <==> t in tokens && t !in failed
  {
    if tokens == [] then []
    else (if tokens[0] in failed then [] else [tokens[0]]) + ValidTokens(tokens[1..], failed)
  }

  lemma {:induction false} ValidTokensFilter(tokens: seq<string>, failed: seq<string>)
    ensures ValidTokens(tokens, failed) == Filter(tokens, t => t !in failed)
  {
    if tokens != [] {
      ValidTokensFilter(tokens[1..], failed);
    }
  }

  /** Filtering distributes over concatenation. */
  lemma {:induction false} ValidTokensConcat(a: seq<string>, b: seq<string>, failed: seq<string>)
    ensures ValidTokens(a + b, failed) == ValidTokens(a, failed) + ValidTokens(b, failed)
  {
    ValidTokensFilter(a + b, failed);
    ValidTokensFilter(a, failed);
    ValidTokensFilter(b, failed);
    FilterConcat(a, b, t => t !in failed);
  }

  /** Filtering keeps the surviving tokens in their stored order: the
      survivors of any prefix come before those of the rest, and every
      surviving token keeps its number of copies. */
  lemma {:induction false} ValidKeepsOrder(tokens: seq<string>, failed: seq<string>)
    ensures forall k :: 0 <= k <= |tokens| ==>
      ValidTokens(tokens, failed) == ValidTokens(tokens[..k], failed) + ValidTokens(tokens[k..], failed)
    ensures forall t :: t !in failed ==> Count(ValidTokens(tokens, failed), t) == Count(tokens, t)
    ensures forall t :: t in failed ==> Count(ValidTokens(tokens, failed), t) == 0
  {
    forall k | 0 <= k <= |tokens|
      ensures ValidTokens(tokens, failed) == ValidTokens(tokens[..k], failed) + ValidTokens(tokens[k..], failed)
    {
      ValidTokensConcat(tokens[..k], tokens[k..], failed);
      assert tokens[..k] + tokens[k..] == tokens;
    }
    if tokens != [] {
      ValidKeepsOrder(tokens[1..], failed);
      var head := if tokens[0] in failed then [] else [tokens[0]];
      CountAppend(head, ValidTokens(tokens[1..], failed), tokens[0]);
      forall t ensures Count(ValidTokens(tokens, failed), t) == Count(head, t) + Count(ValidTokens(tokens[1..], failed), t) {
        CountAppend(head, ValidTokens(tokens[1..], failed), t);
      }
    }
  }

  /** What the multicast send did: it threw, or it answered with one success
      flag per token. */
  datatype SendResult = Threw(message: string) | Answered(ok: seq<bool>)

  /** What the function returns, and the token list it writes back if any. */
  datatype Outcome =
    | ReadRejected
    | NoTokens
    | Delivered(payload: Payload, successCount: nat, rewrite: Option<seq<string>>)
    | SendError(payload: Payload, message: string)

  /** `sendPushNotification` (functions/index.js:14-90): `read` is the token
      document read, `send` the result of sending the payload to every token. */
  method OnCreate(n: NotificationDoc, notificationId: string, read: DocRead, send: SendResult) returns (out: Outcome)
    requires read.Found? && send.Answered? ==> |send.ok| == |StoredList(read.tokens)|
    ensures read.ReadFailed? ==> out == ReadRejected
    ensures read.Missing? || (read.Found? && StoredList(read.tokens) == []) ==> out == NoTokens
    ensures read.Found? && StoredList(read.tokens) != [] && send.Threw? ==>
      out == SendError(BuildPayload(n, notificationId), send.message)
    ensures read.Found? && StoredList(read.tokens) != [] && send.Answered? ==>
      && out.Delivered? && out.payload == BuildPayload(n, notificationId)
      && out.successCount == Successes(send.ok)
      && (out.rewrite.Some? <==> false in send.ok)
      && (out.rewrite.Some? ==> out.rewrite.value == ValidTokens(StoredList(read.tokens), FailedAt(StoredList(read.tokens), send.ok)))
  {
    if read.ReadFailed? {
      return ReadRejected;
    }
    if read.Missing? {
      return NoTokens;
    }
    var tokens := StoredList(read.tokens);
    if |tokens| == 0 {
      return NoTokens;
    }
    var payload := BuildPayload(n, notificationId);
    match send {
      case Threw(m) =>
        out := SendError(payload, m);
      case Answered(ok) =>
        var rewrite := None;
        var failureCount := |ok| - Successes(ok);
        if failureCount > 0 {
          var failedTokens := CollectFailed(tokens, ok);
          SuccessesPlusFailures(tokens, ok);
          if |failedTokens| > 0 {
            rewrite := Some(ValidTokens(tokens, failedTokens));
          }
        }
        FailureCountIffFalse(tokens, ok);
        out := Delivered(payload, Successes(ok), rewrite);
    }
  }

  /** Some position failed exactly when fewer than all succeeded, exactly when
      the failed list is non-empty. */
  lemma {:induction false} FailureCountIffFalse(tokens: seq<string>, ok: seq<bool>)
    requires |ok| == |tokens|
    ensures Successes(ok) < |ok| <==> false in ok
    ensures FailedAt(tokens, ok) != [] <==> false in ok
  {
    SuccessesPlusFailures(tokens, ok);
    AllSucceeded(ok);
    if false in ok {
      var i :| 0 <= i < |ok| && !ok[i];
      assert tokens[i] in FailedAt(tokens, ok);
    }
  }

  /** After pruning, a stored token is kept exactly when every position it
      was sent to succeeded. */
  lemma {:induction false} PruneDropsExactlyFailed(tokens: seq<string>, ok: seq<bool>, t: string)
    requires |ok| == |tokens|
    ensures t in ValidTokens(tokens, FailedAt(tokens, ok)) <==>
            t in tokens && forall i :: 0 <= i < |tokens| && tokens[i] == t ==> ok[i]
  {
  }
}
