/** The HTTP endpoint of api/send-push.js: request validation, the message
    built for each token, and the tally of the settled sends. The server key
    and the per-token send results are parameters. */
module SendPush {
  import opened Common

  /** The `notification` object of the request body. */
  datatype PushNotification = PushNotification(
    title: Option<string>, body: Option<string>, message: Option<string>, icon: Option<string>,
    badge: Option<string>, kind: Option<string>, relatedUserId: Option<string>,
    relatedPostId: Option<string>, link: Option<string>, notificationId: Option<string>)

  /** The `tokens` field: anything that is not an array, or an array. */
  datatype TokensField = NotAnArray | Tokens(list: seq<string>)

  datatype HttpRequest = HttpRequest(httpMethod: string, notification: Option<PushNotification>, tokens: TokensField)

  /** How one send settled: fulfilled with FCM's success flag, or rejected. */
  datatype Settled = Fulfilled(success: bool) | Rejected

  datatype Body = Empty | Error(message: string) | Summary(successCount: nat, failedCount: nat, failedTokens: seq<string>)

  datatype HttpResponse = HttpResponse(status: int, body: Body)

  /** The message for one token (api/send-push.js:39-67). */
  datatype Message = Message(
    to: string, title: string, body: string, icon: string, badge: string, kind: string,
    relatedUserId: string, relatedPostId: string, link: string, notificationId: string, tag: string)

  const DefaultTitle: string := "Social Custom"
  const DefaultBody: string := "Bạn có thông báo mới"
  const DefaultIcon: string := "/icons/icon-192x192.png"
  const DefaultBadge: string := "/icons/icon-72x72.png"
  const DefaultTag: string := "social-custom-notification"

  /** The message for `token`: the body is `body`, else `message`, else the
      default, and every other field falls back to its own default. */
  function BuildMessage(n: PushNotification, token: string): (m: Message)
    ensures m.to == token
    ensures Truthy(n.body) ==> m.body == n.body.value
    ensures !Truthy(n.body) && Truthy(n.message) ==> m.body == n.message.value
    ensures !Truthy(n.body) && !Truthy(n.message) ==> m.body == DefaultBody
    ensures m.title == (if Truthy(n.title) then n.title.value else DefaultTitle)
    ensures m.tag == (if Truthy(n.kind) then n.kind.value else DefaultTag)
    ensures m.link == (if Truthy(n.link) then n.link.value else "/")
    ensures m.icon == (if Truthy(n.icon) then n.icon.value else DefaultIcon)
    ensures m.badge == (if Truthy(n.badge) then n.badge.value else DefaultBadge)
    ensures m.kind == (if Truthy(n.kind) then n.kind.value else "")
    ensures m.relatedUserId == (if Truthy(n.relatedUserId) then n.relatedUserId.value else "")
    ensures m.relatedPostId == (if Truthy(n.relatedPostId) then n.relatedPostId.value else "")
    ensures m.notificationId == (if Truthy(n.notificationId) then n.notificationId.value else "")
    ensures m.title != "" && m.body != "" && m.icon != "" && m.badge != "" && m.link != "" && m.tag != ""
  {
    Message(token, OrElse(n.title, DefaultTitle), OrElse(n.body, OrElse(n.message, DefaultBody)),
      OrElse(n.icon, DefaultIcon), OrElse(n.badge, DefaultBadge), OrElse(n.kind, ""),
      OrElse(n.relatedUserId, ""), OrElse(n.relatedPostId, ""), OrElse(n.link, "/"),
      OrElse(n.notificationId, ""), OrElse(n.kind, DefaultTag))
  }

  /** `tokens.map(...)`: one message per token, in order. */
  function Messages(n: PushNotification, tokens: seq<string>): (ms: seq<Message>)
    ensures |ms| == |tokens|
    ensures forall i :: 0 <= i < |tokens| ==> ms[i] == BuildMessage(n, tokens[i])
  {
    if tokens == [] then [] else [BuildMessage(n, tokens[0])] + Messages(n, tokens[1..])
  }

  /** `successCount` (api/send-push.js:88). */
  function SuccessCount(results: seq<Settled>): (c: nat)
    ensures c <= |results|
  {
    if results == [] then 0 else (if results[0] == Fulfilled(true) then 1 else 0) + SuccessCount(results[1..])
  }

  /** `failedTokens` (api/send-push.js:89-92): the tokens whose send was
      fulfilled but unsuccessful; rejected sends map to null and, with empty
      tokens, are dropped by `filter(Boolean)`. */
  function FailedTokens(tokens: seq<string>, results: seq<Settled>): (r: seq<string>)
    requires |results| == |tokens|
    ensures |r| <= |tokens|
    ensures forall t :: t in r ==> t != ""
  {
    if tokens == [] then []
    else (if results[0] == Fulfilled(false) && tokens[0] != "" then [tokens[0]] else [])
         + FailedTokens(tokens[1..], results[1..])
  }

  /** A token is reported failed exactly when it is non-empty and one of its
      sends was fulfilled with failure. */
  lemma {:induction false} FailedTokensExactly(tokens: seq<string>, results: seq<Settled>, t: string)
    requires |results| == |tokens|
    ensures t in FailedTokens(tokens, results) <==>
            t != "" && exists i :: 0 <= i < |tokens| && tokens[i] == t && results[i] == Fulfilled(false)
  {
    if tokens != [] {
      FailedTokensExactly(tokens[1..], results[1..], t);
      if exists i :: 0 <= i < |tokens| && tokens[i] == t && results[i] == Fulfilled(false) {
        var i :| 0 <= i < |tokens| && tokens[i] == t && results[i] == Fulfilled(false);
        if i > 0 {
          assert tokens[1..][i - 1] == t && results[1..][i - 1] == Fulfilled(false);
        }
      }
      if exists i :: 0 <= i < |tokens[1..]| && tokens[1..][i] == t && results[1..][i] == Fulfilled(false) {
        var i :| 0 <= i < |tokens[1..]| && tokens[1..][i] == t && results[1..][i] == Fulfilled(false);
        assert tokens[i + 1] == t && results[i + 1] == Fulfilled(false);
      }
    }
  }

  /** A send is counted at most once, as a success or a failure; rejected
      sends are counted as neither. */
  lemma {:induction false} TallyBounded(tokens: seq<string>, results: seq<Settled>)
    requires |results| == |tokens|
    ensures SuccessCount(results) + |FailedTokens(tokens, results)| + RejectedCount(results) <= |tokens|
  {
    if tokens != [] {
      TallyBounded(tokens[1..], results[1..]);
    }
  }

  /** The number of rejected sends. */
  function RejectedCount(results: seq<Settled>): nat {
    if results == [] then 0 else (if results[0].Rejected? then 1 else 0) + RejectedCount(results[1..])
  }

  /** `handler(req, res)` (api/send-push.js:4-104). `serverKey` is the
      `FCM_SERVER_KEY` setting and `results` how each token's send settled. */
  function Handle(req: HttpRequest, serverKey: Option<string>, results: seq<Settled>): (r: (HttpResponse, seq<Message>))
    requires req.tokens.Tokens? ==> |results| == |req.tokens.list|
    ensures req.httpMethod == "OPTIONS" ==> r == (HttpResponse(200, Empty), [])
    ensures req.httpMethod != "OPTIONS" && req.httpMethod != "POST" ==> r == (HttpResponse(405, Error("Method not allowed")), [])
    ensures req.httpMethod == "POST" && (req.notification.None? || req.tokens.NotAnArray? || req.tokens.list == []) ==>
      r == (HttpResponse(400, Error("Missing notification or tokens")), [])
    ensures req.httpMethod == "POST" && req.notification.Some? && req.tokens.Tokens? && req.tokens.list != [] && !Truthy(serverKey) ==>
      r == (HttpResponse(500, Error("Server configuration error")), [])
    ensures r.1 != [] ==> req.httpMethod == "POST" && req.notification.Some? && req.tokens.Tokens? && Truthy(serverKey)
    ensures req.httpMethod == "POST" && req.notification.Some? && req.tokens.Tokens? && req.tokens.list != [] && Truthy(serverKey) ==>
      r.0 == HttpResponse(200, Summary(SuccessCount(results), |FailedTokens(req.tokens.list, results)|, FailedTokens(req.tokens.list, results)))
    ensures r.0.status == 200 && r.0.body.Summary? ==>
      && r.1 == Messages(req.notification.value, req.tokens.list)
      && r.0.body.failedCount == |r.0.body.failedTokens|
      && r.0.body.successCount + r.0.body.failedCount <= |req.tokens.list|
  {
    if req.httpMethod == "OPTIONS" then (HttpResponse(200, Empty), [])
    else if req.httpMethod != "POST" then (HttpResponse(405, Error("Method not allowed")), [])
    else if req.notification.None? || req.tokens.NotAnArray? || |req.tokens.list| == 0 then
      (HttpResponse(400, Error("Missing notification or tokens")), [])
    else if !Truthy(serverKey) then (HttpResponse(500, Error("Server configuration error")), [])
    else
      var tokens := req.tokens.list;
      var failed := FailedTokens(tokens, results);
      TallyBounded(tokens, results);
      (HttpResponse(200, Summary(SuccessCount(results), |failed|, failed)), Messages(req.notification.value, tokens))
  }
}
