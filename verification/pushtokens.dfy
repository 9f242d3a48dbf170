/** The per-user list of push tokens kept by
    src/services/pushNotificationService.js: what saving and deleting a token
    write to the user's token document, and what reading the list returns. */
module PushTokens {
  import opened Common

  /** The outcome of reading `userFCMTokens/{uid}`: the read failed, the
      document is missing, or it exists with a `tokens` field that may be absent. */
  datatype DocRead = ReadFailed | Missing | Found(tokens: Option<seq<string>>)

  /** What a call writes: nothing, a merge of the `tokens` field into the
      existing document, or a fresh document. */
  datatype Write = NoWrite | Merge(tokens: seq<string>) | Create(tokens: seq<string>)

  /** `data().tokens || []`: an absent field reads as the empty list (an
      array, even an empty one, is never falsy). */
  function StoredList(tokens: Option<seq<string>>): seq<string> {
    if tokens.Some? then tokens.value else []
  }

  /** The list stored once the write has landed. */
  function After(read: DocRead, w: Write): seq<string> {
    match w
      case NoWrite => if read.Found? then StoredList(read.tokens) else []
      case Merge(ts) => ts
      case Create(ts) => ts
  }

  /** `saveTokenToFirestore(token)` (src/services/pushNotificationService.js:73-104);
      `signedIn` is whether `auth.currentUser` is set. */
  function SaveToken(signedIn: bool, read: DocRead, token: string): (w: Write)
    ensures !signedIn || read.ReadFailed? ==> w == NoWrite
    ensures signedIn && read.Missing? ==> w == Create([token])
    ensures signedIn && read.Found? ==>
      (token in StoredList(read.tokens) <==> w == NoWrite)
      && (token !in StoredList(read.tokens) ==> w == Merge(StoredList(read.tokens) + [token]))
  {
    if !signedIn then NoWrite
    else match read
      case ReadFailed => NoWrite
      case Found(field) =>
        var tokens := StoredList(field);
        if token !in tokens then Merge(tokens + [token]) else NoWrite
      case Missing => Create([token])
  }

  /** `deleteTokenFromFirestore(token)` (src/services/pushNotificationService.js:109-140)
      with its two branches as written. */
  function DeleteToken(signedIn: bool, read: DocRead, token: string): Write
  {
    if !signedIn then NoWrite
    else match read
      case Found(field) =>
        var updated := RemoveAll(StoredList(field), token);
        if |updated| == 0 then Merge([]) else Merge(updated)
      case _ => NoWrite
  }

  /** The two delete branches write the same thing: the filtered list, which
      keeps every other token in order and drops every copy of this one. */
  lemma {:induction false} DeleteWritesFilteredList(read: DocRead, token: string)
    requires read.Found?
    ensures DeleteToken(true, read, token) == Merge(RemoveAll(StoredList(read.tokens), token))
    ensures token !in After(read, DeleteToken(true, read, token))
    ensures forall t :: t != token ==>
      Count(After(read, DeleteToken(true, read, token)), t) == Count(StoredList(read.tokens), t)
    ensures var ts := StoredList(read.tokens);
            forall k :: 0 <= k <= |ts| ==>
              After(read, DeleteToken(true, read, token)) == RemoveAll(ts[..k], token) + RemoveAll(ts[k..], token)
  {
    var ts := StoredList(read.tokens);
    forall k | 0 <= k <= |ts|
      ensures RemoveAll(ts, token) == RemoveAll(ts[..k], token) + RemoveAll(ts[k..], token)
    {
      RemoveAllConcat(ts[..k], ts[k..], token);
      assert ts[..k] + ts[k..] == ts;
    }
    if |RemoveAll(ts, token)| == 0 {
      assert RemoveAll(ts, token) == [];
    }
    RemoveAllKeepsOthers(ts, token);
  }

  /** Signed out, or when the document cannot be read, neither call writes. */
  lemma {:induction false} NoUserNoWrite(read: DocRead, token: string)
    ensures SaveToken(false, read, token) == NoWrite && DeleteToken(false, read, token) == NoWrite
    ensures DeleteToken(true, Missing, token) == NoWrite && DeleteToken(true, ReadFailed, token) == NoWrite
  {
  }

  /** After a save by a signed-in user whose document could be read, the
      token is in the list, a list without duplicates stays without
      duplicates, and saving the same token again writes nothing. */
  lemma {:induction false} SaveStoresTokenOnce(read: DocRead, token: string)
    requires !read.ReadFailed?
    requires read.Found? ==> NoDup(StoredList(read.tokens))
    ensures token in After(read, SaveToken(true, read, token))
    ensures NoDup(After(read, SaveToken(true, read, token)))
    ensures SaveToken(true, Found(Some(After(read, SaveToken(true, read, token)))), token) == NoWrite
  {
    if read.Found? {
      var ts := StoredList(read.tokens);
      if token !in ts {
        var r := ts + [token];
        forall i, j | 0 <= i < j < |r| ensures r[i] != r[j] {
          if j == |ts| {
            assert r[i] in ts;
          }
        }
      }
    }
  }

  /** Saving a new token and deleting it again leaves the stored list as it was. */
  lemma {:induction false} SaveThenDeleteRestores(tokens: seq<string>, token: string)
    requires token !in tokens
    ensures var saved := After(Found(Some(tokens)), SaveToken(true, Found(Some(tokens)), token));
            After(Found(Some(saved)), DeleteToken(true, Found(Some(saved)), token)) == tokens
  {
    DeleteWritesFilteredList(Found(Some(tokens + [token])), token);
    RemoveAllAppendedAbsent(tokens, token);
  }

  /** `getUserFCMTokens(userId)` (src/services/pushNotificationService.js:161-176):
      the stored list, or [] when the document is missing or the read fails. */
  function UserTokens(read: DocRead): (r: seq<string>)
    ensures !read.Found? ==> r == []
    ensures read.Found? && read.tokens.Some? ==> r == read.tokens.value
    ensures read.Found? && read.tokens.None? ==> r == []
  {
    if read.Found? then StoredList(read.tokens) else []
  }
}
