/** `getOrCreateChat` of src/services/chatService.js: the one-to-one chat
    between two users is looked up among the chats of the first user and
    created when there is none. The chat collection read and the id the
    store gives a new chat are parameters; the write is returned. */
module ChatService {
  import opened Common

  /** The fields of a chat document the lookup reads. */
  datatype ChatDoc = ChatDoc(id: string, participants: seq<string>)

  /** The document `addDoc` writes for a new chat (the two timestamps are
      left out). */
  datatype NewChat = NewChat(participants: seq<string>, lastMessage: string, unreadCount: map<string, int>)

  /** What the service answers: `{ success: true, chatId }` or
      `{ success: false, error }`. */
  datatype Reply = Found(chatId: string) | Failed(error: string)

  /** A chat two users can share: `userId2` takes part and there are
      exactly two participants (chatService.js:15). */
  predicate Reusable(c: ChatDoc, userId2: string) {
    userId2 in c.participants && |c.participants| == 2
  }

  /** The chats of `userId1`: the `array-contains` query (chatService.js:7-10). */
  function ChatsOf(chats: seq<ChatDoc>, userId1: string): (r: seq<ChatDoc>)
    ensures forall c :: c in r <==> c in chats && userId1 in c.participants
  {
    if chats == [] then []
    else (if userId1 in chats[0].participants then [chats[0]] else []) + ChatsOf(chats[1..], userId1)
  }

  /** `docs.find(...)`: the first reusable chat. */
  function FirstReusable(docs: seq<ChatDoc>, userId2: string): (r: Option<ChatDoc>)
    ensures r.Some? ==> r.value in docs && Reusable(r.value, userId2)
    ensures r.None? <==> forall c :: c in docs ==> !Reusable(c, userId2)
    ensures r.Some? ==> exists k :: 0 <= k < |docs| && docs[k] == r.value
                                    && forall j :: 0 <= j < k ==> !Reusable(docs[j], userId2)
  {
    if docs == [] then None
    else if Reusable(docs[0], userId2) then Some(docs[0])
    else match FirstReusable(docs[1..], userId2)
      case None => None
      case Some(c) =>
        var k :| 0 <= k < |docs[1..]| && docs[1..][k] == c
                 && forall j :: 0 <= j < k ==> !Reusable(docs[1..][j], userId2);
        assert docs[k + 1] == c;
        Some(c)
  }

  /** The record a new chat starts with (chatService.js:22-31). */
  function Fresh(userId1: string, userId2: string): (n: NewChat)
    ensures n.participants == [userId1, userId2] && n.lastMessage == ""
    ensures n.unreadCount.Keys == {userId1, userId2}
    ensures forall u :: u in n.unreadCount ==> n.unreadCount[u] == 0
  {
    NewChat([userId1, userId2], "", map[userId1 := 0, userId2 := 0])
  }

  /** `getOrCreateChat(userId1, userId2)`: `chats` is the collection, or the
      message the read failed with; `created` is the new document's id, or
      the message the write failed with. The result pairs the write, if
      one is made, with the reply. */
  function GetOrCreateChat(userId1: string, userId2: string, chats: Result<seq<ChatDoc>, string>,
                           created: Result<string, string>): (r: (Option<NewChat>, Reply))
    ensures chats.Failure? ==> r == (None, Failed(chats.error))
    ensures chats.Success? && FirstReusable(ChatsOf(chats.value, userId1), userId2).Some? ==>
      r.0.None? && r.1 == Found(FirstReusable(ChatsOf(chats.value, userId1), userId2).value.id)
    ensures chats.Success? && FirstReusable(ChatsOf(chats.value, userId1), userId2).None? ==>
      r.0 == Some(Fresh(userId1, userId2))
      && r.1 == (if created.Success? then Found(created.value) else Failed(created.error))
  {
    match chats
    case Failure(m) => (None, Failed(m))
    case Success(all) =>
      match FirstReusable(ChatsOf(all, userId1), userId2)
      case Some(c) => (None, Found(c.id))
      case None =>
        (Some(Fresh(userId1, userId2)),
         match created
         case Success(id) => Found(id)
         case Failure(m) => Failed(m))
  }

  /** An existing chat is reused exactly when one of the first user's chats
      has the second user and two participants; the id returned is then
      that of a chat both users take part in, and no chat is written. */
  lemma {:induction false} ReuseIffShared(userId1: string, userId2: string, all: seq<ChatDoc>, created: Result<string, string>)
    ensures var r := GetOrCreateChat(userId1, userId2, Success(all), created);
            r.0.None? <==> exists c :: c in all && userId1 in c.participants && Reusable(c, userId2)
    ensures var r := GetOrCreateChat(userId1, userId2, Success(all), created);
            r.0.None? ==>
              exists c :: c in all && c.id == r.1.chatId && |c.participants| == 2
                          && userId1 in c.participants && userId2 in c.participants
  {
    var mine := ChatsOf(all, userId1);
    var f := FirstReusable(mine, userId2);
    if f.Some? {
      var c := f.value;
      assert c in all && userId1 in c.participants;
    } else {
      forall c | c in all && userId1 in c.participants ensures !Reusable(c, userId2) {
        assert c in mine;
      }
    }
  }

  /** Once a chat has been created, asking again from either side finds
      it and writes nothing. */
  lemma {:induction false} CreatedChatIsFoundFromEitherSide(userId1: string, userId2: string, all: seq<ChatDoc>, id: string, created: Result<string, string>)
    requires GetOrCreateChat(userId1, userId2, Success(all), Success(id)).0.Some?
    ensures var after := all + [ChatDoc(id, [userId1, userId2])];
            GetOrCreateChat(userId1, userId2, Success(after), created) == (None, Found(id))
            && GetOrCreateChat(userId2, userId1, Success(after), created).0.None?
  {
    var c := ChatDoc(id, [userId1, userId2]);
    var after := all + [c];
    ChatsOfAppend(all, c, userId1);
    FirstReusableAppend(ChatsOf(all, userId1), c, userId2);
    assert c in after && userId2 in c.participants && Reusable(c, userId1);
    assert c in ChatsOf(after, userId2);
  }

  lemma {:induction false} ChatsOfAppend(chats: seq<ChatDoc>, c: ChatDoc, userId1: string)
    requires userId1 in c.participants
    ensures ChatsOf(chats + [c], userId1) == ChatsOf(chats, userId1) + [c]
  {
    if chats != [] {
      ChatsOfAppend(chats[1..], c, userId1);
      assert (chats + [c])[1..] == chats[1..] + [c];
    }
  }

  lemma {:induction false} FirstReusableAppend(docs: seq<ChatDoc>, c: ChatDoc, userId2: string)
    requires FirstReusable(docs, userId2).None? && Reusable(c, userId2)
    ensures FirstReusable(docs + [c], userId2) == Some(c)
  {
    if docs != [] {
      FirstReusableAppend(docs[1..], c, userId2);
      assert (docs + [c])[1..] == docs[1..] + [c];
    }
  }
}
