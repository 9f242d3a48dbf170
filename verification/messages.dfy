/** The compute steps of src/hooks/useMessages.js: building a message record
    and the chat summary update when sending, toggling a message reaction,
    the delete authorisation and the selection `markAsRead` updates. */
module Messages {
  import opened Common

  /** emoji -> user ids that reacted with it. */
  type Reactions = map<string, seq<string>>

  /** A chat message document. `createdAt` is the server timestamp in
      milliseconds, missing until the server has filled it in. */
  datatype Message = Message(
    id: string, senderId: string,
    senderName: Option<string>, senderPhotoURL: Option<string>,
    text: Option<string>,
    imageURL: Option<string>, fileURL: Option<string>,
    fileName: Option<string>, fileSize: Option<int>,
    kind: Option<string>,
    read: bool, sent: bool, reactions: Reactions,
    createdAt: Option<int>)

  /** The parts of the chat document `sendMessage` reads. */
  datatype Chat = Chat(participants: Option<seq<string>>, unreadCount: map<string, int>)

  /** What `sendMessage` writes to the chat document besides `updatedAt`. */
  datatype ChatUpdate = ChatUpdate(lastMessage: string, unread: Option<(string, int)>)

  /** Why an operation failed. `sendMessage` names a missing chat or user;
      `reactToMessage` and `deleteMessage` refuse the same case without a
      message (`NoChatOrUser`). */
  datatype MessageError = MissingChatOrUser | NoChatOrUser | NotFound | Unauthorized
  {
    /** The `error` field of the answer, if it has one. */
    function Message(): Option<string> {
      match this
      case MissingChatOrUser => Some("Missing chatId or user")
      case NoChatOrUser => None
      case NotFound => None
      case Unauthorized => Some("Unauthorized")
    }
  }

  const ImagePreview: string := "📷 Đã gửi một ảnh"
  const FilePreview: string := "📎 Đã gửi một file"

  /** `userProfile?.displayName || currentUser.displayName` (and the same for the photo):
      the auth value is taken as is, possibly missing. */
  function ProfileOrAuth(profile: Option<string>, auth: Option<string>): (r: Option<string>)
    ensures Truthy(profile) ==> r == profile
    ensures !Truthy(profile) ==> r == auth
  {
    if Truthy(profile) then profile else auth
  }

  /** The message record `sendMessage` adds, built field by field as the hook
      does (src/hooks/useMessages.js:79-100). */
  method BuildMessage(id: string, user: Session, text: Option<string>, imageURL: Option<string>,
                      fileURL: Option<string>, fileName: Option<string>, fileSize: Option<int>)
    returns (m: Message)
    ensures m.id == id && m.senderId == user.uid
    ensures m.senderName == ProfileOrAuth(user.profileName, user.authName)
    ensures m.senderPhotoURL == ProfileOrAuth(user.profilePhoto, user.authPhoto)
    ensures !m.read && m.sent && m.reactions == map[] && m.createdAt.None?
    ensures m.text == (if Truthy(text) then Some(Trim(text.value)) else None)
    ensures m.imageURL == (if Truthy(imageURL) then imageURL else None)
    ensures Truthy(fileURL) ==> m.fileURL == fileURL && m.fileName == fileName && m.fileSize == fileSize
    ensures !Truthy(fileURL) ==> m.fileURL.None? && m.fileName.None? && m.fileSize.None?
    ensures m.kind == if Truthy(fileURL) then Some("file") else if Truthy(imageURL) then Some("image") else None
  {
    m := Message(id, user.uid, ProfileOrAuth(user.profileName, user.authName),
                 ProfileOrAuth(user.profilePhoto, user.authPhoto),
                 None, None, None, None, None, None, false, true, map[], None);
    if Truthy(text) {
      m := m.(text := Some(Trim(text.value)));
    }
    if Truthy(imageURL) {
      m := m.(imageURL := imageURL, kind := Some("image"));
    }
    if Truthy(fileURL) {
      m := m.(fileURL := fileURL, fileName := fileName, fileSize := fileSize, kind := Some("file"));
    }
  }

  /** The chat list preview of a sent message (src/hooks/useMessages.js:104).
      It uses the untrimmed text. */
  function LastMessagePreview(text: Option<string>, imageURL: Option<string>, fileName: Option<string>): (r: string)
    ensures r != ""
    ensures Truthy(text) ==> r == text.value
    ensures !Truthy(text) && Truthy(imageURL) ==> r == ImagePreview
    ensures !Truthy(text) && !Truthy(imageURL) && Truthy(fileName) ==> r == fileName.value
    ensures !Truthy(text) && !Truthy(imageURL) && !Truthy(fileName) ==> r == FilePreview
  {
    if Truthy(text) then text.value
    else if Truthy(imageURL) then ImagePreview
    else OrElse(fileName, FilePreview)
  }

  /** `participants.find(id => id !== uid)`. */
  function FirstOther(participants: seq<string>, uid: string): (r: Option<string>)
    ensures r.None? <==> forall i :: 0 <= i < |participants| ==> participants[i] == uid
    ensures r.Some? ==> r.value != uid && r.value in participants
    ensures r.Some? ==> exists k :: 0 <= k < |participants| && participants[k] == r.value
                                    && forall j :: 0 <= j < k ==> participants[j] == uid
  {
    if participants == [] then None
    else if participants[0] != uid then Some(participants[0])
    else match FirstOther(participants[1..], uid)
      case None => None
      case Some(o) =>
        var k :| 0 <= k < |participants[1..]| && participants[1..][k] == o
                 && forall j :: 0 <= j < k ==> participants[1..][j] == uid;
        assert participants[k + 1] == o;
        Some(o)
  }

  /** A counter that was never written reads as 0 (`|| 0`). */
  function CounterOf(counts: map<string, int>, id: string): int {
    if id in counts then counts[id] else 0
  }

  /** The chat update `sendMessage` writes (src/hooks/useMessages.js:104-116). */
  function SummaryUpdate(chat: Chat, uid: string, text: Option<string>, imageURL: Option<string>,
                         fileName: Option<string>): (r: ChatUpdate)
    ensures r.lastMessage == LastMessagePreview(text, imageURL, fileName)
    ensures r.unread.Some? ==> r.unread.value.0 != uid && r.unread.value.0 != ""
                               && chat.participants.Some? && r.unread.value.0 in chat.participants.value
                               && r.unread.value.1 == CounterOf(chat.unreadCount, r.unread.value.0) + 1
    ensures r.unread.None? <==>
      chat.participants.None? || !Truthy(FirstOther(chat.participants.value, uid))
  {
    var other := if chat.participants.Some? then FirstOther(chat.participants.value, uid) else None;
    ChatUpdate(LastMessagePreview(text, imageURL, fileName),
               if Truthy(other) then Some((other.value, CounterOf(chat.unreadCount, other.value) + 1)) else None)
  }

  /** The counters after the update is written. */
  function ApplyUnread(counts: map<string, int>, u: ChatUpdate): map<string, int> {
    match u.unread
    case None => counts
    case Some(p) => counts[p.0 := p.1]
  }

  /** Sending raises exactly one counter, the recipient's, by exactly one; the
      sender's counter and every other one keep their value. */
  lemma {:induction false} SendRaisesOnlyRecipientCounter(chat: Chat, uid: string, text: Option<string>,
                                                          imageURL: Option<string>, fileName: Option<string>, id: string)
    requires chat.participants.Some? && Truthy(FirstOther(chat.participants.value, uid))
    ensures var after := ApplyUnread(chat.unreadCount, SummaryUpdate(chat, uid, text, imageURL, fileName));
            var other := FirstOther(chat.participants.value, uid).value;
            && CounterOf(after, other) == CounterOf(chat.unreadCount, other) + 1
            && (id != other ==> CounterOf(after, id) == CounterOf(chat.unreadCount, id))
            && CounterOf(after, uid) == CounterOf(chat.unreadCount, uid)
  {
    var u := SummaryUpdate(chat, uid, text, imageURL, fileName);
    assert u.unread.Some? && u.unread.value.0 == FirstOther(chat.participants.value, uid).value;
  }

  datatype Sent = Sent(message: Message, update: ChatUpdate)

  /** `sendMessage(text, imageURL, fileURL, fileName, fileSize)` (src/hooks/useMessages.js:75-123). */
  method SendMessage(chatId: string, user: Option<Session>, chat: Chat, id: string, text: Option<string>,
                     imageURL: Option<string>, fileURL: Option<string>, fileName: Option<string>,
                     fileSize: Option<int>) returns (r: Result<Sent, MessageError>)
    ensures chatId == "" || user.None? <==> r == Failure(MissingChatOrUser)
    ensures r.Failure? ==> r.error.Message() == Some("Missing chatId or user")
    ensures r.Success? ==>
      var m := r.value.message;
      && m.id == id && m.senderId == user.value.uid
      && m.senderName == ProfileOrAuth(user.value.profileName, user.value.authName)
      && m.senderPhotoURL == ProfileOrAuth(user.value.profilePhoto, user.value.authPhoto)
      && !m.read && m.sent && m.reactions == map[] && m.createdAt.None?
      && m.text == (if Truthy(text) then Some(Trim(text.value)) else None)
      && m.imageURL == (if Truthy(imageURL) then imageURL else None)
      && (Truthy(fileURL) ==> m.fileURL == fileURL && m.fileName == fileName && m.fileSize == fileSize)
      && (!Truthy(fileURL) ==> m.fileURL.None? && m.fileName.None? && m.fileSize.None?)
      && m.kind == (if Truthy(fileURL) then Some("file") else if Truthy(imageURL) then Some("image") else None)
      && r.value.update == SummaryUpdate(chat, user.value.uid, text, imageURL, fileName)
  {
    if chatId == "" || user.None? {
      return Failure(MissingChatOrUser);
    }
    var m := BuildMessage(id, user.value, text, imageURL, fileURL, fileName, fileSize);
    r := Success(Sent(m, SummaryUpdate(chat, user.value.uid, text, imageURL, fileName)));
  }

  /** The reactions of a message after `uid` reacts with `emoji`
      (src/hooks/useMessages.js:173-184). Other emojis are never touched. */
  function ToggledMessageReactions(rs: Reactions, emoji: string, uid: string): Reactions {
    var list := if emoji in rs then rs[emoji] else [];
    if uid in list then
      var rest := RemoveAll(list, uid);
      if rest == [] then rs - {emoji} else rs[emoji := rest]
    else rs[emoji := list + [uid]]
  }

  /** The in-place update of the fetched reactions object. */
  method ToggleMessageReaction(reactions: Reactions, emoji: string, uid: string) returns (rs: Reactions)
    ensures rs == ToggledMessageReactions(reactions, emoji, uid)
  {
    rs := reactions;
    var userReactions := if emoji in rs then rs[emoji] else [];
    if uid in userReactions {
      var updated := RemoveAll(userReactions, uid);
      if |updated| == 0 {
        rs := rs - {emoji};
      } else {
        rs := rs[emoji := updated];
      }
    } else {
      rs := rs[emoji := userReactions + [uid]];
    }
  }

  /** Reacting flips whether the user holds the emoji ... */
  lemma {:induction false} MessageReactionIsToggle(rs: Reactions, emoji: string, uid: string)
    ensures var r := ToggledMessageReactions(rs, emoji, uid);
            (emoji in r && uid in r[emoji]) <==> !(emoji in rs && uid in rs[emoji])
  {
  }

  /** ... and leaves every other emoji's list as it was, so one user may hold several emojis. */
  lemma {:induction false} MessageReactionKeepsOtherEmojis(rs: Reactions, emoji: string, uid: string, e: string)
    requires e != emoji
    ensures var r := ToggledMessageReactions(rs, emoji, uid);
            (e in r <==> e in rs) && (e in rs ==> r[e] == rs[e])
  {
  }

  /** Reacting twice with the same emoji restores the reactions, when the
      emoji's list was either absent or non-empty without the user. */
  lemma {:induction false} MessageReactTwiceRestores(rs: Reactions, emoji: string, uid: string)
    requires emoji !in rs || (rs[emoji] != [] && uid !in rs[emoji])
    ensures ToggledMessageReactions(ToggledMessageReactions(rs, emoji, uid), emoji, uid) == rs
  {
    var list := if emoji in rs then rs[emoji] else [];
    RemoveAllAppendedAbsent(list, uid);
  }

  /** `reactToMessage(messageId, emoji)` (src/hooks/useMessages.js:162-195). */
  method ReactToMessage(chatId: string, user: Option<Session>, message: Option<Message>, emoji: string)
    returns (r: Result<Reactions, MessageError>)
    ensures chatId == "" || user.None? ==> r == Failure(NoChatOrUser)
    ensures chatId != "" && user.Some? && message.None? ==> r == Failure(NotFound)
    ensures r.Failure? ==> r.error.Message().None?
    ensures chatId != "" && user.Some? && message.Some? ==>
      r == Success(ToggledMessageReactions(message.value.reactions, emoji, user.value.uid))
  {
    if chatId == "" || user.None? {
      return Failure(NoChatOrUser);
    }
    if message.None? {
      return Failure(NotFound);
    }
    var rs := ToggleMessageReaction(message.value.reactions, emoji, user.value.uid);
    r := Success(rs);
  }

  /** `deleteMessage(messageId)` (src/hooks/useMessages.js:143-160): success
      means the document is deleted. */
  function DeleteMessage(chatId: string, user: Option<Session>, message: Option<Message>): (r: Result<(), MessageError>)
    ensures r.Success? <==> chatId != "" && user.Some? && message.Some? && message.value.senderId == user.value.uid
    ensures chatId == "" || user.None? ==> r == Failure(NoChatOrUser) && r.error.Message().None?
    ensures chatId != "" && user.Some? && r.Failure? ==> r.error == Unauthorized && r.error.Message() == Some("Unauthorized")
  {
    if chatId == "" || user.None? then Failure(NoChatOrUser)
    else if message.Some? && message.value.senderId == user.value.uid then Success(())
    else Failure(Unauthorized)
  }

  /** What `markAsRead` writes: the ids it marks read, and whether it resets
      the reader's unread counter to 0 (src/hooks/useMessages.js:197-222). */
  datatype ReadPlan = ReadPlan(ids: seq<string>, resetCounter: bool)

  /** The ids of the messages from other senders that are not yet read, in order. */
  function UnreadFromOthers(msgs: seq<Message>, uid: string): (ids: seq<string>)
    ensures |ids| <= |msgs|
    ensures forall m :: m in msgs && m.senderId != uid && !m.read ==> m.id in ids
  {
    if msgs == [] then []
    else if msgs[0].senderId != uid && !msgs[0].read then [msgs[0].id] + UnreadFromOthers(msgs[1..], uid)
    else UnreadFromOthers(msgs[1..], uid)
  }

  /** Every selected id belongs to an unread message of another sender. */
  lemma {:induction false} UnreadFromOthersSound(msgs: seq<Message>, uid: string, id: string)
    requires id in UnreadFromOthers(msgs, uid)
    ensures exists k :: 0 <= k < |msgs| && msgs[k].id == id && msgs[k].senderId != uid && !msgs[k].read
  {
    if msgs[0].senderId != uid && !msgs[0].read && id == msgs[0].id {
    } else {
      UnreadFromOthersSound(msgs[1..], uid, id);
      var k :| 0 <= k < |msgs[1..]| && msgs[1..][k].id == id && msgs[1..][k].senderId != uid && !msgs[1..][k].read;
      assert msgs[k + 1] == msgs[1..][k];
    }
  }

  function MarkAsRead(chatId: string, user: Option<Session>, msgs: seq<Message>): (r: ReadPlan)
    ensures chatId == "" || user.None? ==> r == ReadPlan([], false)
    ensures chatId != "" && user.Some? ==> r.ids == UnreadFromOthers(msgs, user.value.uid)
    ensures r.resetCounter <==> r.ids != []
  {
    if chatId == "" || user.None? then ReadPlan([], false)
    else
      var ids := UnreadFromOthers(msgs, user.value.uid);
      ReadPlan(ids, ids != [])
  }

  /** The messages after the selected ones are written as read. */
  function ApplyRead(msgs: seq<Message>, ids: seq<string>): (r: seq<Message>)
    ensures |r| == |msgs|
    ensures forall i :: 0 <= i < |msgs| ==> r[i] == if msgs[i].id in ids then msgs[i].(read := true) else msgs[i]
  {
    if msgs == [] then [] else
      [if msgs[0].id in ids then msgs[0].(read := true) else msgs[0]] + ApplyRead(msgs[1..], ids)
  }

  /** Message ids are pairwise distinct, as document ids in one collection are. */
  predicate UniqueIds(msgs: seq<Message>) {
    forall i, j :: 0 <= i < |msgs| && 0 <= j < |msgs| && msgs[i].id == msgs[j].id ==> i == j
  }

  /** After `markAsRead`, every message from another sender is read, and the
      reader's own messages are untouched. */
  lemma {:induction false} MarkAsReadReadsAllFromOthers(chatId: string, user: Session, msgs: seq<Message>)
    requires chatId != "" && UniqueIds(msgs)
    ensures var after := ApplyRead(msgs, MarkAsRead(chatId, Some(user), msgs).ids);
            forall i :: 0 <= i < |msgs| ==>
              (msgs[i].senderId != user.uid ==> after[i].read)
              && (msgs[i].senderId == user.uid ==> after[i] == msgs[i])
  {
    var ids := UnreadFromOthers(msgs, user.uid);
    forall i | 0 <= i < |msgs| && msgs[i].senderId != user.uid && !msgs[i].read
      ensures msgs[i].id in ids
    {
      assert msgs[i] in msgs;
    }
    forall i | 0 <= i < |msgs| && msgs[i].senderId == user.uid
      ensures msgs[i].id !in ids
    {
      if msgs[i].id in ids {
        UnreadFromOthersSound(msgs, user.uid, msgs[i].id);
      }
    }
  }
}
