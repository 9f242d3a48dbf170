/** The chat list of src/hooks/useChats.js: each chat of the viewer becomes
    an entry about the other participant, chats that cannot be shown are
    dropped, and the entries are ordered newest first. The chat snapshot and
    the user documents are parameters. */
module ChatList {
  import opened Common
  import opened Sorting
  import Messages

  /** The fields of a chat document the hook reads; `updatedAt` is the
      timestamp in milliseconds, when set. */
  datatype ChatDoc = ChatDoc(
    id: string, participants: seq<string>, lastMessage: Option<string>,
    unreadCount: Option<map<string, int>>, updatedAt: Option<int>)

  /** The fields of a user document the hook reads. */
  datatype UserDoc = UserDoc(displayName: Option<string>, photoURL: Option<string>, isOnline: bool)

  /** One entry of the list (useChats.js:37-46). */
  datatype Entry = Entry(
    id: string, userId: string, userName: Option<string>, userPhotoURL: Option<string>,
    isOnline: bool, lastMessage: string, unreadCount: int, updatedAt: Option<int>)

  /** `chatData.unreadCount?.[me] || 0`. */
  function UnreadFor(counts: Option<map<string, int>>, me: string): int {
    if counts.Some? && me in counts.value then counts.value[me] else 0
  }

  /** The entry a chat becomes, or None when it has no other (truthy)
      participant or that user's document is missing (useChats.js:28-49).
      `users` maps user ids to the documents that exist. */
  function EntryOf(c: ChatDoc, me: string, users: map<string, UserDoc>): (r: Option<Entry>)
    ensures r.Some? <==> Truthy(Messages.FirstOther(c.participants, me)) && Messages.FirstOther(c.participants, me).value in users
    ensures r.Some? ==>
      var other := Messages.FirstOther(c.participants, me).value;
      var u := users[other];
      && r.value.id == c.id && r.value.userId == other && r.value.userId != me
      && r.value.userName == u.displayName && r.value.userPhotoURL == u.photoURL && r.value.isOnline == u.isOnline
      && r.value.lastMessage == OrElse(c.lastMessage, "")
      && r.value.unreadCount == UnreadFor(c.unreadCount, me)
      && r.value.updatedAt == c.updatedAt
  {
    var other := Messages.FirstOther(c.participants, me);
    if Truthy(other) && other.value in users then
      var u := users[other.value];
      Some(Entry(c.id, other.value, u.displayName, u.photoURL, u.isOnline,
                 OrElse(c.lastMessage, ""), UnreadFor(c.unreadCount, me), c.updatedAt))
    else None
  }

  /** `chatsData.filter(Boolean)`: the entries of the chats that have one, in
      snapshot order. */
  function Entries(chats: seq<ChatDoc>, me: string, users: map<string, UserDoc>): (r: seq<Entry>)
    ensures |r| <= |chats|
    ensures forall c :: c in chats && EntryOf(c, me, users).Some? ==> EntryOf(c, me, users).value in r
    ensures forall e :: e in r ==> exists c :: c in chats && EntryOf(c, me, users) == Some(e)
  {
    if chats == [] then []
    else
      var head := EntryOf(chats[0], me, users);
      var rest := Entries(chats[1..], me, users);
      assert forall c :: c in chats[1..] ==> c in chats;
      (if head.Some? then [head.value] else []) + rest
  }

  /** The comparator of useChats.js:53-56 as "may come first": entries
      without a timestamp compare equal to everything. */
  function NewerFirst(a: Entry, b: Entry): bool {
    a.updatedAt.None? || b.updatedAt.None? || a.updatedAt.value >= b.updatedAt.value
  }

  /** The list the hook stores. */
  function ChatEntries(chats: seq<ChatDoc>, me: string, users: map<string, UserDoc>): seq<Entry> {
    SortBy(Entries(chats, me, users), NewerFirst)
  }

  /** The comparator is not a total preorder: an entry without a timestamp
      ties with an older and a newer one that do not tie. The order of such
      a list is whatever the sort makes of it. */
  lemma NewerFirstNotTransitive()
    ensures !TotalPreorder(NewerFirst)
  {
    var older := Entry("a", "u", None, None, false, "", 0, Some(1));
    var undated := Entry("b", "u", None, None, false, "", 0, None);
    var newer := Entry("c", "u", None, None, false, "", 0, Some(2));
    assert NewerFirst(older, undated) && NewerFirst(undated, newer) && !NewerFirst(older, newer);
  }

  /** Every entry has a timestamp and none is newer than one before it. */
  predicate NewestFirst(r: seq<Entry>) {
    forall i, j :: 0 <= i < j < |r| ==>
      r[i].updatedAt.Some? && r[j].updatedAt.Some? && r[i].updatedAt.value >= r[j].updatedAt.value
  }

  /** Sorting entries that all carry a timestamp puts the newest first. */
  lemma {:induction false} DatedSortNewestFirst(es: seq<Entry>)
    requires forall e :: e in es ==> e.updatedAt.Some?
    ensures NewestFirst(SortBy(es, NewerFirst))
  {
    assert PreorderOn(NewerFirst, es);
    SortSortsOn(es, NewerFirst);
    SortPermutes(es, NewerFirst);
    var r := SortBy(es, NewerFirst);
    forall i, j | 0 <= i < j < |r|
      ensures r[i].updatedAt.Some? && r[j].updatedAt.Some? && r[i].updatedAt.value >= r[j].updatedAt.value
    {
      assert r[i] in multiset(es) && r[j] in multiset(es);
      assert NewerFirst(r[i], r[j]);
    }
  }

  /** The stored list holds exactly the displayable chats' entries, and when
      every chat carries a timestamp it is ordered newest first. */
  lemma {:induction false} ChatEntriesOrdered(chats: seq<ChatDoc>, me: string, users: map<string, UserDoc>)
    ensures multiset(ChatEntries(chats, me, users)) == multiset(Entries(chats, me, users))
    ensures (forall c :: c in chats ==> c.updatedAt.Some?) ==> NewestFirst(ChatEntries(chats, me, users))
  {
    var es := Entries(chats, me, users);
    SortPermutes(es, NewerFirst);
    if forall c :: c in chats ==> c.updatedAt.Some? {
      forall e | e in es ensures e.updatedAt.Some? {
        var c :| c in chats && EntryOf(c, me, users) == Some(e);
      }
      DatedSortNewestFirst(es);
    }
  }

  /** The snapshot callback as the code stands (useChats.js:27-34): the map
      callback's parameter `doc` hides the imported `doc` function, so
      `doc(db, 'users', id)` throws for every chat that has another
      participant. `Promise.all` then rejects and the callback stops before
      `setChats`. The result is the list stored, or None when nothing is. */
  function SnapshotAsWritten(chats: seq<ChatDoc>, me: string): (r: Option<seq<Entry>>)
    ensures r.None? <==> exists c :: c in chats && Truthy(Messages.FirstOther(c.participants, me))
    ensures r.Some? ==> r.value == []
  {
    if chats == [] then Some([])
    else if Truthy(Messages.FirstOther(chats[0].participants, me)) then None
    else
      assert forall c :: c in chats[1..] ==> c in chats;
      SnapshotAsWritten(chats[1..], me)
  }

  /** As written, the list is stored only when no chat has another
      participant, and it is then the (empty) list the hook means to store. */
  lemma {:induction false} AsWrittenStoresOnlyEmpty(chats: seq<ChatDoc>, me: string, users: map<string, UserDoc>)
    ensures SnapshotAsWritten(chats, me).Some? ==> SnapshotAsWritten(chats, me).value == ChatEntries(chats, me, users)
  {
    if SnapshotAsWritten(chats, me).Some? {
      NoOtherNoEntries(chats, me, users);
    }
  }

  lemma {:induction false} NoOtherNoEntries(chats: seq<ChatDoc>, me: string, users: map<string, UserDoc>)
    requires forall c :: c in chats ==> !Truthy(Messages.FirstOther(c.participants, me))
    ensures Entries(chats, me, users) == []
  {
    if chats != [] {
      assert chats[0] in chats;
      assert forall c :: c in chats[1..] ==> c in chats;
      NoOtherNoEntries(chats[1..], me, users);
    }
  }

  /** A viewer with one ordinary chat: the hook means to list it, but as
      written nothing is stored and loading never ends. */
  lemma ShadowedDocLosesChats(me: string, other: string, u: UserDoc)
    requires other != "" && other != me
    ensures var chats := [ChatDoc("c", [me, other], None, None, None)];
            && SnapshotAsWritten(chats, me).None?
            && |ChatEntries(chats, me, map[other := u])| == 1
  {
    var chats := [ChatDoc("c", [me, other], None, None, None)];
    var users := map[other := u];
    assert Messages.FirstOther([me, other], me) == Some(other) by {
      assert [me, other][1..] == [other];
    }
    assert chats[0] in chats;
    assert chats[1..] == [];
    assert Entries(chats, me, users) == [EntryOf(chats[0], me, users).value];
  }

  /** The hook's state. */
  class ChatListState {
    var chats: seq<Entry>
    var loading: bool

    constructor()
      ensures chats == [] && loading
    {
      chats, loading := [], true;
    }

    /** The effect with nobody signed in (useChats.js:12-15): loading ends
        and nothing is subscribed. */
    method SignedOut()
      modifies this
      ensures !loading && chats == old(chats)
    {
      loading := false;
    }

    /** A snapshot of the viewer's chats (useChats.js:25-58). */
    method OnSnapshot(snapshot: seq<ChatDoc>, me: string, users: map<string, UserDoc>)
      modifies this
      ensures !loading && chats == ChatEntries(snapshot, me, users)
    {
      chats := ChatEntries(snapshot, me, users);
      loading := false;
    }

    /** A failed subscription (useChats.js:59-65): the list is kept. */
    method OnError()
      modifies this
      ensures !loading && chats == old(chats)
    {
      loading := false;
    }
  }
}
