/** The two memoised computations of src/components/chat/ChatWindow.jsx: the
    search filter over the loaded messages and the grouping flags that decide
    where avatars, time stamps and gaps are drawn. */
module ChatView {
  import opened Common
  import opened Messages

  /** The message matches the lower-cased query through its text or its sender name. */
  predicate Matches(m: Message, query: string) {
    (m.text.Some? && Contains(Lower(m.text.value), query))
    || (m.senderName.Some? && Contains(Lower(m.senderName.value), query))
  }

  /** `messages.filter(...)` for a given lower-cased query. */
  function FilterMessages(msgs: seq<Message>, query: string): (r: seq<Message>)
    ensures |r| <= |msgs|
    ensures forall m :: m in r <==> m in msgs && Matches(m, query)
  {
    if msgs == [] then []
    else if Matches(msgs[0], query) then [msgs[0]] + FilterMessages(msgs[1..], query)
    else FilterMessages(msgs[1..], query)
  }

  /** The filter keeps the original order: filtering a concatenation is the
      concatenation of the filtered parts. */
  lemma {:induction false} FilterKeepsOrder(a: seq<Message>, b: seq<Message>, query: string)
    ensures FilterMessages(a + b, query) == FilterMessages(a, query) + FilterMessages(b, query)
  {
    if a == [] {
      assert a + b == b;
    } else {
      assert (a + b)[1..] == a[1..] + b;
      FilterKeepsOrder(a[1..], b, query);
    }
  }

  /** When every message matches, nothing is dropped. */
  lemma {:induction false} FilterAllMatching(msgs: seq<Message>, query: string)
    requires forall i :: 0 <= i < |msgs| ==> Matches(msgs[i], query)
    ensures FilterMessages(msgs, query) == msgs
  {
    if msgs != [] {
      FilterAllMatching(msgs[1..], query);
    }
  }

  /** `filteredMessages` (src/components/chat/ChatWindow.jsx:59-67): the blank
      test trims the query, but the filter uses the lower-cased untrimmed query. */
  function FilteredMessages(msgs: seq<Message>, searchQuery: string): (r: seq<Message>)
    ensures IsBlank(searchQuery) ==> r == msgs
    ensures !IsBlank(searchQuery) ==> forall m :: m in r <==> m in msgs && Matches(m, Lower(searchQuery))
  {
    if IsBlank(searchQuery) then msgs else FilterMessages(msgs, Lower(searchQuery))
  }

  /** A message extended with the four display flags. */
  datatype Shown = Shown(message: Message, isGrouped: bool, showAvatar: bool, hasTimeGap: bool, showTime: bool)

  const GroupWindow: int := 300000
  const TimeGapWindow: int := 180000

  /** The time from `a` to `b` in milliseconds; `None` stands for Infinity
      (a missing timestamp on either side). */
  function Diff(a: Message, b: Message): Option<int> {
    if a.createdAt.Some? && b.createdAt.Some? then Some(b.createdAt.value - a.createdAt.value) else None
  }

  /** `diff < w`, where Infinity is never below a bound. */
  predicate Below(d: Option<int>, w: int) {
    d.Some? && d.value < w
  }

  /** The flags the reducer computes for element `i`
      (src/components/chat/ChatWindow.jsx:71-97), read off the neighbours. */
  function Annotate(msgs: seq<Message>, i: nat): Shown
    requires i < |msgs|
  {
    var m := msgs[i];
    var timeDiff := if i > 0 then Diff(msgs[i - 1], m) else None;
    var nextTimeDiff := if i < |msgs| - 1 then Diff(m, msgs[i + 1]) else None;
    var isGrouped := i > 0 && msgs[i - 1].senderId == m.senderId && Below(timeDiff, GroupWindow);
    var hasTimeGap := !Below(timeDiff, TimeGapWindow);
    var nextHasTimeGap := !Below(nextTimeDiff, TimeGapWindow);
    Shown(m, isGrouped, !isGrouped, hasTimeGap, hasTimeGap || (!nextHasTimeGap && i == |msgs| - 1))
  }

  /** The `reduce` from index `i` on: one extended record per message. */
  function GroupFrom(msgs: seq<Message>, i: nat): (r: seq<Shown>)
    requires i <= |msgs|
    ensures |r| == |msgs| - i
    ensures forall k :: 0 <= k < |r| ==> r[k] == Annotate(msgs, i + k)
    decreases |msgs| - i
  {
    if i == |msgs| then [] else [Annotate(msgs, i)] + GroupFrom(msgs, i + 1)
  }

  /** `groupedMessages` (src/components/chat/ChatWindow.jsx:69-102). */
  function GroupedMessages(msgs: seq<Message>): (r: seq<Shown>)
    ensures |r| == |msgs|
    ensures forall i :: 0 <= i < |msgs| ==> r[i].message == msgs[i]
  {
    GroupFrom(msgs, 0)
  }

  /** The meaning of each flag, for every position of the grouped list:
      grouping needs the same sender within 300000 ms, the avatar shows
      exactly when the message is not grouped, and the time shows exactly
      when the gap is at least 180000 ms (the `showTime` disjunct about the
      last message can never hold, because there is no next message). */
  lemma {:induction false} GroupedFlags(msgs: seq<Message>, i: nat)
    requires i < |msgs|
    ensures var s := GroupedMessages(msgs)[i];
            var gap := if i > 0 then Diff(msgs[i - 1], msgs[i]) else None;
            && (s.isGrouped <==> i > 0 && msgs[i - 1].senderId == msgs[i].senderId && Below(gap, GroupWindow))
            && s.showAvatar == !s.isGrouped
            && (s.hasTimeGap <==> !Below(gap, TimeGapWindow))
            && s.showTime == s.hasTimeGap
  {
    assert GroupedMessages(msgs)[i] == Annotate(msgs, i);
  }

  /** The first message always shows its avatar and its time. */
  lemma {:induction false} FirstMessageShowsAvatar(msgs: seq<Message>)
    requires msgs != []
    ensures GroupedMessages(msgs)[0].showAvatar && GroupedMessages(msgs)[0].showTime
  {
    GroupedFlags(msgs, 0);
  }

  /** A message from the same sender 180000 to 299999 ms after the previous
      one is drawn grouped (no avatar) and still after a time gap. */
  lemma {:induction false} GroupedAndGapped(msgs: seq<Message>, i: nat)
    requires 0 < i < |msgs| && msgs[i - 1].senderId == msgs[i].senderId
    requires msgs[i - 1].createdAt.Some? && msgs[i].createdAt.Some?
    requires TimeGapWindow <= msgs[i].createdAt.value - msgs[i - 1].createdAt.value < GroupWindow
    ensures GroupedMessages(msgs)[i].isGrouped && GroupedMessages(msgs)[i].hasTimeGap
            && !GroupedMessages(msgs)[i].showAvatar && GroupedMessages(msgs)[i].showTime
  {
    GroupedFlags(msgs, i);
  }

  /** A message with no timestamp is never grouped and always starts a time gap. */
  lemma {:induction false} MissingTimestampStartsGroup(msgs: seq<Message>, i: nat)
    requires i < |msgs| && msgs[i].createdAt.None?
    ensures !GroupedMessages(msgs)[i].isGrouped && GroupedMessages(msgs)[i].hasTimeGap
  {
    GroupedFlags(msgs, i);
  }
}
