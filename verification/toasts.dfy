/** The toast stack of src/components/notifications/NotificationManager.jsx:
    unread notifications that are not on screen become candidates, the first
    candidate is pushed on top of at most two older toasts, and closing a
    toast removes it. */
module Toasts {
  import opened Common
  import opened Notifications

  /** At most this many toasts are on screen. */
  const MaxToasts: nat := 3

  /** Some toast carries this id (`toasts.find(t => t.id === id)`). */
  predicate HasId(ts: seq<Notification>, id: string)
  {
    exists i :: 0 <= i < |ts| && ts[i].id == id
  }

  /** No two toasts carry the same id. */
  predicate DistinctIds(ts: seq<Notification>) {
    forall i, j :: 0 <= i < |ts| && 0 <= j < |ts| && ts[i].id == ts[j].id ==> i == j
  }

  /** `newNotifications` (NotificationManager.jsx:9-13): the unread
      notifications whose id is not on screen, in their original order. */
  function Candidates(ns: seq<Notification>, toasts: seq<Notification>): (r: seq<Notification>)
    ensures |r| <= |ns|
    ensures forall n :: n in r <==> n in ns && !n.read && !HasId(toasts, n.id)
  {
    if ns == [] then []
    else if !ns[0].read && !HasId(toasts, ns[0].id) then [ns[0]] + Candidates(ns[1..], toasts)
    else Candidates(ns[1..], toasts)
  }

  /** Whether `n` is a candidate while `toasts` are on screen. */
  predicate IsCandidate(n: Notification, toasts: seq<Notification>) {
    !n.read && !HasId(toasts, n.id)
  }

  lemma {:induction false} CandidatesFilter(ns: seq<Notification>, toasts: seq<Notification>)
    ensures Candidates(ns, toasts) == Filter(ns, n => IsCandidate(n, toasts))
  {
    if ns != [] {
      CandidatesFilter(ns[1..], toasts);
    }
  }

  /** The candidates of a concatenation are those of each part, in order. */
  lemma {:induction false} CandidatesConcat(a: seq<Notification>, b: seq<Notification>, toasts: seq<Notification>)
    ensures Candidates(a + b, toasts) == Candidates(a, toasts) + Candidates(b, toasts)
  {
    CandidatesFilter(a + b, toasts);
    CandidatesFilter(a, toasts);
    CandidatesFilter(b, toasts);
    FilterConcat(a, b, n => IsCandidate(n, toasts));
  }

  /** The candidate the effect toasts, `newNotifications[0]`, is the first
      unread notification, in list order, whose id is not on screen. */
  lemma {:induction false} FirstCandidate(ns: seq<Notification>, toasts: seq<Notification>)
    requires Candidates(ns, toasts) != []
    ensures exists k :: 0 <= k < |ns| && ns[k] == Candidates(ns, toasts)[0]
                        && !ns[k].read && !HasId(toasts, ns[k].id)
                        && forall j :: 0 <= j < k ==> ns[j].read || HasId(toasts, ns[j].id)
  {
    if !ns[0].read && !HasId(toasts, ns[0].id) {
      assert ns[0] == Candidates(ns, toasts)[0];
    } else {
      FirstCandidate(ns[1..], toasts);
      var k :| 0 <= k < |ns[1..]| && ns[1..][k] == Candidates(ns[1..], toasts)[0]
               && !ns[1..][k].read && !HasId(toasts, ns[1..][k].id)
               && forall j :: 0 <= j < k ==> ns[1..][j].read || HasId(toasts, ns[1..][j].id);
      assert ns[k + 1] == ns[1..][k];
      forall j | 0 <= j < k + 1 ensures ns[j].read || HasId(toasts, ns[j].id) {
        if j > 0 {
          assert ns[j] == ns[1..][j - 1];
        }
      }
    }
  }

  /** `[latest, ...prev.slice(0, 2)]`. */
  function Pushed(n: Notification, toasts: seq<Notification>): (r: seq<Notification>)
    ensures 1 <= |r| <= MaxToasts && r[0] == n
    ensures r[1..] == if |toasts| <= MaxToasts - 1 then toasts else toasts[..MaxToasts - 1]
  {
    [n] + (if |toasts| <= MaxToasts - 1 then toasts else toasts[..MaxToasts - 1])
  }

  /** `prev.filter(n => n.id !== id)` (NotificationManager.jsx:22-24). */
  function WithoutId(ts: seq<Notification>, id: string): (r: seq<Notification>)
    ensures |r| <= |ts|
    ensures forall t :: t in r <==> t in ts && t.id != id
  {
    if ts == [] then []
    else if ts[0].id == id then WithoutId(ts[1..], id)
    else [ts[0]] + WithoutId(ts[1..], id)
  }

  lemma {:induction false} WithoutIdFilter(ts: seq<Notification>, id: string)
    ensures WithoutId(ts, id) == Filter(ts, (t: Notification) => t.id != id)
  {
    if ts != [] {
      WithoutIdFilter(ts[1..], id);
    }
  }

  /** Closing distributes over concatenation, so the remaining toasts keep
      their order. */
  lemma {:induction false} WithoutIdConcat(a: seq<Notification>, b: seq<Notification>, id: string)
    ensures WithoutId(a + b, id) == WithoutId(a, id) + WithoutId(b, id)
  {
    WithoutIdFilter(a + b, id);
    WithoutIdFilter(a, id);
    WithoutIdFilter(b, id);
    FilterConcat(a, b, (t: Notification) => t.id != id);
  }

  /** Removing entries keeps the remaining ids distinct. */
  lemma {:induction false} WithoutIdKeepsDistinct(ts: seq<Notification>, id: string)
    requires DistinctIds(ts)
    ensures DistinctIds(WithoutId(ts, id))
  {
    if ts != [] {
      WithoutIdKeepsDistinct(ts[1..], id);
      var rest := WithoutId(ts[1..], id);
      forall j | 0 <= j < |rest| ensures rest[j].id != ts[0].id {
        assert rest[j] in ts[1..];
      }
    }
  }

  /** A pushed candidate is not on screen, so ids stay distinct. */
  lemma {:induction false} PushedKeepsDistinct(ns: seq<Notification>, toasts: seq<Notification>)
    requires DistinctIds(toasts) && Candidates(ns, toasts) != []
    ensures DistinctIds(Pushed(Candidates(ns, toasts)[0], toasts))
  {
    var n := Candidates(ns, toasts)[0];
    assert n in Candidates(ns, toasts);
    var r := Pushed(n, toasts);
    forall j | 0 < j < |r| ensures r[j].id != n.id {
      assert r[j] == toasts[j - 1];
    }
  }

  /** The ids on screen. */
  function IdSet(ts: seq<Notification>): (s: set<string>)
    ensures |s| <= |ts|
    ensures forall id :: id in s <==> HasId(ts, id)
  {
    if ts == [] then {}
    else
      var rest := IdSet(ts[1..]);
      assert forall id :: HasId(ts, id) <==> id == ts[0].id || HasId(ts[1..], id) by {
        forall id | HasId(ts, id) ensures id == ts[0].id || HasId(ts[1..], id) {
          var i :| 0 <= i < |ts| && ts[i].id == id;
          if i > 0 {
            assert ts[1..][i - 1].id == id;
          }
        }
        forall id | HasId(ts[1..], id) ensures HasId(ts, id) {
          var i :| 0 <= i < |ts[1..]| && ts[1..][i].id == id;
          assert ts[i + 1].id == id;
        }
      }
      {ts[0].id} + rest
  }

  /** As written, the effect never settles once four notifications with
      different ids are unread: whatever three toasts are on screen, a
      candidate is left, so every run pushes another toast, which re-runs the
      effect. */
  lemma {:induction false} CandidatesNeverRunOut(ns: seq<Notification>, toasts: seq<Notification>)
    requires |toasts| <= MaxToasts
    requires |UnreadIds(ns)| > MaxToasts
    ensures Candidates(ns, toasts) != []
  {
    var onScreen := IdSet(toasts);
    var left := UnreadIds(ns) - onScreen;
    assert |left| > 0 by {
      assert UnreadIds(ns) <= left + onScreen;
      SubsetCard(UnreadIds(ns), left + onScreen);
      assert |left + onScreen| <= |left| + |onScreen|;
    }
    var id :| id in left;
    var i :| 0 <= i < |ns| && !ns[i].read && ns[i].id == id;
    assert ns[i] in Candidates(ns, toasts);
  }

  lemma {:induction false} SubsetCard(a: set<string>, b: set<string>)
    requires a <= b
    ensures |a| <= |b|
  {
    assert b == a + (b - a);
  }

  /** As written, a toast pushed off the bottom while still unread is a
      candidate again at once. */
  lemma {:induction false} EvictedToastReturns(ns: seq<Notification>, toasts: seq<Notification>)
    requires |toasts| == MaxToasts && DistinctIds(toasts) && Candidates(ns, toasts) != []
    requires toasts[2] in ns && !toasts[2].read
    ensures toasts[2] in Candidates(ns, Pushed(Candidates(ns, toasts)[0], toasts))
  {
    var n := Candidates(ns, toasts)[0];
    assert n in Candidates(ns, toasts);
    var r := Pushed(n, toasts);
    assert n.id != toasts[2].id by {
      assert HasId(toasts, toasts[2].id);
    }
    forall j | 0 <= j < |r| ensures r[j].id != toasts[2].id {
      if j > 0 {
        assert r[j] == toasts[j - 1];
      }
    }
  }

  /** The notifications that were never toasted. */
  function Fresh(ns: seq<Notification>, shown: set<string>): (r: seq<Notification>)
    ensures |r| <= |ns|
    ensures forall n :: n in r <==> n in ns && !n.read && n.id !in shown
  {
    if ns == [] then []
    else if !ns[0].read && ns[0].id !in shown then [ns[0]] + Fresh(ns[1..], shown)
    else Fresh(ns[1..], shown)
  }

  /** With a record of the ids already toasted, every push shrinks the set of
      unread ids still to toast, so the effect settles after at most one run
      per unread notification. */
  lemma {:induction false} FreshRunsOut(ns: seq<Notification>, shown: set<string>)
    requires Fresh(ns, shown) != []
    ensures var id := Fresh(ns, shown)[0].id;
            |UnreadIds(ns) - (shown + {id})| < |UnreadIds(ns) - shown|
  {
    var n := Fresh(ns, shown)[0];
    assert n in Fresh(ns, shown);
    var i :| 0 <= i < |ns| && ns[i] == n;
    assert n.id in UnreadIds(ns) - shown;
    assert UnreadIds(ns) - (shown + {n.id}) == (UnreadIds(ns) - shown) - {n.id};
  }

  lemma {:induction false} PushedUnshownKeepsValid(n: Notification, toasts: seq<Notification>, shown: set<string>)
    requires DistinctIds(toasts) && n.id !in shown
    requires forall i :: 0 <= i < |toasts| ==> toasts[i].id in shown
    ensures var r := Pushed(n, toasts);
            DistinctIds(r) && forall i :: 0 <= i < |r| ==> r[i].id in shown + {n.id}
  {
    var r := Pushed(n, toasts);
    forall j | 0 < j < |r| ensures r[j] == toasts[j - 1] {
    }
  }

  /** The toast state as written: only the list on screen. */
  class ToastQueue {
    var toasts: seq<Notification>

    ghost predicate Valid()
      reads this
    {
      |toasts| <= MaxToasts && DistinctIds(toasts)
    }

    constructor()
      ensures toasts == [] && Valid()
    {
      toasts := [];
    }

    /** The effect (NotificationManager.jsx:15-20): push the first candidate. */
    method Receive(ns: seq<Notification>)
      requires Valid()
      modifies this
      ensures Valid()
      ensures Candidates(ns, old(toasts)) == [] ==> toasts == old(toasts)
      ensures Candidates(ns, old(toasts)) != [] ==> toasts == Pushed(Candidates(ns, old(toasts))[0], old(toasts))
    {
      var candidates := Candidates(ns, toasts);
      if |candidates| > 0 {
        PushedKeepsDistinct(ns, toasts);
        toasts := Pushed(candidates[0], toasts);
      }
    }

    /** `handleClose(id)` (NotificationManager.jsx:22-24). */
    method Close(id: string)
      requires Valid()
      modifies this
      ensures Valid()
      ensures toasts == WithoutId(old(toasts), id)
    {
      WithoutIdKeepsDistinct(toasts, id);
      toasts := WithoutId(toasts, id);
    }
  }

  /** The settling toast state: it also remembers every id it has toasted,
      and a notification is toasted at most once. */
  class OnceToastQueue {
    var toasts: seq<Notification>
    var shown: set<string>

    ghost predicate Valid()
      reads this
    {
      |toasts| <= MaxToasts && DistinctIds(toasts) && forall i :: 0 <= i < |toasts| ==> toasts[i].id in shown
    }

    constructor()
      ensures toasts == [] && shown == {} && Valid()
    {
      toasts := [];
      shown := {};
    }

    method Receive(ns: seq<Notification>)
      requires Valid()
      modifies this
      ensures Valid()
      ensures Fresh(ns, old(shown)) == [] ==> toasts == old(toasts) && shown == old(shown)
      ensures Fresh(ns, old(shown)) != [] ==>
        && toasts == Pushed(Fresh(ns, old(shown))[0], old(toasts))
        && shown == old(shown) + {Fresh(ns, old(shown))[0].id}
        && |UnreadIds(ns) - shown| < |UnreadIds(ns) - old(shown)|
    {
      var candidates := Fresh(ns, shown);
      if |candidates| > 0 {
        var n := candidates[0];
        assert n in candidates;
        FreshRunsOut(ns, shown);
        PushedUnshownKeepsValid(n, toasts, shown);
        toasts := Pushed(n, toasts);
        shown := shown + {n.id};
      }
    }

    method Close(id: string)
      requires Valid()
      modifies this
      ensures Valid()
      ensures toasts == WithoutId(old(toasts), id) && shown == old(shown)
    {
      WithoutIdKeepsDistinct(toasts, id);
      toasts := WithoutId(toasts, id);
    }
  }
}
