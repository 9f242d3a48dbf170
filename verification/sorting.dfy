/** `Array.prototype.sort` with a comparator, as the list views use it: a
    stable sort by a total preorder `le` ("may come first"), written as an
    insertion sort. */
module Sorting {

  /** `le` is a total preorder: any two elements compare, and the order is
      transitive. */
  ghost predicate TotalPreorder<T(!new)>(le: (T, T) -> bool) {
    (forall a, b :: le(a, b) || le(b, a))
    && (forall a, b, c :: le(a, b) && le(b, c) ==> le(a, c))
  }

  /** `le` is a total preorder on the elements of `s`. */
  ghost predicate PreorderOn<T>(le: (T, T) -> bool, s: seq<T>) {
    (forall a, b :: a in s && b in s ==> le(a, b) || le(b, a))
    && (forall a, b, c :: a in s && b in s && c in s && le(a, b) && le(b, c) ==> le(a, c))
  }

  predicate Sorted<T>(s: seq<T>, le: (T, T) -> bool) {
    forall i, j :: 0 <= i < j < |s| ==> le(s[i], s[j])
  }

  /** `x` placed before the first element it may precede; ties keep `x` first. */
  function Insert<T>(x: T, s: seq<T>, le: (T, T) -> bool): (r: seq<T>)
    ensures |r| == |s| + 1
  {
    if s == [] || le(x, s[0]) then [x] + s else [s[0]] + Insert(x, s[1..], le)
  }

  function SortBy<T>(s: seq<T>, le: (T, T) -> bool): (r: seq<T>)
    ensures |r| == |s|
  {
    if s == [] then [] else Insert(s[0], SortBy(s[1..], le), le)
  }

  lemma {:induction false} InsertPermutes<T>(x: T, s: seq<T>, le: (T, T) -> bool)
    ensures multiset(Insert(x, s, le)) == multiset(s) + multiset{x}
  {
    if s != [] && !le(x, s[0]) {
      InsertPermutes(x, s[1..], le);
      assert s == [s[0]] + s[1..];
    }
  }

  lemma {:induction false} InsertSorted<T>(x: T, s: seq<T>, le: (T, T) -> bool)
    requires PreorderOn(le, [x] + s) && Sorted(s, le)
    ensures Sorted(Insert(x, s, le), le)
  {
    if s != [] && !le(x, s[0]) {
      var rest := Insert(x, s[1..], le);
      assert PreorderOn(le, [x] + s[1..]) by {
        assert forall y :: y in [x] + s[1..] ==> y in [x] + s;
      }
      InsertSorted(x, s[1..], le);
      InsertPermutes(x, s[1..], le);
      assert le(s[0], x) by { assert s[0] in [x] + s; }
      var r := [s[0]] + rest;
      forall j | 0 < j < |r| ensures le(s[0], r[j]) {
        assert r[j] in multiset(rest);
        assert r[j] in multiset(s[1..]) + multiset{x};
        if r[j] != x {
          assert r[j] in s[1..];
          var k :| 0 <= k < |s[1..]| && s[1..][k] == r[j];
          assert s[k + 1] == r[j];
        }
      }
    }
  }

  /** The sorted list is a permutation of the input. */
  lemma {:induction false} SortPermutes<T>(s: seq<T>, le: (T, T) -> bool)
    ensures multiset(SortBy(s, le)) == multiset(s)
  {
    if s != [] {
      SortPermutes(s[1..], le);
      InsertPermutes(s[0], SortBy(s[1..], le), le);
      assert s == [s[0]] + s[1..];
    }
  }

  /** When `le` is a total preorder on the elements being sorted, the
      result is ordered. */
  lemma {:induction false} SortSortsOn<T>(s: seq<T>, le: (T, T) -> bool)
    requires PreorderOn(le, s)
    ensures Sorted(SortBy(s, le), le)
  {
    if s != [] {
      var rest := SortBy(s[1..], le);
      assert PreorderOn(le, s[1..]) by {
        assert forall y :: y in s[1..] ==> y in s;
      }
      SortSortsOn(s[1..], le);
      SortPermutes(s[1..], le);
      assert PreorderOn(le, [s[0]] + rest) by {
        forall y | y in [s[0]] + rest ensures y in s {
          if y != s[0] {
            assert y in multiset(rest);
            assert y in multiset(s[1..]);
          }
        }
      }
      InsertSorted(s[0], rest, le);
    }
  }

  /** Under a total preorder the result is ordered. */
  lemma {:induction false} SortSorts<T(!new)>(s: seq<T>, le: (T, T) -> bool)
    requires TotalPreorder(le)
    ensures Sorted(SortBy(s, le), le)
  {
    SortSortsOn(s, le);
  }

  /** `list.slice(0, n)`: a negative end counts from the back. */
  function Take<T>(s: seq<T>, n: int): (r: seq<T>)
    ensures 0 <= n <= |s| ==> |r| == n
    ensures n > |s| ==> r == s
    ensures n < 0 ==> |r| == if |s| + n < 0 then 0 else |s| + n
    ensures r == s[..|r|]
  {
    if n < 0 then (if |s| + n < 0 then [] else s[..|s| + n])
    else if n <= |s| then s[..n] else s
  }

  /** Code-point order on strings: a prefix comes first. */
  predicate LexLe(a: string, b: string) {
    a == [] || (b != [] && (a[0] < b[0] || (a[0] == b[0] && LexLe(a[1..], b[1..]))))
  }

  lemma {:induction false} LexLeTotal(a: string, b: string)
    ensures LexLe(a, b) || LexLe(b, a)
  {
    if a != [] && b != [] && a[0] == b[0] {
      LexLeTotal(a[1..], b[1..]);
    }
  }

  lemma {:induction false} LexLeTransitive(a: string, b: string, c: string)
    requires LexLe(a, b) && LexLe(b, c)
    ensures LexLe(a, c)
  {
    if a != [] && a[0] == b[0] && b[0] == c[0] {
      LexLeTransitive(a[1..], b[1..], c[1..]);
    }
  }
}
