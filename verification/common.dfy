/** Values and string helpers shared by every module of the model.
    JavaScript strings are modelled as `string` (a sequence of Unicode scalar
    values); `undefined`/`null` fields are modelled with `Option`. */
module Common {

  datatype Option<+T> = None | Some(value: T)

  /** The outcome of an operation that can fail with an error the caller sees. */
  datatype Result<+T, +E> = Success(value: T) | Failure(error: E)

  /** The signed-in user as the hooks see it: the auth account and, when it has
      loaded, the profile document (src/contexts/AuthContext.jsx is not part of
      this model; only these fields are read). */
  datatype Session = Session(
    uid: string,
    profileName: Option<string>, authName: Option<string>,
    profilePhoto: Option<string>, authPhoto: Option<string>)

  /** The literal 'Người dùng' ("user") used as a fallback display name. */
  const DefaultUserName: string := "Người dùng"

  /** JavaScript's `s || d` for a possibly missing string: a missing or empty
      string falls back to `d`. */
  function OrElse(s: Option<string>, d: string): string {
    if s.Some? && s.value != "" then s.value else d
  }

  /** JavaScript truthiness of a possibly missing string. */
  predicate Truthy(s: Option<string>) {
    s.Some? && s.value != ""
  }

  /** The characters `String.prototype.trim` strips: tab, vertical tab,
      form feed, the byte order mark, every space separator (U+0020, U+00A0,
      U+1680, U+2000 to U+200A, U+202F, U+205F, U+3000) and the line
      terminators (LF, CR, U+2028, U+2029). */
  predicate IsSpace(c: char) {
    c == ' ' || c == '\t' || c == '\n' || c == '\r' || c == '\U{000B}' || c == '\U{000C}'
    || c == '\U{00A0}' || c == '\U{FEFF}' || c == '\U{2028}' || c == '\U{2029}'
    || c == '\U{1680}' || ('\U{2000}' <= c <= '\U{200A}') || c == '\U{202F}' || c == '\U{205F}'
    || c == '\U{3000}'
  }

  function TrimStart(s: string): string {
    if s == [] || !IsSpace(s[0]) then s else TrimStart(s[1..])
  }

  function TrimEnd(s: string): string {
    if s == [] || !IsSpace(s[|s| - 1]) then s else TrimEnd(s[..|s| - 1])
  }

  /** `TrimStart` drops a prefix of white space and stops at the first other character. */
  lemma {:induction false} TrimStartDropsSpaces(s: string)
    ensures var r := TrimStart(s);
            && |r| <= |s| && r == s[|s| - |r|..]
            && (forall i :: 0 <= i < |s| - |r| ==> IsSpace(s[i]))
            && (r == [] || !IsSpace(r[0]))
  {
    if s != [] && IsSpace(s[0]) {
      var t := s[1..];
      TrimStartDropsSpaces(t);
      var r := TrimStart(t);
      assert TrimStart(s) == r;
      assert t[|t| - |r|..] == s[|s| - |r|..];
      forall i | 0 <= i < |s| - |r| ensures IsSpace(s[i]) {
        if i > 0 {
          assert s[i] == t[i - 1];
        }
      }
    }
  }

  /** `TrimEnd` drops a suffix of white space and stops at the last other character. */
  lemma {:induction false} TrimEndDropsSpaces(s: string)
    ensures var r := TrimEnd(s);
            && |r| <= |s| && r == s[..|r|]
            && (forall i :: |r| <= i < |s| ==> IsSpace(s[i]))
            && (r == [] || !IsSpace(r[|r| - 1]))
  {
    if s != [] && IsSpace(s[|s| - 1]) {
      var t := s[..|s| - 1];
      TrimEndDropsSpaces(t);
      var r := TrimEnd(t);
      assert TrimEnd(s) == r;
      assert t[..|r|] == s[..|r|];
      forall i | |r| <= i < |s| ensures IsSpace(s[i]) {
        if i < |s| - 1 {
          assert s[i] == t[i];
        }
      }
    }
  }

  /** `String.prototype.trim`. */
  function Trim(s: string): string {
    TrimEnd(TrimStart(s))
  }

  /** `!s.trim()`: the string is empty or white space only. */
  predicate IsBlank(s: string) {
    Trim(s) == ""
  }

  lemma BlankIffAllSpace(s: string)
    ensures IsBlank(s) <==> forall i :: 0 <= i < |s| ==> IsSpace(s[i])
  {
    var t := TrimStart(s);
    TrimStartDropsSpaces(s);
    TrimEndDropsSpaces(t);
    if IsBlank(s) {
      assert t == [];
    } else {
      var r := Trim(s);
      assert r != [] && r == t[..|r|];
      assert !IsSpace(t[0]) && t[0] == s[|s| - |t|];
    }
  }

  /** Trimming twice is trimming once. */
  lemma TrimTwice(s: string)
    ensures Trim(Trim(s)) == Trim(s)
  {
    var r := Trim(s);
    TrimIsBlankFree(s);
    TrimEndDropsSpaces(r);
    assert TrimStart(r) == r;
  }

  lemma TrimIsBlankFree(s: string)
    ensures Trim(s) == "" || (!IsSpace(Trim(s)[0]) && !IsSpace(Trim(s)[|Trim(s)| - 1]))
  {
    var t := TrimStart(s);
    var r := TrimEnd(t);
    TrimStartDropsSpaces(s);
    TrimEndDropsSpaces(t);
    if r != [] {
      assert r[0] == t[0];
    }
  }

  /** ASCII `toLowerCase` of one character. */
  function LowerChar(c: char): char {
    if 'A' <= c <= 'Z' then (c as int + 32) as char else c
  }

  /** ASCII `toUpperCase` of one character. */
  function UpperChar(c: char): char {
    if 'a' <= c <= 'z' then (c as int - 32) as char else c
  }

  function Lower(s: string): (r: string)
    ensures |r| == |s| && forall i :: 0 <= i < |s| ==> r[i] == LowerChar(s[i])
  {
    if s == [] then [] else [LowerChar(s[0])] + Lower(s[1..])
  }

  function Upper(s: string): (r: string)
    ensures |r| == |s| && forall i :: 0 <= i < |s| ==> r[i] == UpperChar(s[i])
  {
    if s == [] then [] else [UpperChar(s[0])] + Upper(s[1..])
  }

  /** `s.startsWith(p)`. */
  predicate StartsWith(s: string, p: string) {
    |p| <= |s| && s[..|p|] == p
  }

  /** `s.endsWith(p)`. */
  predicate EndsWith(s: string, p: string) {
    |p| <= |s| && s[|s| - |p|..] == p
  }

  /** `s.includes(q)`: `q` occurs in `s` at some position. */
  predicate Contains(s: string, q: string) {
    StartsWith(s, q) || (s != [] && Contains(s[1..], q))
  }

  /** `list.filter(x => x !== v)`: every occurrence of `v` removed, order kept. */
  function RemoveAll(s: seq<string>, v: string): (r: seq<string>)
    ensures v !in r
    ensures forall x :: x in r <==> x in s && x != v
    ensures |r| <= |s|
  {
    if s == [] then []
    else if s[0] == v then RemoveAll(s[1..], v)
    else [s[0]] + RemoveAll(s[1..], v)
  }

  /** `s.filter(keep)`. */
  function Filter<T>(s: seq<T>, keep: T -> bool): seq<T> {
    if s == [] then [] else (if keep(s[0]) then [s[0]] else []) + Filter(s[1..], keep)
  }

  /** Filtering distributes over concatenation. */
  lemma {:induction false} FilterConcat<T>(a: seq<T>, b: seq<T>, keep: T -> bool)
    ensures Filter(a + b, keep) == Filter(a, keep) + Filter(b, keep)
  {
    if a != [] {
      FilterConcat(a[1..], b, keep);
      assert (a + b)[1..] == a[1..] + b;
    } else {
      assert a + b == b;
    }
  }

  /** Filtering distributes over concatenation, so the kept values stay in
      their original order. */
  lemma {:induction false} RemoveAllConcat(a: seq<string>, b: seq<string>, v: string)
    ensures RemoveAll(a + b, v) == RemoveAll(a, v) + RemoveAll(b, v)
  {
    if a != [] {
      RemoveAllConcat(a[1..], b, v);
      assert (a + b)[1..] == a[1..] + b;
    } else {
      assert a + b == b;
    }
  }

  /** Filtering one value out keeps the count of every other. */
  lemma RemoveAllKeepsOthers(s: seq<string>, uid: string)
    ensures forall v :: v != uid ==> Count(RemoveAll(s, uid), v) == Count(s, v)
  {
    if s != [] {
      RemoveAllKeepsOthers(s[1..], uid);
    }
  }

  /** Filtering out a value just appended to a list without it gives the list back. */
  lemma {:induction false} RemoveAllAppendedAbsent(s: seq<string>, v: string)
    requires v !in s
    ensures RemoveAll(s + [v], v) == s
  {
    if s == [] {
      assert [v][1..] == [];
    } else {
      assert (s + [v])[1..] == s[1..] + [v];
      RemoveAllAppendedAbsent(s[1..], v);
    }
  }

  /** Number of occurrences of `v` in `s`. */
  function Count<T(==)>(s: seq<T>, v: T): nat {
    if s == [] then 0 else (if s[0] == v then 1 else 0) + Count(s[1..], v)
  }

  /** Filtering a value out shortens the list by its number of occurrences. */
  lemma {:induction false} RemoveAllLength(s: seq<string>, v: string)
    ensures |RemoveAll(s, v)| == |s| - Count(s, v)
  {
    if s != [] {
      RemoveAllLength(s[1..], v);
    }
  }

  lemma CountAppend<T>(s: seq<T>, t: seq<T>, v: T)
    ensures Count(s + t, v) == Count(s, v) + Count(t, v)
  {
    if s == [] {
      assert s + t == t;
    } else {
      assert (s + t)[1..] == s[1..] + t;
      CountAppend(s[1..], t, v);
    }
  }

  lemma CountZeroIffAbsent<T>(s: seq<T>, v: T)
    ensures Count(s, v) == 0 <==> v !in s
  {
    if s != [] {
      CountZeroIffAbsent(s[1..], v);
    }
  }

  /** `list.splice(list.indexOf(v), 1)`: the first occurrence of `v` removed. */
  function RemoveFirst(s: seq<string>, v: string): (r: seq<string>)
    ensures v in s ==> |r| == |s| - 1
    ensures v !in s ==> r == s
    ensures forall x :: x in r ==> x in s
    ensures forall x :: x in s && x != v ==> x in r
  {
    if s == [] then []
    else if s[0] == v then s[1..]
    else [s[0]] + RemoveFirst(s[1..], v)
  }

  /** No element occurs twice. */
  predicate NoDup<T(==)>(s: seq<T>) {
    forall i, j :: 0 <= i < j < |s| ==> s[i] != s[j]
  }

  lemma RemoveFirstOfNoDup(s: seq<string>, v: string)
    requires NoDup(s)
    ensures NoDup(RemoveFirst(s, v)) && v !in RemoveFirst(s, v)
  {
    if s != [] && s[0] != v {
      RemoveFirstOfNoDup(s[1..], v);
      var r := RemoveFirst(s[1..], v);
      assert s[0] !in s[1..];
      assert s[0] !in r;
    }
  }

  /** Removing `v` from a concatenation skips a prefix that does not hold it. */
  lemma {:induction false} RemoveFirstSkips(a: seq<string>, b: seq<string>, v: string)
    requires v !in a
    ensures RemoveFirst(a + b, v) == a + RemoveFirst(b, v)
  {
    if a == [] {
      assert a + b == b;
    } else {
      var ab := a + b;
      assert ab[0] == a[0] != v;
      assert ab[1..] == a[1..] + b;
      RemoveFirstSkips(a[1..], b, v);
      assert RemoveFirst(ab, v) == [a[0]] + RemoveFirst(a[1..] + b, v);
      assert [a[0]] + (a[1..] + RemoveFirst(b, v)) == a + RemoveFirst(b, v);
    }
  }

  lemma RemoveFirstAppend(s: seq<string>, v: string)
    requires v !in s
    ensures RemoveFirst(s + [v], v) == s
  {
    RemoveFirstSkips(s, [v], v);
    assert RemoveFirst([v], v) == [];
    assert s + [] == s;
  }

}
