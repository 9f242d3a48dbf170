/** The avatar of src/components/ui/Avatar.jsx: which image source is used,
    the initials shown in its place, and the error/load flags that choose
    between the two. */
module Avatar {
  import opened Common
  import opened Sorting

  /** `s.split(' ')`: the pieces between single spaces, empty ones included. */
  function Split(s: string): (r: seq<string>)
    ensures |r| >= 1
    ensures forall w :: w in r ==> ' ' !in w
  {
    if s == [] then [""]
    else if s[0] == ' ' then [""] + Split(s[1..])
    else
      var rest := Split(s[1..]);
      assert forall w :: w in rest[1..] ==> w in rest;
      [[s[0]] + rest[0]] + rest[1..]
  }

  /** `pieces.join(' ')`. */
  function Join(pieces: seq<string>): string
    requires |pieces| >= 1
  {
    if |pieces| == 1 then pieces[0] else pieces[0] + " " + Join(pieces[1..])
  }

  /** Splitting loses nothing: joining the pieces with spaces gives the name back. */
  lemma {:induction false} JoinSplit(s: string)
    ensures Join(Split(s)) == s
  {
    if s != [] {
      JoinSplit(s[1..]);
      var rest := Split(s[1..]);
      if s[0] == ' ' {
        assert ([""] + rest)[1..] == rest;
      } else {
        var p := [[s[0]] + rest[0]] + rest[1..];
        if |rest| > 1 {
          assert p[1..] == rest[1..];
          assert Join(rest) == rest[0] + " " + Join(rest[1..]);
        }
      }
    }
  }

  /** `.map(n => n[0]).join('')`: the first character of each piece; an
      empty piece gives `undefined`, which joins as nothing. */
  function Firsts(pieces: seq<string>): (r: string)
    ensures |r| <= |pieces|
  {
    if pieces == [] then ""
    else (if pieces[0] != "" then [pieces[0][0]] else "") + Firsts(pieces[1..])
  }

  /** The reference reading: the characters that start a word, that is are
      not a space and follow a space or the start (`afterSpace`). */
  function WordStarts(s: string, afterSpace: bool): (r: string)
    ensures |r| <= |s|
    ensures ' ' !in r
  {
    if s == [] then ""
    else (if s[0] != ' ' && afterSpace then [s[0]] else "") + WordStarts(s[1..], s[0] == ' ')
  }

  /** Taking the first character of each piece is taking the word starts. */
  lemma {:induction false} FirstsAreWordStarts(s: string)
    ensures Firsts(Split(s)) == WordStarts(s, true)
    ensures Firsts(Split(s)[1..]) == WordStarts(s, false)
  {
    if s != [] {
      FirstsAreWordStarts(s[1..]);
      var rest := Split(s[1..]);
      if s[0] == ' ' {
        assert ([""] + rest)[1..] == rest;
      } else {
        var p := [[s[0]] + rest[0]] + rest[1..];
        assert p[1..] == rest[1..];
      }
    }
  }

  /** A name with no word start is made of spaces only. */
  lemma {:induction false} NoWordStartIffSpaces(s: string)
    ensures WordStarts(s, true) == "" <==> forall i :: 0 <= i < |s| ==> s[i] == ' '
  {
    if s != [] && s[0] == ' ' {
      NoWordStartIffSpaces(s[1..]);
      assert forall i :: 1 <= i < |s| ==> s[i] == s[1..][i - 1];
    }
  }

  /** `getInitials(name)` (Avatar.jsx:16-24). */
  function Initials(name: Option<string>): (r: string)
    ensures |r| <= 2
    ensures !Truthy(name) ==> r == "?"
  {
    if !Truthy(name) then "?" else Take(Upper(Firsts(Split(name.value))), 2)
  }

  /** A name's initials are the upper-cased starts of its first two words;
      a name of spaces only has none. */
  lemma {:induction false} InitialsOfName(name: string)
    requires name != ""
    ensures var starts := WordStarts(name, true);
            var r := Initials(Some(name));
            && |r| == (if |starts| < 2 then |starts| else 2)
            && (forall k :: 0 <= k < |r| ==> r[k] == UpperChar(starts[k]))
    ensures Initials(Some(name)) == "" <==> forall i :: 0 <= i < |name| ==> name[i] == ' '
  {
    FirstsAreWordStarts(name);
    NoWordStartIffSpaces(name);
  }

  /** `displaySrc` (Avatar.jsx:36): a missing or blank source means no image. */
  function DisplaySrc(src: Option<string>): (r: Option<string>)
    ensures r.Some? <==> src.Some? && !IsBlank(src.value)
    ensures r.Some? ==> r == src
  {
    if Truthy(src) && Trim(src.value) != "" then src else None
  }

  /** What the avatar renders (Avatar.jsx:46-56). */
  datatype View = Image(src: string, alt: string, faded: bool) | Letters(text: string)

  class AvatarImage {
    var imageError: bool
    var imageLoaded: bool

    constructor()
      ensures !imageError && !imageLoaded
    {
      imageError, imageLoaded := false, false;
    }

    /** `handleImageError` (Avatar.jsx:26-29). */
    method OnError()
      modifies this
      ensures imageError && !imageLoaded
    {
      imageError := true;
      imageLoaded := false;
    }

    /** `handleImageLoad` (Avatar.jsx:31-34). */
    method OnLoad()
      modifies this
      ensures imageLoaded && !imageError
    {
      imageLoaded := true;
      imageError := false;
    }

    /** The image while it has not failed, faded until it loads; the
        initials of `alt` otherwise. */
    function Render(src: Option<string>, alt: Option<string>): (v: View)
      reads this
      ensures v.Image? <==> DisplaySrc(src).Some? && !imageError
      ensures v.Image? ==> v.src == src.value && v.alt == OrElse(alt, "Avatar") && (v.faded <==> !imageLoaded)
      ensures v.Letters? ==> v.text == Initials(alt)
    {
      var shown := DisplaySrc(src);
      if shown.Some? && !imageError then Image(shown.value, OrElse(alt, "Avatar"), !imageLoaded)
      else Letters(Initials(alt))
    }
  }
}
