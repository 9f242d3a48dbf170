/** src/utils/linkify.js: splitting a text into plain-text parts and link
    parts. The URL regular expression itself is abstract: its matches over
    the text are given as spans, ascending, non-empty and non-overlapping,
    as a global regex `exec` loop produces them. */
module Linkify {
  import opened Common

  /** One match of the URL expression: `text[start..end]`. */
  datatype Span = Span(start: nat, end: nat)

  datatype Part =
    | TextPart(content: string)
    | LinkPart(url: string, displayUrl: string, originalText: string)

  /** The matches a global regex reports: inside the text, non-empty,
      in ascending order and non-overlapping. */
  predicate ValidSpans(text: string, spans: seq<Span>) {
    && (forall i :: 0 <= i < |spans| ==> spans[i].start < spans[i].end <= |text|)
    && (forall i :: 0 < i < |spans| ==> spans[i - 1].end <= spans[i].start)
  }

  const MaxDisplay: nat := 50
  const KeptOnTruncate: nat := 47

  /** The link part for one match (src/utils/linkify.js:18-38). */
  function MakeLink(original: string): (p: Part)
    ensures p.LinkPart? && p.originalText == original
    ensures StartsWith(p.url, "http://") || StartsWith(p.url, "https://")
    ensures StartsWith(original, "http://") || StartsWith(original, "https://") ==> p.url == original
    ensures !(StartsWith(original, "http://") || StartsWith(original, "https://")) ==> p.url == "https://" + original
    ensures |original| <= MaxDisplay ==> p.displayUrl == original
    ensures |original| > MaxDisplay ==> p.displayUrl == original[..KeptOnTruncate] + "..."
    ensures |p.displayUrl| <= MaxDisplay
  {
    var url := if StartsWith(original, "http://") || StartsWith(original, "https://") then original
               else "https://" + original;
    assert !(StartsWith(original, "http://") || StartsWith(original, "https://")) ==> url[..8] == "https://";
    LinkPart(url, if |original| > MaxDisplay then original[..KeptOnTruncate] + "..." else original, original)
  }

  /** The text a part stands for: its content, or the matched text of a link. */
  function Source(p: Part): string {
    if p.TextPart? then p.content else p.originalText
  }

  /** The parts' source texts, concatenated. */
  function Flatten(parts: seq<Part>): string {
    if parts == [] then [] else Flatten(parts[..|parts| - 1]) + Source(parts[|parts| - 1])
  }

  /** The matched texts of the link parts, in order. */
  function LinkTexts(parts: seq<Part>): seq<string> {
    if parts == [] then []
    else LinkTexts(parts[..|parts| - 1]) + (if parts[|parts| - 1].LinkPart? then [parts[|parts| - 1].originalText] else [])
  }

  /** Where each link part starts in the flattened text, in order. */
  function LinkOffsets(parts: seq<Part>): seq<nat> {
    if parts == [] then []
    else
      var init := parts[..|parts| - 1];
      LinkOffsets(init) + (if parts[|parts| - 1].LinkPart? then [|Flatten(init)|] else [])
  }

  /** The start positions of the spans, in order. */
  function SpanStarts(spans: seq<Span>): seq<nat> {
    if spans == [] then [] else SpanStarts(spans[..|spans| - 1]) + [spans[|spans| - 1].start]
  }

  /** The matched texts of the spans, in order. */
  function SpanTexts(text: string, spans: seq<Span>): seq<string>
    requires ValidSpans(text, spans)
  {
    if spans == [] then []
    else SpanTexts(text, spans[..|spans| - 1]) + [text[spans[|spans| - 1].start..spans[|spans| - 1].end]]
  }

  /** Text parts are never empty and never next to each other. */
  predicate TextPartsOk(parts: seq<Part>) {
    && (forall i :: 0 <= i < |parts| && parts[i].TextPart? ==> parts[i].content != "")
    && (forall i :: 0 < i < |parts| && parts[i].TextPart? ==> parts[i - 1].LinkPart?)
  }

  /** Every link part is the one `MakeLink` builds from its matched text. */
  predicate LinksWellFormed(parts: seq<Part>) {
    forall i :: 0 <= i < |parts| && parts[i].LinkPart? ==> parts[i] == MakeLink(parts[i].originalText)
  }

  lemma {:induction false} PushPart(parts: seq<Part>, p: Part)
    ensures Flatten(parts + [p]) == Flatten(parts) + Source(p)
    ensures LinkTexts(parts + [p]) == LinkTexts(parts) + (if p.LinkPart? then [p.originalText] else [])
    ensures LinkOffsets(parts + [p]) == LinkOffsets(parts) + (if p.LinkPart? then [|Flatten(parts)|] else [])
  {
    assert (parts + [p])[..|parts|] == parts;
  }

  /** Pushing a non-empty text part after a link (or first) keeps the part invariants. */
  lemma {:induction false} PushText(parts: seq<Part>, p: Part)
    requires TextPartsOk(parts) && LinksWellFormed(parts)
    requires p.TextPart? && p.content != "" && (parts == [] || parts[|parts| - 1].LinkPart?)
    ensures TextPartsOk(parts + [p]) && LinksWellFormed(parts + [p])
  {
  }

  lemma {:induction false} PushLink(parts: seq<Part>, original: string)
    requires TextPartsOk(parts) && LinksWellFormed(parts)
    ensures TextPartsOk(parts + [MakeLink(original)]) && LinksWellFormed(parts + [MakeLink(original)])
  {
  }

  lemma {:induction false} SpanTextsSnoc(text: string, spans: seq<Span>, i: nat)
    requires ValidSpans(text, spans) && i < |spans|
    ensures ValidSpans(text, spans[..i]) && ValidSpans(text, spans[..i + 1])
    ensures SpanTexts(text, spans[..i + 1]) == SpanTexts(text, spans[..i]) + [text[spans[i].start..spans[i].end]]
    ensures SpanStarts(spans[..i + 1]) == SpanStarts(spans[..i]) + [spans[i].start]
  {
    assert spans[..i + 1][..i] == spans[..i];
  }

  /** What holds after the first `i` matches have been handled and
      `lastIndex` points just after the last of them. */
  predicate Scanned(t: string, spans: seq<Span>, i: nat, lastIndex: nat, parts: seq<Part>)
    requires ValidSpans(t, spans) && i <= |spans|
  {
    && lastIndex == (if i == 0 then 0 else spans[i - 1].end) && lastIndex <= |t|
    && Flatten(parts) == t[..lastIndex]
    && TextPartsOk(parts) && LinksWellFormed(parts)
    && (i == 0 ==> parts == [])
    && (i > 0 ==> parts != [] && parts[|parts| - 1].LinkPart?)
    && ValidSpans(t, spans[..i]) && LinkTexts(parts) == SpanTexts(t, spans[..i])
    && LinkOffsets(parts) == SpanStarts(spans[..i])
  }

  /** The parts after handling match `s`: the text before it, if any, then its link. */
  function StepParts(t: string, s: Span, lastIndex: nat, parts: seq<Part>): seq<Part>
    requires lastIndex <= s.start < s.end <= |t|
  {
    (if s.start > lastIndex then parts + [TextPart(t[lastIndex..s.start])] else parts) + [MakeLink(t[s.start..s.end])]
  }

  lemma {:induction false} PushTextAt(t: string, parts: seq<Part>, a: nat, b: nat)
    requires a < b <= |t| && Flatten(parts) == t[..a]
    requires TextPartsOk(parts) && LinksWellFormed(parts) && (parts == [] || parts[|parts| - 1].LinkPart?)
    ensures var out := parts + [TextPart(t[a..b])];
            && Flatten(out) == t[..b] && TextPartsOk(out) && LinksWellFormed(out)
            && LinkTexts(out) == LinkTexts(parts) && LinkOffsets(out) == LinkOffsets(parts)
  {
    PushPart(parts, TextPart(t[a..b]));
    PushText(parts, TextPart(t[a..b]));
    assert t[..a] + t[a..b] == t[..b];
  }

  lemma {:induction false} PushLinkAt(t: string, parts: seq<Part>, a: nat, b: nat)
    requires a < b <= |t| && Flatten(parts) == t[..a]
    requires TextPartsOk(parts) && LinksWellFormed(parts)
    ensures var out := parts + [MakeLink(t[a..b])];
            && Flatten(out) == t[..b] && TextPartsOk(out) && LinksWellFormed(out)
            && LinkTexts(out) == LinkTexts(parts) + [t[a..b]]
            && LinkOffsets(out) == LinkOffsets(parts) + [a]
  {
    PushPart(parts, MakeLink(t[a..b]));
    PushLink(parts, t[a..b]);
    assert t[..a] + t[a..b] == t[..b];
  }

  lemma {:induction false} ScanStep(t: string, spans: seq<Span>, i: nat, lastIndex: nat, parts: seq<Part>)
    requires ValidSpans(t, spans) && i < |spans| && Scanned(t, spans, i, lastIndex, parts)
    ensures lastIndex <= spans[i].start
    ensures Scanned(t, spans, i + 1, spans[i].end, StepParts(t, spans[i], lastIndex, parts))
  {
    var s := spans[i];
    var mid := parts;
    if s.start > lastIndex {
      PushTextAt(t, parts, lastIndex, s.start);
      mid := parts + [TextPart(t[lastIndex..s.start])];
    }
    PushLinkAt(t, mid, s.start, s.end);
    SpanTextsSnoc(t, spans, i);
    assert StepParts(t, s, lastIndex, parts) == mid + [MakeLink(t[s.start..s.end])];
  }

  /** After the last match, the rest of the text, if any, becomes a text part. */
  lemma {:induction false} ScanEnd(t: string, spans: seq<Span>, lastIndex: nat, parts: seq<Part>)
    requires t != "" && ValidSpans(t, spans) && Scanned(t, spans, |spans|, lastIndex, parts)
    ensures var out := if lastIndex < |t| then parts + [TextPart(t[lastIndex..])] else parts;
            && Flatten(out) == t && out != [] && TextPartsOk(out) && LinksWellFormed(out)
            && LinkTexts(out) == SpanTexts(t, spans) && LinkOffsets(out) == SpanStarts(spans)
  {
    if lastIndex < |t| {
      var rest := TextPart(t[lastIndex..]);
      PushPart(parts, rest);
      PushText(parts, rest);
      assert t[..lastIndex] + t[lastIndex..] == t;
    } else {
      assert t[..lastIndex] == t;
    }
    assert spans[..|spans|] == spans;
  }

  /** `linkifyText(text)` (src/utils/linkify.js:3-51): the `exec` loop walks the
      matches, pushing the text before each one and a link for it, then the
      rest of the text. */
  method LinkifyText(text: Option<string>, spans: seq<Span>) returns (parts: seq<Part>)
    requires Truthy(text) ==> ValidSpans(text.value, spans)
    ensures !Truthy(text) ==> parts == []
    ensures Truthy(text) ==> && Flatten(parts) == text.value
                             && parts != []
                             && TextPartsOk(parts)
                             && LinksWellFormed(parts)
                             && LinkTexts(parts) == SpanTexts(text.value, spans)
                             && LinkOffsets(parts) == SpanStarts(spans)
    ensures Truthy(text) && spans == [] ==> parts == [TextPart(text.value)]
  {
    if !Truthy(text) {
      return [];
    }
    var t := text.value;
    parts := [];
    var lastIndex: nat := 0;
    var i := 0;
    assert spans[..0] == [];
    while i < |spans|
      invariant 0 <= i <= |spans|
      invariant Scanned(t, spans, i, lastIndex, parts)
    {
      ScanStep(t, spans, i, lastIndex, parts);
      var s := spans[i];
      ghost var next := StepParts(t, s, lastIndex, parts);
      if s.start > lastIndex {
        parts := parts + [TextPart(t[lastIndex..s.start])];
      }
      parts := parts + [MakeLink(t[s.start..s.end])];
      assert parts == next;
      lastIndex := s.end;
      i := i + 1;
    }
    ScanEnd(t, spans, lastIndex, parts);
    if lastIndex < |t| {
      parts := parts + [TextPart(t[lastIndex..])];
    }
  }

  /** A scheme written in capitals is matched (the expression ignores case)
      but not recognised by the case-sensitive prefix test, so it gets a
      second scheme in front. */
  lemma UpperCaseSchemeIsPrefixedAgain()
    ensures MakeLink("HTTP://a.io").url == "https://HTTP://a.io"
  {
    assert !StartsWith("HTTP://a.io", "http://");
    assert !StartsWith("HTTP://a.io", "https://");
  }

  /** `hasLinks(text)` (src/utils/linkify.js:53-56) with the shared regex's
      `lastIndex`: `found` is the abstract matcher's answer for a search that
      starts at `lastIndex`. A successful test leaves `lastIndex` after the
      match; a failed one resets it to 0. */
  function HasLinks(text: Option<string>, lastIndex: nat, found: Option<Span>): (r: (bool, nat))
    ensures !Truthy(text) ==> r == (false, lastIndex)
    ensures Truthy(text) ==> (r.0 <==> found.Some?) && r.1 == (if found.Some? then found.value.end else 0)
  {
    if !Truthy(text) then (false, lastIndex)
    else if found.Some? then (true, found.value.end)
    else (false, 0)
  }
}
