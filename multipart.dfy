/**
 * multipart bodies framed with the boundary delimiters of section 5.1.1 of
 * RFC 2046, laid out as GroqAPI.swift lays them out: each part is the
 * dash-boundary ("--" and the boundary), CRLF, its header lines, a blank line,
 * its content and CRLF; the body ends with the close-delimiter "--boundary--"
 * and CRLF.
 *
 * Beside the serializer stands a receiver's parser, which splits a body at its
 * delimiters; the round-trip lemma shows it recovers every part whenever no
 * part's headers hold a blank line and no part's content holds the delimiter
 * (the condition RFC 2046 puts on the choice of boundary).
 */
module Multipart {
  import opened Wrappers
  import opened Utf8

  const CR: byte := 13
  const CRLF: seq<byte> := [13, 10]
  /** The blank line that ends a part's headers: CRLF CRLF. */
  const HeaderEnd: seq<byte> := [13, 10, 13, 10]
  /** "--" */
  const Dashes: seq<byte> := [45, 45]

  /** One encapsulated part: its header lines (without the closing blank line) and its content. */
  datatype Part = Part(headers: seq<byte>, content: seq<byte>)

  /** "--" followed by the boundary. */
  function DashBoundary(boundary: string): seq<byte> {
    Dashes + Encode(boundary)
  }

  /** The delimiter that ends every part's content: CRLF, then the dash-boundary. */
  function Delimiter(boundary: string): (d: seq<byte>)
    ensures |d| >= 4 && d[0] == CR
  {
    CRLF + DashBoundary(boundary)
  }

  /** The last line of the body: "--boundary--" and CRLF. */
  function CloseDelimiter(boundary: string): seq<byte> {
    DashBoundary(boundary) + Dashes + CRLF
  }

  /** One part as it appears in the body. */
  function Frame(boundary: string, p: Part): seq<byte> {
    DashBoundary(boundary) + CRLF + p.headers + HeaderEnd + p.content + CRLF
  }

  function Frames(boundary: string, parts: seq<Part>): seq<byte> {
    if parts == [] then [] else Frame(boundary, parts[0]) + Frames(boundary, parts[1..])
  }

  /** The whole body: every part in order, then the close-delimiter. */
  function Body(boundary: string, parts: seq<Part>): seq<byte> {
    Frames(boundary, parts) + CloseDelimiter(boundary)
  }

  lemma AppendSplit(a: seq<byte>, b: seq<byte>)
    ensures (a + b)[..|a|] == a && (a + b)[|a|..] == b
  {
  }

  predicate StartsWith(x: seq<byte>, a: seq<byte>) {
    |a| <= |x| && x[..|a|] == a
  }

  lemma StartsWithAppend(x: seq<byte>, y: seq<byte>, a: seq<byte>)
    requires StartsWith(x, a)
    ensures StartsWith(x + y, a)
  {
    assert (x + y)[..|a|] == x[..|a|];
  }

  /** A frame starts with the dash-boundary. */
  lemma FrameStartsWithDashBoundary(boundary: string, p: Part)
    ensures StartsWith(Frame(boundary, p), DashBoundary(boundary))
  {
    var open := DashBoundary(boundary);
    assert StartsWith(open, open);
    StartsWithAppend(open, CRLF, open);
    StartsWithAppend(open + CRLF, p.headers, open);
    StartsWithAppend(open + CRLF + p.headers, HeaderEnd, open);
    StartsWithAppend(open + CRLF + p.headers + HeaderEnd, p.content, open);
    StartsWithAppend(open + CRLF + p.headers + HeaderEnd + p.content, CRLF, open);
  }

  /** Every body starts with the dash-boundary: it opens either the first part or the close-delimiter. */
  lemma BodyStartsWithDashBoundary(boundary: string, parts: seq<Part>)
    ensures StartsWith(Body(boundary, parts), DashBoundary(boundary))
  {
    var open := DashBoundary(boundary);
    if parts == [] {
      assert StartsWith(open, open);
      StartsWithAppend(open, Dashes, open);
      StartsWithAppend(open + Dashes, CRLF, open);
      assert Body(boundary, parts) == [] + CloseDelimiter(boundary);
      assert [] + CloseDelimiter(boundary) == CloseDelimiter(boundary);
    } else {
      FrameStartsWithDashBoundary(boundary, parts[0]);
      StartsWithAppend(Frame(boundary, parts[0]), Frames(boundary, parts[1..]), open);
      StartsWithAppend(Frames(boundary, parts), CloseDelimiter(boundary), open);
    }
  }

  /** Every body ends with the close-delimiter. */
  lemma BodyEndsWithCloseDelimiter(boundary: string, parts: seq<Part>)
    ensures |Body(boundary, parts)| >= |CloseDelimiter(boundary)|
    ensures Body(boundary, parts)[|Body(boundary, parts)| - |CloseDelimiter(boundary)|..] == CloseDelimiter(boundary)
  {
    AppendSplit(Frames(boundary, parts), CloseDelimiter(boundary));
  }

  // ---------------------------------------------------------------------------
  // The receiving side: finding delimiters and splitting a body into parts.

  predicate MatchAt(pat: seq<byte>, s: seq<byte>, k: int) {
    0 <= k && k + |pat| <= |s| && s[k..k + |pat|] == pat
  }

  /** The first position at or after `from` where `pat` occurs in `s`. */
  function FindFrom(pat: seq<byte>, s: seq<byte>, from: nat): (r: Option<nat>)
    ensures r.Some? ==> from <= r.value && MatchAt(pat, s, r.value)
    ensures r.Some? ==> forall k :: from <= k < r.value ==> !MatchAt(pat, s, k)
    ensures r.None? ==> forall k :: from <= k ==> !MatchAt(pat, s, k)
    decreases |s| - from
  {
    if from + |pat| > |s| then None
    else if MatchAt(pat, s, from) then Some(from)
    else FindFrom(pat, s, from + 1)
  }

  /** `pat` does not occur in `x` + `pat` anywhere before the copy of `pat` appended at the end. */
  predicate NoEarlyMatch(pat: seq<byte>, x: seq<byte>) {
    forall k :: 0 <= k < |x| ==> !MatchAt(pat, x + pat, k)
  }

  /** A part the delimiters can frame: its headers hold no blank line and its content no delimiter. */
  predicate Framable(boundary: string, p: Part) {
    NoEarlyMatch(HeaderEnd, p.headers) && NoEarlyMatch(Delimiter(boundary), p.content)
  }

  /**
   * Reads one part, starting just after the CRLF that follows its dash-boundary:
   * the headers run to the first blank line, the content to the next delimiter.
   * Returns the part and the bytes from that delimiter's dash-boundary on.
   */
  function SplitPart(boundary: string, r: seq<byte>): (o: Option<(Part, seq<byte>)>)
    ensures o.Some? ==> |o.value.1| < |r|
  {
    match FindFrom(HeaderEnd, r, 0)
    case None => None
    case Some(i) =>
      var after := r[i + |HeaderEnd|..];
      match FindFrom(Delimiter(boundary), after, 0)
      case None => None
      case Some(j) => Some((Part(r[..i], after[..j]), after[j + |CRLF|..]))
  }

  /** Splits a body at its delimiters into parts; None when it is not well framed. */
  function Parse(boundary: string, s: seq<byte>): Option<seq<Part>>
    decreases |s|
  {
    var open := DashBoundary(boundary);
    if |s| < |open| || s[..|open|] != open then None
    else
      var rest := s[|open|..];
      if rest == Dashes + CRLF then Some([])
      else if |rest| < 2 || rest[..2] != CRLF then None
      else
        match SplitPart(boundary, rest[2..])
        case None => None
        case Some((part, next)) => Prepend(part, Parse(boundary, next))
  }

  /** The part read first, in front of the parts read after it; None when those could not be read. */
  function Prepend(p: Part, tail: Option<seq<Part>>): Option<seq<Part>> {
    match tail
    case None => None
    case Some(ps) => Some([p] + ps)
  }

  /** The first occurrence of `pat` in `x` + `pat` + `y` is the one right after `x`. */
  lemma FindAfter(pat: seq<byte>, x: seq<byte>, y: seq<byte>)
    requires NoEarlyMatch(pat, x)
    ensures FindFrom(pat, x + pat + y, 0) == Some(|x|)
  {
    var s := x + pat + y;
    assert MatchAt(pat, s, |x|) by {
      assert s[|x|..|x| + |pat|] == pat;
    }
    forall k | 0 <= k < |x|
      ensures !MatchAt(pat, s, k)
    {
      assert !MatchAt(pat, x + pat, k);
      if k + |pat| <= |s| {
        assert s[k..k + |pat|] == (x + pat)[k..k + |pat|];
      }
    }
  }

  /** A framable part's headers and content are read back, and reading stops at the next dash-boundary. */
  lemma {:induction false} SplitFramedPart(boundary: string, p: Part, t': seq<byte>)
    requires Framable(boundary, p)
    ensures SplitPart(boundary, p.headers + HeaderEnd + p.content + Delimiter(boundary) + t')
         == Some((p, DashBoundary(boundary) + t'))
  {
    var h, c, d := p.headers, p.content, Delimiter(boundary);
    var r := h + HeaderEnd + c + d + t';
    assert r == h + HeaderEnd + (c + d + t');
    FindAfter(HeaderEnd, h, c + d + t');
    assert r[..|h|] == h;
    var after := r[|h| + |HeaderEnd|..];
    assert after == c + d + t';
    FindAfter(d, c, t');
    assert after[..|c|] == c;
    assert after[|c| + |CRLF|..] == DashBoundary(boundary) + t';
  }

  /** A body that opens with the dash-boundary and CRLF is read from its first part on. */
  lemma ParseAfterOpen(boundary: string, r: seq<byte>, p: Part, next: seq<byte>)
    requires SplitPart(boundary, r) == Some((p, next))
    ensures Parse(boundary, DashBoundary(boundary) + (CRLF + r)) == Prepend(p, Parse(boundary, next))
  {
    var open := DashBoundary(boundary);
    var rest := CRLF + r;
    AppendSplit(open, rest);
    assert rest[0] == CR && (Dashes + CRLF)[0] != CR;
    AppendSplit(CRLF, r);
  }

  /** A frame followed by more bytes, regrouped at the dash-boundary and the CRLF after it. */
  lemma Regroup(o: seq<byte>, nl: seq<byte>, h: seq<byte>, he: seq<byte>, c: seq<byte>, t: seq<byte>)
    ensures (o + nl + h + he + c + nl) + (o + t) == o + (nl + (h + he + c + (nl + o) + t))
  {
  }

  /** Parsing a frame followed by a body yields the frame's part followed by what the body parses to. */
  lemma {:induction false} ParseFrame(boundary: string, p: Part, t': seq<byte>)
    requires Framable(boundary, p)
    ensures Parse(boundary, Frame(boundary, p) + (DashBoundary(boundary) + t'))
         == Prepend(p, Parse(boundary, DashBoundary(boundary) + t'))
  {
    var open := DashBoundary(boundary);
    var r := p.headers + HeaderEnd + p.content + Delimiter(boundary) + t';
    assert Frame(boundary, p) + (open + t') == open + (CRLF + r) by {
      Regroup(open, CRLF, p.headers, HeaderEnd, p.content, t');
    }
    SplitFramedPart(boundary, p, t');
    ParseAfterOpen(boundary, r, p, open + t');
  }

  /** Round trip: parsing a body recovers, in order, every part that went into it. */
  lemma {:induction false} ParseBody(boundary: string, parts: seq<Part>)
    requires forall i :: 0 <= i < |parts| ==> Framable(boundary, parts[i])
    ensures Parse(boundary, Body(boundary, parts)) == Some(parts)
    decreases |parts|
  {
    var open := DashBoundary(boundary);
    var s := Body(boundary, parts);
    if parts == [] {
      assert s == open + (Dashes + CRLF);
      AppendSplit(open, Dashes + CRLF);
    } else {
      var t := Body(boundary, parts[1..]);
      var t' := t[|open|..];
      assert t == open + t' by {
        BodyStartsWithDashBoundary(boundary, parts[1..]);
        assert t[..|open|] == open;
      }
      assert s == Frame(boundary, parts[0]) + (open + t') by {
        assert s == Frame(boundary, parts[0]) + t;
      }
      ParseFrame(boundary, parts[0], t');
      ParseBody(boundary, parts[1..]);
      assert [parts[0]] + parts[1..] == parts;
    }
  }

  // ---------------------------------------------------------------------------
  // Sufficient conditions for bytes to be framable.

  /** A pattern that starts with CR cannot occur early in bytes holding no CR. */
  lemma NoCarriageReturnNoEarlyMatch(pat: seq<byte>, x: seq<byte>)
    requires |pat| > 0 && pat[0] == CR
    requires CR !in x
    ensures NoEarlyMatch(pat, x)
  {
    forall k | 0 <= k < |x|
      ensures !MatchAt(pat, x + pat, k)
    {
      assert (x + pat)[k] == x[k] != CR;
    }
  }

  /** Two header lines joined by one CRLF hold no blank line, provided neither holds a CR and the second is not empty. */
  lemma TwoLinesNoHeaderEnd(a: seq<byte>, b: seq<byte>)
    requires CR !in a && CR !in b && b != []
    ensures NoEarlyMatch(HeaderEnd, a + CRLF + b)
  {
    var x := a + CRLF + b;
    var s := x + HeaderEnd;
    forall k | 0 <= k < |x|
      ensures !MatchAt(HeaderEnd, s, k)
    {
      if k < |a| {
        assert s[k] == a[k] != CR;
      } else if k == |a| {
        assert s[k + 2] == b[0] != CR;
      } else if k == |a| + 1 {
        assert s[k] == 10;
      } else {
        assert s[k] == b[k - |a| - 2] != CR;
      }
    }
  }
}
