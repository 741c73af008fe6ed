/**
 * The two Foundation string operations the core relies on:
 * `trimmingCharacters(in: .whitespacesAndNewlines)` and `lowercased()`.
 */
module Text {

  /**
   * Membership in Foundation's `CharacterSet.whitespacesAndNewlines`:
   * the Unicode general category Z* (space, line and paragraph separators)
   * together with U+0009 through U+000D and U+0085.
   */
  predicate IsWhitespace(c: char) {
    ('\U{9}' <= c <= '\U{D}') || c == ' ' || c == '\U{85}' || c == '\U{A0}' || c == '\U{1680}'
    || ('\U{2000}' <= c <= '\U{200A}') || c == '\U{2028}' || c == '\U{2029}' || c == '\U{202F}'
    || c == '\U{205F}' || c == '\U{3000}'
  }

  predicate AllWhitespace(s: string) {
    forall i :: 0 <= i < |s| ==> IsWhitespace(s[i])
  }

  /** True when the text holds nothing once trimmed, i.e. `trimmingCharacters(...).isEmpty`. */
  predicate IsBlank(s: string) {
    Trim(s) == []
  }

  /** Drops leading whitespace, as `trimmingCharacters` does at the start. */
  function TrimStart(s: string): string {
    if s != [] && IsWhitespace(s[0]) then TrimStart(s[1..]) else s
  }

  /** What `TrimStart` keeps is the suffix of `s` that starts at its first non-whitespace character. */
  lemma {:induction false} TrimStartIsSuffix(s: string)
    ensures var r := TrimStart(s);
      |r| <= |s| && r == s[|s| - |r|..] && AllWhitespace(s[..|s| - |r|]) && (r == [] || !IsWhitespace(r[0]))
    decreases |s|
  {
    if s != [] && IsWhitespace(s[0]) {
      TrimStartIsSuffix(s[1..]);
      var r := TrimStart(s);
      assert s[1..][|s| - 1 - |r|..] == s[|s| - |r|..];
      assert s[..|s| - |r|] == [s[0]] + s[1..][..|s| - 1 - |r|];
    }
  }

  /** Drops trailing whitespace, as `trimmingCharacters` does at the end. */
  function TrimEnd(s: string): string {
    if s != [] && IsWhitespace(s[|s| - 1]) then TrimEnd(s[..|s| - 1]) else s
  }

  /** What `TrimEnd` keeps is the prefix of `s` that ends at its last non-whitespace character. */
  lemma {:induction false} TrimEndIsPrefix(s: string)
    ensures var r := TrimEnd(s);
      |r| <= |s| && r == s[..|r|] && AllWhitespace(s[|r|..]) && (r == [] || !IsWhitespace(r[|r| - 1]))
    decreases |s|
  {
    if s != [] && IsWhitespace(s[|s| - 1]) {
      TrimEndIsPrefix(s[..|s| - 1]);
      var r := TrimEnd(s);
      assert s[..|s| - 1][..|r|] == s[..|r|];
      assert s[|r|..] == s[..|s| - 1][|r|..] + [s[|s| - 1]];
    }
  }

  /** `trimmingCharacters(in: .whitespacesAndNewlines)`. */
  function Trim(s: string): string {
    TrimEnd(TrimStart(s))
  }

  /** The trimmed text is no longer than the text, and neither starts nor ends with whitespace. */
  lemma TrimmedEnds(s: string)
    ensures var r := Trim(s);
      |r| <= |s| && (r == [] || (!IsWhitespace(r[0]) && !IsWhitespace(r[|r| - 1])))
  {
    var t := TrimStart(s);
    TrimStartIsSuffix(s);
    TrimEndIsPrefix(t);
  }

  /** The text is its trimmed form with a whitespace-only prefix and suffix around it. */
  lemma {:induction false} TrimSplit(s: string) returns (w1: string, w2: string)
    ensures s == w1 + Trim(s) + w2
    ensures AllWhitespace(w1) && AllWhitespace(w2)
  {
    var t := TrimStart(s);
    var r := TrimEnd(t);
    TrimStartIsSuffix(s);
    TrimEndIsPrefix(t);
    w1 := s[..|s| - |t|];
    w2 := t[|r|..];
    assert AllWhitespace(w1);
    assert AllWhitespace(w2);
    assert s == w1 + t by { assert t == s[|s| - |t|..]; }
    assert t == r + w2 by { assert r == t[..|r|]; }
  }

  lemma {:induction false} TrimStartPadded(w: string, core: string)
    requires AllWhitespace(w)
    requires core == [] || !IsWhitespace(core[0])
    ensures TrimStart(w + core) == core
    decreases |w|
  {
    if w == [] {
      assert w + core == core;
    } else {
      assert (w + core)[1..] == w[1..] + core;
      TrimStartPadded(w[1..], core);
    }
  }

  lemma {:induction false} TrimEndPadded(core: string, w: string)
    requires AllWhitespace(w)
    requires core == [] || !IsWhitespace(core[|core| - 1])
    ensures TrimEnd(core + w) == core
    decreases |w|
  {
    if w == [] {
      assert core + w == core;
    } else {
      assert (core + w)[..|core + w| - 1] == core + w[..|w| - 1];
      TrimEndPadded(core, w[..|w| - 1]);
    }
  }

  /**
   * Trimming removes exactly the whitespace padding: text without leading or
   * trailing whitespace, padded on either side with whitespace, trims back to itself.
   */
  lemma {:induction false} TrimPadded(w1: string, core: string, w2: string)
    requires AllWhitespace(w1) && AllWhitespace(w2)
    requires core == [] || (!IsWhitespace(core[0]) && !IsWhitespace(core[|core| - 1]))
    ensures Trim(w1 + core + w2) == core
  {
    if core == [] {
      assert w1 + core + w2 == w1 + w2;
      assert AllWhitespace(w1 + w2);
      TrimStartPadded(w1 + w2, []);
      assert w1 + w2 + [] == w1 + w2;
    } else {
      assert w1 + core + w2 == w1 + (core + w2);
      TrimStartPadded(w1, core + w2);
      TrimEndPadded(core, w2);
    }
  }

  /** Trimming twice is trimming once. */
  lemma {:induction false} TrimIdempotent(s: string)
    ensures Trim(Trim(s)) == Trim(s)
  {
    var r := Trim(s);
    TrimmedEnds(s);
    assert Trim([] + r + []) == r by { TrimPadded([], r, []); }
    assert [] + r + [] == r;
  }

  /** The trimmed text is empty exactly when the text is whitespace only. */
  lemma BlankIffAllWhitespace(s: string)
    ensures IsBlank(s) <==> AllWhitespace(s)
  {
    if AllWhitespace(s) {
      assert s + [] + [] == s;
      TrimPadded(s, [], []);
    } else {
      var w1, w2 := TrimSplit(s);
    }
  }

  /** `lowercased()` on one character, restricted to the ASCII letters. */
  function LowerChar(c: char): char {
    if 'A' <= c <= 'Z' then (c as int + 32) as char else c
  }

  /** `lowercased()`, restricted to the ASCII letters: the text, character by character, with A-Z mapped to a-z. */
  function Lowercased(s: string): string {
    seq(|s|, i requires 0 <= i < |s| => LowerChar(s[i]))
  }

  /** Lowercased text keeps its length and holds no capital letter. */
  lemma LowercasedHasNoCapitals(s: string)
    ensures |Lowercased(s)| == |s|
    ensures forall i :: 0 <= i < |s| ==> !('A' <= Lowercased(s)[i] <= 'Z')
  {
  }

  lemma LowercasedAppend(a: string, b: string)
    ensures Lowercased(a + b) == Lowercased(a) + Lowercased(b)
  {
    assert forall i :: 0 <= i < |a + b| ==> Lowercased(a + b)[i] == (Lowercased(a) + Lowercased(b))[i];
  }

  /** Lowercasing lowercased text changes nothing. */
  lemma LowercasedIdempotent(s: string)
    ensures Lowercased(Lowercased(s)) == Lowercased(s)
  {
    assert forall i :: 0 <= i < |s| ==> Lowercased(Lowercased(s))[i] == Lowercased(s)[i];
  }

  /** Lowercasing maps whitespace to whitespace and nothing else to whitespace. */
  lemma LowercasedKeepsWhitespace(s: string)
    ensures AllWhitespace(s) ==> AllWhitespace(Lowercased(s))
    ensures s == [] || (!IsWhitespace(s[0]) && !IsWhitespace(s[|s| - 1])) ==>
            (var l := Lowercased(s); l == [] || (!IsWhitespace(l[0]) && !IsWhitespace(l[|l| - 1])))
  {
  }

  /** Lowercasing neither creates nor removes whitespace, so it commutes with trimming. */
  lemma {:induction false} TrimLowercasedCommute(s: string)
    ensures Trim(Lowercased(s)) == Lowercased(Trim(s))
  {
    var r := Trim(s);
    TrimmedEnds(s);
    var w1, w2 := TrimSplit(s);
    var l1, l, l2 := Lowercased(w1), Lowercased(r), Lowercased(w2);
    LowercasedKeepsWhitespace(w1);
    LowercasedKeepsWhitespace(r);
    LowercasedKeepsWhitespace(w2);
    assert Trim(l1 + l + l2) == l by {
      TrimPadded(l1, l, l2);
    }
    assert Lowercased(s) == l1 + l + l2 by {
      LowercasedAppend(w1 + r, w2);
      LowercasedAppend(w1, r);
    }
  }
}
