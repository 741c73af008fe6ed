/**
 * UTF-8, as used by `String.data(using: .utf8)` when GroqAPI.swift turns each
 * piece of the request body into bytes.
 */
module Utf8 {
  import opened Wrappers

  type byte = x: int | 0 <= x < 0x100

  /** The UTF-8 form of one Unicode scalar value: one to four bytes. */
  function EncodeScalar(c: char): (bs: seq<byte>)
    ensures 1 <= |bs| <= 4
    ensures |bs| == 1 <==> c as int < 0x80
    ensures |bs| == 1 ==> bs[0] == c as int
    ensures |bs| > 1 ==> forall i :: 0 <= i < |bs| ==> bs[i] >= 0x80
  {
    var cp := c as int;
    if cp < 0x80 then [cp]
    else if cp < 0x800 then [0xC0 + cp / 0x40, 0x80 + cp % 0x40]
    else if cp < 0x1_0000 then [0xE0 + cp / 0x1000, 0x80 + (cp / 0x40) % 0x40, 0x80 + cp % 0x40]
    else [0xF0 + cp / 0x4_0000, 0x80 + (cp / 0x1000) % 0x40, 0x80 + (cp / 0x40) % 0x40, 0x80 + cp % 0x40]
  }

  /** The UTF-8 form of a string: its scalars' encodings, one after another. */
  function Encode(s: string): (bs: seq<byte>)
    ensures |bs| >= |s|
  {
    if s == [] then [] else EncodeScalar(s[0]) + Encode(s[1..])
  }

  /** A code point that `char` can hold: not a surrogate and at most U+10FFFF. */
  predicate IsScalar(cp: int) {
    (0 <= cp < 0xD800) || (0xE000 <= cp < 0x11_0000)
  }

  predicate IsContinuation(b: byte) {
    0x80 <= b < 0xC0
  }

  /** How many bytes the sequence led by `lead` occupies, or 0 if `lead` cannot start one. */
  function SequenceLength(lead: byte): nat {
    if lead < 0x80 then 1
    else if 0xC0 <= lead < 0xE0 then 2
    else if 0xE0 <= lead < 0xF0 then 3
    else if 0xF0 <= lead < 0xF8 then 4
    else 0
  }

  /** The code point held by one well-framed byte sequence. */
  function ScalarValue(bs: seq<byte>): int
    requires 1 <= |bs| <= 4
  {
    var b: seq<int> := bs;
    if |b| == 1 then b[0]
    else if |b| == 2 then (b[0] - 0xC0) * 0x40 + (b[1] - 0x80)
    else if |b| == 3 then (b[0] - 0xE0) * 0x1000 + (b[1] - 0x80) * 0x40 + (b[2] - 0x80)
    else (b[0] - 0xF0) * 0x4_0000 + (b[1] - 0x80) * 0x1000 + (b[2] - 0x80) * 0x40 + (b[3] - 0x80)
  }

  /**
   * The smallest code point a sequence of `n` bytes may carry: a longer sequence
   * than needed (an overlong form) is not well formed (section 3 of RFC 3629).
   */
  function MinimumScalar(n: nat): int {
    if n == 2 then 0x80 else if n == 3 then 0x800 else if n == 4 then 0x1_0000 else 0
  }

  /**
   * Decodes UTF-8 bytes back into a string; None when the bytes are not well
   * formed: a bad lead byte, a missing continuation byte, an overlong form, a
   * surrogate or a code point above U+10FFFF.
   */
  function Decode(bs: seq<byte>): (r: Option<string>)
    decreases |bs|
  {
    if bs == [] then Some([])
    else
      var n := SequenceLength(bs[0]);
      if n == 0 || |bs| < n then None
      else if exists i :: 1 <= i < n && !IsContinuation(bs[i]) then None
      else
        var cp := ScalarValue(bs[..n]);
        if cp < MinimumScalar(n) || !IsScalar(cp) then None
        else
          match Decode(bs[n..])
          case None => None
          case Some(rest) => Some([cp as char] + rest)
  }

  /** One scalar's encoding is a well-framed sequence that decodes to that scalar. */
  lemma EncodeScalarFrames(c: char)
    ensures SequenceLength(EncodeScalar(c)[0]) == |EncodeScalar(c)|
    ensures forall i :: 1 <= i < |EncodeScalar(c)| ==> IsContinuation(EncodeScalar(c)[i])
    ensures ScalarValue(EncodeScalar(c)) == c as int
    ensures c as int >= MinimumScalar(|EncodeScalar(c)|)
  {
    var cp := c as int;
    if cp < 0x80 {
    } else if cp < 0x800 {
      TwoByteValue(cp);
    } else if cp < 0x1_0000 {
      ThreeByteValue(cp);
    } else {
      FourByteValue(cp);
    }
  }

  lemma TwoByteValue(cp: int)
    requires 0x80 <= cp < 0x800
    ensures 0xC0 <= 0xC0 + cp / 0x40 < 0xE0
    ensures (cp / 0x40) * 0x40 + cp % 0x40 == cp
  {
  }

  lemma ThreeByteValue(cp: int)
    requires 0x800 <= cp < 0x1_0000
    ensures 0xE0 <= 0xE0 + cp / 0x1000 < 0xF0
    ensures (cp / 0x1000) * 0x1000 + ((cp / 0x40) % 0x40) * 0x40 + cp % 0x40 == cp
  {
    var hi, mid, lo := cp / 0x1000, (cp / 0x40) % 0x40, cp % 0x40;
    assert cp / 0x40 == hi * 0x40 + mid;
    assert cp == (cp / 0x40) * 0x40 + lo;
  }

  lemma FourByteValue(cp: int)
    requires 0x1_0000 <= cp < 0x11_0000
    ensures 0xF0 <= 0xF0 + cp / 0x4_0000 < 0xF8
    ensures (cp / 0x4_0000) * 0x4_0000 + ((cp / 0x1000) % 0x40) * 0x1000
            + ((cp / 0x40) % 0x40) * 0x40 + cp % 0x40 == cp
  {
    var q1 := cp / 0x40;
    var q2 := q1 / 0x40;
    assert cp / 0x1000 == q2;
    assert cp / 0x4_0000 == q2 / 0x40;
    assert cp == q1 * 0x40 + cp % 0x40;
    assert q1 == q2 * 0x40 + q1 % 0x40;
    assert q2 == (q2 / 0x40) * 0x40 + q2 % 0x40;
  }

  /** Encoding distributes over concatenation. */
  lemma {:induction false} EncodeAppend(a: string, b: string)
    ensures Encode(a + b) == Encode(a) + Encode(b)
    decreases |a|
  {
    if a == [] {
      assert a + b == b;
    } else {
      assert (a + b)[1..] == a[1..] + b;
      EncodeAppend(a[1..], b);
    }
  }

  /** Decoding inverts encoding. */
  lemma {:induction false} DecodeEncode(s: string)
    ensures Decode(Encode(s)) == Some(s)
    decreases |s|
  {
    if s != [] {
      var e, rest := EncodeScalar(s[0]), Encode(s[1..]);
      var bs := e + rest;
      EncodeScalarFrames(s[0]);
      assert bs[..|e|] == e;
      assert bs[|e|..] == rest;
      assert forall i :: 1 <= i < |e| ==> bs[i] == e[i];
      DecodeEncode(s[1..]);
      assert [s[0]] + s[1..] == s;
    }
  }

  /** An overlong two-byte form of U+0000 is rejected, as are a lone continuation byte and a surrogate. */
  lemma MalformedIsRejected()
    ensures Decode([0xC0, 0x80]) == None
    ensures Decode([0x80]) == None
    ensures Decode([0xED, 0xA0, 0x80]) == None
  {
    assert ScalarValue([0xC0, 0x80]) == 0;
    assert ScalarValue([0xED, 0xA0, 0x80]) == 0xD800;
  }

  /** Text without a carriage return encodes to bytes without the byte 13. */
  lemma {:induction false} EncodeWithoutCarriageReturn(s: string)
    requires '\r' !in s
    ensures 13 !in Encode(s)
    decreases |s|
  {
    if s != [] {
      assert s[0] != '\r';
      EncodeWithoutCarriageReturn(s[1..]);
    }
  }
}
