/**
 UTF-8: the encoding of Unicode scalar values, and the test of byte strings that `String::from_utf8`
 makes.
 */
module Utf8 {
  import opened Words

  // ---- The encoding ----

  predicate IsScalar(c: nat) {
    c < 0xD800 || 0xE000 <= c < 0x11_0000
  }

  /** One to four bytes, six bits in each but the first. */
  function Encode(c: nat): (s: Bytes)
    requires IsScalar(c)
    ensures 1 <= |s| <= 4
  {
    if c < 0x80 then [c]
    else if c < 0x800 then [0xC0 + c / 64, 0x80 + c % 64]
    else if c < 0x1_0000 then [0xE0 + c / 4096, 0x80 + c / 64 % 64, 0x80 + c % 64]
    else [0xF0 + c / 0x4_0000, 0x80 + c / 4096 % 64, 0x80 + c / 64 % 64, 0x80 + c % 64]
  }

  function EncodeAll(cs: seq<nat>): Bytes
    requires forall c | c in cs :: IsScalar(c)
  {
    if cs == [] then [] else Encode(cs[0]) + EncodeAll(cs[1..])
  }

  // ---- The test ----

  predicate Continues(s: Bytes, i: nat) {
    i < |s| && 0x80 <= s[i] < 0xC0
  }

  predicate InRange(s: Bytes, i: nat, lo: nat, hi: nat) {
    i < |s| && lo <= s[i] <= hi
  }

  /** The length of the well-formed sequence that `s` begins with; 0 if there is none. */
  function SequenceLength(s: Bytes): (n: nat)
    ensures n <= |s| && n <= 4
  {
    if s == [] then 0
    else if s[0] < 0x80 then 1
    else if 0xC2 <= s[0] < 0xE0 && Continues(s, 1) then 2
    else if s[0] == 0xE0 && InRange(s, 1, 0xA0, 0xBF) && Continues(s, 2) then 3
    else if s[0] == 0xED && InRange(s, 1, 0x80, 0x9F) && Continues(s, 2) then 3
    else if 0xE1 <= s[0] < 0xF0 && s[0] != 0xED && Continues(s, 1) && Continues(s, 2) then 3
    else if s[0] == 0xF0 && InRange(s, 1, 0x90, 0xBF) && Continues(s, 2) && Continues(s, 3) then 4
    else if s[0] == 0xF4 && InRange(s, 1, 0x80, 0x8F) && Continues(s, 2) && Continues(s, 3) then 4
    else if 0xF1 <= s[0] < 0xF4 && Continues(s, 1) && Continues(s, 2) && Continues(s, 3) then 4
    else 0
  }

  predicate ValidUtf8(s: Bytes) {
    s == [] || (var n := SequenceLength(s); n > 0 && ValidUtf8(s[n..]))
  }

  // ---- They agree ----

  /** The scalar value that a well-formed sequence stands for. */
  function Decode(s: Bytes): nat
    requires SequenceLength(s) > 0
  {
    var a: int := s[0];
    match SequenceLength(s)
    case 1 => a
    case 2 => var b: int := s[1]; (a - 0xC0) * 64 + (b - 0x80)
    case 3 => var b: int, c: int := s[1], s[2]; (a - 0xE0) * 4096 + (b - 0x80) * 64 + (c - 0x80)
    case _ =>
      var b: int, c: int, d: int := s[1], s[2], s[3];
      (a - 0xF0) * 0x4_0000 + (b - 0x80) * 4096 + (c - 0x80) * 64 + (d - 0x80)
  }

  lemma TwoParts(x: nat, y: nat)
    requires y < 64
    ensures var c := x * 64 + y; c / 64 == x && c % 64 == y
  {
  }

  lemma ThreeParts(x: nat, y: nat, z: nat)
    requires y < 64 && z < 64
    ensures var c := x * 4096 + y * 64 + z; c / 4096 == x && c / 64 % 64 == y && c % 64 == z
  {
    TwoParts(x * 64 + y, z);
    TwoParts(x, y);
  }

  lemma FourParts(w: nat, x: nat, y: nat, z: nat)
    requires x < 64 && y < 64 && z < 64
    ensures var c := w * 0x4_0000 + x * 4096 + y * 64 + z;
      c / 0x4_0000 == w && c / 4096 % 64 == x && c / 64 % 64 == y && c % 64 == z
  {
    ThreeParts(w * 64 + x, y, z);
    TwoParts(w, x);
  }

  /** A well-formed sequence is the encoding of its scalar value. */
  lemma SequenceIsEncoding(s: Bytes)
    requires SequenceLength(s) > 0
    ensures IsScalar(Decode(s)) && s[..SequenceLength(s)] == Encode(Decode(s))
  {
    var n, c := SequenceLength(s), Decode(s);
    if n == 2 {
      TwoParts(s[0] - 0xC0, s[1] - 0x80);
    } else if n == 3 {
      ThreeParts(s[0] - 0xE0, s[1] - 0x80, s[2] - 0x80);
      assert 0x800 <= c < 0x1_0000;
    } else if n == 4 {
      FourParts(s[0] - 0xF0, s[1] - 0x80, s[2] - 0x80, s[3] - 0x80);
      assert 0x1_0000 <= c < 0x11_0000;
    }
  }

  /** An encoding is recognized, whatever follows it. */
  lemma EncodingIsSequence(c: nat, rest: Bytes)
    requires IsScalar(c)
    ensures SequenceLength(Encode(c) + rest) == |Encode(c)|
  {
    var s := Encode(c) + rest;
    assert forall i | 0 <= i < |Encode(c)| :: s[i] == Encode(c)[i];
  }

  lemma {:induction false} EncodedIsValid(cs: seq<nat>)
    requires forall c | c in cs :: IsScalar(c)
    ensures ValidUtf8(EncodeAll(cs))
    decreases cs
  {
    hide SequenceLength, Encode;
    if cs != [] {
      var first, rest := Encode(cs[0]), EncodeAll(cs[1..]);
      EncodingIsSequence(cs[0], rest);
      assert (first + rest)[|first|..] == rest;
      EncodedIsValid(cs[1..]);
    }
  }

  lemma {:induction false} ValidIsEncoded(s: Bytes) returns (cs: seq<nat>)
    requires ValidUtf8(s)
    ensures (forall c | c in cs :: IsScalar(c)) && EncodeAll(cs) == s
    decreases |s|
  {
    hide SequenceLength, Encode, Decode;
    if s == [] {
      cs := [];
    } else {
      var n := SequenceLength(s);
      SequenceIsEncoding(s);
      var rest := ValidIsEncoded(s[n..]);
      cs := [Decode(s)] + rest;
      assert cs[1..] == rest;
      assert s == s[..n] + s[n..];
    }
  }

  /** The test accepts exactly the encodings of sequences of Unicode scalar values. */
  lemma ValidIffEncoded(s: Bytes)
    ensures ValidUtf8(s) <==> exists cs: seq<nat> :: (forall c | c in cs :: IsScalar(c)) && EncodeAll(cs) == s
  {
    hide ValidUtf8, EncodeAll;
    if ValidUtf8(s) {
      var cs := ValidIsEncoded(s);
      assert (forall c | c in cs :: IsScalar(c)) && EncodeAll(cs) == s;
    }
    if cs: seq<nat> :| (forall c | c in cs :: IsScalar(c)) && EncodeAll(cs) == s {
      EncodedIsValid(cs);
    }
  }

  /** Every scalar value can be read back from its encoding. */
  lemma DecodeUndoesEncode(c: nat)
    requires IsScalar(c)
    ensures SequenceLength(Encode(c)) > 0 && Decode(Encode(c)) == c
  {
    EncodingIsSequence(c, []);
    assert Encode(c) + [] == Encode(c);
    hide SequenceLength;
    assert c == c / 64 * 64 + c % 64;
    assert c == c / 4096 * 4096 + c / 64 % 64 * 64 + c % 64 by { DividedTwice(c); }
    assert c / 4096 == c / 0x4_0000 * 64 + c / 4096 % 64 by { DividedTwice(c / 64); }
  }

  lemma DividedTwice(c: nat)
    ensures c / 64 / 64 == c / 4096
    ensures c / 64 == c / 4096 * 64 + c / 64 % 64
    ensures c / 64 / 4096 == c / 0x4_0000 && c / 64 / 64 / 64 == c / 0x4_0000
  {
  }
}
