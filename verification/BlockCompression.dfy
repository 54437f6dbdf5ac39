/**
 `hash256_block` and its word functions as picosha2 writes them: on 64-bit words, masked to 32
 bits at selected places only. Everything here is shown equal to the 32-bit definitions of
 FIPS 180-4. A `word` local that is assigned a plain sum carries the proof that the sum did not
 leave 64 bits.
 */
module BlockCompression {
  import opened Words
  import Fips180

  function Mask8(x: nat): (r: byte)
    ensures r == x % TWO_8
  {
    Pow2Values();
    MaskIsRemainder(x, 8);
    Bitwise(And, x, 0xff)
  }

  function Mask32(x: nat): (r: word32)
    ensures r == x % TWO_32
  {
    Pow2Values();
    MaskIsRemainder(x, 32);
    Bitwise(And, x, 0xffff_ffff)
  }

  function Not(x: word): word {
    TWO_64 - 1 - x
  }

  function Ch(x: word, y: word, z: word): word {
    Bitwise64(And, x, y);
    Bitwise64(And, Not(x), z);
    Bitwise64(Xor, Bitwise(And, x, y), Bitwise(And, Not(x), z));
    Bitwise(Xor, Bitwise(And, x, y), Bitwise(And, Not(x), z))
  }

  function Xor3(x: word, y: word, z: word): word {
    Bitwise64(Xor, x, y);
    Bitwise64(Xor, Bitwise(Xor, x, y), z);
    Bitwise(Xor, Bitwise(Xor, x, y), z)
  }

  function Maj(x: word, y: word, z: word): word {
    Bitwise64(And, x, y);
    Bitwise64(And, x, z);
    Bitwise64(And, y, z);
    Xor3(Bitwise(And, x, y), Bitwise(And, x, z), Bitwise(And, y, z))
  }

  function Rotr(x: word, n: nat): word
    requires n < 32
  {
    Mask32(Bitwise(Or, ShiftRight(x, n), ShiftLeft64(x, 32 - n)))
  }

  function BSig0(x: word): word { Xor3(Rotr(x, 2), Rotr(x, 13), Rotr(x, 22)) }

  function BSig1(x: word): word { Xor3(Rotr(x, 6), Rotr(x, 11), Rotr(x, 25)) }

  function SSig0(x: word): word { Xor3(Rotr(x, 7), Rotr(x, 18), ShiftRight(x, 3)) }

  function SSig1(x: word): word { Xor3(Rotr(x, 17), Rotr(x, 19), ShiftRight(x, 10)) }

  /** The unmasked high bits that `x << (32 - n)` keeps in 64 bits do not survive the mask. */
  lemma RotrAgrees(x: word32, n: nat)
    requires 0 < n < 32
    ensures Rotr(x, n) == Fips180.Rotr(x, n)
  {
    hide Bitwise, Pow2;
    var low, high := ShiftRight(x, n), ShiftLeft64(x, 32 - n);
    calc {
      Rotr(x, n);
      Bitwise(Or, low, high) % TWO_32;
      { BitwiseLow32(Or, low, high); }
      Bitwise(Or, low % TWO_32, high % TWO_32);
      { Low32OfLow64(x * Pow2(32 - n)); }
      Bitwise(Or, low, ShiftLeft32(x, 32 - n));
    }
  }

  lemma Low32OfLow64(v: nat)
    ensures v % TWO_64 % TWO_32 == v % TWO_32
  {
  }

  /** `~x` fills the upper half of the word with ones; `& z` clears them. */
  lemma ChAgrees(x: word32, y: word32, z: word32)
    ensures Ch(x, y, z) == Fips180.Ch(x, y, z)
  {
    hide Bitwise, Pow2;
    AndAtMost(Not(x), z);
    BitwiseLow32(And, Not(x), z);
    assert Not(x) % TWO_32 == Fips180.Not(x);
  }

  lemma SigmasAgree(x: word32)
    ensures BSig0(x) == Fips180.BigSigma0(x) && BSig1(x) == Fips180.BigSigma1(x)
    ensures SSig0(x) == Fips180.SmallSigma0(x) && SSig1(x) == Fips180.SmallSigma1(x)
  {
    RotrAgrees(x, 2);
    RotrAgrees(x, 13);
    RotrAgrees(x, 22);
    RotrAgrees(x, 6);
    RotrAgrees(x, 11);
    RotrAgrees(x, 25);
    RotrAgrees(x, 7);
    RotrAgrees(x, 18);
    RotrAgrees(x, 17);
    RotrAgrees(x, 19);
  }

  lemma MajAgrees(x: word32, y: word32, z: word32)
    ensures Maj(x, y, z) == Fips180.Maj(x, y, z)
  {
  }

  /** The four bytes joined with shifts and `|`. */
  function JoinBytes(b0: nat, b1: nat, b2: nat, b3: nat): nat {
    Bitwise(Or, Bitwise(Or, Bitwise(Or,
      ShiftLeft64(Mask8(b0), 24), ShiftLeft64(Mask8(b1), 16)), ShiftLeft64(Mask8(b2), 8)), Mask8(b3))
  }

  lemma ShiftAgrees(b: byte)
    ensures ShiftLeft64(Mask8(b), 24) == b as nat * 0x100_0000
    ensures ShiftLeft64(Mask8(b), 16) == b as nat * 0x1_0000
    ensures ShiftLeft64(Mask8(b), 8) == b as nat * 0x100
  {
    hide Bitwise, Pow2;
    Pow2Values();
  }

  lemma OrAdds(x: nat, y: nat, k: nat, p: nat)
    requires p == Pow2(k) && y < p
    ensures Bitwise(Or, x * p, y) == x * p + y
  {
    OrDisjoint(x, y, k);
  }

  lemma JoinBytesAgrees(b0: byte, b1: byte, b2: byte, b3: byte)
    ensures JoinBytes(b0, b1, b2, b3) == Fips180.FromBytes(b0, b1, b2, b3)
  {
    hide Bitwise, Pow2;
    Pow2Values();
    ShiftAgrees(b0);
    ShiftAgrees(b1);
    ShiftAgrees(b2);
    var n0: nat, n1: nat, n2: nat := b0, b1, b2;
    calc {
      JoinBytes(b0, b1, b2, b3);
      Bitwise(Or, Bitwise(Or, Bitwise(Or, n0 * 0x100_0000, n1 * 0x1_0000), n2 * 0x100), b3);
      { OrAdds(n0, n1 * 0x1_0000, 24, 0x100_0000); }
      Bitwise(Or, Bitwise(Or, (n0 * 0x100 + n1) * 0x1_0000, n2 * 0x100), b3);
      { OrAdds(n0 * 0x100 + n1, n2 * 0x100, 16, 0x1_0000); }
      Bitwise(Or, ((n0 * 0x100 + n1) * 0x100 + n2) * 0x100, b3);
      { OrAdds((n0 * 0x100 + n1) * 0x100 + n2, b3, 8, 0x100); }
      Fips180.FromBytes(b0, b1, b2, b3);
    }
  }

  /** The 32-bit words held in the 64-bit digest array. */
  ghost predicate Holds(h: array<word>, d: Fips180.Digest)
    reads h
  {
    h.Length == 8 && h[..] == d.Words()
  }

  method ScheduleHead(block: Fips180.Block, i: nat) returns (r: word32)
    requires i < 16
    ensures r == Fips180.BlockWord(block, i)
  {
    hide JoinBytes, Fips180.FromBytes;
    JoinBytesAgrees(block[i * 4], block[i * 4 + 1], block[i * 4 + 2], block[i * 4 + 3]);
    r := JoinBytes(block[i * 4], block[i * 4 + 1], block[i * 4 + 2], block[i * 4 + 3]);
  }

  /** A word of the schedule from the words two, seven, fifteen and sixteen places before it. */
  method ScheduleTail(w2: word32, w7: word32, w15: word32, w16: word32) returns (r: word32)
    ensures r == (Fips180.SmallSigma1(w2) + w7 + Fips180.SmallSigma0(w15) + w16) % TWO_32
  {
    hide SSig0, SSig1, Mask32, Fips180.SmallSigma0, Fips180.SmallSigma1;
    SigmasAgree(w2);
    SigmasAgree(w15);
    var sum: word := SSig1(w2) + w7 + SSig0(w15) + w16;
    r := Mask32(sum);
  }

  lemma ScheduleStep(block: Fips180.Block, s: seq<word32>, i: nat)
    requires i < 64 && s == Fips180.Schedule(block, i)
    ensures Fips180.Schedule(block, i + 1) == s + [Fips180.NextWord(block, s)]
  {
  }

  /** Fills `w` with the message schedule of `block`. */
  method FillSchedule(w: array<word>, block: Fips180.Block)
    requires w.Length == 64
    modifies w
    ensures w[..] == Fips180.Schedule(block, Fips180.ROUNDS)
  {
    hide Fips180.Schedule, Fips180.BlockWord, Fips180.SmallSigma0, Fips180.SmallSigma1;
    for i := 0 to 64 {
      w[i] := 0;
    }
    ghost var s: seq<word32> := [];
    EmptySchedule(block);
    for i := 0 to 16
      invariant |s| == i && s == Fips180.Schedule(block, i) && w[..i] == s
    {
      var next := ScheduleHead(block, i);
      w[i] := next;
      ScheduleStep(block, s, i);
      s := s + [Fips180.NextWord(block, s)];
    }
    for i := 16 to 64
      invariant |s| == i && s == Fips180.Schedule(block, i) && w[..i] == s
    {
      assert w[i - 2] == s[i - 2] && w[i - 7] == s[i - 7] && w[i - 15] == s[i - 15] && w[i - 16] == s[i - 16];
      var next := ScheduleTail(w[i - 2], w[i - 7], w[i - 15], w[i - 16]);
      w[i] := next;
      ScheduleStep(block, s, i);
      s := s + [Fips180.NextWord(block, s)];
    }
  }

  lemma EmptySchedule(block: Fips180.Block)
    ensures Fips180.Schedule(block, 0) == []
  {
  }

  /** Masking late is masking early. */
  lemma AddModulo(x: nat, y: nat)
    ensures (x + y) % TWO_32 == (x % TWO_32 + y % TWO_32) % TWO_32
    ensures x < TWO_32 ==> (x + y) % TWO_32 == (x + y % TWO_32) % TWO_32
  {
  }

  /** One pass of the compression loop; `temp1` and `temp2` are left unmasked. */
  method Step(v: Fips180.Digest, k: word32, w: word32) returns (v': Fips180.Digest)
    ensures v' == Fips180.Round(v, k, w)
  {
    hide BSig0, BSig1, Ch, Maj, Mask32, Fips180.BigSigma0, Fips180.BigSigma1, Fips180.Ch, Fips180.Maj;
    hide Fips180.Round;
    var e1, e0, ch, maj := BSig1(v.e), BSig0(v.a), Ch(v.e, v.f, v.g), Maj(v.a, v.b, v.c);
    assert e1 == Fips180.BigSigma1(v.e) by { SigmasAgree(v.e); }
    assert e0 == Fips180.BigSigma0(v.a) by { SigmasAgree(v.a); }
    assert ch == Fips180.Ch(v.e, v.f, v.g) by { ChAgrees(v.e, v.f, v.g); }
    assert maj == Fips180.Maj(v.a, v.b, v.c) by { MajAgrees(v.a, v.b, v.c); }
    var temp1: word := v.h + e1 + ch + k + w;
    var temp2: word := e0 + maj;
    var e: word := v.d + temp1;
    var a: word := temp1 + temp2;
    v' := Fips180.Digest(Mask32(a), v.a, v.b, v.c, Mask32(e), v.e, v.f, v.g);
    RoundUnmasked(v, k, w, temp1, temp2);
  }

  lemma RoundUnmasked(v: Fips180.Digest, k: word32, w: word32, temp1: nat, temp2: nat)
    requires temp1 == v.h + Fips180.BigSigma1(v.e) + Fips180.Ch(v.e, v.f, v.g) + k + w
    requires temp2 == Fips180.BigSigma0(v.a) + Fips180.Maj(v.a, v.b, v.c)
    ensures Fips180.Round(v, k, w) == Fips180.Digest(
              (temp1 + temp2) % TWO_32, v.a, v.b, v.c, (v.d + temp1) % TWO_32, v.e, v.f, v.g)
  {
    hide Fips180.BigSigma0, Fips180.BigSigma1, Fips180.Ch, Fips180.Maj;
    AddModulo(temp1, temp2);
    AddModulo(v.d, temp1);
  }

  lemma RoundsStep(v: Fips180.Digest, w: seq<word32>, t: nat)
    requires t < |w| <= 64
    ensures Fips180.Rounds(v, w, t + 1) == Fips180.Round(Fips180.Rounds(v, w, t), Fips180.K(t), w[t])
    ensures Fips180.Rounds(v, w, 0) == v
  {
    hide Fips180.Round, Fips180.K;
  }

  /** `hash256_block`: the digest in `messageDigest` absorbs one block. */
  method HashBlock(messageDigest: array<word>, block: Fips180.Block, ghost d: Fips180.Digest)
    requires Holds(messageDigest, d)
    modifies messageDigest
    ensures Holds(messageDigest, Fips180.Compress(d, block))
  {
    hide Fips180.Round, Fips180.K, Fips180.Rounds, Fips180.Schedule;
    var w := new word[64];
    FillSchedule(w, block);
    ghost var s := Fips180.Schedule(block, Fips180.ROUNDS);
    var v := Fips180.Digest(messageDigest[0], messageDigest[1], messageDigest[2], messageDigest[3],
                            messageDigest[4], messageDigest[5], messageDigest[6], messageDigest[7]);
    RoundsStep(d, s, 0);
    for i := 0 to 64
      invariant v == Fips180.Rounds(d, s, i)
      invariant w[..] == s && messageDigest[..] == d.Words()
    {
      assert w[i] == s[i];
      v := Step(v, Fips180.K(i), w[i]);
      RoundsStep(d, s, i);
    }
    AddInto(messageDigest, d, v);
  }

  /** The feed-forward: eight additions, masked afterwards. */
  method AddInto(messageDigest: array<word>, ghost d: Fips180.Digest, v: Fips180.Digest)
    requires Holds(messageDigest, d)
    modifies messageDigest
    ensures Holds(messageDigest, Fips180.Add(d, v))
  {
    AddWorking(messageDigest, d, v);
    MaskAll(messageDigest);
  }

  method AddWorking(messageDigest: array<word>, ghost d: Fips180.Digest, v: Fips180.Digest)
    requires Holds(messageDigest, d)
    modifies messageDigest
    ensures messageDigest[0] == d.a + v.a && messageDigest[1] == d.b + v.b
    ensures messageDigest[2] == d.c + v.c && messageDigest[3] == d.d + v.d
    ensures messageDigest[4] == d.e + v.e && messageDigest[5] == d.f + v.f
    ensures messageDigest[6] == d.g + v.g && messageDigest[7] == d.h + v.h
  {
    messageDigest[0] := messageDigest[0] + v.a;
    messageDigest[1] := messageDigest[1] + v.b;
    messageDigest[2] := messageDigest[2] + v.c;
    messageDigest[3] := messageDigest[3] + v.d;
    messageDigest[4] := messageDigest[4] + v.e;
    messageDigest[5] := messageDigest[5] + v.f;
    messageDigest[6] := messageDigest[6] + v.g;
    messageDigest[7] := messageDigest[7] + v.h;
  }

  method MaskAll(a: array<word>)
    modifies a
    ensures forall j | 0 <= j < a.Length :: a[j] == old(a[j]) % TWO_32
  {
    hide Bitwise;
    for i := 0 to a.Length
      invariant forall j | 0 <= j < i :: a[j] == old(a[j]) % TWO_32
      invariant forall j | i <= j < a.Length :: a[j] == old(a[j])
    {
      a[i] := Mask32(a[i]);
    }
  }
}
