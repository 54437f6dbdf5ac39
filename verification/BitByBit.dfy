/**
 What the functions of FIPS 180-4 do to the bits of their operands. Bit 0 is the least significant.
 Sums of bits modulo 2 are exclusive ors, said without one.
 */
module BitByBit {
  import opened Words
  import opened Fips180
  import BlockCompression

  function BitAt(x: nat, k: nat): (b: nat)
    ensures b < 2
  {
    x / Pow2(k) % 2
  }

  // ---- Shifts and operators ----

  lemma {:induction false} Pow2Sum(m: nat, n: nat)
    ensures Pow2(m + n) == Pow2(m) * Pow2(n)
    decreases m
  {
    if m > 0 {
      Pow2Sum(m - 1, n);
      var p, q := Pow2(m - 1), Pow2(n);
      assert Pow2(m) == 2 * p && Pow2(m + n) == 2 * Pow2(m - 1 + n);
      Doubled(p, q);
    }
  }

  lemma Doubled(p: nat, q: nat)
    ensures 2 * p * q == 2 * (p * q)
  {
  }

  lemma DivideTwice(x: nat, c: nat, d: nat)
    requires c > 0 && d > 0
    ensures c * d > 0 && x / c / d == x / (c * d)
  {
    var q, r := x / c, x % c;
    var q', r' := q / d, q % d;
    assert x == c * q + r && q == d * q' + r';
    assert c * q == c * d * q' + c * r' by {
      assert c * (d * q' + r') == c * (d * q') + c * r';
    }
    assert c * d > 0 by { MultiplyAtLeast(c, d); }
    assert c * r' + r < c * d by {
      assert r' <= d - 1;
      assert c * r' <= c * (d - 1) by { Monotone(c, r', d - 1); }
      assert c * (d - 1) == c * d - c;
    }
    assert c * r' >= 0 by { Monotone(c, 0, r'); }
    EuclideanUnique(x, c * d, q', c * r' + r);
  }

  lemma Monotone(c: nat, a: nat, b: nat)
    requires a <= b
    ensures c * a <= c * b
  {
    assert c * b == c * a + c * (b - a);
  }

  /** The bits of a word shifted to the right. */
  lemma RightBit(x: nat, n: nat, k: nat)
    ensures BitAt(ShiftRight(x, n), k) == BitAt(x, n + k)
  {
    Pow2Sum(n, k);
    DivideTwice(x, Pow2(n), Pow2(k));
  }

  lemma NextBit(x: nat, k: nat)
    ensures BitAt(x, k + 1) == BitAt(x / 2, k)
    ensures BitAt(x, 0) == x % 2
  {
    DivideTwice(x, 2, Pow2(k));
  }

  /** The bits of a word shifted to the left, as far as they stay. */
  lemma {:induction false} LeftBit(x: nat, m: nat, k: nat)
    ensures BitAt(x * Pow2(m), k) == if k < m then 0 else BitAt(x, k - m)
    decreases m
  {
    if m > 0 {
      var h := x * Pow2(m - 1);
      assert x * Pow2(m) == 2 * h;
      assert (2 * h) / 2 == h && (2 * h) % 2 == 0;
      if k > 0 {
        NextBit(2 * h, k - 1);
        LeftBit(x, m - 1, k - 1);
      } else {
        NextBit(2 * h, 0);
      }
    } else {
      assert x * Pow2(0) == x;
    }
  }

  /** Reducing a number modulo a power of two keeps the bits below and clears the others. */
  lemma {:induction false} LowBits(x: nat, w: nat, k: nat)
    ensures BitAt(x % Pow2(w), k) == if k < w then BitAt(x, k) else 0
    decreases w
  {
    if w == 0 {
      assert x % 1 == 0;
      ZeroBit(k);
    } else {
      HalvesOfLow(x, Pow2(w - 1));
      NextBit(x, if k > 0 then k - 1 else 0);
      NextBit(x % Pow2(w), if k > 0 then k - 1 else 0);
      if k > 0 {
        LowBits(x / 2, w - 1, k - 1);
      }
    }
  }

  lemma ZeroBit(k: nat)
    ensures BitAt(0, k) == 0
  {
    EuclideanUnique(0, Pow2(k), 0, 0);
  }

  /** A number below 2^w has no bits from `w` on. */
  lemma NoHighBits(x: nat, w: nat, k: nat)
    requires x < Pow2(w) && k >= w
    ensures BitAt(x, k) == 0
  {
    EuclideanUnique(x, Pow2(w), 0, x);
    LowBits(x, w, k);
  }

  /** Each operator works on every pair of bits: product, maximum, sum modulo 2. */
  lemma {:induction false} BitwiseBit(op: Operator, x: nat, y: nat, k: nat)
    ensures var a, b := BitAt(x, k), BitAt(y, k);
      BitAt(Bitwise(op, x, y), k) ==
        match op
        case And => a * b
        case Or => a + b - a * b
        case Xor => (a + b) % 2
    decreases k
  {
    BitwiseStep(op, x, y);
    if k == 0 {
      NextBit(x, 0);
      NextBit(y, 0);
      NextBit(Bitwise(op, x, y), 0);
      BitTable(op, x % 2, y % 2);
    } else {
      NextBit(x, k - 1);
      NextBit(y, k - 1);
      NextBit(Bitwise(op, x, y), k - 1);
      BitwiseBit(op, x / 2, y / 2, k - 1);
    }
  }

  lemma BitTable(op: Operator, a: nat, b: nat)
    requires a < 2 && b < 2
    ensures Bit(op, a, b) ==
      match op
      case And => a * b
      case Or => a + b - a * b
      case Xor => (a + b) % 2
  {
    assert (a == 0 || a == 1) && (b == 0 || b == 1);
  }

  /** A number is determined by its bits. */
  lemma {:induction false} BitsDetermine(x: nat, y: nat, w: nat)
    requires x < Pow2(w) && y < Pow2(w)
    requires forall k: nat | k < w :: BitAt(x, k) == BitAt(y, k)
    ensures x == y
    decreases w
  {
    if w > 0 {
      NextBit(x, 0);
      NextBit(y, 0);
      assert BitAt(x, 0) == BitAt(y, 0);
      forall k: nat | k < w - 1
        ensures BitAt(x / 2, k) == BitAt(y / 2, k)
      {
        NextBit(x, k);
        NextBit(y, k);
        assert BitAt(x, k + 1) == BitAt(y, k + 1);
      }
      BitsDetermine(x / 2, y / 2, w - 1);
    }
  }

  // ---- Section 4.1.2 of FIPS 180-4 ----

  /** A rotation moves bit `(k + n) % 32` to bit `k`. */
  lemma RotrBit(x: word32, n: nat, k: nat)
    requires 0 < n < 32 && k < 32
    ensures BitAt(Rotr(x, n), k) == BitAt(x, (k + n) % 32)
  {
    hide BitAt, Bitwise, Pow2, ShiftRight;
    var low, high := ShiftRight(x, n), ShiftLeft32(x, 32 - n);
    Pow2Values();
    BitwiseBit(Or, low, high, k);
    RightBit(x, n, k);
    LowBits(x * Pow2(32 - n), 32, k);
    LeftBit(x, 32 - n, k);
    if k + n >= 32 {
      NoHighBits(x, 32, k + n);
      assert k - (32 - n) == (k + n) % 32;
    }
  }

  lemma ShrBit(x: word32, n: nat, k: nat)
    ensures BitAt(ShiftRight(x, n), k) == if k + n < 32 then BitAt(x, k + n) else 0
  {
    hide BitAt, Pow2, ShiftRight;
    Pow2Values();
    RightBit(x, n, k);
    if k + n >= 32 {
      NoHighBits(x, 32, k + n);
    }
  }

  lemma Xor3Bit(x: word32, y: word32, z: word32, k: nat)
    ensures BitAt(Xor3(x, y, z), k) == (BitAt(x, k) + BitAt(y, k) + BitAt(z, k)) % 2
  {
    hide BitAt, Bitwise;
    BitwiseBit(Xor, x, y, k);
    BitwiseBit(Xor, Bitwise(Xor, x, y), z, k);
  }

  lemma BigSigmaBits(x: word32, k: nat)
    requires k < 32
    ensures BitAt(BigSigma0(x), k)
         == (BitAt(x, (k + 2) % 32) + BitAt(x, (k + 13) % 32) + BitAt(x, (k + 22) % 32)) % 2
    ensures BitAt(BigSigma1(x), k)
         == (BitAt(x, (k + 6) % 32) + BitAt(x, (k + 11) % 32) + BitAt(x, (k + 25) % 32)) % 2
  {
    hide BitAt, Rotr, Xor3;
    RotrBit(x, 2, k);
    RotrBit(x, 13, k);
    RotrBit(x, 22, k);
    Xor3Bit(Rotr(x, 2), Rotr(x, 13), Rotr(x, 22), k);
    RotrBit(x, 6, k);
    RotrBit(x, 11, k);
    RotrBit(x, 25, k);
    Xor3Bit(Rotr(x, 6), Rotr(x, 11), Rotr(x, 25), k);
  }

  /** The third term of the small sigmas is shifted, not rotated. */
  lemma SmallSigmaBits(x: word32, k: nat)
    requires k < 32
    ensures BitAt(SmallSigma0(x), k)
         == (BitAt(x, (k + 7) % 32) + BitAt(x, (k + 18) % 32) + if k < 29 then BitAt(x, k + 3) else 0) % 2
    ensures BitAt(SmallSigma1(x), k)
         == (BitAt(x, (k + 17) % 32) + BitAt(x, (k + 19) % 32) + if k < 22 then BitAt(x, k + 10) else 0) % 2
  {
    hide BitAt, Rotr, Xor3, ShiftRight;
    RotrBit(x, 7, k);
    RotrBit(x, 18, k);
    ShrBit(x, 3, k);
    Xor3Bit(Rotr(x, 7), Rotr(x, 18), ShiftRight(x, 3), k);
    RotrBit(x, 17, k);
    RotrBit(x, 19, k);
    ShrBit(x, 10, k);
    Xor3Bit(Rotr(x, 17), Rotr(x, 19), ShiftRight(x, 10), k);
  }

  lemma {:induction false} ComplementBit(x: nat, w: nat, k: nat)
    requires x < Pow2(w) && k < w
    ensures BitAt(Pow2(w) - 1 - x, k) == 1 - BitAt(x, k)
    decreases w
  {
    var p := Pow2(w - 1);
    var y := 2 * p - 1 - x;
    assert y / 2 == p - 1 - x / 2 && y % 2 == 1 - x % 2;
    if k == 0 {
      NextBit(x, 0);
      NextBit(y, 0);
    } else {
      NextBit(x, k - 1);
      NextBit(y, k - 1);
      ComplementBit(x / 2, w - 1, k - 1);
    }
  }

  /** Each bit of `x` chooses between the bits of `y` and `z`. */
  lemma ChBit(x: word32, y: word32, z: word32, k: nat)
    requires k < 32
    ensures BitAt(Ch(x, y, z), k) == if BitAt(x, k) == 1 then BitAt(y, k) else BitAt(z, k)
  {
    hide BitAt, Bitwise, Pow2;
    Pow2Values();
    ComplementBit(x, 32, k);
    BitwiseBit(And, x, y, k);
    BitwiseBit(And, Fips180.Not(x), z, k);
    BitwiseBit(Xor, Bitwise(And, x, y), Bitwise(And, Fips180.Not(x), z), k);
  }

  /** Each bit is what at least two of the three bits are. */
  lemma MajBit(x: word32, y: word32, z: word32, k: nat)
    ensures BitAt(Maj(x, y, z), k) == 1 <==> BitAt(x, k) + BitAt(y, k) + BitAt(z, k) >= 2
  {
    hide BitAt, Bitwise, Xor3;
    Bitwise32(And, x, y);
    Bitwise32(And, x, z);
    Bitwise32(And, y, z);
    BitwiseBit(And, x, y, k);
    BitwiseBit(And, x, z, k);
    BitwiseBit(And, y, z, k);
    Xor3Bit(Bitwise(And, x, y), Bitwise(And, x, z), Bitwise(And, y, z), k);
    MajorityTable(BitAt(x, k), BitAt(y, k), BitAt(z, k));
  }

  lemma MajorityTable(a: nat, b: nat, c: nat)
    requires a < 2 && b < 2 && c < 2
    ensures (a * b + a * c + b * c) % 2 == 1 <==> a + b + c >= 2
  {
    assert (a == 0 || a == 1) && (b == 0 || b == 1) && (c == 0 || c == 1);
  }

  // ---- Sections 5.1.1, 5.2.1 and 6.2.2 of FIPS 180-4 ----

  /** The padding is a bit 1, then bits 0, then the length: no other first byte starts with a lone 1. */
  lemma PaddingBits(length: nat)
    ensures var p := Padding(length);
      && |p| >= 9 && BitAt(p[0], 7) == 1 && (forall k: nat | k < 7 :: BitAt(p[0], k) == 0)
      && forall i | 1 <= i < |p| - 8 :: p[i] == 0
  {
    assert Padding(length)[0] == 0x80;
    assert Pow2(7) == 0x80;
    assert 1 * Pow2(7) == 0x80;
    LeftBit(1, 7, 7);
    forall k: nat | k < 7
      ensures BitAt(0x80, k) == 0
    {
      LeftBit(1, 7, k);
    }
    assert BitAt(1, 0) == 1 by { NextBit(1, 0); }
  }

  /** A word of a block is the number its four bytes denote, most significant first. */
  lemma BlockWordValue(block: Block, t: nat)
    requires t < 16
    ensures BlockWord(block, t) == Value(block[4 * t..4 * t + 4])
  {
    FourBytes(block[4 * t..4 * t + 4]);
  }

  lemma FourBytes(s: seq<byte>)
    requires |s| == 4
    ensures Value(s) == FromBytes(s[0], s[1], s[2], s[3])
  {
    assert s[..3][..2] == s[..2] && s[..2][..1] == s[..1] && s[..1][..0] == [];
    assert Value(s[..1]) == s[0];
    assert Value(s[..2]) == TWO_8 * s[0] + s[1];
    assert Value(s[..3]) == TWO_8 * Value(s[..2]) + s[2];
  }

  /** The schedule by index: the block first, then each word from four before it. */
  lemma {:induction false} ScheduleAt(block: Block, n: nat, t: nat)
    requires t < n <= 64
    ensures var w := Schedule(block, n);
      w[t] == if t < 16 then Value(block[4 * t..4 * t + 4])
              else (SmallSigma1(w[t - 2]) + w[t - 7] + SmallSigma0(w[t - 15]) + w[t - 16]) % TWO_32
    decreases n
  {
    hide SmallSigma0, SmallSigma1, BlockWord, Value;
    if t < n - 1 {
      ScheduleAt(block, n - 1, t);
    } else if t < 16 {
      BlockWordValue(block, t);
    }
  }

  /**
   The computation as two registers: with `A(i)` and `E(i)` for the first and the fifth working variable
   after `i` rounds, the others are `A` and `E` one, two and three rounds ago, and each round computes
   `A` and `E` from the last four of each.
   */
  lemma TwoRegisters(v: Digest, w: seq<word32>, t: nat)
    requires 3 <= t < |w| <= 64
    ensures var A := (i: nat) requires i <= |w| => Rounds(v, w, i).a;
      var E := (i: nat) requires i <= |w| => Rounds(v, w, i).e;
      var sum := E(t - 3) + BigSigma1(E(t)) + Ch(E(t), E(t - 1), E(t - 2)) + K(t) + w[t];
      && E(t + 1) == (A(t - 3) + sum) % TWO_32
      && A(t + 1) == (sum + BigSigma0(A(t)) + Maj(A(t), A(t - 1), A(t - 2))) % TWO_32
  {
    hide BigSigma0, BigSigma1, Ch, Maj, K, Round, Rounds;
    OneRound(v, w, t - 3);
    OneRound(v, w, t - 2);
    OneRound(v, w, t - 1);
    OneRound(v, w, t);
  }

  /** One round: six variables move one place, the other two are computed. */
  lemma OneRound(v: Digest, w: seq<word32>, t: nat)
    requires t < |w| <= 64
    ensures var x, y := Rounds(v, w, t), Rounds(v, w, t + 1);
      var sum := x.h + BigSigma1(x.e) + Ch(x.e, x.f, x.g) + K(t) + w[t];
      && y.b == x.a && y.c == x.b && y.d == x.c && y.f == x.e && y.g == x.f && y.h == x.g
      && y.e == (x.d + sum) % TWO_32
      && y.a == (sum + BigSigma0(x.a) + Maj(x.a, x.b, x.c)) % TWO_32
    ensures Rounds(v, w, 0) == v
  {
    hide BigSigma0, BigSigma1, Ch, Maj, K, Round, Rounds;
    var x := Rounds(v, w, t);
    var sum := x.h + BigSigma1(x.e) + Ch(x.e, x.f, x.g) + K(t) + w[t];
    BlockCompression.RoundsStep(v, w, t);
    BlockCompression.RoundUnmasked(x, K(t), w[t], sum, BigSigma0(x.a) + Maj(x.a, x.b, x.c));
  }

  /** Compressing adds what sixty-four rounds make of the digest to the digest, word by word. */
  lemma CompressAdds(digest: Digest, block: Block, i: nat)
    requires i < 8
    ensures Compress(digest, block).Words()[i]
         == (digest.Words()[i] + Rounds(digest, Schedule(block, 64), 64).Words()[i]) % TWO_32
  {
    hide Rounds, Schedule;
  }
}
