/**
 Machine words as naturals with their width written out, and the bitwise operators on them.

 A C++ `word_t` is an `unsigned long`, 64 bits wide here. Shifts and complements are the only
 operators whose result depends on that width; they are written with it. `&`, `|` and `^` work
 bit by bit on naturals of any size.
 */
module Words {

  const TWO_8: nat := 0x100
  const TWO_16: nat := 0x1_0000
  const TWO_32: nat := 0x1_0000_0000
  const TWO_64: nat := 0x1_0000_0000_0000_0000

  type byte = x: nat | x < TWO_8
  type uint16 = x: nat | x < TWO_16
  type word32 = x: nat | x < TWO_32
  type word = x: nat | x < TWO_64
  type Bytes = seq<byte>

  function Pow2(k: nat): (p: nat)
    ensures p >= 1
  {
    if k == 0 then 1 else 2 * Pow2(k - 1)
  }

  /** `s` with `data` written over it from index `at` on. */
  function Overwrite(s: seq<byte>, at: nat, data: seq<byte>): (r: seq<byte>)
    requires at + |data| <= |s|
    ensures |r| == |s|
  {
    s[..at] + data + s[at + |data|..]
  }

  lemma OverwriteNothing(s: seq<byte>, at: nat)
    requires at <= |s|
    ensures Overwrite(s, at, []) == s
  {
  }

  datatype Operator = And | Or | Xor

  function Bit(op: Operator, x: nat, y: nat): (b: nat)
    requires x < 2 && y < 2
    ensures b < 2
  {
    match op
    case And => if x == 1 && y == 1 then 1 else 0
    case Or => if x == 1 || y == 1 then 1 else 0
    case Xor => if x != y then 1 else 0
  }

  function Bitwise(op: Operator, x: nat, y: nat): nat {
    if x == 0 && y == 0 then 0
    else 2 * Bitwise(op, x / 2, y / 2) + Bit(op, x % 2, y % 2)
  }

  /** `x >> n` on an unsigned word of any width. */
  function ShiftRight(x: nat, n: nat): (r: nat)
    ensures r <= x
  {
    DivisionShrinks(x, Pow2(n));
    x / Pow2(n)
  }

  /** `x + y` on 64-bit words. */
  function Plus64(x: word, y: word): word {
    (x + y) % TWO_64
  }

  /** `x << n` on a 64-bit word: the bits pushed past the top are lost. */
  function ShiftLeft64(x: nat, n: nat): word {
    x * Pow2(n) % TWO_64
  }

  /** `x << n` on a 32-bit word. */
  function ShiftLeft32(x: nat, n: nat): word32 {
    x * Pow2(n) % TWO_32
  }

  lemma DivisionShrinks(x: nat, d: nat)
    requires d >= 1
    ensures 0 <= x / d <= x
  {
    var q := x / d;
    assert x == d * q + x % d;
    if q < 0 {
      MultiplyAtLeast(d, -q);
    } else if q > 0 {
      MultiplyAtLeast(q, d);
    }
  }

  lemma HalfModulus(x: nat, p: nat)
    requires p >= 1
    ensures x % (2 * p) == 2 * (x / 2 % p) + x % 2
  {
    var h := x / 2;
    var q := h / p;
    assert x == 2 * p * q + (2 * (h % p) + x % 2) by {
      assert h == p * q + h % p;
      assert 2 * (p * q) == 2 * p * q;
    }
    EuclideanUnique(x, 2 * p, q, 2 * (h % p) + x % 2);
  }

  lemma EuclideanUnique(x: int, d: int, q: int, r: int)
    requires d > 0 && x == d * q + r && 0 <= r < d
    ensures x / d == q && x % d == r
  {
    var e := q - x / d;
    assert d * e == x % d - r by {
      assert d * e == d * q - d * (x / d);
    }
    if e >= 1 {
      MultiplyAtLeast(d, e);
    } else if e <= -1 {
      MultiplyAtLeast(d, -e);
    }
  }

  lemma {:induction false} MultiplyAtLeast(d: int, e: int)
    requires d > 0 && e >= 1
    ensures d * e >= d
    decreases e
  {
    if e > 1 {
      MultiplyAtLeast(d, e - 1);
    }
  }

  lemma Pow2Values()
    ensures Pow2(8) == TWO_8 && Pow2(16) == TWO_16 && Pow2(24) == 0x100_0000 && Pow2(32) == TWO_32
    ensures Pow2(64) == TWO_64
  {
    assert Pow2(8) == 0x100;
    assert Pow2(12) == 0x1000;
    assert Pow2(16) == 0x1_0000;
    assert Pow2(20) == 0x10_0000;
    assert Pow2(24) == 0x100_0000;
    assert Pow2(28) == 0x1000_0000;
    assert Pow2(32) == 0x1_0000_0000;
    assert Pow2(40) == 0x100_0000_0000;
    assert Pow2(48) == 0x1_0000_0000_0000;
    assert Pow2(56) == 0x100_0000_0000_0000;
    assert Pow2(64) == 0x1_0000_0000_0000_0000;
  }

  /** The low `k` bits of a result depend on the low `k` bits of the operands only. */
  lemma {:induction false} BitwiseLow(op: Operator, x: nat, y: nat, k: nat)
    ensures Bitwise(op, x, y) % Pow2(k) == Bitwise(op, x % Pow2(k), y % Pow2(k))
    decreases k
  {
    if k == 0 {
      assert x % 1 == 0 && y % 1 == 0 && Bitwise(op, x, y) % 1 == 0;
    } else {
      var p := Pow2(k - 1);
      var x', y' := x % Pow2(k), y % Pow2(k);
      HalvesOfLow(x, p);
      HalvesOfLow(y, p);
      HalfModulus(Bitwise(op, x, y), p);
      BitwiseLow(op, x / 2, y / 2, k - 1);
      BitwiseStep(op, x, y);
      BitwiseStep(op, x', y');
    }
  }

  lemma HalvesOfLow(x: nat, p: nat)
    requires p >= 1
    ensures x % (2 * p) / 2 == x / 2 % p && x % (2 * p) % 2 == x % 2
  {
    HalfModulus(x, p);
  }

  /** The recursive equation, without the special case for zero. */
  lemma BitwiseStep(op: Operator, x: nat, y: nat)
    ensures Bitwise(op, x, y) == 2 * Bitwise(op, x / 2, y / 2) + Bit(op, x % 2, y % 2)
    ensures Bitwise(op, x, y) / 2 == Bitwise(op, x / 2, y / 2)
    ensures Bitwise(op, x, y) % 2 == Bit(op, x % 2, y % 2)
  {
  }

  /** No operator sets a bit above the highest bit of its operands. */
  lemma {:induction false} BitwiseBound(op: Operator, x: nat, y: nat, k: nat)
    requires x < Pow2(k) && y < Pow2(k)
    ensures Bitwise(op, x, y) < Pow2(k)
    decreases k
  {
    if k != 0 {
      BitwiseBound(op, x / 2, y / 2, k - 1);
      BitwiseStep(op, x, y);
    }
  }

  lemma Bitwise32(op: Operator, x: nat, y: nat)
    requires x < TWO_32 && y < TWO_32
    ensures Bitwise(op, x, y) < TWO_32
  {
    Pow2Values();
    BitwiseBound(op, x, y, 32);
  }

  lemma Bitwise64(op: Operator, x: nat, y: nat)
    requires x < TWO_64 && y < TWO_64
    ensures Bitwise(op, x, y) < TWO_64
  {
    Pow2Values();
    BitwiseBound(op, x, y, 64);
  }

  lemma BitwiseLow32(op: Operator, x: nat, y: nat)
    ensures Bitwise(op, x, y) % TWO_32 == Bitwise(op, x % TWO_32, y % TWO_32)
  {
    Pow2Values();
    BitwiseLow(op, x, y, 32);
  }

  /** Masking with `k` ones is the remainder modulo `2^k`. */
  lemma {:induction false} MaskIsRemainder(x: nat, k: nat)
    ensures Bitwise(And, x, Pow2(k) - 1) == x % Pow2(k)
    decreases k
  {
    if k == 0 {
      AndZero(x);
      assert x % 1 == 0;
    } else {
      MaskIsRemainder(x / 2, k - 1);
      MaskStep(x, Pow2(k - 1));
    }
  }

  lemma MaskStep(x: nat, p: nat)
    requires p >= 1 && Bitwise(And, x / 2, p - 1) == x / 2 % p
    ensures Bitwise(And, x, 2 * p - 1) == x % (2 * p)
  {
    AllOnes(p);
    BitwiseStep(And, x, 2 * p - 1);
    HalfModulus(x, p);
    hide Bitwise;
  }

  lemma AllOnes(p: nat)
    requires p >= 1
    ensures (2 * p - 1) / 2 == p - 1 && (2 * p - 1) % 2 == 1
  {
  }

  lemma {:induction false} AndZero(x: nat)
    ensures Bitwise(And, x, 0) == 0
  {
    if x != 0 {
      AndZero(x / 2);
    }
  }

  lemma {:induction false} AndAtMost(x: nat, y: nat)
    ensures Bitwise(And, x, y) <= y
    decreases x + y
  {
    if x != 0 || y != 0 {
      AndAtMost(x / 2, y / 2);
      BitwiseStep(And, x, y);
    }
  }

  lemma {:induction false} OrZero(x: nat)
    ensures Bitwise(Or, x, 0) == x == Bitwise(Or, 0, x)
  {
    if x != 0 {
      OrZero(x / 2);
    }
  }

  /** `|` of a multiple of `2^k` and a number below `2^k` is their sum. */
  lemma {:induction false} OrDisjoint(x: nat, y: nat, k: nat)
    requires y < Pow2(k)
    ensures Bitwise(Or, x * Pow2(k), y) == x * Pow2(k) + y
    decreases k
  {
    if k == 0 {
      OrZero(x);
    } else {
      var h := x * Pow2(k - 1);
      assert x * Pow2(k) == 2 * h;
      OrDisjoint(x, y / 2, k - 1);
      BitwiseStep(Or, 2 * h, y);
      assert (2 * h) / 2 == h && (2 * h) % 2 == 0;
    }
  }
}
