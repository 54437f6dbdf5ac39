/**
 The byte count of a hasher: four 16-bit digits, least significant first, that together hold a
 64-bit number.
 */
module LengthDigits {
  import opened Words
  import Fips180

  /** `v` without its `i` least significant 16-bit digits. */
  function Drop(v: nat, i: nat): nat {
    if i == 0 then v else Drop(v / TWO_16, i - 1)
  }

  /** The `n` least significant 16-bit digits of `v`. */
  function Digits(v: nat, n: nat): (d: seq<word>)
    ensures |d| == n
    ensures forall i | 0 <= i < n :: d[i] == Drop(v, i) % TWO_16
  {
    if n == 0 then [] else
      var d := [v % TWO_16] + Digits(v / TWO_16, n - 1);
      assert forall i | 0 < i < n :: d[i] == Drop(v, i) % TWO_16;
      d
  }

  lemma {:induction false} DropStep(v: nat, i: nat)
    ensures Drop(v, i + 1) == Drop(v, i) / TWO_16
    decreases i
  {
    if i != 0 {
      DropStep(v / TWO_16, i - 1);
    }
  }

  /** Four digits keep the number modulo 2^64. */
  lemma DigitsModulo(v: nat)
    ensures Digits(v + TWO_64, 4) == Digits(v, 4)
  {
    DigitsOfSum(v, 0x1_0000_0000_0000, 4);
    DigitsOfSum(v / TWO_16, 0x1_0000_0000, 3);
    DigitsOfSum(v / TWO_16 / TWO_16, 0x1_0000, 2);
    DigitsOfSum(v / TWO_16 / TWO_16 / TWO_16, 1, 1);
    assert Digits(v / TWO_16 / TWO_16 / TWO_16 / TWO_16 + 1, 0) == Digits(v / TWO_16 / TWO_16 / TWO_16 / TWO_16, 0);
  }

  lemma DigitsOfSum(v: nat, m: nat, n: nat)
    requires n > 0
    ensures Digits(v + TWO_16 * m, n) == [v % TWO_16] + Digits(v / TWO_16 + m, n - 1)
    ensures Digits(v, n) == [v % TWO_16] + Digits(v / TWO_16, n - 1)
  {
    assert (v + TWO_16 * m) / TWO_16 == v / TWO_16 + m && (v + TWO_16 * m) % TWO_16 == v % TWO_16;
  }

  function And65535(x: word): (r: word)
    ensures r == x % TWO_16
  {
    Pow2Values();
    MaskIsRemainder(x, 16);
    Bitwise(And, x, 65535)
  }

  lemma ShiftRight16(x: nat)
    ensures ShiftRight(x, 16) == x / TWO_16
  {
    Pow2Values();
  }

  /** Digit `i` of a sum, and what is carried into digit `i + 1`. */
  lemma CarryStep(sum: nat, v: nat, i: nat, pending: nat)
    requires Drop(sum, i) == pending + TWO_16 * Drop(v, i + 1)
    ensures Drop(sum, i) % TWO_16 == pending % TWO_16
    ensures Drop(sum, i + 1) == pending / TWO_16 + Drop(v, i + 1)
    ensures Drop(v, i + 1) == Drop(v, i + 1) % TWO_16 + TWO_16 * Drop(v, i + 2)
  {
    DropStep(sum, i);
    DropStep(v, i + 1);
    QuotientAndRemainder(pending, Drop(v, i + 1));
  }

  lemma QuotientAndRemainder(x: nat, y: nat)
    ensures (x + TWO_16 * y) % TWO_16 == x % TWO_16 && (x + TWO_16 * y) / TWO_16 == x / TWO_16 + y
  {
  }

  /** `add_to_data_length`. The sum in the lowest digit may wrap; a carry may span several digits. */
  method AddToDataLength(digits: array<word>, n: word, ghost v: nat)
    requires digits.Length == 4 && digits[..] == Digits(v, 4)
    modifies digits
    ensures digits[..] == Digits(v + n, 4)
  {
    hide Bitwise, Pow2, Digits, And65535, ShiftRight, Drop, Digit, Plus64;
    ghost var sum := if v % TWO_16 + n < TWO_64 then v + n else v + n - TWO_64;
    SumModulo(v, n, sum);
    TheDigits(digits[..], v);
    var carry: word := 0;
    digits[0] := Plus64(digits[0], n);
    var i := 0;
    while i < 4
      invariant i <= 4 && carry < 0x1_0000_0000_0000
      invariant i < 4 ==> Drop(sum, i) == digits[i] + carry + TWO_16 * Drop(v, i + 1)
      invariant forall j | 0 <= j < i :: digits[j] == Digit(sum, j)
      invariant forall j | i < j < 4 :: digits[j] == Digit(v, j)
      invariant if i == 0 then carry == 0 else i < 4 ==> digits[i] < TWO_16
    {
      ghost var pending := digits[i] + carry;
      NoOverflow(digits[i], carry);
      CarryOn(sum, v, i, pending);
      digits[i] := Plus64(digits[i], carry);
      if digits[i] >= 65536 {
        ShiftRight16(pending);
        carry := ShiftRight(digits[i], 16);
        digits[i] := And65535(digits[i]);
      } else {
        SameDigits(sum, v, i + 1);
        break;
      }
      i := i + 1;
    }
    AreDigits(digits[..], sum);
  }

  /** The digit of `v` at place `i`. */
  function Digit(v: nat, i: nat): (d: nat)
    ensures d < TWO_16
  {
    Drop(v, i) % TWO_16
  }

  lemma TheDigits(s: seq<word>, v: nat)
    requires |s| == 4 && s == Digits(v, 4)
    ensures forall j | 0 <= j < 4 :: s[j] == Digit(v, j)
    ensures s[0] == v % TWO_16
  {
    hide Digits;
    assert Drop(v, 0) == v;
  }

  lemma AreDigits(s: seq<word>, v: nat)
    requires |s| == 4 && forall j | 0 <= j < 4 :: s[j] == Digit(v, j)
    ensures s == Digits(v, 4)
  {
    hide Digits, Drop;
  }

  lemma CarryOn(sum: nat, v: nat, i: nat, pending: nat)
    requires Drop(sum, i) == pending + TWO_16 * Drop(v, i + 1)
    ensures Digit(sum, i) == pending % TWO_16
    ensures Drop(sum, i + 1) == Digit(v, i + 1) + pending / TWO_16 + TWO_16 * Drop(v, i + 2)
    ensures pending < TWO_16 ==> pending % TWO_16 == pending && Drop(sum, i + 1) == Drop(v, i + 1)
    ensures pending < TWO_64 ==> pending / TWO_16 < 0x1_0000_0000_0000
  {
    hide Drop;
    CarryStep(sum, v, i, pending);
  }

  lemma SameDigits(a: nat, b: nat, i: nat)
    requires i <= 4 && Drop(a, i) == Drop(b, i)
    ensures forall j | i <= j < 4 :: Digit(a, j) == Digit(b, j)
  {
    hide Drop;
    SameFrom(a, b, i, 4);
  }

  lemma NoOverflow(digit: word, carry: word)
    requires carry == 0 || (digit < TWO_16 && carry < 0x1_0000_0000_0000)
    ensures Plus64(digit, carry) == digit + carry
  {
  }

  lemma SumModulo(v: nat, n: word, sum: nat)
    requires sum == if v % TWO_16 + n < TWO_64 then v + n else v + n - TWO_64
    ensures Digits(sum, 4) == Digits(v + n, 4)
    ensures Drop(sum, 0) == Plus64(v % TWO_16, n) + TWO_16 * Drop(v, 1)
    ensures Drop(v, 0) == v
  {
    if sum != v + n {
      DigitsModulo(sum);
    }
  }

  lemma {:induction false} SameFrom(a: nat, b: nat, i: nat, k: nat)
    requires Drop(a, i) == Drop(b, i)
    ensures forall j | i <= j < k :: Drop(a, j) == Drop(b, j)
    decreases k - i
  {
    if i < k {
      DropStep(a, i);
      DropStep(b, i);
      SameFrom(a, b, i + 1, k);
    }
  }

  /** Shifting one digit three places left, with the three bits shifted out of the digit below. */
  lemma ShiftStep(v: nat, x: nat, i: nat, before: word, carry: word)
    requires before == Drop(v, i) % TWO_16 && carry < 8
    requires Drop(x, i) == 8 * Drop(v, i) + carry
    ensures Bitwise(Or, ShiftLeft64(before, 3), carry) % TWO_16 == Drop(x, i) % TWO_16
    ensures ShiftRight(before, 13) % TWO_16 < 8
    ensures Drop(x, i + 1) == 8 * Drop(v, i + 1) + ShiftRight(before, 13) % TWO_16
  {
    hide Bitwise, Drop;
    ShiftsOfDigit(before);
    assert Pow2(3) == 8;
    OrDisjoint(before, carry, 3);
    DropStep(v, i);
    DropStep(x, i);
    hide ShiftLeft64, ShiftRight, Pow2;
    TimesEight(Drop(v, i), carry);
  }

  lemma ShiftsOfDigit(before: word)
    requires before < TWO_16
    ensures ShiftLeft64(before, 3) == before * 8
    ensures ShiftRight(before, 13) == before / 8192 < 8
  {
    assert Pow2(3) == 8 && Pow2(13) == 8192;
  }

  lemma TimesEight(y: nat, c: nat)
    requires c < 8
    ensures (8 * (y % TWO_16) + c) % TWO_16 == (8 * y + c) % TWO_16
    ensures (8 * y + c) / TWO_16 == 8 * (y / TWO_16) + y % TWO_16 / 8192
  {
    var q, r := y / TWO_16, y % TWO_16;
    var h, l := r / 8192, 8 * (r % 8192) + c;
    assert r == 8192 * h + r % 8192;
    EuclideanUnique(8 * r + c, TWO_16, h, l);
    EuclideanUnique(8 * y + c, TWO_16, 8 * q + h, l);
  }

  lemma BigEndianDigit(x: nat, i: nat, n: nat)
    ensures Fips180.BigEndian(Drop(x, i), n + 2)
         == Fips180.BigEndian(Drop(x, i + 1), n) + [Drop(x, i) % TWO_16 / TWO_8, Drop(x, i) % TWO_16 % TWO_8]
  {
    var y := Drop(x, i);
    DropStep(x, i);
    assert y / TWO_8 / TWO_8 == y / TWO_16;
    assert y / TWO_8 % TWO_8 == y % TWO_16 / TWO_8 && y % TWO_16 % TWO_8 == y % TWO_8;
  }

  /** `write_data_bit_length`: eight times the byte count, most significant byte first. */
  method WriteDataBitLength(digits: array<word>, out: array<byte>, begin: nat, ghost v: nat)
    requires digits.Length == 4 && digits[..] == Digits(v, 4)
    requires begin + 8 <= out.Length
    modifies out
    ensures out[..] == old(out[..])[..begin] + Fips180.BigEndian(8 * v, 8) + old(out[..])[begin + 8..]
  {
    hide Bitwise, Pow2, Digits, And65535, ShiftRight, ShiftLeft64, Drop, Fips180.BigEndian, Overwrite;
    var bits := new word[4](i requires 0 <= i < 4 reads digits => digits[i]);
    ghost var x := 8 * v;
    DropNothing(v);
    DropNothing(x);
    var carry: word := 0;
    for i := 0 to 4
      invariant fresh(bits) && bits.Length == 4 && out[..] == old(out[..])
      invariant carry < 8 && Drop(x, i) == 8 * Drop(v, i) + carry
      invariant forall j | 0 <= j < i :: bits[j] == Drop(x, j) % TWO_16
      invariant forall j | i <= j < 4 :: bits[j] == Drop(v, j) % TWO_16
    {
      var before := bits[i];
      ShiftStep(v, x, i, before, carry);
      bits[i] := ShiftLeft64(bits[i], 3);
      Bitwise64(Or, bits[i], carry);
      bits[i] := Bitwise(Or, bits[i], carry);
      bits[i] := And65535(bits[i]);
      carry := And65535(ShiftRight(before, 13));
    }
    var at, i := begin, 4;
    ghost var written := Fips180.BigEndian(Drop(x, 4), 0);
    NothingWritten(out[..], begin, Drop(x, 4));
    while i > 0
      invariant 0 <= i <= 4 && at == begin + 2 * (4 - i)
      invariant forall j | 0 <= j < 4 :: bits[j] == Drop(x, j) % TWO_16
      invariant written == Fips180.BigEndian(Drop(x, i), 2 * (4 - i))
      invariant out[..] == Overwrite(old(out[..]), begin, written)
    {
      i := i - 1;
      ShiftRight8(bits[i]);
      BigEndianDigit(x, i, 2 * (3 - i));
      ghost var before := out[..];
      out[at] := ShiftRight(bits[i], 8) % TWO_8;
      out[at + 1] := bits[i] % TWO_8;
      TwoMore(old(out[..]), begin, written, before, out[..], bits[i] / TWO_8, bits[i] % TWO_8);
      at := at + 2;
      written := Fips180.BigEndian(Drop(x, i), 2 * (4 - i));
    }
    WholeNumber(old(out[..]), begin, x);
  }

  lemma NothingWritten(s: seq<byte>, begin: nat, x: nat)
    requires begin <= |s|
    ensures Overwrite(s, begin, Fips180.BigEndian(x, 0)) == s
  {
  }

  lemma TwoMore(s: seq<byte>, begin: nat, written: seq<byte>, before: seq<byte>, after: seq<byte>, hi: byte, lo: byte)
    requires begin + |written| + 2 <= |s| && before == Overwrite(s, begin, written)
    requires after == before[begin + |written| := hi][begin + |written| + 1 := lo]
    ensures after == Overwrite(s, begin, written + [hi, lo])
  {
  }

  lemma WholeNumber(s: seq<byte>, begin: nat, x: nat)
    requires begin + 8 <= |s|
    ensures Overwrite(s, begin, Fips180.BigEndian(Drop(x, 0), 8))
         == s[..begin] + Fips180.BigEndian(x, 8) + s[begin + 8..]
  {
  }

  lemma DigitsOfZero()
    ensures Digits(0, 4) == [0, 0, 0, 0]
  {
    assert Digits(0, 1) == [0] && Digits(0, 2) == [0, 0] && Digits(0, 3) == [0, 0, 0];
  }

  /** Narrowing an addend to 64 bits first makes no difference to the digits. */
  lemma {:induction false} AddsModulo(v: nat, n: nat)
    ensures Digits(v + n % TWO_64, 4) == Digits(v + n, 4)
    decreases n
  {
    hide Digits;
    if n >= TWO_64 {
      var m := n - TWO_64;
      assert n % TWO_64 == m % TWO_64;
      AddsModulo(v, m);
      DigitsModulo(v + m);
    }
  }

  lemma DropNothing(v: nat)
    ensures Drop(v, 0) == v
  {
  }

  lemma ShiftRight8(x: nat)
    ensures ShiftRight(x, 8) == x / TWO_8
  {
    Pow2Values();
  }
}
