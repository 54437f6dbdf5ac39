/**
 SHA-256 as FIPS 180-4 defines it, on 32-bit words and whole messages. Section numbers below
 are sections of that standard.
 */
module Fips180 {
  import opened Words

  // ---- Section 4.1.2: functions on 32-bit words ----

  function Not(x: word32): word32 {
    TWO_32 - 1 - x
  }

  function Rotr(x: word32, n: nat): word32
    requires 0 < n < 32
  {
    Bitwise32(Or, ShiftRight(x, n), ShiftLeft32(x, 32 - n));
    Bitwise(Or, ShiftRight(x, n), ShiftLeft32(x, 32 - n))
  }

  function Xor3(x: word32, y: word32, z: word32): word32 {
    Bitwise32(Xor, x, y);
    Bitwise32(Xor, Bitwise(Xor, x, y), z);
    Bitwise(Xor, Bitwise(Xor, x, y), z)
  }

  function Ch(x: word32, y: word32, z: word32): word32 {
    Bitwise32(And, x, y);
    Bitwise32(And, Not(x), z);
    Bitwise32(Xor, Bitwise(And, x, y), Bitwise(And, Not(x), z));
    Bitwise(Xor, Bitwise(And, x, y), Bitwise(And, Not(x), z))
  }

  function Maj(x: word32, y: word32, z: word32): word32 {
    Bitwise32(And, x, y);
    Bitwise32(And, x, z);
    Bitwise32(And, y, z);
    Xor3(Bitwise(And, x, y), Bitwise(And, x, z), Bitwise(And, y, z))
  }

  function BigSigma0(x: word32): word32 { Xor3(Rotr(x, 2), Rotr(x, 13), Rotr(x, 22)) }

  function BigSigma1(x: word32): word32 { Xor3(Rotr(x, 6), Rotr(x, 11), Rotr(x, 25)) }

  function SmallSigma0(x: word32): word32 { Xor3(Rotr(x, 7), Rotr(x, 18), ShiftRight(x, 3)) }

  function SmallSigma1(x: word32): word32 { Xor3(Rotr(x, 17), Rotr(x, 19), ShiftRight(x, 10)) }

  // ---- Sections 4.2.2 and 5.3.3: constants ----

  /** The first sixty-four primes. */
  function Prime(t: nat): nat
    requires t < 64
  {
    match t
    case 0 => 2 case 1 => 3 case 2 => 5 case 3 => 7 case 4 => 11 case 5 => 13
    case 6 => 17 case 7 => 19 case 8 => 23 case 9 => 29 case 10 => 31 case 11 => 37
    case 12 => 41 case 13 => 43 case 14 => 47 case 15 => 53 case 16 => 59 case 17 => 61
    case 18 => 67 case 19 => 71 case 20 => 73 case 21 => 79 case 22 => 83 case 23 => 89
    case 24 => 97 case 25 => 101 case 26 => 103 case 27 => 107 case 28 => 109 case 29 => 113
    case 30 => 127 case 31 => 131 case 32 => 137 case 33 => 139 case 34 => 149 case 35 => 151
    case 36 => 157 case 37 => 163 case 38 => 167 case 39 => 173 case 40 => 179 case 41 => 181
    case 42 => 191 case 43 => 193 case 44 => 197 case 45 => 199 case 46 => 211 case 47 => 223
    case 48 => 227 case 49 => 229 case 50 => 233 case 51 => 239 case 52 => 241 case 53 => 251
    case 54 => 257 case 55 => 263 case 56 => 269 case 57 => 271 case 58 => 277 case 59 => 281
    case 60 => 283 case 61 => 293 case 62 => 307 case _ => 311
  }

  /** The round constants. */
  function K(t: nat): word32
    requires t < 64
  {
    match t
    case 0 => 0x428a2f98 case 1 => 0x71374491 case 2 => 0xb5c0fbcf case 3 => 0xe9b5dba5
    case 4 => 0x3956c25b case 5 => 0x59f111f1 case 6 => 0x923f82a4 case 7 => 0xab1c5ed5
    case 8 => 0xd807aa98 case 9 => 0x12835b01 case 10 => 0x243185be case 11 => 0x550c7dc3
    case 12 => 0x72be5d74 case 13 => 0x80deb1fe case 14 => 0x9bdc06a7 case 15 => 0xc19bf174
    case 16 => 0xe49b69c1 case 17 => 0xefbe4786 case 18 => 0x0fc19dc6 case 19 => 0x240ca1cc
    case 20 => 0x2de92c6f case 21 => 0x4a7484aa case 22 => 0x5cb0a9dc case 23 => 0x76f988da
    case 24 => 0x983e5152 case 25 => 0xa831c66d case 26 => 0xb00327c8 case 27 => 0xbf597fc7
    case 28 => 0xc6e00bf3 case 29 => 0xd5a79147 case 30 => 0x06ca6351 case 31 => 0x14292967
    case 32 => 0x27b70a85 case 33 => 0x2e1b2138 case 34 => 0x4d2c6dfc case 35 => 0x53380d13
    case 36 => 0x650a7354 case 37 => 0x766a0abb case 38 => 0x81c2c92e case 39 => 0x92722c85
    case 40 => 0xa2bfe8a1 case 41 => 0xa81a664b case 42 => 0xc24b8b70 case 43 => 0xc76c51a3
    case 44 => 0xd192e819 case 45 => 0xd6990624 case 46 => 0xf40e3585 case 47 => 0x106aa070
    case 48 => 0x19a4c116 case 49 => 0x1e376c08 case 50 => 0x2748774c case 51 => 0x34b0bcb5
    case 52 => 0x391c0cb3 case 53 => 0x4ed8aa4a case 54 => 0x5b9cca4f case 55 => 0x682e6ff3
    case 56 => 0x748f82ee case 57 => 0x78a5636f case 58 => 0x84c87814 case 59 => 0x8cc70208
    case 60 => 0x90befffa case 61 => 0xa4506ceb case 62 => 0xbef9a3f7 case _ => 0xc67178f2
  }

  /** A hash value, or the eight working variables. */
  datatype Digest = Digest(
    a: word32, b: word32, c: word32, d: word32, e: word32, f: word32, g: word32, h: word32)
  {
    function Words(): (s: seq<word32>)
      ensures |s| == 8
    {
      [a, b, c, d, e, f, g, h]
    }
  }

  const H0: Digest := Digest(
    0x6a09e667, 0xbb67ae85, 0x3c6ef372, 0xa54ff53a,
    0x510e527f, 0x9b05688c, 0x1f83d9ab, 0x5be0cd19)

  function FloorCubeRoot(p: nat): nat
    requires p < 343
  {
    if p < 8 then 1 else if p < 27 then 2 else if p < 64 then 3 else if p < 125 then 4
    else if p < 216 then 5 else 6
  }

  function FloorSquareRoot(p: nat): nat
    requires p < 25
  {
    if p < 4 then 1 else if p < 9 then 2 else if p < 16 then 3 else 4
  }

  /** `k` is the first 32 bits of the fractional part of the cube root of `p`. */
  predicate IsCubeRootFraction(k: nat, p: nat)
    requires p < 343
  {
    var r := FloorCubeRoot(p) * 0x1_0000_0000 + k;
    k < 0x1_0000_0000 && r * r * r <= p * 0x1_0000_0000_0000_0000_0000_0000 < (r + 1) * (r + 1) * (r + 1)
  }

  /** `k` is the first 32 bits of the fractional part of the square root of `p`. */
  predicate IsSquareRootFraction(k: nat, p: nat)
    requires p < 25
  {
    var r := FloorSquareRoot(p) * 0x1_0000_0000 + k;
    k < 0x1_0000_0000 && r * r <= p * 0x1_0000_0000_0000_0000 < (r + 1) * (r + 1)
  }

  /** The initial hash value consists of square roots of the first eight primes. */
  lemma InitialHashIsSquareRoots()
    ensures IsSquareRootFraction(H0.a, Prime(0)) && IsSquareRootFraction(H0.b, Prime(1))
    ensures IsSquareRootFraction(H0.c, Prime(2)) && IsSquareRootFraction(H0.d, Prime(3))
    ensures IsSquareRootFraction(H0.e, Prime(4)) && IsSquareRootFraction(H0.f, Prime(5))
    ensures IsSquareRootFraction(H0.g, Prime(6)) && IsSquareRootFraction(H0.h, Prime(7))
  {
  }

  /** The round constants are cube roots of the first sixty-four primes. */
  lemma RoundConstantsAreCubeRoots(t: nat)
    requires t < 64
    ensures Prime(t) < 343 && IsCubeRootFraction(K(t), Prime(t))
  {
  }

  // ---- Section 5.1.1: padding ----

  function Zeros(n: nat): (z: seq<byte>)
    ensures |z| == n
  {
    seq(n, _ => 0)
  }

  /** The `n` low-order bytes of `v`, most significant first. */
  function BigEndian(v: nat, n: nat): (s: seq<byte>)
    ensures |s| == n
  {
    if n == 0 then [] else BigEndian(v / TWO_8, n - 1) + [v % TWO_8]
  }

  /** The least number of zero bytes that leaves room for exactly the length field. */
  function ZeroCount(length: nat): (n: nat)
    ensures n < 64 && (length + 1 + n) % 64 == 56
  {
    (55 - length) % 64
  }

  /**
   What follows a message of `length` bytes. The standard is defined below 2^64 bits; from there
   on the length field holds the bit length modulo 2^64.
   */
  function Padding(length: nat): (s: seq<byte>)
    ensures (length + |s|) % 64 == 0
  {
    var z := ZeroCount(length);
    assert (length + 1 + z + 8) % 64 == 0;
    [0x80] + Zeros(z) + BigEndian(8 * length, 8)
  }

  function Pad(message: seq<byte>): (s: seq<byte>)
    ensures |s| % 64 == 0
  {
    message + Padding(|message|)
  }

  // ---- Section 6.2.2: hash computation ----

  type Block = s: seq<byte> | |s| == 64 witness Zeros(64)

  /** Section 5.2.1: word `t` of a block. */
  function BlockWord(block: Block, t: nat): word32
    requires t < 16
  {
    FromBytes(block[4 * t], block[4 * t + 1], block[4 * t + 2], block[4 * t + 3])
  }

  function FromBytes(b0: nat, b1: nat, b2: nat, b3: nat): word32
    requires b0 < TWO_8 && b1 < TWO_8 && b2 < TWO_8 && b3 < TWO_8
  {
    b0 * 0x100_0000 + b1 * 0x1_0000 + b2 * 0x100 + b3
  }

  /** The first `t` words of the message schedule. */
  function Schedule(block: Block, t: nat): (w: seq<word32>)
    requires t <= 64
    ensures |w| == t
  {
    if t == 0 then []
    else var w := Schedule(block, t - 1); w + [NextWord(block, w)]
  }

  function NextWord(block: Block, w: seq<word32>): word32
    requires |w| < 64
  {
    var t := |w|;
    if t < 16 then BlockWord(block, t)
    else (SmallSigma1(w[t - 2]) + w[t - 7] + SmallSigma0(w[t - 15]) + w[t - 16]) % TWO_32
  }

  function Round(v: Digest, k: word32, w: word32): Digest {
    var t1 := (v.h + BigSigma1(v.e) + Ch(v.e, v.f, v.g) + k + w) % TWO_32;
    var t2 := (BigSigma0(v.a) + Maj(v.a, v.b, v.c)) % TWO_32;
    Digest((t1 + t2) % TWO_32, v.a, v.b, v.c, (v.d + t1) % TWO_32, v.e, v.f, v.g)
  }

  function Rounds(v: Digest, w: seq<word32>, t: nat): Digest
    requires t <= |w| <= 64
  {
    if t == 0 then v else Round(Rounds(v, w, t - 1), K(t - 1), w[t - 1])
  }

  function Add32(x: word32, y: word32): word32 { (x + y) % TWO_32 }

  function Add(x: Digest, y: Digest): Digest {
    Digest(Add32(x.a, y.a), Add32(x.b, y.b), Add32(x.c, y.c), Add32(x.d, y.d),
           Add32(x.e, y.e), Add32(x.f, y.f), Add32(x.g, y.g), Add32(x.h, y.h))
  }

  const ROUNDS: nat := 64

  function Compress(digest: Digest, block: Block): Digest {
    Add(digest, Rounds(digest, Schedule(block, ROUNDS), ROUNDS))
  }

  function Octets(digest: seq<word32>): (s: seq<byte>)
    ensures |s| == 4 * |digest|
  {
    if digest == [] then [] else Octets(digest[..|digest| - 1]) + BigEndian(digest[|digest| - 1], 4)
  }

  type Compression = (Digest, Block) -> Digest

  /** The digest after compressing the first `n` blocks of `m`, first to last. */
  function Chain(compress: Compression, digest: Digest, m: seq<byte>, n: nat): Digest
    requires 64 * n <= |m|
  {
    if n == 0 then digest
    else compress(Chain(compress, digest, m, n - 1), m[64 * (n - 1)..64 * n])
  }

  /** The final hash value of a message, for any compression function. */
  function FinalHash(compress: Compression, message: seq<byte>): Digest {
    var m := Pad(message);
    Chain(compress, H0, m, |m| / 64)
  }

  type Checksum = s: seq<byte> | |s| == 32 witness Zeros(32)

  function Sha256(message: seq<byte>): Checksum {
    Octets(FinalHash(Compress, message).Words())
  }

  /** Below 2^61 bytes the length field denotes the bit length itself, as the standard demands. */
  lemma LengthFieldExact(length: nat)
    requires length < 0x2000_0000_0000_0000
    ensures var p := Padding(length); Value(p[|p| - 8..]) == 8 * length
  {
    Pow2Values();
    BigEndianValue(8 * length, 8);
    var p := Padding(length);
    assert p[|p| - 8..] == BigEndian(8 * length, 8);
  }

  /** The number a byte string denotes, most significant byte first. */
  function Value(s: seq<byte>): nat {
    if s == [] then 0 else TWO_8 * Value(s[..|s| - 1]) + s[|s| - 1]
  }

  lemma {:induction false} BigEndianValue(v: nat, n: nat)
    requires v < Pow2(8 * n)
    ensures Value(BigEndian(v, n)) == v
    decreases n
  {
    if n == 0 {
      assert Pow2(0) == 1;
    } else {
      assert Pow2(8 * n) == TWO_8 * Pow2(8 * (n - 1)) by {
        var k := 8 * (n - 1);
        assert Pow2(k + 8) == 2 * Pow2(k + 7) == 4 * Pow2(k + 6) == 8 * Pow2(k + 5) == 16 * Pow2(k + 4);
        assert Pow2(k + 4) == 2 * Pow2(k + 3) == 4 * Pow2(k + 2) == 8 * Pow2(k + 1) == 16 * Pow2(k);
      }
      BigEndianValue(v / TWO_8, n - 1);
      var s := BigEndian(v, n);
      assert s[..|s| - 1] == BigEndian(v / TWO_8, n - 1);
    }
  }

  /** No fewer zero bytes would do. */
  lemma ZeroCountIsLeast(length: nat, n: nat)
    requires (length + 1 + n) % 64 == 56
    ensures ZeroCount(length) <= n
  {
  }

  /** Chaining looks at the first `n` blocks only. */
  lemma {:induction false} ChainPrefix(compress: Compression, digest: Digest, m: seq<byte>, rest: seq<byte>, n: nat)
    requires 64 * n <= |m|
    ensures Chain(compress, digest, m + rest, n) == Chain(compress, digest, m, n)
  {
    if n != 0 {
      ChainPrefix(compress, digest, m, rest, n - 1);
      assert (m + rest)[64 * (n - 1)..64 * n] == m[64 * (n - 1)..64 * n];
    }
  }

  /** Compressing `k` blocks and then `n` more is compressing `k + n` blocks. */
  lemma {:induction false} ChainSplit(compress: Compression, digest: Digest, m: seq<byte>, k: nat, n: nat)
    requires 64 * (k + n) <= |m|
    ensures Chain(compress, digest, m, k + n)
         == Chain(compress, Chain(compress, digest, m, k), m[64 * k..], n)
    decreases n
  {
    if n != 0 {
      ChainSplit(compress, digest, m, k, n - 1);
      assert m[64 * k..][64 * (n - 1)..64 * n] == m[64 * (k + n - 1)..64 * (k + n)];
    }
  }
}
