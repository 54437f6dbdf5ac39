/**
 The streaming hasher `hash256_one_by_one` and the two ways `hash256` drives it.
 */
module Hasher {
  import opened Words
  import Fips180
  import BlockCompression
  import LengthDigits
  import opened Streaming

  /** As much of `data` as fits into an output range of `room` bytes. */
  function AtMost(room: nat, data: seq<byte>): seq<byte> {
    if |data| <= room then data else data[..room]
  }

  class Hash256OneByOne {
    var buffer: seq<byte>
    const dataLengthDigits: array<word>
    const h: array<word>

    /** The fields hold the abstract state `s`. */
    ghost predicate Represents(s: State)
      reads this, dataLengthDigits, h
    {
      && dataLengthDigits != h
      && buffer == s.buffer && |buffer| < 64
      && dataLengthDigits.Length == 4 && dataLengthDigits[..] == LengthDigits.Digits(s.length, 4)
      && BlockCompression.Holds(h, s.digest)
    }

    constructor ()
      ensures Represents(INITIAL)
      ensures fresh(dataLengthDigits) && fresh(h)
    {
      buffer := [];
      dataLengthDigits := new word[4];
      h := new word[8];
      new;
      Init();
    }

    /** Forgets everything absorbed so far. */
    method Init()
      requires dataLengthDigits != h && dataLengthDigits.Length == 4 && h.Length == 8
      modifies this, dataLengthDigits, h
      ensures Represents(INITIAL)
    {
      buffer := [];
      forall i | 0 <= i < 4 {
        dataLengthDigits[i] := 0;
      }
      var initial: seq<word32> := Fips180.H0.Words();
      forall i | 0 <= i < 8 {
        h[i] := initial[i];
      }
      LengthDigits.DigitsOfZero();
    }

    method Process(chunk: seq<byte>, ghost s: State)
      requires Represents(s)
      modifies this, dataLengthDigits, h
      ensures Represents(Absorb(Fips180.Compress, s, chunk))
    {
      hide Fips180.Compress, Fips180.Chain, LengthDigits.Digits, Fips180.Digest.Words, Absorb;
      LengthDigits.AddToDataLength(dataLengthDigits, |chunk| % TWO_64, s.length);
      LengthDigits.AddsModulo(s.length, |chunk|);
      buffer := buffer + chunk;
      ghost var n := 0;
      var i := 0;
      ChainStart(Fips180.Compress, s.digest, buffer);
      while i + 64 <= |buffer|
        invariant i == 64 * n <= |buffer|
        invariant buffer == s.buffer + chunk
        invariant dataLengthDigits[..] == LengthDigits.Digits(s.length + |chunk|, 4)
        invariant BlockCompression.Holds(h, Fips180.Chain(Fips180.Compress, s.digest, buffer, n))
      {
        ChainStep(Fips180.Compress, s.digest, buffer, n);
        BlockCompression.HashBlock(h, buffer[i..i + 64], Fips180.Chain(Fips180.Compress, s.digest, buffer, n));
        i, n := i + 64, n + 1;
      }
      AbsorbUnfolds(Fips180.Compress, s, chunk, n);
      buffer := buffer[i..];
    }

    method Finish(ghost s: State)
      requires Represents(s)
      modifies h
      ensures BlockCompression.Holds(h, Streaming.Finish(Fips180.Compress, s))
    {
      hide Fips180.Compress, Fips180.Chain, Fips180.BigEndian, LengthDigits.Digits, Fips180.Digest.Words;
      FinishUnfolds(Fips180.Compress, s);
      var temp := new byte[64](_ => 0);
      var remains := |buffer|;
      forall i | 0 <= i < remains {
        temp[i] := buffer[i];
      }
      temp[remains] := 0x80;
      ghost var last := LastBlocks(s);
      ghost var d := s.digest;
      if remains > 55 {
        forall i | remains + 1 <= i < 64 {
          temp[i] := 0;
        }
        assert temp[..] == last[..64];
        BlockCompression.HashBlock(h, temp[..], s.digest);
        d := Fips180.Compress(s.digest, temp[..]);
        forall i | 0 <= i < 60 {
          temp[i] := 0;
        }
      } else {
        forall i | remains + 1 <= i < 60 {
          temp[i] := 0;
        }
      }
      LengthDigits.WriteDataBitLength(dataLengthDigits, temp, 56, s.length);
      assert temp[..] == last[|last| - 64..];
      BlockCompression.HashBlock(h, temp[..], d);
    }

    /** Copies the digest, most significant byte first, until it or the output range is exhausted. */
    method GetHashBytes(out: array<byte>, first: nat, last: nat, ghost d: Fips180.Digest)
      requires BlockCompression.Holds(h, d)
      requires first <= last <= out.Length
      modifies out
      ensures out[..] == Overwrite(old(out[..]), first, AtMost(last - first, Fips180.Octets(d.Words())))
    {
      hide Fips180.Octets, Fips180.BigEndian, Fips180.Digest.Words, Bitwise, Pow2, ShiftRight, Overwrite;
      ghost var words := d.Words();
      ghost var octets := Fips180.Octets(words);
      var at := first;
      OverwriteNothing(out[..], first);
      assert octets[..0] == [];
      for iter := 0 to 8
        invariant at == first + Written(last - first, 4 * iter)
        invariant out[..] == Overwrite(old(out[..]), first, octets[..at - first])
      {
        var i := 0;
        while i < 4 && at != last
          invariant i <= 4
          invariant at == first + Written(last - first, 4 * iter + i)
          invariant i < 4 ==> at == last || at == first + 4 * iter + i
          invariant i == 4 || at != last ==> at == first + 4 * iter + i
          invariant out[..] == Overwrite(old(out[..]), first, octets[..at - first])
        {
          OctetAt(words, iter, i);
          assert h[..][iter] == words[iter];
          ghost var before := out[..];
          out[at] := BlockCompression.Mask8(ShiftRight(h[iter], 24 - 8 * i));
          OneMore(before, out[..], first, old(out[..]), octets, at - first);
          at, i := at + 1, i + 1;
        }
      }
      assert octets[..at - first] == AtMost(last - first, octets);
    }
  }

  /** How many of `n` bytes fit into `room`. */
  function Written(room: nat, n: nat): nat {
    if n <= room then n else room
  }

  lemma OneMore(before: seq<byte>, after: seq<byte>, first: nat, start: seq<byte>, octets: seq<byte>, n: nat)
    requires n < |octets| && first + n < |start| && before == Overwrite(start, first, octets[..n])
    requires |after| == |before| && after == before[first + n := octets[n]]
    ensures after == Overwrite(start, first, octets[..n + 1])
  {
    assert octets[..n] + [octets[n]] == octets[..n + 1];
  }

  lemma {:induction false} OctetAt(words: seq<word32>, k: nat, i: nat)
    requires k < |words| && i < 4
    ensures Fips180.Octets(words)[4 * k + i] == ShiftRight(words[k], 24 - 8 * i) % TWO_8
    decreases |words|
  {
    hide ShiftRight, Fips180.BigEndian, Pow2;
    var n := |words| - 1;
    assert Fips180.Octets(words) == Fips180.Octets(words[..n]) + Fips180.BigEndian(words[n], 4);
    if k < n {
      OctetAt(words[..n], k, i);
    } else {
      WordOctet(words[n], i);
    }
  }

  lemma WordOctet(w: word32, i: nat)
    requires i < 4
    ensures Fips180.BigEndian(w, 4)[i] == ShiftRight(w, 24 - 8 * i) % TWO_8
  {
    hide Pow2;
    Pow2Values();
    assert Pow2(0) == 1 by { Pow2Zero(); }
    BytesOfWord(w);
  }

  lemma Pow2Zero()
    ensures Pow2(0) == 1
  {
  }

  lemma BytesOfWord(w: nat)
    ensures Fips180.BigEndian(w, 4)
         == [w / 0x100_0000 % TWO_8, w / 0x1_0000 % TWO_8, w / 0x100 % TWO_8, w % TWO_8]
  {
    var b1 := w / TWO_8;
    var b2 := b1 / TWO_8;
    var b3 := b2 / TWO_8;
    assert b2 == w / 0x1_0000 by { EuclideanUnique(w, 0x1_0000, b2, b1 % TWO_8 * TWO_8 + w % TWO_8); }
    assert b3 == w / 0x100_0000 by {
      EuclideanUnique(w, 0x100_0000, b3, b2 % TWO_8 * 0x1_0000 + b1 % TWO_8 * TWO_8 + w % TWO_8);
    }
    FourDigits(w, b1, b2, b3);
  }

  lemma FourDigits(w: nat, b1: nat, b2: nat, b3: nat)
    requires b1 == w / TWO_8 && b2 == b1 / TWO_8 && b3 == b2 / TWO_8
    ensures Fips180.BigEndian(w, 4) == [b3 % TWO_8, b2 % TWO_8, b1 % TWO_8, w % TWO_8]
  {
    assert Fips180.BigEndian(b3, 1) == [b3 % TWO_8];
    assert Fips180.BigEndian(b2, 2) == [b3 % TWO_8, b2 % TWO_8];
    assert Fips180.BigEndian(b1, 3) == [b3 % TWO_8, b2 % TWO_8, b1 % TWO_8];
  }

  /** However a message is cut into calls of `Process`, what `GetHashBytes` copies is its SHA-256. */
  lemma AnyChunksHashRight(chunks: seq<seq<byte>>)
    ensures Fips180.Octets(Streaming.Finish(Fips180.Compress, AbsorbAll(Fips180.Compress, INITIAL, chunks)).Words())
         == Fips180.Sha256(Flatten(chunks))
  {
    hide Fips180.Compress, Fips180.Chain, Streaming.Finish, AbsorbAll, Fips180.FinalHash, Fips180.Octets;
    ChunksHashAsOne(Fips180.Compress, chunks);
  }

  /** A hasher fed with any chunks, one after the other, and asked for its bytes. */
  method HashChunks(chunks: seq<seq<byte>>, out: array<byte>, first2: nat, last2: nat)
    requires first2 <= last2 <= out.Length
    modifies out
    ensures out[..] == Overwrite(old(out[..]), first2, AtMost(last2 - first2, Fips180.Sha256(Flatten(chunks))))
  {
    hide Fips180.Compress, Fips180.Chain, Streaming.Finish, Streaming.Absorb, Fips180.FinalHash, AbsorbAll;
    var hasher := new Hash256OneByOne();
    ghost var s := INITIAL;
    AllFrom(chunks, s, 0);
    for i := 0 to |chunks|
      invariant hasher.Represents(s)
      invariant AbsorbAll(Fips180.Compress, s, chunks[i..]) == AbsorbAll(Fips180.Compress, INITIAL, chunks)
      invariant fresh(hasher) && fresh(hasher.dataLengthDigits) && fresh(hasher.h)
      invariant out[..] == old(out[..])
    {
      AllFrom(chunks, s, i);
      hasher.Process(chunks[i], s);
      s := Absorb(Fips180.Compress, s, chunks[i]);
    }
    AllFrom(chunks, s, |chunks|);
    hasher.Finish(s);
    AnyChunksHashRight(chunks);
    hasher.GetHashBytes(out, first2, last2, Streaming.Finish(Fips180.Compress, s));
  }

  lemma AllFrom(chunks: seq<seq<byte>>, s: State, i: nat)
    requires i <= |chunks|
    ensures i == 0 ==> chunks[i..] == chunks
    ensures i < |chunks| ==>
              AbsorbAll(Fips180.Compress, s, chunks[i..])
              == AbsorbAll(Fips180.Compress, Absorb(Fips180.Compress, s, chunks[i]), chunks[i + 1..])
    ensures i == |chunks| ==> AbsorbAll(Fips180.Compress, s, chunks[i..]) == s
  {
    hide Fips180.Compress, Absorb;
    if i < |chunks| {
      assert chunks[i..][1..] == chunks[i + 1..];
    }
  }

  /** `hash256_impl` for random-access iterators. */
  method HashRandomAccess(data: seq<byte>, out: array<byte>, first2: nat, last2: nat)
    requires first2 <= last2 <= out.Length
    modifies out
    ensures out[..] == Overwrite(old(out[..]), first2, AtMost(last2 - first2, Fips180.Sha256(data)))
  {
    hide Fips180.Compress, Fips180.Chain, Streaming.Finish, Streaming.Absorb, Fips180.FinalHash;
    var hasher := new Hash256OneByOne();
    hasher.Process(data, INITIAL);
    hasher.Finish(Absorb(Fips180.Compress, INITIAL, data));
    FinishPads(Fips180.Compress, data);
    hasher.GetHashBytes(out, first2, last2, Fips180.FinalHash(Fips180.Compress, data));
  }

  /** `hash256_impl` for input iterators: the data passes through a buffer of `bufferSize` bytes. */
  method HashInputIterator(data: seq<byte>, out: array<byte>, first2: nat, last2: nat, bufferSize: nat)
    requires first2 <= last2 <= out.Length
    requires bufferSize > 0 || data == []
    modifies out
    ensures out[..] == Overwrite(old(out[..]), first2, AtMost(last2 - first2, Fips180.Sha256(data)))
  {
    hide Fips180.Compress, Fips180.Chain, Streaming.Finish, Streaming.Absorb, Fips180.FinalHash;
    var buffer := new byte[bufferSize](_ => 0);
    var hasher := new Hash256OneByOne();
    var first := 0;
    ghost var s := INITIAL;
    AbsorbNothing(Fips180.Compress, INITIAL);
    while first != |data|
      invariant first <= |data|
      invariant s == Absorb(Fips180.Compress, INITIAL, data[..first])
      invariant hasher.Represents(s)
      invariant fresh(hasher) && fresh(hasher.dataLengthDigits) && fresh(hasher.h)
      invariant out[..] == old(out[..])
      decreases |data| - first
    {
      var size := bufferSize;
      ghost var start := first;
      var i := 0;
      while i != bufferSize
        invariant i <= bufferSize && first == start + i <= |data|
        invariant buffer[..i] == data[start..first]
        invariant out[..] == old(out[..]) && hasher.Represents(s)
      {
        if first == |data| {
          size := i;
          break;
        }
        buffer[i] := data[first];
        i, first := i + 1, first + 1;
      }
      hasher.Process(buffer[..size], s);
      AbsorbTwice(Fips180.Compress, INITIAL, data[..start], data[start..first]);
      assert data[..start] + data[start..first] == data[..first];
      s := Absorb(Fips180.Compress, s, buffer[..size]);
    }
    assert data[..first] == data;
    hasher.Finish(s);
    FinishPads(Fips180.Compress, data);
    hasher.GetHashBytes(out, first2, last2, Fips180.FinalHash(Fips180.Compress, data));
  }
}
