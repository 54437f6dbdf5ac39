/**
 Hashing a message in pieces, for any compression function: what a streaming hasher may forget,
 and why the pieces do not matter.
 */
module Streaming {
  import opened Words
  import opened Fips180

  /** The bytes not yet compressed, the number of bytes absorbed, and the chained digest. */
  datatype State = State(buffer: seq<byte>, length: nat, digest: Digest)

  const INITIAL: State := State([], 0, H0)

  function Absorb(compress: Compression, s: State, chunk: seq<byte>): (r: State)
    ensures |r.buffer| < 64
  {
    var all := s.buffer + chunk;
    var n := |all| / 64;
    State(all[64 * n..], s.length + |chunk|, Chain(compress, s.digest, all, n))
  }

  /** The blocks of what is buffered and the chunk, however they are counted. */
  lemma AbsorbUnfolds(compress: Compression, s: State, chunk: seq<byte>, n: nat)
    requires var all := s.buffer + chunk; 64 * n <= |all| < 64 * n + 64
    ensures var all := s.buffer + chunk;
      Absorb(compress, s, chunk) == State(all[64 * n..], s.length + |chunk|, Chain(compress, s.digest, all, n))
  {
    assert |s.buffer + chunk| / 64 == n;
  }

  function AbsorbAll(compress: Compression, s: State, chunks: seq<seq<byte>>): (r: State)
    ensures |s.buffer| < 64 ==> |r.buffer| < 64
    decreases chunks
  {
    if chunks == [] then s else AbsorbAll(compress, Absorb(compress, s, chunks[0]), chunks[1..])
  }

  function Flatten(chunks: seq<seq<byte>>): seq<byte> {
    if chunks == [] then [] else chunks[0] + Flatten(chunks[1..])
  }

  /** The buffered tail, the marker byte, zeros up to the length field, and the length field. */
  function LastBlocks(s: State): (m: seq<byte>)
    ensures |m| % 64 == 0
    ensures |s.buffer| < 64 ==> |m| == if |s.buffer| <= 55 then 64 else 128
  {
    var z := ZeroCount(|s.buffer|);
    assert (|s.buffer| + 1 + z + 8) % 64 == 0;
    s.buffer + [0x80] + Zeros(z) + BigEndian(8 * s.length, 8)
  }

  function Finish(compress: Compression, s: State): Digest {
    var m := LastBlocks(s);
    Chain(compress, s.digest, m, |m| / 64)
  }

  lemma FinishUnfolds(compress: Compression, s: State)
    requires |s.buffer| < 64
    ensures var m := LastBlocks(s);
      Finish(compress, s) == if |s.buffer| <= 55 then compress(s.digest, m)
                             else compress(compress(s.digest, m[..64]), m[64..])
  {
    var m := LastBlocks(s);
    ChainStart(compress, s.digest, m);
    ChainStep(compress, s.digest, m, 0);
    if |s.buffer| <= 55 {
      assert m[0..64] == m;
    } else {
      ChainStep(compress, s.digest, m, 1);
      assert m[0..64] == m[..64] && m[64..128] == m[64..];
    }
  }

  lemma ChainStart(compress: Compression, digest: Digest, m: seq<byte>)
    ensures Chain(compress, digest, m, 0) == digest
  {
  }

  lemma ChainStep(compress: Compression, digest: Digest, m: seq<byte>, n: nat)
    requires 64 * n + 64 <= |m|
    ensures Chain(compress, digest, m, n + 1) == compress(Chain(compress, digest, m, n), m[64 * n..64 * n + 64])
  {
  }

  /** Absorbing two pieces leaves the same state, complete, as absorbing them joined. */
  lemma AbsorbTwice(compress: Compression, s: State, a: seq<byte>, b: seq<byte>)
    ensures Absorb(compress, Absorb(compress, s, a), b) == Absorb(compress, s, a + b)
  {
    hide Absorb, Chain;
    var x := s.buffer + a;
    var n := |x| / 64;
    var tail := x[64 * n..];
    var k := |tail + b| / 64;
    assert s.buffer + (a + b) == x + b;
    Cut(x, b, n, k);
    AbsorbUnfolds(compress, s, a, n);
    AbsorbUnfolds(compress, Absorb(compress, s, a), b, k);
    AbsorbUnfolds(compress, s, a + b, n + k);
    ChainPrefix(compress, s.digest, x, b, n);
    ChainSplit(compress, s.digest, x + b, n, k);
  }

  lemma Cut(x: seq<byte>, b: seq<byte>, n: nat, k: nat)
    requires 64 * n <= |x| && 64 * k <= |x[64 * n..] + b|
    ensures (x + b)[64 * n..] == x[64 * n..] + b
    ensures (x + b)[64 * (n + k)..] == (x[64 * n..] + b)[64 * k..]
  {
  }

  lemma AbsorbNothing(compress: Compression, s: State)
    requires |s.buffer| < 64
    ensures Absorb(compress, s, []) == s
  {
    assert s.buffer + [] == s.buffer;
  }

  lemma {:induction false} AbsorbFlattened(compress: Compression, s: State, chunks: seq<seq<byte>>)
    requires |s.buffer| < 64
    ensures AbsorbAll(compress, s, chunks) == Absorb(compress, s, Flatten(chunks))
    decreases chunks
  {
    if chunks == [] {
      AbsorbNothing(compress, s);
    } else {
      AbsorbFlattened(compress, Absorb(compress, s, chunks[0]), chunks[1..]);
      AbsorbTwice(compress, s, chunks[0], Flatten(chunks[1..]));
    }
  }

  /** The buffered tail padded is the tail of the padded message. */
  lemma PadSplits(message: seq<byte>, n: nat, s: State)
    requires n == |message| / 64 && s.buffer == message[64 * n..] && s.length == |message|
    ensures Pad(message) == message[..64 * n] + LastBlocks(s)
    ensures |Pad(message)| / 64 == n + |LastBlocks(s)| / 64
  {
    assert message == message[..64 * n] + s.buffer;
    assert ZeroCount(|message|) == ZeroCount(|s.buffer|);
    assert |Pad(message)| == 64 * n + |LastBlocks(s)|;
  }

  lemma FinishPads(compress: Compression, message: seq<byte>)
    ensures Finish(compress, Absorb(compress, INITIAL, message)) == FinalHash(compress, message)
  {
    hide Pad, LastBlocks;
    var s := Absorb(compress, INITIAL, message);
    var n := |message| / 64;
    assert INITIAL.buffer + message == message;
    var whole, last := Pad(message), LastBlocks(s);
    PadSplits(message, n, s);
    assert whole[64 * n..] == last && whole[..64 * n] == message[..64 * n];
    ChainPrefix(compress, H0, message[..64 * n], message[64 * n..], n);
    ChainPrefix(compress, H0, message[..64 * n], last, n);
    assert message[..64 * n] + message[64 * n..] == message;
    ChainSplit(compress, H0, whole, n, |last| / 64);
  }

  /** Any way of cutting a message into chunks yields the hash of the whole message. */
  lemma ChunksHashAsOne(compress: Compression, chunks: seq<seq<byte>>)
    ensures Finish(compress, AbsorbAll(compress, INITIAL, chunks)) == FinalHash(compress, Flatten(chunks))
  {
    AbsorbFlattened(compress, INITIAL, chunks);
    FinishPads(compress, Flatten(chunks));
  }
}
