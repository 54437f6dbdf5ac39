/**
 The 166-byte message header as a record of fields, and the setters both implementations share.
 Nothing here depends on which hash is used, so the hash is a parameter.
 */
module HeaderLayout {
  import opened Words
  import opened Fips180

  const PACKET_NUMBER: nat := 0
  const VERSION: nat := 2
  const SOURCE: nat := 3
  const DEST: nat := 35
  const MESSAGE_TYPE: nat := 67
  const DATA_LENGTH: nat := 68
  const DATA_CHECKSUM: nat := 70
  const FUTURE_USE: nat := 102
  const HEADER_CHECKSUM: nat := 134
  const HEADER_SIZE: nat := 166
  const USERNAME_LEN: nat := 32

  type Header = h: seq<byte> | |h| == 166 witness Zeros(166)
  type Hash = seq<byte> -> Checksum

  // ---- Fields as bytes ----

  /** A 16-bit number in network byte order. */
  function NetworkOrder(n: uint16): (s: Bytes)
    ensures |s| == 2
  {
    [n / TWO_8, n % TWO_8]
  }

  function HostOrder(hi: nat, lo: nat): (n: nat)
    ensures hi < TWO_8 && lo < TWO_8 ==> n < TWO_16
  {
    hi * TWO_8 + lo
  }

  /** The bytes before the first NUL, or all of them. */
  function CutAtNul(s: Bytes): (r: Bytes)
    ensures |r| <= |s| && r == s[..|r|] && 0 !in r
    ensures |r| < |s| ==> s[|r|] == 0
  {
    if s == [] || s[0] == 0 then [] else [s[0]] + CutAtNul(s[1..])
  }

  /** Network order is most significant byte first, as FIPS 180-4 writes numbers. */
  lemma NetworkOrderIsBigEndian(n: uint16)
    ensures Fips180.Value(NetworkOrder(n)) == n && NetworkOrder(n) == Fips180.BigEndian(n, 2)
  {
    TwoBytes(n / TWO_8, n % TWO_8);
    assert Fips180.BigEndian(n / TWO_8, 1) == [n / TWO_8];
  }

  lemma TwoBytes(hi: byte, lo: byte)
    ensures Fips180.Value([hi, lo]) == HostOrder(hi, lo)
  {
    assert [hi, lo][..1] == [hi] && [hi][..0] == [];
    assert Fips180.Value([hi]) == hi;
  }

  // ---- The record a header denotes ----

  datatype Record = Record(
    packetNumber: uint16, version: byte, source: Bytes, dest: Bytes,
    messageType: byte, dataLength: uint16, dataChecksum: Bytes)

  function Read(h: Header): Record {
    Record(HostOrder(h[0], h[1]), h[VERSION],
           CutAtNul(h[SOURCE..SOURCE + USERNAME_LEN]), CutAtNul(h[DEST..DEST + USERNAME_LEN]),
           h[MESSAGE_TYPE], HostOrder(h[68], h[69]), h[DATA_CHECKSUM..FUTURE_USE])
  }

  /** Every field of the record, by its bytes. */
  lemma ReadByBytes(h: Header)
    ensures Read(h).packetNumber == Fips180.Value(h[0..2]) && Read(h).dataLength == Fips180.Value(h[68..70])
    ensures Read(h).version == h[2] && Read(h).messageType == h[67]
    ensures Read(h).source == CutAtNul(h[3..35]) && Read(h).dest == CutAtNul(h[35..67])
    ensures Read(h).dataChecksum == h[70..102]
  {
    TwoBytes(h[0], h[1]);
    TwoBytes(h[68], h[69]);
    assert h[0..2] == [h[0], h[1]] && h[68..70] == [h[68], h[69]];
  }

  function SumOf(sha: Hash, h: Header): Checksum {
    sha(h[..HEADER_CHECKSUM])
  }

  function Seal(sha: Hash, h: Header): Header {
    Overwrite(h, HEADER_CHECKSUM, SumOf(sha, h))
  }

  predicate Verifies(sha: Hash, h: Header) {
    h[HEADER_CHECKSUM..] == SumOf(sha, h)
  }

  /** Overwriting is visible exactly where it happened. */
  lemma OverwriteRead(s: Bytes, at: nat, data: Bytes, lo: nat, hi: nat)
    requires at + |data| <= |s| && lo <= hi <= |s|
    ensures lo == at && hi == at + |data| ==> Overwrite(s, at, data)[lo..hi] == data
    ensures hi <= at || at + |data| <= lo ==> Overwrite(s, at, data)[lo..hi] == s[lo..hi]
  {
  }

  /** Sealing changes no field, and makes the header verify. */
  lemma SealKeepsFields(sha: Hash, h: Header)
    ensures Read(Seal(sha, h)) == Read(h)
    ensures Verifies(sha, Seal(sha, h))
    ensures Seal(sha, h)[..HEADER_CHECKSUM] == h[..HEADER_CHECKSUM]
  {
    var sealed := Seal(sha, h);
    assert sealed[..HEADER_CHECKSUM] == h[..HEADER_CHECKSUM];
    assert sealed[HEADER_CHECKSUM..] == SumOf(sha, h);
    OverwriteRead(h, HEADER_CHECKSUM, SumOf(sha, h), SOURCE, SOURCE + USERNAME_LEN);
    OverwriteRead(h, HEADER_CHECKSUM, SumOf(sha, h), DEST, DEST + USERNAME_LEN);
    OverwriteRead(h, HEADER_CHECKSUM, SumOf(sha, h), DATA_CHECKSUM, FUTURE_USE);
  }

  /** Trailing zeros, like whatever follows a zero, are cut off. */
  lemma {:induction false} CutAtNulZeros(s: Bytes, n: nat, rest: Bytes)
    requires n > 0 || rest == []
    ensures CutAtNul(s + Zeros(n) + rest) == CutAtNul(s)
    decreases s
  {
    var all := s + Zeros(n) + rest;
    if s == [] {
      assert n > 0 ==> all[0] == 0;
    } else if s[0] != 0 {
      assert all[1..] == s[1..] + Zeros(n) + rest;
      CutAtNulZeros(s[1..], n, rest);
    }
  }

  /** A string is cut exactly when it contains a NUL. */
  lemma {:induction false} CutAtNulWhole(s: Bytes)
    ensures CutAtNul(s) == s <==> 0 !in s
    decreases s
  {
    if s != [] && s[0] != 0 {
      CutAtNulWhole(s[1..]);
    }
  }

  /** `build_string_safe`, and the loop of `get_username`, on `len` bytes of `str` from `begin` on. */
  method BuildStringSafe(str: array<byte>, begin: nat, len: nat) returns (s: Bytes)
    requires begin + len <= str.Length
    ensures s == CutAtNul(str[begin..begin + len])
  {
    s := [];
    var i := 0;
    while i < len
      invariant i <= len && s == str[begin..begin + i] && 0 !in s
    {
      if str[begin + i] != 0 {
        s := s + [str[begin + i]];
      } else {
        break;
      }
      i := i + 1;
    }
    assert str[begin..begin + len][..i] == str[begin..begin + i];
    CutAtNulAt(str[begin..begin + len], i);
  }

  lemma {:induction false} CutAtNulAt(s: Bytes, i: nat)
    requires i <= |s| && 0 !in s[..i] && (i < |s| ==> s[i] == 0)
    ensures CutAtNul(s) == s[..i]
    decreases s
  {
    if i > 0 {
      assert s[0] == s[..i][0] && s[1..][..i - 1] == s[..i][1..];
      CutAtNulAt(s[1..], i - 1);
    }
  }
}
