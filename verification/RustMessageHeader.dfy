/**
 The Rust `MessageHeader` over the same 166 bytes, and how it differs from the C++ one: usernames
 may use all 32 bytes, are not terminated, are not cleared first, and must be UTF-8 to be read.
 */
module RustMessageHeader {
  import opened Words
  import opened HeaderLayout
  import opened Utf8
  import Fips180
  import Cpp = CppMessageLayer

  lemma SequenceIsSelfContained(s: Bytes, rest: Bytes)
    requires SequenceLength(s) > 0 && s[0] != 0
    ensures var n := SequenceLength(s);
      0 !in s[..n] && SequenceLength(s[..n] + rest) == n
  {
  }

  /** A NUL is never inside a multi-byte sequence, so cutting at one keeps a string well-formed. */
  lemma {:induction false} CutKeepsUtf8(s: Bytes)
    requires ValidUtf8(s)
    ensures ValidUtf8(CutAtNul(s))
    decreases |s|
  {
    if s != [] && s[0] != 0 {
      var n := SequenceLength(s);
      var tail := CutAtNul(s[n..]);
      CutKeepsUtf8(s[n..]);
      SequenceIsSelfContained(s, tail);
      CutAfter(s[..n], s[n..]);
      assert s == s[..n] + s[n..];
      assert (s[..n] + tail)[n..] == tail;
    }
  }

  lemma {:induction false} CutAfter(a: Bytes, b: Bytes)
    requires 0 !in a
    ensures CutAtNul(a + b) == a + CutAtNul(b)
    decreases a
  {
    if a == [] {
      assert a + b == b;
    } else {
      assert (a + b)[1..] == a[1..] + b;
      CutAfter(a[1..], b);
    }
  }

  // ---- Usernames ----

  datatype Username = Ok(name: Bytes) | Err

  /** What `set_username` leaves in the header, whether it succeeds or not. */
  function WriteName(h: Header, begin: nat, name: Bytes): Header
    requires begin + USERNAME_LEN <= HEADER_SIZE
  {
    Overwrite(h, begin, if |name| <= USERNAME_LEN then name else name[..USERNAME_LEN])
  }

  function ReadName(h: Header, begin: nat): Username
    requires begin + USERNAME_LEN <= HEADER_SIZE
  {
    var s := CutAtNul(h[begin..begin + USERNAME_LEN]);
    if ValidUtf8(s) then Ok(s) else Err
  }

  lemma WrittenField(h: Header, begin: nat, name: Bytes)
    requires begin + USERNAME_LEN <= HEADER_SIZE && |name| <= USERNAME_LEN
    ensures WriteName(h, begin, name)[begin..begin + USERNAME_LEN]
         == name + h[begin + |name|..begin + USERNAME_LEN]
  {
  }

  /**
   `get_username` after a successful `set_username`, on any header: the name comes back exactly if
   it contains no NUL and either fills the field or happens to be followed by a zero byte, because
   the rest of the field is not cleared.
   */
  lemma SetThenGet(h: Header, begin: nat, name: Bytes)
    requires begin + USERNAME_LEN <= HEADER_SIZE
    requires ValidUtf8(name) && |name| <= USERNAME_LEN
    ensures ReadName(WriteName(h, begin, name), begin) == Ok(name)
       <==> 0 !in name && (|name| == USERNAME_LEN || h[begin + |name|] == 0)
  {
    hide WriteName, SequenceLength, ValidUtf8;
    WrittenField(h, begin, name);
    var rest := h[begin + |name|..begin + USERNAME_LEN];
    if 0 !in name {
      CutAfter(name, rest);
      assert CutAtNul(rest) == [] <==> rest == [] || rest[0] == 0;
      assert name + CutAtNul(rest) == name <==> CutAtNul(rest) == [];
    }
  }

  /** On a cleared field every name of at most 32 bytes comes back, cut at its first NUL. */
  lemma SetThenGetCleared(h: Header, begin: nat, name: Bytes)
    requires begin + USERNAME_LEN <= HEADER_SIZE
    requires h[begin..begin + USERNAME_LEN] == Fips180.Zeros(USERNAME_LEN)
    requires ValidUtf8(name) && |name| <= USERNAME_LEN
    ensures ReadName(WriteName(h, begin, name), begin) == Ok(CutAtNul(name))
  {
    hide WriteName, SequenceLength, ValidUtf8;
    WrittenField(h, begin, name);
    var rest := h[begin + |name|..begin + USERNAME_LEN];
    assert rest == h[begin..begin + USERNAME_LEN][|name|..];
    assert rest == Fips180.Zeros(USERNAME_LEN - |name|);
    assert name + rest == name + Fips180.Zeros(USERNAME_LEN - |name|) + [];
    CutAtNulZeros(name, USERNAME_LEN - |name|, []);
    CutKeepsUtf8(name);
  }

  lemma {:induction false} AsciiThen(s: Bytes, tail: Bytes)
    requires forall i | 0 <= i < |s| :: s[i] < 0x80
    ensures ValidUtf8(s + tail) == ValidUtf8(tail)
    decreases s
  {
    var all := s + tail;
    if s == [] {
      assert all == tail;
    } else {
      assert all[1..] == s[1..] + tail;
      AsciiThen(s[1..], tail);
    }
  }

  /** A leftover byte of a longer name survives: "ab" written over "xyz" reads back as "abz". */
  lemma LeftoverSurvives()
    ensures var h := WriteName(WriteName(Fips180.Zeros(HEADER_SIZE), SOURCE, [120, 121, 122]), SOURCE, [97, 98]);
      ReadName(h, SOURCE) == Ok([97, 98, 122])
  {
    hide ValidUtf8, CutAtNul, WriteName;
    var h0 := Fips180.Zeros(HEADER_SIZE);
    var h1 := WriteName(h0, SOURCE, [120, 121, 122]);
    var h2 := WriteName(h1, SOURCE, [97, 98]);
    WrittenField(h0, SOURCE, [120, 121, 122]);
    WrittenField(h1, SOURCE, [97, 98]);
    var f1, f2 := h1[SOURCE..SOURCE + USERNAME_LEN], h2[SOURCE..SOURCE + USERNAME_LEN];
    assert h1[SOURCE + 2..SOURCE + USERNAME_LEN] == f1[2..];
    assert h0[SOURCE + 3..SOURCE + USERNAME_LEN] == Fips180.Zeros(29);
    assert f1[2..] == [122] + Fips180.Zeros(29);
    assert f2 == [97, 98, 122] + Fips180.Zeros(29) + [];
    CutAtNulZeros([97, 98, 122], 29, []);
    CutAtNulWhole([97, 98, 122]);
    IsUtf8([97, 98, 122]);
  }

  lemma IsUtf8(s: Bytes)
    requires forall i | 0 <= i < |s| :: s[i] < 0x80
    ensures ValidUtf8(s)
  {
    AsciiThen(s, []);
    assert s + [] == s;
  }

  /** Whatever is read can be written again: it is NUL-free and fits. */
  lemma ReadNamesFit(h: Header, begin: nat)
    requires begin + USERNAME_LEN <= HEADER_SIZE
    requires ReadName(h, begin).Ok?
    ensures var s := ReadName(h, begin).name; 0 !in s && |s| <= USERNAME_LEN && ValidUtf8(s)
  {
  }

  // ---- The two builders ----

  datatype Values = Values(
    packetNumber: uint16, version: byte, source: Bytes, dest: Bytes, messageType: byte, body: Bytes)

  /** The setters a client uses for a MESSAGE, in the order the C++ code calls them. */
  function CppBuild(sha: Hash, v: Values): Header {
    Seal(sha, Cpp.WriteAll(sha, Fips180.Zeros(HEADER_SIZE), [
      Cpp.PacketNumber(v.packetNumber), Cpp.Version(v.version), Cpp.Source(v.source), Cpp.Dest(v.dest),
      Cpp.MessageType(v.messageType), Cpp.DataChecksum(v.body), Cpp.DataLength(|v.body| % TWO_16)]))
  }

  /** The same fields set by the Rust setters, in the order the Rust code calls them. */
  function RustBuild(sha: Hash, v: Values): Header {
    var h1 := Overwrite(Fips180.Zeros(HEADER_SIZE), MESSAGE_TYPE, [v.messageType]);
    var h2 := Overwrite(h1, VERSION, [v.version]);
    var h3 := Overwrite(h2, PACKET_NUMBER, NetworkOrder(v.packetNumber));
    var h4 := WriteName(h3, SOURCE, v.source);
    var h5 := WriteName(h4, DEST, v.dest);
    var h6 := Overwrite(h5, DATA_LENGTH, NetworkOrder(|v.body| % TWO_16));
    Seal(sha, Overwrite(h6, DATA_CHECKSUM, sha(v.body)))
  }

  /** Byte `j` of the header for `v`, given how the two usernames are laid out. */
  function LayoutByte(sha: Hash, v: Values, source: Bytes, dest: Bytes, j: nat): byte
    requires |source| == USERNAME_LEN && |dest| == USERNAME_LEN && j < HEADER_CHECKSUM
  {
    if j < 2 then NetworkOrder(v.packetNumber)[j]
    else if j == 2 then v.version
    else if j < 35 then source[j - 3]
    else if j < 67 then dest[j - 35]
    else if j == 67 then v.messageType
    else if j < 70 then NetworkOrder(|v.body| % TWO_16)[j - 68]
    else if j < 102 then sha(v.body)[j - 70]
    else 0
  }

  function RustField(name: Bytes): (s: Bytes)
    requires |name| <= USERNAME_LEN
    ensures |s| == USERNAME_LEN
  {
    name + Fips180.Zeros(USERNAME_LEN - |name|)
  }

  lemma OverwriteAt(s: Bytes, at: nat, data: Bytes, j: nat)
    requires at + |data| <= |s| && j < |s|
    ensures Overwrite(s, at, data)[j] == if at <= j < at + |data| then data[j - at] else s[j]
  {
  }

  lemma CppBuildByte(sha: Hash, v: Values, j: nat)
    requires j < HEADER_CHECKSUM
    ensures CppBuild(sha, v)[j] == LayoutByte(sha, v, Cpp.NameField(v.source), Cpp.NameField(v.dest), j)
  {
    var h0 := Fips180.Zeros(HEADER_SIZE);
    var h1 := Overwrite(h0, PACKET_NUMBER, NetworkOrder(v.packetNumber));
    var h2 := Overwrite(h1, VERSION, [v.version]);
    var h3 := Overwrite(h2, SOURCE, Cpp.NameField(v.source));
    var h4 := Overwrite(h3, DEST, Cpp.NameField(v.dest));
    var h5 := Overwrite(h4, MESSAGE_TYPE, [v.messageType]);
    var h6 := Overwrite(h5, DATA_CHECKSUM, sha(v.body));
    var h7 := Overwrite(h6, DATA_LENGTH, NetworkOrder(|v.body| % TWO_16));
    OverwriteAt(h0, PACKET_NUMBER, NetworkOrder(v.packetNumber), j);
    OverwriteAt(h1, VERSION, [v.version], j);
    OverwriteAt(h2, SOURCE, Cpp.NameField(v.source), j);
    OverwriteAt(h3, DEST, Cpp.NameField(v.dest), j);
    OverwriteAt(h4, MESSAGE_TYPE, [v.messageType], j);
    OverwriteAt(h5, DATA_CHECKSUM, sha(v.body), j);
    OverwriteAt(h6, DATA_LENGTH, NetworkOrder(|v.body| % TWO_16), j);
    OverwriteAt(h7, HEADER_CHECKSUM, SumOf(sha, h7), j);
    CppBuildUnfolds(sha, v, h7);
  }

  lemma CppBuildUnfolds(sha: Hash, v: Values, h7: Header)
    requires h7 == (
      var h1 := Overwrite(Fips180.Zeros(HEADER_SIZE), PACKET_NUMBER, NetworkOrder(v.packetNumber));
      var h2 := Overwrite(h1, VERSION, [v.version]);
      var h3 := Overwrite(h2, SOURCE, Cpp.NameField(v.source));
      var h4 := Overwrite(h3, DEST, Cpp.NameField(v.dest));
      var h5 := Overwrite(h4, MESSAGE_TYPE, [v.messageType]);
      var h6 := Overwrite(h5, DATA_CHECKSUM, sha(v.body));
      Overwrite(h6, DATA_LENGTH, NetworkOrder(|v.body| % TWO_16)))
    ensures CppBuild(sha, v) == Seal(sha, h7)
  {
    hide Overwrite, NetworkOrder, Cpp.NameField, Seal, Cpp.WriteAll;
    var s := [
      Cpp.PacketNumber(v.packetNumber), Cpp.Version(v.version), Cpp.Source(v.source), Cpp.Dest(v.dest),
      Cpp.MessageType(v.messageType), Cpp.DataChecksum(v.body), Cpp.DataLength(|v.body| % TWO_16)];
    var h0 := Fips180.Zeros(HEADER_SIZE);
    var h1 := Overwrite(h0, PACKET_NUMBER, NetworkOrder(v.packetNumber));
    var h2 := Overwrite(h1, VERSION, [v.version]);
    var h3 := Overwrite(h2, SOURCE, Cpp.NameField(v.source));
    var h4 := Overwrite(h3, DEST, Cpp.NameField(v.dest));
    var h5 := Overwrite(h4, MESSAGE_TYPE, [v.messageType]);
    var h6 := Overwrite(h5, DATA_CHECKSUM, sha(v.body));
    assert s[0..] == s;
    WriteAllStep(sha, h0, s, 0);
    WriteAllStep(sha, h1, s, 1);
    WriteAllStep(sha, h2, s, 2);
    WriteAllStep(sha, h3, s, 3);
    WriteAllStep(sha, h4, s, 4);
    WriteAllStep(sha, h5, s, 5);
    WriteAllStep(sha, h6, s, 6);
  }

  lemma WriteAllStep(sha: Hash, h: Header, s: seq<Cpp.Setter>, i: nat)
    requires i < |s|
    ensures Cpp.WriteAll(sha, h, s[i..]) == Cpp.WriteAll(sha, Cpp.Write(sha, h, s[i]), s[i + 1..])
    ensures i + 1 == |s| ==> Cpp.WriteAll(sha, h, s[i..]) == Cpp.Write(sha, h, s[i])
  {
    hide Cpp.Write;
    assert s[i..][1..] == s[i + 1..];
  }

  lemma RustBuildByte(sha: Hash, v: Values, j: nat)
    requires |v.source| <= USERNAME_LEN && |v.dest| <= USERNAME_LEN && j < HEADER_CHECKSUM
    ensures RustBuild(sha, v)[j] == LayoutByte(sha, v, RustField(v.source), RustField(v.dest), j)
  {
    var h0 := Fips180.Zeros(HEADER_SIZE);
    var h1 := Overwrite(h0, MESSAGE_TYPE, [v.messageType]);
    var h2 := Overwrite(h1, VERSION, [v.version]);
    var h3 := Overwrite(h2, PACKET_NUMBER, NetworkOrder(v.packetNumber));
    var h4 := WriteName(h3, SOURCE, v.source);
    var h5 := WriteName(h4, DEST, v.dest);
    var h6 := Overwrite(h5, DATA_LENGTH, NetworkOrder(|v.body| % TWO_16));
    var h7 := Overwrite(h6, DATA_CHECKSUM, sha(v.body));
    OverwriteAt(h0, MESSAGE_TYPE, [v.messageType], j);
    OverwriteAt(h1, VERSION, [v.version], j);
    OverwriteAt(h2, PACKET_NUMBER, NetworkOrder(v.packetNumber), j);
    OverwriteAt(h3, SOURCE, v.source, j);
    OverwriteAt(h4, DEST, v.dest, j);
    OverwriteAt(h5, DATA_LENGTH, NetworkOrder(|v.body| % TWO_16), j);
    OverwriteAt(h6, DATA_CHECKSUM, sha(v.body), j);
    OverwriteAt(h7, HEADER_CHECKSUM, SumOf(sha, h7), j);
  }

  /** Both implementations lay a username out alike, unless its 32nd byte matters. */
  predicate SameLayout(name: Bytes) {
    |name| <= 31 || name[31] == 0
  }

  lemma FieldsAgree(name: Bytes)
    requires |name| <= USERNAME_LEN
    ensures Cpp.NameField(name) == RustField(name) <==> SameLayout(name)
  {
    if |name| == 32 {
      assert Cpp.NameField(name)[31] == 0 && RustField(name)[31] == name[31];
      assert forall i | 0 <= i < 31 :: Cpp.NameField(name)[i] == RustField(name)[i];
    } else {
      assert Cpp.NameField(name) == RustField(name);
    }
  }

  /**
   For the same values the two builders yield the same 166 bytes exactly if neither username has a
   non-zero 32nd byte.
   */
  lemma BuildersAgree(sha: Hash, v: Values)
    requires |v.source| <= USERNAME_LEN && |v.dest| <= USERNAME_LEN
    ensures CppBuild(sha, v) == RustBuild(sha, v) <==> SameLayout(v.source) && SameLayout(v.dest)
  {
    hide CppBuild, RustBuild, LayoutByte, Cpp.NameField, RustField;
    FieldsAgree(v.source);
    FieldsAgree(v.dest);
    var c, r := CppBuild(sha, v), RustBuild(sha, v);
    forall j | 0 <= j < HEADER_CHECKSUM
      ensures c[j] == LayoutByte(sha, v, Cpp.NameField(v.source), Cpp.NameField(v.dest), j)
      ensures r[j] == LayoutByte(sha, v, RustField(v.source), RustField(v.dest), j)
    {
      CppBuildByte(sha, v, j);
      RustBuildByte(sha, v, j);
    }
    if SameLayout(v.source) && SameLayout(v.dest) {
      assert forall j | 0 <= j < HEADER_CHECKSUM :: c[j] == r[j];
      SealedAgree(sha, v);
    } else {
      LayoutDiffers(sha, v);
    }
  }

  lemma SealedAgree(sha: Hash, v: Values)
    requires forall j | 0 <= j < HEADER_CHECKSUM :: CppBuild(sha, v)[j] == RustBuild(sha, v)[j]
    ensures CppBuild(sha, v) == RustBuild(sha, v)
  {
    hide CppBuild, RustBuild;
    var c, r := CppBuild(sha, v), RustBuild(sha, v);
    BuildsVerify(sha, v);
    assert c[..HEADER_CHECKSUM] == r[..HEADER_CHECKSUM];
    assert c == c[..HEADER_CHECKSUM] + c[HEADER_CHECKSUM..] && r == r[..HEADER_CHECKSUM] + r[HEADER_CHECKSUM..];
  }

  lemma BuildsVerify(sha: Hash, v: Values)
    ensures Verifies(sha, CppBuild(sha, v)) && Verifies(sha, RustBuild(sha, v))
  {
    hide Seal, Overwrite, Verifies, Cpp.WriteAll;
    SealKeepsFields(sha, Cpp.WriteAll(sha, Fips180.Zeros(HEADER_SIZE), [
      Cpp.PacketNumber(v.packetNumber), Cpp.Version(v.version), Cpp.Source(v.source), Cpp.Dest(v.dest),
      Cpp.MessageType(v.messageType), Cpp.DataChecksum(v.body), Cpp.DataLength(|v.body| % TWO_16)]));
    var h1 := Overwrite(Fips180.Zeros(HEADER_SIZE), MESSAGE_TYPE, [v.messageType]);
    var h2 := Overwrite(h1, VERSION, [v.version]);
    var h3 := Overwrite(h2, PACKET_NUMBER, NetworkOrder(v.packetNumber));
    var h4 := WriteName(h3, SOURCE, v.source);
    var h5 := WriteName(h4, DEST, v.dest);
    var h6 := Overwrite(h5, DATA_LENGTH, NetworkOrder(|v.body| % TWO_16));
    SealKeepsFields(sha, Overwrite(h6, DATA_CHECKSUM, sha(v.body)));
  }

  /** What the C++ getters recover from a C++ header: all values, names in the 31 bytes that are kept. */
  lemma CppBuildReads(sha: Hash, v: Values)
    ensures Read(CppBuild(sha, v)) == Record(v.packetNumber, v.version, Cpp.StoredName(v.source),
              Cpp.StoredName(v.dest), v.messageType, |v.body| % TWO_16, sha(v.body))
  {
    hide Seal, Cpp.WriteAll, Cpp.Assign, Read;
    var s := [
      Cpp.PacketNumber(v.packetNumber), Cpp.Version(v.version), Cpp.Source(v.source), Cpp.Dest(v.dest),
      Cpp.MessageType(v.messageType), Cpp.DataChecksum(v.body), Cpp.DataLength(|v.body| % TWO_16)];
    var h0 := Fips180.Zeros(HEADER_SIZE);
    Cpp.BuilderKeepsFields(sha, h0, s);
    AssignSeven(sha, Read(h0), s);
  }

  /** `Read` and the Rust `get_username` look at the same bytes; Rust also wants UTF-8. */
  lemma NamesOf(h: Header)
    ensures ReadName(h, SOURCE) == if ValidUtf8(Read(h).source) then Ok(Read(h).source) else Err
    ensures ReadName(h, DEST) == if ValidUtf8(Read(h).dest) then Ok(Read(h).dest) else Err
  {
    hide ValidUtf8, CutAtNul;
  }

  /**
   What the Rust getters recover from a C++ header: a name comes back as C++ stored it exactly if
   what is left of it is still UTF-8, which cutting at 31 bytes may spoil.
   */
  lemma RustReadsCppNames(sha: Hash, v: Values)
    ensures ReadName(CppBuild(sha, v), SOURCE) == Ok(Cpp.StoredName(v.source)) <==> ValidUtf8(Cpp.StoredName(v.source))
    ensures ReadName(CppBuild(sha, v), DEST) == Ok(Cpp.StoredName(v.dest)) <==> ValidUtf8(Cpp.StoredName(v.dest))
  {
    hide CppBuild, ReadName, ValidUtf8, Cpp.StoredName, Read;
    CppBuildReads(sha, v);
    NamesOf(CppBuild(sha, v));
  }

  /** For UTF-8 names of at most 31 bytes both sides read the same: the name up to its first NUL. */
  lemma ShortNamesTravel(sha: Hash, v: Values)
    requires ValidUtf8(v.source) && |v.source| <= 31 && ValidUtf8(v.dest) && |v.dest| <= 31
    ensures ReadName(CppBuild(sha, v), SOURCE) == Ok(CutAtNul(v.source)) == Ok(Read(CppBuild(sha, v)).source)
    ensures ReadName(CppBuild(sha, v), DEST) == Ok(CutAtNul(v.dest)) == Ok(Read(CppBuild(sha, v)).dest)
  {
    hide CppBuild, ReadName, ValidUtf8, Read;
    RustReadsCppNames(sha, v);
    CppBuildReads(sha, v);
    CutKeepsUtf8(v.source);
    CutKeepsUtf8(v.dest);
  }

  function Letters(n: nat): (s: Bytes)
    ensures |s| == n && forall i | 0 <= i < n :: s[i] == 97
  {
    seq(n, _ => 97)
  }

  lemma HalfACharacter()
    ensures ValidUtf8([0xC3, 0xA9]) && !ValidUtf8([0xC3])
  {
    assert [0xC3, 0xA9][2..] == [];
  }

  /** Thirty letters and a two-byte character, 32 bytes in all: C++ cuts the character in half. */
  lemma CutInsideACharacter(sha: Hash, v: Values)
    requires v.source == Letters(30) + [0xC3, 0xA9]
    ensures ValidUtf8(v.source) && |v.source| == USERNAME_LEN
    ensures ReadName(CppBuild(sha, v), SOURCE) == Err
  {
    hide CppBuild, ReadName, Read;
    HalfACharacter();
    hide ValidUtf8;
    AsciiThen(Letters(30), [0xC3, 0xA9]);
    AsciiThen(Letters(30), [0xC3]);
    assert v.source[..31] == Letters(30) + [0xC3];
    CutAtNulWhole(v.source[..31]);
    CppBuildReads(sha, v);
    NamesOf(CppBuild(sha, v));
  }

  /** What the C++ getters recover from a Rust header: names may fill all 32 bytes. */
  lemma RustBuildReads(sha: Hash, v: Values)
    requires |v.source| <= USERNAME_LEN && |v.dest| <= USERNAME_LEN
    ensures Read(RustBuild(sha, v)) == Record(v.packetNumber, v.version, CutAtNul(v.source), CutAtNul(v.dest),
              v.messageType, |v.body| % TWO_16, sha(v.body))
  {
    hide RustBuild, LayoutByte, CutAtNul, NetworkOrder;
    var h := RustBuild(sha, v);
    forall j | 0 <= j < HEADER_CHECKSUM
      ensures h[j] == LayoutByte(sha, v, RustField(v.source), RustField(v.dest), j)
    {
      RustBuildByte(sha, v, j);
    }
    LaidOut(sha, v, h, RustField(v.source), RustField(v.dest));
    FieldCut(v.source);
    FieldCut(v.dest);
  }

  lemma FieldCut(name: Bytes)
    requires |name| <= USERNAME_LEN
    ensures CutAtNul(RustField(name)) == CutAtNul(name)
  {
    assert RustField(name) == name + Fips180.Zeros(USERNAME_LEN - |name|) + [];
    CutAtNulZeros(name, USERNAME_LEN - |name|, []);
  }

  /** A header laid out like that reads like that. */
  lemma LaidOut(sha: Hash, v: Values, h: Header, source: Bytes, dest: Bytes)
    requires |source| == USERNAME_LEN && |dest| == USERNAME_LEN
    requires forall j | 0 <= j < HEADER_CHECKSUM :: h[j] == LayoutByte(sha, v, source, dest, j)
    ensures Read(h) == Record(v.packetNumber, v.version, CutAtNul(source), CutAtNul(dest),
              v.messageType, |v.body| % TWO_16, sha(v.body))
  {
    hide CutAtNul;
    assert h[SOURCE..SOURCE + USERNAME_LEN] == source;
    assert h[DEST..DEST + USERNAME_LEN] == dest;
    assert h[DATA_CHECKSUM..FUTURE_USE] == sha(v.body);
    assert h[0] == NetworkOrder(v.packetNumber)[0] && h[1] == NetworkOrder(v.packetNumber)[1];
    assert h[68] == NetworkOrder(|v.body| % TWO_16)[0] && h[69] == NetworkOrder(|v.body| % TWO_16)[1];
    Cpp.NetworkOrderReadsBack(v.packetNumber);
    Cpp.NetworkOrderReadsBack(|v.body| % TWO_16);
  }

  lemma AssignSeven(sha: Hash, r: Record, s: seq<Cpp.Setter>)
    requires |s| == 7
    requires s[0].PacketNumber? && s[1].Version? && s[2].Source? && s[3].Dest? && s[4].MessageType?
    requires s[5].DataChecksum? && s[6].DataLength?
    ensures Cpp.AssignAll(sha, r, s) == Record(s[0].n, s[1].v, Cpp.StoredName(s[2].name),
              Cpp.StoredName(s[3].name), s[4].t, s[6].n, sha(s[5].body))
  {
    var r1 := Cpp.Assign(sha, r, s[0]);
    var r2 := Cpp.Assign(sha, r1, s[1]);
    var r3 := Cpp.Assign(sha, r2, s[2]);
    var r4 := Cpp.Assign(sha, r3, s[3]);
    var r5 := Cpp.Assign(sha, r4, s[4]);
    var r6 := Cpp.Assign(sha, r5, s[5]);
    assert s[0..] == s;
    AssignAllStep(sha, r, s, 0);
    AssignAllStep(sha, r1, s, 1);
    AssignAllStep(sha, r2, s, 2);
    AssignAllStep(sha, r3, s, 3);
    AssignAllStep(sha, r4, s, 4);
    AssignAllStep(sha, r5, s, 5);
    AssignAllStep(sha, r6, s, 6);
  }

  lemma AssignAllStep(sha: Hash, r: Record, s: seq<Cpp.Setter>, i: nat)
    requires i < |s|
    ensures Cpp.AssignAll(sha, r, s[i..]) == Cpp.AssignAll(sha, Cpp.Assign(sha, r, s[i]), s[i + 1..])
    ensures i + 1 == |s| ==> Cpp.AssignAll(sha, r, s[i..]) == Cpp.Assign(sha, r, s[i])
  {
    hide Cpp.Assign;
    assert s[i..][1..] == s[i + 1..];
  }

  lemma LayoutDiffers(sha: Hash, v: Values)
    requires |v.source| <= USERNAME_LEN && |v.dest| <= USERNAME_LEN
    requires !(SameLayout(v.source) && SameLayout(v.dest))
    ensures exists j | 0 <= j < HEADER_CHECKSUM :: LayoutByte(sha, v, Cpp.NameField(v.source), Cpp.NameField(v.dest), j)
              != LayoutByte(sha, v, RustField(v.source), RustField(v.dest), j)
  {
    if !SameLayout(v.source) {
      assert LayoutByte(sha, v, Cpp.NameField(v.source), Cpp.NameField(v.dest), 34) == 0;
      assert LayoutByte(sha, v, RustField(v.source), RustField(v.dest), 34) == v.source[31];
    } else {
      assert LayoutByte(sha, v, Cpp.NameField(v.source), Cpp.NameField(v.dest), 66) == 0;
      assert LayoutByte(sha, v, RustField(v.source), RustField(v.dest), 66) == v.dest[31];
    }
  }

  lemma Written(before: Bytes, after: Bytes, at: nat, data: Bytes)
    requires at + |data| <= |before| && after == Overwrite(before, at, data)
    ensures forall j | 0 <= j < |data| :: after[at + j] == data[j]
  {
  }

  lemma OneByteMore(start: Bytes, before: Bytes, after: Bytes, at: nat, data: Bytes, n: nat)
    requires n < |data| && at + n < |start| && before == Overwrite(start, at, data[..n])
    requires after == before[at + n := data[n]]
    ensures after == Overwrite(start, at, data[..n + 1])
  {
    assert data[..n] + [data[n]] == data[..n + 1];
  }

  // ---- The header object ----

  class MessageHeader {
    const bytes: array<byte>

    ghost predicate Valid() {
      bytes.Length == HEADER_SIZE
    }

    constructor ()
      ensures Valid() && fresh(bytes) && bytes[..] == Fips180.Zeros(HEADER_SIZE)
    {
      bytes := new byte[166](_ => 0);
    }

    method Clear()
      requires Valid()
      modifies bytes
      ensures bytes[..] == Fips180.Zeros(HEADER_SIZE)
    {
      for i := 0 to HEADER_SIZE
        invariant forall j | 0 <= j < i :: bytes[j] == 0
      {
        bytes[i] := 0;
      }
    }

    /**
     `set_username`. The first branch of the loop is never taken: inside it `idx` is below the
     length of the name. On failure the first 32 bytes have been written all the same.
     */
    method SetUsername(username: Bytes, beginIdx: nat) returns (ok: bool)
      requires Valid() && beginIdx + USERNAME_LEN <= HEADER_SIZE
      modifies bytes
      ensures ok <==> |username| <= USERNAME_LEN
      ensures forall j | 0 <= j < 32 && j < |username| :: bytes[beginIdx + j] == username[j]
      ensures bytes[..] == WriteName(old(bytes[..]), beginIdx, username)
    {
      hide Overwrite;
      var idx := 0;
      OverwriteNothing(bytes[..], beginIdx);
      assert username[..0] == [];
      for k := 0 to |username|
        invariant idx == k <= USERNAME_LEN
        invariant bytes[..] == Overwrite(old(bytes[..]), beginIdx, username[..idx])
      {
        if idx == |username| {
          assert false;
        } else if idx < USERNAME_LEN {
          ghost var before := bytes[..];
          bytes[beginIdx + idx] := username[k];
          OneByteMore(old(bytes[..]), before, bytes[..], beginIdx, username, idx);
          idx := idx + 1;
        } else {
          assert username[..idx] == username[..USERNAME_LEN];
          Written(old(bytes[..]), bytes[..], beginIdx, username[..USERNAME_LEN]);
          return false;
        }
      }
      assert username[..idx] == username;
      Written(old(bytes[..]), bytes[..], beginIdx, username);
      return true;
    }

    /** `get_username` */
    method GetUsername(beginIdx: nat) returns (r: Username)
      requires Valid() && beginIdx + USERNAME_LEN <= HEADER_SIZE
      ensures r == ReadName(bytes[..], beginIdx)
    {
      var s := BuildStringSafe(bytes, beginIdx, USERNAME_LEN);
      assert bytes[..][beginIdx..beginIdx + USERNAME_LEN] == bytes[beginIdx..beginIdx + USERNAME_LEN];
      r := if ValidUtf8(s) then Ok(s) else Err;
    }

    method SetU16AtIndex(num: uint16, headerIdx: nat)
      requires Valid() && headerIdx + 2 <= HEADER_SIZE
      modifies bytes
      ensures bytes[..] == Overwrite(old(bytes[..]), headerIdx, NetworkOrder(num))
      ensures Fips180.Value(bytes[headerIdx..headerIdx + 2]) == num
    {
      hide Fips180.Value;
      NetworkOrderIsBigEndian(num);
      var net := NetworkOrder(num);
      Emplace(net, headerIdx);
      assert bytes[headerIdx..headerIdx + 2] == net;
    }

    /** Copies `data` into the header byte by byte. */
    method Emplace(data: Bytes, beginIdx: nat)
      requires Valid() && beginIdx + |data| <= HEADER_SIZE
      modifies bytes
      ensures bytes[..] == Overwrite(old(bytes[..]), beginIdx, data)
    {
      hide Overwrite;
      OverwriteNothing(bytes[..], beginIdx);
      assert data[..0] == [];
      for i := 0 to |data|
        invariant bytes[..] == Overwrite(old(bytes[..]), beginIdx, data[..i])
      {
        ghost var before := bytes[..];
        bytes[beginIdx + i] := data[i];
        OneByteMore(old(bytes[..]), before, bytes[..], beginIdx, data, i);
      }
      assert data[..|data|] == data;
    }

    method GetU16AtIndex(idx: nat) returns (n: uint16)
      requires Valid() && idx + 2 <= HEADER_SIZE
      ensures NetworkOrder(n) == bytes[idx..idx + 2] && n == Fips180.Value(bytes[idx..idx + 2])
    {
      hide Fips180.Value;
      TwoBytes(bytes[idx], bytes[idx + 1]);
      assert bytes[idx..idx + 2] == [bytes[idx], bytes[idx + 1]];
      n := HostOrder(bytes[idx], bytes[idx + 1]);
    }

    method CalculateHeaderChecksum()
      requires Valid()
      modifies bytes
      ensures bytes[..] == Seal(Fips180.Sha256, old(bytes[..]))
      ensures bytes[..] == old(bytes[..134]) + Fips180.Sha256(old(bytes[..134]))
    {
      hide Fips180.Sha256;
      assert bytes[..][..HEADER_CHECKSUM] == bytes[..HEADER_CHECKSUM];
      var sum := Fips180.Sha256(bytes[..HEADER_CHECKSUM]);
      Emplace(sum, HEADER_CHECKSUM);
    }

    method VerifyHeaderChecksum() returns (ok: bool)
      requires Valid()
      ensures ok == Verifies(Fips180.Sha256, bytes[..])
      ensures ok == (bytes[134..] == Fips180.Sha256(bytes[..134]))
    {
      hide Fips180.Sha256;
      assert bytes[..][..HEADER_CHECKSUM] == bytes[..HEADER_CHECKSUM];
      assert bytes[..][HEADER_CHECKSUM..] == bytes[HEADER_CHECKSUM..];
      ok := Fips180.Sha256(bytes[..HEADER_CHECKSUM]) == bytes[HEADER_CHECKSUM..];
    }

    method CalculateDataChecksum(dataPortion: Bytes)
      requires Valid()
      modifies bytes
      ensures bytes[..] == Overwrite(old(bytes[..]), DATA_CHECKSUM, Fips180.Sha256(dataPortion))
    {
      hide Fips180.Sha256;
      var sum := Fips180.Sha256(dataPortion);
      Emplace(sum, DATA_CHECKSUM);
    }

    method VerifyDataChecksum(dataPortion: Bytes) returns (ok: bool)
      requires Valid()
      ensures ok == (Fips180.Sha256(dataPortion) == Read(bytes[..]).dataChecksum)
    {
      hide Fips180.Sha256;
      assert bytes[..][DATA_CHECKSUM..FUTURE_USE] == bytes[DATA_CHECKSUM..FUTURE_USE];
      ok := Fips180.Sha256(dataPortion) == bytes[DATA_CHECKSUM..FUTURE_USE];
    }
  }
}
