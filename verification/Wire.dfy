/**
 The frames of the transition system as bytes: a stored message travels as the C++ header and body
 that `FrameStream` reads back.
 */
module Wire {
  import opened Words
  import opened HeaderLayout
  import opened Options
  import Protocol
  import Rust = RustMessageHeader
  import Cpp = CppMessageLayer
  import opened FrameStream

  function Code(kind: Protocol.Kind): byte {
    match kind
    case LOGIN => 0 case ERROR => 1 case WHO => 2 case ACK => 3 case MESSAGE => 4 case DISCONNECT => 5 case NACK => 6
  }

  /** The codes are those of the enumeration, in its order. */
  lemma CodesAreEnumerated()
    ensures Code(Protocol.LOGIN) == 0 && Code(Protocol.ERROR) == 1 && Code(Protocol.WHO) == 2
    ensures Code(Protocol.ACK) == 3 && Code(Protocol.MESSAGE) == 4
    ensures Code(Protocol.DISCONNECT) == 5 && Code(Protocol.NACK) == 6
  {
  }

  function ValuesOf(f: Protocol.Frame, version: byte): Rust.Values {
    Rust.Values(f.number, version, f.source, f.dest, Code(f.kind), f.body)
  }

  /** The reader sees in `r` and `body` what the frame says. */
  predicate Shows(r: Record, body: Option<Bytes>, f: Protocol.Frame) {
    && r.packetNumber == f.number && r.source == f.source && r.dest == f.dest
    && r.messageType == Code(f.kind) && r.dataChecksum == f.checksum
    && body == Some(f.body)
  }

  predicate Fits(f: Protocol.Frame) {
    && |f.body| < TWO_16
    && |f.source| <= 31 && 0 !in f.source
    && |f.dest| <= 31 && 0 !in f.dest
  }

  lemma NameStored(name: Bytes)
    ensures Cpp.StoredName(name) == name <==> |name| <= 31 && 0 !in name
  {
    if |name| <= 31 {
      CutAtNulWhole(name);
    }
  }

  /**
   A message arrives as it was stored, with the stream just behind it, exactly if its body fits the
   length field and its names fit theirs.
   */
  lemma MessageTravels(sha: Hash, f: Protocol.Frame, version: byte, rest: Bytes)
    requires f.kind == Protocol.MESSAGE && f.checksum == sha(f.body) && f.body != []
    ensures var p := Parse(sha, CppFrame(sha, ValuesOf(f, version)) + rest);
      p.Ok? && p.rest == rest && Shows(Read(p.message.header), p.message.body, f) <==> Fits(f)
    ensures CppFrame(sha, ValuesOf(f, version))[67] == 4 && CppFrame(sha, ValuesOf(f, version))[2] == version
  {
    hide Parse, Rust.CppBuild, Cpp.StoredName, Read, WellFormed;
    var v := ValuesOf(f, version);
    var h := Rust.CppBuild(sha, v);
    var stream := CppFrame(sha, v) + rest;
    CppFrameReadsBack(sha, v, rest);
    Rust.CppBuildReads(sha, v);
    ReadByBytes(h);
    NameStored(f.source);
    NameStored(f.dest);
    var p := Parse(sha, stream);
    if p.Ok? && p.rest == rest && p.message.body == Some(f.body) {
      PrintUndoesParse(sha, stream);
      assert stream[..HEADER_SIZE] == h && stream[..HEADER_SIZE] == p.message.header;
      assert p == Ok(Message(h, Some(f.body)), rest);
    }
  }
}
