/**
 Messages on a byte stream: the Rust reader and writer of `application_layer.rs`, and the frames
 the C++ side sends to them.
 */
module FrameStream {
  import opened Words
  import opened HeaderLayout
  import opened Options
  import Fips180
  import Rust = RustMessageHeader
  import Cpp = CppMessageLayer

  datatype Message = Message(header: Header, body: Option<Bytes>)

  /** A message and the bytes after it; a bad header and the bytes after it; or a stream cut short. */
  datatype Parsed = Ok(message: Message, rest: Bytes) | InvalidChecksum(rest: Bytes) | UnexpectedEof

  function Print(m: Message): Bytes {
    match m.body
    case None => m.header
    case Some(body) => m.header + body
  }

  function Parse(sha: Hash, stream: Bytes): Parsed {
    if |stream| < HEADER_SIZE then UnexpectedEof else
    var h := stream[..HEADER_SIZE];
    var after := stream[HEADER_SIZE..];
    if !Verifies(sha, h) then InvalidChecksum(after) else
    var n := Read(h).dataLength;
    if n == 0 then Ok(Message(h, None), after)
    else if |after| < n then UnexpectedEof
    else Ok(Message(h, Some(after[..n])), after[n..])
  }

  /** The header verifies and announces exactly the body there is. */
  predicate WellFormed(sha: Hash, m: Message) {
    && Verifies(sha, m.header)
    && Read(m.header).dataLength == match m.body { case None => 0 case Some(b) => |b| }
    && m.body != Some([])
  }

  /** Exactly the well-formed messages are read back as they were written, whatever follows them. */
  lemma ParseUndoesPrint(sha: Hash, m: Message, rest: Bytes)
    ensures Parse(sha, Print(m) + rest) == Ok(m, rest) <==> WellFormed(sha, m)
  {
    hide Verifies, Read;
    var stream := Print(m) + rest;
    assert stream[..HEADER_SIZE] == m.header;
    var after := stream[HEADER_SIZE..];
    match m.body
    case None =>
      assert after == rest;
    case Some(b) =>
      assert after == b + rest && after[..|b|] == b && after[|b|..] == rest;
  }

  /** Whatever is read was written by `Print` from a well-formed message. */
  lemma PrintUndoesParse(sha: Hash, stream: Bytes)
    requires Parse(sha, stream).Ok?
    ensures var p := Parse(sha, stream); WellFormed(sha, p.message) && stream == Print(p.message) + p.rest
  {
    hide Verifies, Read;
    var p := Parse(sha, stream);
    var h, after := stream[..HEADER_SIZE], stream[HEADER_SIZE..];
    assert stream == h + after;
    if p.message.body.Some? {
      assert after == p.message.body.value + p.rest;
      assert h + (p.message.body.value + p.rest) == h + p.message.body.value + p.rest;
    }
  }

  /** When nothing is read: too few bytes, a bad header, or a good one whose body is cut short. */
  lemma WhenParseFails(sha: Hash, stream: Bytes)
    ensures Parse(sha, stream) == UnexpectedEof <==>
      || |stream| < 166
      || (stream[134..166] == sha(stream[..134]) && |stream| - 166 < Fips180.Value(stream[68..70]))
    ensures forall rest :: Parse(sha, stream) == InvalidChecksum(rest) <==>
      |stream| >= 166 && stream[134..166] != sha(stream[..134]) && rest == stream[166..]
  {
    hide Fips180.Value, Read;
    if |stream| >= 166 {
      var h := stream[..166];
      assert h[134..] == stream[134..166] && h[..134] == stream[..134] && h[68..70] == stream[68..70];
      ReadByBytes(h);
    }
  }

  function PrintAll(ms: seq<Message>): Bytes {
    if ms == [] then [] else Print(ms[0]) + PrintAll(ms[1..])
  }

  /** Reads messages until one cannot be read; returns them and what is left of the stream. */
  function ParseAll(sha: Hash, stream: Bytes): (seq<Message>, Bytes)
    decreases |stream|
  {
    match Parse(sha, stream)
    case Ok(m, rest) => var (ms, left) := ParseAll(sha, rest); ([m] + ms, left)
    case _ => ([], stream)
  }

  ghost predicate AllWellFormed(sha: Hash, ms: seq<Message>) {
    forall m | m in ms :: WellFormed(sha, m)
  }

  lemma {:induction false} ParseAllReads(sha: Hash, ms: seq<Message>)
    requires AllWellFormed(sha, ms)
    ensures ParseAll(sha, PrintAll(ms)) == (ms, [])
    decreases ms
  {
    hide Parse, Print, WellFormed;
    if ms == [] {
      EmptyStream(sha);
    } else {
      assert ms[0] in ms && ms == [ms[0]] + ms[1..];
      ParseUndoesPrint(sha, ms[0], PrintAll(ms[1..]));
      ParseAllReads(sha, ms[1..]);
    }
  }

  lemma EmptyStream(sha: Hash)
    ensures Parse(sha, []) == UnexpectedEof
  {
  }

  lemma {:induction false} ParseAllWellFormed(sha: Hash, stream: Bytes)
    ensures AllWellFormed(sha, ParseAll(sha, stream).0)
    decreases |stream|
  {
    hide Verifies, Read, Print, WellFormed;
    if Parse(sha, stream).Ok? {
      PrintUndoesParse(sha, stream);
      ParseAllWellFormed(sha, Parse(sha, stream).rest);
    }
  }

  /** A sequence of written messages is read back whole, to the last byte, exactly if all are well-formed. */
  lemma StreamRoundTrip(sha: Hash, ms: seq<Message>)
    ensures ParseAll(sha, PrintAll(ms)) == (ms, []) <==> AllWellFormed(sha, ms)
  {
    hide Parse, Print, WellFormed;
    ParseAllWellFormed(sha, PrintAll(ms));
    if AllWellFormed(sha, ms) {
      ParseAllReads(sha, ms);
    }
  }

  /** The C++ frame for `v`: what `build` and `build_message` produce. */
  function CppFrame(sha: Hash, v: Rust.Values): Bytes {
    Rust.CppBuild(sha, v) + v.body
  }

  /** The Rust reader recovers a C++ frame with a body exactly if the body fits the 16-bit length. */
  lemma CppFrameReadsBack(sha: Hash, v: Rust.Values, rest: Bytes)
    requires v.body != []
    ensures Parse(sha, CppFrame(sha, v) + rest) == Ok(Message(Rust.CppBuild(sha, v), Some(v.body)), rest)
       <==> |v.body| < TWO_16
  {
    hide Rust.CppBuild, Parse, Verifies, Read;
    Rust.BuildsVerify(sha, v);
    Rust.CppBuildReads(sha, v);
    ParseUndoesPrint(sha, Message(Rust.CppBuild(sha, v), Some(v.body)), rest);
  }

  /** A header that announces a body nobody sent swallows the beginning of the next frame. */
  lemma MissingBodySwallowsNext(sha: Hash, h: Header, next: Bytes)
    requires Verifies(sha, h) && 0 < Read(h).dataLength <= |next|
    ensures var n := Read(h).dataLength;
      Parse(sha, Print(Message(h, None)) + next) == Ok(Message(h, Some(next[..n])), next[n..])
  {
    hide Verifies, Read;
    assert (h + next)[..HEADER_SIZE] == h && (h + next)[HEADER_SIZE..] == next;
  }

  datatype ReadResult = Received(hasBody: bool) | Failed(invalidChecksum: bool)

  /** One end of a connection: the bytes still to be read, those written, and the reused buffers. */
  class ApplicationLayer {
    var input: Bytes
    var output: Bytes
    const header: Rust.MessageHeader
    var body: Bytes

    ghost predicate Valid()
    {
      header.Valid()
    }

    constructor (stream: Bytes)
      ensures Valid() && fresh(header) && fresh(header.bytes)
      ensures input == stream && output == []
    {
      input, output, body := stream, [], [];
      header := new Rust.MessageHeader();
    }

    /** The messages handed out live in `header` and `body` until the next read. */
    method ReadBasicMessage() returns (r: ReadResult)
      requires Valid()
      modifies this`input, this`body, header.bytes
      ensures match Parse(Fips180.Sha256, old(input))
        case Ok(m, rest) =>
          && r == Received(m.body.Some?) && input == rest
          && header.bytes[..] == m.header && (m.body.Some? ==> body == m.body.value)
        case InvalidChecksum(rest) => r == Failed(true) && input == rest
        case UnexpectedEof => r == Failed(false) && input == []
    {
      hide Fips180.Sha256, Verifies;
      if |input| < HEADER_SIZE {
        input := [];
        return Failed(false);
      }
      header.Emplace(input[..HEADER_SIZE], 0);
      assert header.bytes[..] == input[..HEADER_SIZE];
      input := input[HEADER_SIZE..];
      var ok := header.VerifyHeaderChecksum();
      if !ok {
        return Failed(true);
      }
      var n := header.GetU16AtIndex(DATA_LENGTH);
      HostOrderOf(n);
      assert header.bytes[DATA_LENGTH..DATA_LENGTH + 2] == [header.bytes[68], header.bytes[69]];
      if n == 0 {
        return Received(false);
      }
      // `clear`, `reserve` and `set_len`: n bytes of whatever was in memory
      body := [];
      body := Uninitialized(n);
      if |input| < n {
        input := [];
        return Failed(false);
      }
      ghost var start := input;
      for i := 0 to n
        invariant |body| == n && input == start[i..] && body[..i] == start[..i]
        invariant header.bytes[..] == old(input[..HEADER_SIZE])
      {
        body := body[i := input[0]];
        input := input[1..];
      }
      assert body == start[..n];
      return Received(true);
    }

    method WriteBasicMessage(m: Message) returns (written: nat)
      modifies this`output
      ensures output == old(output) + Print(m)
      ensures written == match m.body { case None => 0 case Some(b) => |b| }
    {
      output := output + m.header;
      match m.body
      case Some(b) =>
        output := output + b;
        written := |b|;
      case None =>
        written := 0;
    }
  }

  lemma HostOrderOf(n: uint16)
    ensures HostOrder(NetworkOrder(n)[0], NetworkOrder(n)[1]) == n
  {
  }

  method Uninitialized(n: nat) returns (s: Bytes)
    ensures |s| == n
  {
    s :| |s| == n by { assert |Fips180.Zeros(n)| == n; }
  }
}
