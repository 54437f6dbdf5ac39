/**
 The C++ `MessageLayer`: a builder that writes fields into a 166-byte array in place.
 */
module CppMessageLayer {
  import opened Words
  import opened HeaderLayout
  import Fips180
  import Hasher

  datatype Setter =
    | PacketNumber(n: uint16)
    | Version(v: byte)
    | Source(name: Bytes)
    | Dest(name: Bytes)
    | MessageType(t: byte)
    | DataLength(n: uint16)
    | DataChecksum(body: Bytes)

  /** A username keeps its first 31 bytes; the rest of the 32-byte field is cleared. */
  function NameField(name: Bytes): (s: Bytes)
    ensures |s| == USERNAME_LEN
  {
    var min := if |name| < USERNAME_LEN - 1 then |name| else USERNAME_LEN - 1;
    name[..min] + Fips180.Zeros(USERNAME_LEN - min)
  }

  /** What is left of a username once it is stored: 31 bytes, cut at the first NUL. */
  function StoredName(name: Bytes): (s: Bytes)
    ensures |s| <= 31 && 0 !in s
  {
    CutAtNul(if |name| <= 31 then name else name[..31])
  }

  /** The effect of a setter on the bytes of the header. */
  function Write(sha: Hash, h: Header, s: Setter): Header {
    match s
    case PacketNumber(n) => Overwrite(h, PACKET_NUMBER, NetworkOrder(n))
    case Version(v) => Overwrite(h, VERSION, [v])
    case Source(name) => Overwrite(h, SOURCE, NameField(name))
    case Dest(name) => Overwrite(h, DEST, NameField(name))
    case MessageType(t) => Overwrite(h, MESSAGE_TYPE, [t])
    case DataLength(n) => Overwrite(h, DATA_LENGTH, NetworkOrder(n))
    case DataChecksum(body) => Overwrite(h, DATA_CHECKSUM, sha(body))
  }

  /** The effect of a setter on the record: one field changes. */
  function Assign(sha: Hash, r: Record, s: Setter): Record {
    match s
    case PacketNumber(n) => r.(packetNumber := n)
    case Version(v) => r.(version := v)
    case Source(name) => r.(source := StoredName(name))
    case Dest(name) => r.(dest := StoredName(name))
    case MessageType(t) => r.(messageType := t)
    case DataLength(n) => r.(dataLength := n)
    case DataChecksum(body) => r.(dataChecksum := sha(body))
  }

  function WriteAll(sha: Hash, h: Header, setters: seq<Setter>): Header
    decreases setters
  {
    if setters == [] then h else WriteAll(sha, Write(sha, h, setters[0]), setters[1..])
  }

  function AssignAll(sha: Hash, r: Record, setters: seq<Setter>): Record
    decreases setters
  {
    if setters == [] then r else AssignAll(sha, Assign(sha, r, setters[0]), setters[1..])
  }

  lemma NameFieldReadsBack(name: Bytes)
    ensures CutAtNul(NameField(name)) == StoredName(name)
  {
    var min := if |name| < 31 then |name| else 31;
    CutAtNulZeros(name[..min], USERNAME_LEN - min, []);
    assert name[..min] + Fips180.Zeros(USERNAME_LEN - min) + [] == NameField(name);
    assert name[..min] == if |name| <= 31 then name else name[..31];
  }

  lemma NetworkOrderReadsBack(n: uint16)
    ensures HostOrder(NetworkOrder(n)[0], NetworkOrder(n)[1]) == n
  {
  }

  /** On any header whatever, a setter is an assignment to its own field and to no other. */
  lemma WriteIsAssign(sha: Hash, h: Header, s: Setter)
    ensures Read(Write(sha, h, s)) == Assign(sha, Read(h), s)
    ensures Write(sha, h, s)[FUTURE_USE..] == h[FUTURE_USE..]
  {
    hide CutAtNul, NameField, StoredName, NetworkOrder;
    match s
    case Source(name) =>
      NameFieldReadsBack(name);
      UntouchedSlices(h, SOURCE, NameField(name));
    case Dest(name) =>
      NameFieldReadsBack(name);
      UntouchedSlices(h, DEST, NameField(name));
    case DataChecksum(body) =>
      UntouchedSlices(h, DATA_CHECKSUM, sha(body));
    case _ =>
      WriteSmall(sha, h, s);
  }

  /** The setters of one or two bytes. */
  lemma WriteSmall(sha: Hash, h: Header, s: Setter)
    requires s.PacketNumber? || s.Version? || s.MessageType? || s.DataLength?
    ensures Read(Write(sha, h, s)) == Assign(sha, Read(h), s)
    ensures Write(sha, h, s)[FUTURE_USE..] == h[FUTURE_USE..]
  {
    hide CutAtNul;
    match s
    case PacketNumber(n) =>
      NetworkOrderReadsBack(n);
      UntouchedSlices(h, PACKET_NUMBER, NetworkOrder(n));
    case DataLength(n) =>
      NetworkOrderReadsBack(n);
      UntouchedSlices(h, DATA_LENGTH, NetworkOrder(n));
    case Version(v) =>
      UntouchedSlices(h, VERSION, [v]);
    case MessageType(t) =>
      UntouchedSlices(h, MESSAGE_TYPE, [t]);
  }

  lemma UntouchedSlices(h: Header, at: nat, data: Bytes)
    requires at + |data| <= FUTURE_USE
    ensures var h' := Overwrite(h, at, data);
      && (at == SOURCE && |data| == 32 ==> h'[SOURCE..SOURCE + USERNAME_LEN] == data)
      && (at == DEST && |data| == 32 ==> h'[DEST..DEST + USERNAME_LEN] == data)
      && (at == DATA_CHECKSUM && |data| == 32 ==> h'[DATA_CHECKSUM..FUTURE_USE] == data)
      && (at + |data| <= SOURCE || SOURCE + 32 <= at ==>
            h'[SOURCE..SOURCE + USERNAME_LEN] == h[SOURCE..SOURCE + USERNAME_LEN])
      && (at + |data| <= DEST || DEST + 32 <= at ==>
            h'[DEST..DEST + USERNAME_LEN] == h[DEST..DEST + USERNAME_LEN])
      && (at + |data| <= DATA_CHECKSUM ==> h'[DATA_CHECKSUM..FUTURE_USE] == h[DATA_CHECKSUM..FUTURE_USE])
      && h'[FUTURE_USE..] == h[FUTURE_USE..]
  {
    OverwriteRead(h, at, data, SOURCE, SOURCE + USERNAME_LEN);
    OverwriteRead(h, at, data, DEST, DEST + USERNAME_LEN);
    OverwriteRead(h, at, data, DATA_CHECKSUM, FUTURE_USE);
    OverwriteRead(h, at, data, FUTURE_USE, HEADER_SIZE);
    var h' := Overwrite(h, at, data);
    assert h'[FUTURE_USE..] == h'[FUTURE_USE..HEADER_SIZE] && h[FUTURE_USE..] == h[FUTURE_USE..HEADER_SIZE];
  }

  /** The same by bytes: what each setter puts where, and that it leaves all other bytes alone. */
  lemma WriteByBytes(sha: Hash, h: Header, s: Setter)
    ensures var h' := Write(sha, h, s);
      match s
      case PacketNumber(n) => Fips180.Value(h'[..2]) == n && h'[2..] == h[2..]
      case Version(v) => h'[2] == v && h'[..2] == h[..2] && h'[3..] == h[3..]
      case Source(name) =>
        && h'[..3] == h[..3] && h'[35..] == h[35..]
        && forall j | 0 <= j < 32 :: h'[3 + j] == if j < 31 && j < |name| then name[j] else 0
      case Dest(name) =>
        && h'[..35] == h[..35] && h'[67..] == h[67..]
        && forall j | 0 <= j < 32 :: h'[35 + j] == if j < 31 && j < |name| then name[j] else 0
      case MessageType(t) => h'[67] == t && h'[..67] == h[..67] && h'[68..] == h[68..]
      case DataLength(n) => Fips180.Value(h'[68..70]) == n && h'[..68] == h[..68] && h'[70..] == h[70..]
      case DataChecksum(body) => h'[70..102] == sha(body) && h'[..70] == h[..70] && h'[102..] == h[102..]
  {
    hide NetworkOrder, Fips180.Value;
    match s
    case PacketNumber(n) =>
      NetworkOrderIsBigEndian(n);
      assert Write(sha, h, s)[..2] == NetworkOrder(n);
    case DataLength(n) =>
      NetworkOrderIsBigEndian(n);
      assert Write(sha, h, s)[68..70] == NetworkOrder(n);
    case Source(name) =>
      var h' := Write(sha, h, s);
      assert forall j | 0 <= j < 32 :: h'[3 + j] == NameField(name)[j];
    case Dest(name) =>
      var h' := Write(sha, h, s);
      assert forall j | 0 <= j < 32 :: h'[35 + j] == NameField(name)[j];
    case _ =>
  }

  /** Any sequence of setters, then `build`: every field holds the last value set, and the header verifies. */
  lemma {:induction false} BuilderKeepsFields(sha: Hash, h: Header, setters: seq<Setter>)
    ensures Read(WriteAll(sha, h, setters)) == AssignAll(sha, Read(h), setters)
    ensures WriteAll(sha, h, setters)[FUTURE_USE..] == h[FUTURE_USE..]
    ensures Read(Seal(sha, WriteAll(sha, h, setters))) == AssignAll(sha, Read(h), setters)
    ensures Verifies(sha, Seal(sha, WriteAll(sha, h, setters)))
    decreases setters
  {
    SealKeepsFields(sha, WriteAll(sha, h, setters));
    if setters != [] {
      WriteIsAssign(sha, h, setters[0]);
      BuilderKeepsFields(sha, Write(sha, h, setters[0]), setters[1..]);
    }
  }

  /** `build_message`: header, then body. */
  method BuildMessage(messageHeader: Header, message: Bytes) returns (messageToSend: Bytes)
    ensures messageToSend == messageHeader + message
  {
    messageToSend := [];
    messageToSend := messageToSend + messageHeader;
    if |message| > 0 {
      messageToSend := messageToSend + message;
    }
  }

  class MessageLayer {
    const header: array<byte>
    const checksum: array<byte>
    var valid: bool

    ghost predicate Valid()
      reads this
    {
      header.Length == HEADER_SIZE && checksum.Length == 32 && header != checksum
    }

    constructor ()
      ensures Valid() && fresh(header) && fresh(checksum)
      ensures header[..] == Fips180.Zeros(HEADER_SIZE) && valid
    {
      header := new byte[166](_ => 0);
      checksum := new byte[32](_ => 0);
      valid := true;
    }

    constructor FromHeader(h: Header)
      ensures Valid() && fresh(header) && fresh(checksum)
      ensures header[..] == h && valid == Verifies(Fips180.Sha256, h)
    {
      header := new byte[166](i requires 0 <= i < 166 => h[i]);
      checksum := new byte[32](_ => 0);
      valid := true;
      new;
      VerifyChecksum();
    }

    /** `get_internal_header().fill(0)` */
    method ClearHeader()
      requires Valid()
      modifies header
      ensures header[..] == Fips180.Zeros(HEADER_SIZE)
    {
      forall i | 0 <= i < HEADER_SIZE {
        header[i] := 0;
      }
    }

    method SetPacketNumber(n: uint16)
      requires Valid()
      modifies header
      ensures header[..] == Write(Fips180.Sha256, old(header[..]), PacketNumber(n))
      ensures Fips180.Value(header[0..2]) == n
    {
      hide Fips180.Sha256, Fips180.Value;
      NetworkOrderIsBigEndian(n);
      StoreNetworkOrder(PACKET_NUMBER, n);
      assert header[0..2] == NetworkOrder(n);
    }

    method SetVersionNumber(v: byte)
      requires Valid()
      modifies header
      ensures header[..] == Write(Fips180.Sha256, old(header[..]), Version(v))
    {
      header[VERSION] := v;
    }

    method SetSourceUsername(name: Bytes)
      requires Valid()
      modifies header
      ensures header[..] == Write(Fips180.Sha256, old(header[..]), Source(name))
    {
      SetUsername(name, SOURCE);
    }

    method SetDestUsername(name: Bytes)
      requires Valid()
      modifies header
      ensures header[..] == Write(Fips180.Sha256, old(header[..]), Dest(name))
    {
      SetUsername(name, DEST);
    }

    method SetMessageType(t: byte)
      requires Valid()
      modifies header
      ensures header[..] == Write(Fips180.Sha256, old(header[..]), MessageType(t))
    {
      header[MESSAGE_TYPE] := t;
    }

    method SetDataPacketLength(n: uint16)
      requires Valid()
      modifies header
      ensures header[..] == Write(Fips180.Sha256, old(header[..]), DataLength(n))
      ensures Fips180.Value(header[68..70]) == n
    {
      hide Fips180.Sha256, Fips180.Value;
      NetworkOrderIsBigEndian(n);
      StoreNetworkOrder(DATA_LENGTH, n);
      assert header[68..70] == NetworkOrder(n);
    }

    /** `set_username`: clear the field, copy at most 31 bytes, terminate. */
    method SetUsername(name: Bytes, begin: nat)
      requires Valid() && begin + USERNAME_LEN <= HEADER_SIZE
      modifies header
      ensures header[..] == Overwrite(old(header[..]), begin, NameField(name))
    {
      var min := if |name| < USERNAME_LEN - 1 then |name| else USERNAME_LEN - 1;
      forall i | 0 <= i < USERNAME_LEN {
        header[begin + i] := 0;
      }
      forall i | 0 <= i < min {
        header[begin + i] := name[i];
      }
      header[begin + min] := 0;
    }

    /** `htons` and a two-byte store. */
    method StoreNetworkOrder(begin: nat, n: uint16)
      requires Valid() && begin + 2 <= HEADER_SIZE
      modifies header
      ensures header[..] == Overwrite(old(header[..]), begin, NetworkOrder(n))
    {
      header[begin], header[begin + 1] := n / TWO_8, n % TWO_8;
    }

    method GetPacketNumber() returns (n: uint16)
      requires Valid()
      ensures n == Read(header[..]).packetNumber == Fips180.Value(header[0..2])
    {
      assert header[..][0..2] == header[0..2];
      ReadByBytes(header[..]);
      n := HostOrder(header[PACKET_NUMBER], header[PACKET_NUMBER + 1]);
    }

    method GetVersionNumber() returns (v: byte)
      requires Valid()
      ensures v == Read(header[..]).version
    {
      v := header[VERSION];
    }

    method GetSourceUsername() returns (s: Bytes)
      requires Valid()
      ensures s == Read(header[..]).source
    {
      s := BuildStringSafe(header, SOURCE, USERNAME_LEN);
      assert header[..][SOURCE..SOURCE + USERNAME_LEN] == header[SOURCE..SOURCE + USERNAME_LEN];
    }

    method GetDestUsername() returns (s: Bytes)
      requires Valid()
      ensures s == Read(header[..]).dest
    {
      s := BuildStringSafe(header, DEST, USERNAME_LEN);
      assert header[..][DEST..DEST + USERNAME_LEN] == header[DEST..DEST + USERNAME_LEN];
    }

    method GetMessageType() returns (t: byte)
      requires Valid()
      ensures t == Read(header[..]).messageType
    {
      t := header[67];
    }

    method GetDataPacketLength() returns (n: uint16)
      requires Valid()
      ensures n == Read(header[..]).dataLength == Fips180.Value(header[68..70])
    {
      assert header[..][68..70] == header[68..70];
      ReadByBytes(header[..]);
      n := HostOrder(header[DATA_LENGTH], header[DATA_LENGTH + 1]);
    }

    method CalculateDataPacketChecksum(body: Bytes)
      requires Valid()
      modifies header
      ensures header[..] == Write(Fips180.Sha256, old(header[..]), DataChecksum(body))
    {
      hide Fips180.Sha256;
      Hasher.HashRandomAccess(body, header, DATA_CHECKSUM, FUTURE_USE);
    }

    method VerifyDataPacketChecksum(body: Bytes) returns (ok: bool)
      requires Valid()
      modifies checksum
      ensures ok == (Fips180.Sha256(body) == Read(header[..]).dataChecksum)
    {
      hide Fips180.Sha256;
      Hasher.HashRandomAccess(body, checksum, 0, 32);
      assert checksum[..] == Fips180.Sha256(body);
      assert header[..][DATA_CHECKSUM..FUTURE_USE] == header[DATA_CHECKSUM..FUTURE_USE];
      ok := header[DATA_CHECKSUM..FUTURE_USE] == checksum[..];
    }

    method Build()
      requires Valid()
      modifies header
      ensures header[..] == Seal(Fips180.Sha256, old(header[..]))
      ensures header[..] == old(header[..134]) + Fips180.Sha256(old(header[..134]))
    {
      hide Fips180.Sha256;
      assert header[..][..HEADER_CHECKSUM] == header[..HEADER_CHECKSUM];
      Hasher.HashRandomAccess(header[..HEADER_CHECKSUM], header, HEADER_CHECKSUM, HEADER_SIZE);
    }

    method VerifyChecksum()
      requires Valid()
      modifies checksum, this`valid
      ensures valid == Verifies(Fips180.Sha256, header[..])
      ensures valid == (header[134..] == Fips180.Sha256(header[..134]))
    {
      hide Fips180.Sha256;
      assert header[..][..HEADER_CHECKSUM] == header[..HEADER_CHECKSUM];
      Hasher.HashRandomAccess(header[..HEADER_CHECKSUM], checksum, 0, 32);
      assert checksum[..] == SumOf(Fips180.Sha256, header[..]);
      assert header[..][HEADER_CHECKSUM..] == header[HEADER_CHECKSUM..];
      valid := header[HEADER_CHECKSUM..] == checksum[..];
    }
  }
}
