/**
 One connection at a time: every message a client still stores has exactly one token on its way
 round, and every message is acknowledged and passed on at most once.
 */
module Delivery {
  import opened Words
  import opened HeaderLayout
  import opened Options
  import opened Protocol

  // ---- Tokens ----

  predicate Carries(f: Frame, answers: bool) {
    if answers then f.IsAnswer() else f.kind == MESSAGE
  }

  function Token(f: Frame, answers: bool): multiset<nat> {
    if Carries(f, answers) then multiset{f.serial} else multiset{}
  }

  /** The serial numbers of the MESSAGEs, or of the answers, among `fs`. */
  function Serials(fs: seq<Frame>, answers: bool): multiset<nat> {
    if fs == [] then multiset{} else Token(fs[0], answers) + Serials(fs[1..], answers)
  }

  function Held(o: Option<Frame>, answers: bool): multiset<nat> {
    if o.Some? then Token(o.value, answers) else multiset{}
  }

  /** An answer decided upon but not yet sent. */
  function Owed(t: Thread): multiset<nat> {
    if t.jobs != [] && t.jobs[0].SendTo? then Token(t.jobs[0].frame, true) else multiset{}
  }

  /** All tokens: stored and not yet sent; on the way up; being handled; on the way down; just received. */
  function Tokens(c: Conn): multiset<nat> {
    Held(c.client.pending, false) + Serials(c.up, false) + Owed(c.thread)
    + Serials(c.down, true) + Held(c.client.received, true)
  }

  /** 1 if message number `s` of the client is in its table, else 0. */
  function Awaiting(c: Client, s: nat): nat {
    if s < |c.sent| && c.sent[s].number in c.stored && c.stored[c.sent[s].number].serial == s then 1 else 0
  }

  lemma {:induction false} SerialsAppend(a: seq<Frame>, b: seq<Frame>, answers: bool)
    ensures Serials(a + b, answers) == Serials(a, answers) + Serials(b, answers)
    decreases a
  {
    if a == [] {
      assert a + b == b;
    } else {
      assert (a + b)[1..] == a[1..] + b;
      SerialsAppend(a[1..], b, answers);
    }
  }

  lemma SerialsOne(f: Frame, answers: bool)
    ensures Serials([f], answers) == Token(f, answers)
  {
    assert [f][1..] == [];
  }

  lemma {:induction false} SerialsMember(fs: seq<Frame>, f: Frame, answers: bool)
    requires f in fs && Carries(f, answers)
    ensures f.serial in Serials(fs, answers)
    decreases fs
  {
    if f != fs[0] {
      SerialsMember(fs[1..], f, answers);
    }
  }

  // ---- The invariant of a connection ----

  /** The server thread may still read a frame. */
  predicate Reading(t: Thread) {
    t.phase == AwaitingLogin || t.phase == Registering || t.phase == Replying || t.phase == Serving
  }

  /** Before either side leaves. */
  predicate Engaged(c: Conn) {
    c.client.alive && Reading(c.thread)
  }

  predicate IsSent(c: Client, f: Frame) {
    f.serial < |c.sent| && f == c.sent[f.serial]
  }

  predicate Answers(c: Client, f: Frame) {
    f.serial < |c.sent| && f.number == c.sent[f.serial].number
  }

  /** `body` hashes to the checksum the sender stored for its message `s`. */
  predicate Matches(sha: Hash, c: Client, s: nat, body: Bytes) {
    s < |c.sent| && sha(body) == c.sent[s].checksum
  }

  ghost predicate JobOk(sha: Hash, c: Client, name: Name, j: Job) {
    match j
    case SendTo(dest, f, relay) =>
      if relay then f.kind == MESSAGE && Matches(sha, c, f.serial, f.body)
      else dest == name && f.kind != MESSAGE && (f.IsAnswer() ==> Answers(c, f))
    case ToAll(f, relay) => f.kind == MESSAGE && (relay ==> Matches(sha, c, f.serial, f.body))
    case ListUsers => true
  }

  /** Frames carry what their sender stored; answers carry the number of what they answer. */
  ghost predicate FramesOk(sha: Hash, c: Conn) {
    var k := c.client;
    && (forall i | 0 <= i < |k.sent| ::
          k.sent[i].kind == MESSAGE && k.sent[i].serial == i && k.sent[i].checksum == sha(k.sent[i].body))
    && (forall n | n in k.stored :: k.stored[n].number == n && IsSent(k, k.stored[n]))
    && (k.pending.Some? ==> IsSent(k, k.pending.value))
    && (k.received.Some? && k.received.value.IsAnswer() ==> Answers(k, k.received.value))
    && (forall f | f in c.up && f.kind == MESSAGE :: IsSent(k, f))
    && (forall f | f in c.down && f.IsAnswer() :: Answers(k, f))
    && (forall j | j in c.thread.jobs :: JobOk(sha, k, c.thread.name, j))
    && (forall d | d in c.thread.dispatched :: Matches(sha, k, d.serial, d.body))
  }

  predicate IsAck(j: Job) {
    j.SendTo? && !j.relay && j.frame.kind == ACK
  }

  predicate IsRelay(j: Job) {
    !j.ListUsers? && j.relay
  }

  /** The job lists that occur in each phase. */
  predicate JobsOk(t: Thread) {
    && (t.hold.Shared? ==> t.jobs != [])
    && (t.hold.Exclusive? || t.hold.ExclusiveDone? ==> t.jobs == [])
    && match t.phase
       case Serving =>
         || t.jobs == []
         || (|t.jobs| == 1 && !IsAck(t.jobs[0]))
         || (|t.jobs| == 2 && IsAck(t.jobs[0]) && IsRelay(t.jobs[1])
             && t.jobs[1].frame.serial == t.jobs[0].frame.serial)
       case Leaving => |t.jobs| <= 1 && forall j | j in t.jobs :: !IsRelay(j)
       case _ => t.jobs == []
  }

  /** Exactly the stored messages have a token, and exactly one each. */
  ghost predicate TokensOk(c: Conn) {
    c.client.alive ==> forall s: nat :: Tokens(c)[s] == Awaiting(c.client, s)
  }

  function DispatchedSerials(ds: seq<Dispatch>): (s: seq<nat>)
    ensures |s| == |ds|
  {
    seq(|ds|, i requires 0 <= i < |ds| => ds[i].serial)
  }

  /** An acknowledged message whose dispatch is the next thing to do. */
  function Queued(t: Thread): seq<nat> {
    if |t.jobs| == 1 && IsRelay(t.jobs[0]) then [t.jobs[0].frame.serial] else []
  }

  predicate Distinct(s: seq<nat>) {
    forall i, j | 0 <= i < j < |s| :: s[i] != s[j]
  }

  /** What the thread may still have to answer. */
  function Unanswered(c: Conn): multiset<nat> {
    Serials(c.up, false) + Owed(c.thread)
  }

  /** A message that will be sent again, or for the first time. */
  ghost predicate ToBeSent(c: Conn, s: nat) {
    || (c.client.pending.Some? && c.client.pending.value.serial == s)
    || (c.client.received.Some? && c.client.received.value.kind == NACK && c.client.received.value.serial == s)
    || (exists f :: f in c.down && f.kind == NACK && f.serial == s)
  }

  /** Acknowledging and dispatching: in the same order, each message once, and none that may still come. */
  ghost predicate OrderOk(c: Conn) {
    var t := c.thread;
    && Distinct(t.acked)
    && DispatchedSerials(t.dispatched) <= t.acked
    && (forall s: nat | s in Owed(t) :: s !in t.acked)
    && (Reading(t) ==> t.acked == DispatchedSerials(t.dispatched) + Queued(t))
    && (Reading(t) ==> forall s: nat :: Unanswered(c)[s] <= 1 && (s in Unanswered(c) ==> s !in t.acked))
    && (Engaged(c) ==> forall s: nat | ToBeSent(c, s) :: s !in t.acked)
  }

  ghost predicate ConnOk(sha: Hash, c: Conn) {
    FramesOk(sha, c) && JobsOk(c.thread) && TokensOk(c) && OrderOk(c)
  }

  // ---- When a step leaves part of the invariant alone ----

  lemma SameTokens(c: Conn, c': Conn)
    requires TokensOk(c) && (c'.client.alive ==> c.client.alive && Tokens(c') == Tokens(c))
    requires c'.client.sent == c.client.sent && c'.client.stored == c.client.stored
    ensures TokensOk(c')
  {
    hide Tokens;
    assert forall s: nat :: Awaiting(c'.client, s) == Awaiting(c.client, s);
  }

  lemma SameOrder(c: Conn, c': Conn)
    requires OrderOk(c)
    requires c'.thread.acked == c.thread.acked && c'.thread.dispatched == c.thread.dispatched
    requires Queued(c'.thread) == Queued(c.thread) && Owed(c'.thread) == Owed(c.thread)
    requires (Reading(c'.thread) ==> Reading(c.thread)) && (Engaged(c') ==> Engaged(c))
    requires Unanswered(c') <= Unanswered(c)
    requires forall s: nat :: ToBeSent(c', s) ==> ToBeSent(c, s)
    ensures OrderOk(c')
  {
    hide Unanswered, ToBeSent, Queued, Owed, Reading, Engaged, DispatchedSerials, Distinct;
    assert forall s: nat :: Unanswered(c')[s] <= Unanswered(c)[s];
  }

  /** Frames that were all right before are all right now. */
  lemma SameFrames(sha: Hash, c: Conn, c': Conn)
    requires FramesOk(sha, c)
    requires c'.client.sent == c.client.sent && c'.thread == c.thread
    requires forall n | n in c'.client.stored :: n in c.client.stored && c'.client.stored[n] == c.client.stored[n]
    requires c'.client.pending.Some? ==> c'.client.pending == c.client.pending
    requires c'.client.received.Some? ==>
               !c'.client.received.value.IsAnswer() || Answers(c.client, c'.client.received.value)
    requires forall f | f in c'.up && f.kind == MESSAGE :: IsSent(c.client, f)
    requires forall f | f in c'.down && f.IsAnswer() :: Answers(c.client, f)
    ensures FramesOk(sha, c')
  {
    var k, k' := c.client, c'.client;
    assert forall f :: IsSent(k', f) == IsSent(k, f);
    assert forall f :: Answers(k', f) == Answers(k, f);
    assert forall x: nat, b :: Matches(sha, k', x, b) == Matches(sha, k, x, b);
  }

  /** A frame that is no answer changes nothing when it arrives. */
  lemma ArrivalKeepsConn(sha: Hash, c: Conn, f: Frame, heard: multiset<Hearing>, got: multiset<Receipt>)
    requires ConnOk(sha, c) && !f.IsAnswer()
    ensures ConnOk(sha, c.(down := c.down + [f], heard := heard, got := got))
  {
    var c' := c.(down := c.down + [f], heard := heard, got := got);
    SerialsAppend(c.down, [f], true);
    SerialsOne(f, true);
    hide Serials, JobsOk, JobOk, Awaiting, OrderOk, TokensOk;
    SameFrames(sha, c, c');
    assert Tokens(c') == Tokens(c);
    SameTokens(c, c');
    SameOrder(c, c');
  }

  // ---- Client steps ----

  lemma ClientKeepsConn(sha: Hash, c: Conn, act: ClientAction)
    requires ConnOk(sha, c) && ClientEnabled(c.client, c.down, act)
    ensures ConnOk(sha, ClientStep(sha, c, act))
  {
    match act
    case Login => QuietStep(sha, c, Login);
    case ReadLine => QuietStep(sha, c, ReadLine);
    case Who => QuietStep(sha, c, Who);
    case Disconnect => QuietStep(sha, c, Disconnect);
    case Stop => QuietStep(sha, c, Stop);
    case Exit => QuietStep(sha, c, Exit);
    case Store(dest, body) => StoreKeepsConn(sha, c, dest, body);
    case Transmit => TransmitKeepsConn(sha, c);
    case Receive => ReceiveKeepsConn(sha, c);
    case Handle => HandleKeepsConn(sha, c);
  }

  /** Steps that touch no message. */
  lemma QuietStep(sha: Hash, c: Conn, act: ClientAction)
    requires ConnOk(sha, c) && ClientEnabled(c.client, c.down, act)
    requires act.Login? || act.ReadLine? || act.Who? || act.Disconnect? || act.Stop? || act.Exit?
    ensures ConnOk(sha, ClientStep(sha, c, act))
  {
    var e := ClientEffect(sha, c.client, c.down, act);
    var c' := c.(client := e.client, up := c.up + e.send);
    assert ClientStep(sha, c, act) == c';
    assert e.send == [] || (|e.send| == 1 && e.send[0].kind != MESSAGE);
    assert e.client == c.client.(alive := e.client.alive, running := e.client.running, sender := e.client.sender,
                                 packetNumber := e.client.packetNumber);
    assert e.client.alive ==> c.client.alive;
    if e.send == [] {
      assert c.up + e.send == c.up;
      QuietChange(sha, c, e.client);
    } else {
      assert e.send == [e.send[0]];
      QuietSend(sha, c, e.client, e.send[0]);
    }
  }

  ghost predicate SameMessages(c: Client, k: Client) {
    && k.sent == c.sent && k.stored == c.stored && k.pending == c.pending && k.received == c.received
    && (k.alive ==> c.alive)
  }

  lemma QuietChange(sha: Hash, c: Conn, k: Client)
    requires ConnOk(sha, c) && SameMessages(c.client, k)
    ensures ConnOk(sha, c.(client := k))
  {
    var c' := c.(client := k);
    hide Serials, JobsOk, JobOk, Awaiting, OrderOk, TokensOk;
    SameFrames(sha, c, c');
    SameTokens(c, c');
    SameOrder(c, c');
  }

  lemma QuietSend(sha: Hash, c: Conn, k: Client, f: Frame)
    requires ConnOk(sha, c) && SameMessages(c.client, k) && f.kind != MESSAGE
    ensures ConnOk(sha, c.(client := k, up := c.up + [f]))
  {
    var c1 := c.(client := k);
    var c' := c1.(up := c.up + [f]);
    QuietChange(sha, c, k);
    SerialsAppend(c.up, [f], false);
    SerialsOne(f, false);
    assert Serials(c'.up, false) == Serials(c.up, false);
    hide Serials, JobsOk, JobOk, Awaiting, OrderOk, TokensOk;
    SameFrames(sha, c1, c');
    SameTokens(c1, c');
    SameOrder(c1, c');
  }

  /** Every acknowledged serial number belongs to a message that was sent. */
  lemma AckedWereSent(sha: Hash, c: Conn, s: nat)
    requires FramesOk(sha, c) && OrderOk(c) && Reading(c.thread) && s in c.thread.acked
    ensures s < |c.client.sent|
  {
    hide Serials, Unanswered, ToBeSent, Engaged, Reading;
    var t := c.thread;
    if s in Queued(t) {
      assert t.jobs[0] in t.jobs;
    } else {
      var i :| 0 <= i < |t.dispatched| && DispatchedSerials(t.dispatched)[i] == s;
      assert t.dispatched[i] in t.dispatched;
    }
  }

  /** Storing a message under a free number gives it its token. */
  lemma StoreKeepsConn(sha: Hash, c: Conn, dest: Name, body: Bytes)
    requires ConnOk(sha, c) && ClientEnabled(c.client, c.down, Store(dest, body))
    ensures ConnOk(sha, ClientStep(sha, c, Store(dest, body)))
  {
    var f := NewMessage(sha, c.client, dest, body);
    var k := StoreMessage(c.client, f);
    assert ClientStep(sha, c, Store(dest, body)) == c.(client := k) by { assert c.up + [] == c.up; }
    if f.number in c.client.stored {
      QuietChange(sha, c, k);
    } else {
      hide ClientStep;
      StoreNew(sha, c, k, f);
    }
  }

  lemma StoreNew(sha: Hash, c: Conn, k: Client, f: Frame)
    requires ConnOk(sha, c) && Stores(sha, c.client, k, f)
    ensures ConnOk(sha, c.(client := k))
  {
    var c' := c.(client := k);
    if Engaged(c) && f.serial in c.thread.acked {
      AckedWereSent(sha, c, f.serial);
    }
    StoreTokens(sha, c, c', f);
    hide Serials, JobsOk, Awaiting, TokensOk;
    StoreFrames(sha, c, c', f);
    hide FramesOk;
    assert Unanswered(c') == Unanswered(c);
    assert forall s: nat :: ToBeSent(c', s) ==> s == f.serial || ToBeSent(c, s);
  }

  /** `k` is `c` with the new message `f` stored under a number that was free. */
  ghost predicate Stores(sha: Hash, c: Client, k: Client, f: Frame) {
    && c.pending == None && f.number !in c.stored
    && f.kind == MESSAGE && f.serial == |c.sent| && f.checksum == sha(f.body)
    && k == c.(stored := c.stored[f.number := f], pending := Some(f), sent := c.sent + [f])
  }

  lemma StoreFrames(sha: Hash, c: Conn, c': Conn, f: Frame)
    requires FramesOk(sha, c) && Stores(sha, c.client, c'.client, f) && c' == c.(client := c'.client)
    ensures FramesOk(sha, c')
  {
    var k, k' := c.client, c'.client;
    assert forall i | 0 <= i < |k.sent| :: k'.sent[i] == k.sent[i];
    forall g | IsSent(k, g)
      ensures IsSent(k', g)
    {
    }
    forall g | Answers(k, g)
      ensures Answers(k', g)
    {
    }
    forall s: nat, b | Matches(sha, k, s, b)
      ensures Matches(sha, k', s, b)
    {
    }
    hide IsSent, Answers, Matches;
    assert IsSent(k', f) by { assert k'.sent[f.serial] == f; }
  }

  lemma StoreTokens(sha: Hash, c: Conn, c': Conn, f: Frame)
    requires TokensOk(c) && Stores(sha, c.client, c'.client, f) && c' == c.(client := c'.client)
    ensures TokensOk(c')
  {
    if c'.client.alive {
      forall s: nat
        ensures Tokens(c')[s] == Awaiting(c'.client, s)
      {
        assert Tokens(c)[s] == Awaiting(c.client, s);
        StoreAwaits(sha, c.client, c'.client, f, s);
        hide Serials, Awaiting, Owed;
        assert Held(c'.client.pending, false) == multiset{f.serial} && Held(c.client.pending, false) == multiset{};
        assert Tokens(c')[s] == Tokens(c)[s] + multiset{f.serial}[s];
      }
    }
  }

  lemma StoreAwaits(sha: Hash, c: Client, k: Client, f: Frame, s: nat)
    requires Stores(sha, c, k, f)
    ensures Awaiting(k, s) == Awaiting(c, s) + if s == f.serial then 1 else 0
  {
  }

  /** The token of a pending or an answered message is nowhere else. */
  lemma OnlyToken(c: Conn, f: Frame)
    requires TokensOk(c) && c.client.alive
    requires (c.client.pending == Some(f) && f.kind == MESSAGE) || (c.client.received == Some(f) && f.IsAnswer())
    ensures Tokens(c)[f.serial] == 1 && Awaiting(c.client, f.serial) == 1
    ensures f.serial !in Unanswered(c)
  {
    hide Serials;
    assert Tokens(c)[f.serial] == Awaiting(c.client, f.serial);
  }

  /** One more message on its way to the thread. */
  lemma OneMoreUnanswered(c: Conn, c': Conn, s: nat)
    requires OrderOk(c) && c'.thread == c.thread && Unanswered(c') == Unanswered(c) + multiset{s}
    requires Engaged(c') ==> Engaged(c)
    requires Reading(c.thread) ==> s !in Unanswered(c) && s !in c.thread.acked
    requires forall x: nat :: ToBeSent(c', x) ==> ToBeSent(c, x)
    ensures OrderOk(c')
  {
    hide Unanswered, ToBeSent, Queued, Owed, Reading, Engaged, DispatchedSerials, Distinct;
  }

  lemma TransmitKeepsConn(sha: Hash, c: Conn)
    requires ConnOk(sha, c) && ClientEnabled(c.client, c.down, Transmit)
    ensures ConnOk(sha, ClientStep(sha, c, Transmit))
  {
    hide Serials, JobsOk, JobOk, TokensOk, OrderOk, ClientEnabled, Unanswered, ToBeSent, ClientStep;
    TransmitStep(sha, c);
    var f := c.client.pending.value;
    PendingIsUnsent(sha, c);
    var k := c.client.(pending := None, sender := Prompting, packetNumber := Increment(c.client.packetNumber));
    SendMessage(sha, c, k, f);
  }

  lemma TransmitStep(sha: Hash, c: Conn)
    requires ClientEnabled(c.client, c.down, Transmit)
    ensures c.client.pending.Some? && c.client.alive
    ensures var k := c.client.(pending := None, sender := Prompting, packetNumber := Increment(c.client.packetNumber));
      ClientStep(sha, c, Transmit) == c.(client := k, up := c.up + [c.client.pending.value])
  {
  }

  /** A message waiting to be sent is stored, and nowhere on its way. */
  lemma PendingIsUnsent(sha: Hash, c: Conn)
    requires ConnOk(sha, c) && c.client.alive && c.client.pending.Some?
    ensures var f := c.client.pending.value;
      && IsSent(c.client, f) && f.kind == MESSAGE
      && (Reading(c.thread) ==> f.serial !in Unanswered(c) && f.serial !in c.thread.acked)
  {
    hide Serials, JobsOk, JobOk, Unanswered;
    OnlyToken(c, c.client.pending.value);
    assert ToBeSent(c, c.client.pending.value.serial);
  }

  /** The client sends, or sends again, the message whose token it holds. */
  lemma SendMessage(sha: Hash, c: Conn, k: Client, f: Frame)
    requires ConnOk(sha, c) && f.kind == MESSAGE && IsSent(c.client, f)
    requires k.sent == c.client.sent && k.stored == c.client.stored && c.client.alive && k.alive
    requires Held(c.client.pending, false) + Held(c.client.received, true)
          == Held(k.pending, false) + Held(k.received, true) + multiset{f.serial}
    requires k.pending == None || k.pending == c.client.pending
    requires k.received == None || k.received == c.client.received
    requires Reading(c.thread) ==> f.serial !in Unanswered(c) && f.serial !in c.thread.acked
    ensures ConnOk(sha, c.(client := k, up := c.up + [f]))
  {
    var c' := c.(client := k, up := c.up + [f]);
    SerialsAppend(c.up, [f], false);
    SerialsOne(f, false);
    hide Serials, JobsOk, JobOk, Awaiting, OrderOk, TokensOk;
    SameFrames(sha, c, c');
    MoveToken(c, c', f.serial);
    SameTokens(c, c');
    assert Unanswered(c') == Unanswered(c) + multiset{f.serial};
    OneMoreUnanswered(c, c', f.serial);
  }

  /** A token leaves the client and joins the channel. */
  lemma MoveToken(c: Conn, c': Conn, s: nat)
    requires Held(c.client.pending, false) + Held(c.client.received, true)
          == Held(c'.client.pending, false) + Held(c'.client.received, true) + multiset{s}
    requires Serials(c'.up, false) == Serials(c.up, false) + multiset{s}
    requires c'.down == c.down && c'.thread == c.thread
    ensures Tokens(c') == Tokens(c)
  {
    hide Serials, Held, Owed;
    var p, r, p', r' := Held(c.client.pending, false), Held(c.client.received, true),
                        Held(c'.client.pending, false), Held(c'.client.received, true);
    var u, o, d := Serials(c.up, false), Owed(c.thread), Serials(c.down, true);
    calc {
      Tokens(c');
      p' + (u + multiset{s}) + o + d + r';
      (p' + r' + multiset{s}) + u + o + d;
      (p + r) + u + o + d;
      Tokens(c);
    }
  }

  lemma ReceiveKeepsConn(sha: Hash, c: Conn)
    requires ConnOk(sha, c) && ClientEnabled(c.client, c.down, Receive)
    ensures ConnOk(sha, ClientStep(sha, c, Receive))
  {
    var f := c.down[0];
    var c' := c.(client := c.client.(received := Some(f)), down := c.down[1..]);
    assert ClientStep(sha, c, Receive) == c' by { assert c.up + [] == c.up; }
    assert f in c.down;
    assert Serials(c.down, true) == Token(f, true) + Serials(c.down[1..], true);
    hide Serials, JobsOk, JobOk, Awaiting, OrderOk, TokensOk, ClientStep;
    SameFrames(sha, c, c');
    assert Tokens(c') == Tokens(c);
    SameTokens(c, c');
    SameOrder(c, c');
  }

  lemma HandleKeepsConn(sha: Hash, c: Conn)
    requires ConnOk(sha, c) && ClientEnabled(c.client, c.down, Handle)
    ensures ConnOk(sha, ClientStep(sha, c, Handle))
  {
    var f := c.client.received.value;
    if f.kind == ACK {
      AckKeepsConn(sha, c, f);
    } else if f.kind == NACK {
      NackKeepsConn(sha, c, f);
    } else {
      var k := c.client.(received := None, running := c.client.running && f.kind != DISCONNECT);
      assert ClientStep(sha, c, Handle) == c.(client := k) by { assert c.up + [] == c.up; }
      IgnoreReceived(sha, c, k);
    }
  }

  lemma IgnoreReceived(sha: Hash, c: Conn, k: Client)
    requires ConnOk(sha, c) && c.client.received.Some? && !c.client.received.value.IsAnswer()
    requires c.client.alive && k == c.client.(received := None, running := k.running)
    ensures ConnOk(sha, c.(client := k))
  {
    var c' := c.(client := k);
    hide Serials, JobsOk, JobOk, Awaiting, OrderOk, TokensOk;
    SameFrames(sha, c, c');
    assert Tokens(c') == Tokens(c);
    SameTokens(c, c');
    SameOrder(c, c');
  }

  /** An ACK takes the message it answers out of the table, and its token with it. */
  lemma AckKeepsConn(sha: Hash, c: Conn, f: Frame)
    requires ConnOk(sha, c) && ClientEnabled(c.client, c.down, Handle)
    requires c.client.received == Some(f) && f.kind == ACK
    ensures ConnOk(sha, ClientStep(sha, c, Handle))
  {
    var k := c.client.(received := None, stored := c.client.stored - {f.number});
    var c' := c.(client := k);
    assert ClientStep(sha, c, Handle) == c' by { assert c.up + [] == c.up; }
    hide Serials, JobsOk, JobOk, Awaiting, OrderOk, ClientStep;
    OnlyToken(c, f);
    AckTokens(c, c', f);
    hide TokensOk;
    SameFrames(sha, c, c');
    SameOrder(c, c');
  }

  lemma AckTokens(c: Conn, c': Conn, f: Frame)
    requires TokensOk(c) && c.client.alive && c.client.received == Some(f) && f.kind == ACK
    requires Answers(c.client, f) && Awaiting(c.client, f.serial) == 1
    requires c'.client == c.client.(received := None, stored := c.client.stored - {f.number})
    requires c'.up == c.up && c'.down == c.down && c'.thread == c.thread
    ensures TokensOk(c')
  {
    hide Serials;
    assert Tokens(c) == Tokens(c') + multiset{f.serial};
    hide Tokens;
    forall s: nat
      ensures Tokens(c')[s] == Awaiting(c'.client, s)
    {
      assert Tokens(c)[s] == Awaiting(c.client, s);
    }
  }

  /** A NACK sends the stored message, the very one it answers, round again. */
  lemma NackKeepsConn(sha: Hash, c: Conn, f: Frame)
    requires ConnOk(sha, c) && ClientEnabled(c.client, c.down, Handle)
    requires c.client.received == Some(f) && f.kind == NACK
    ensures ConnOk(sha, ClientStep(sha, c, Handle))
  {
    hide Serials, JobsOk, JobOk, TokensOk, OrderOk, ClientEnabled, Unanswered, ToBeSent, ClientStep;
    var k := c.client.(received := None);
    HandlesWhileAlive(c);
    NackedIsStored(sha, c, f);
    var g := c.client.stored[f.number];
    NackStep(sha, c, f);
    SendMessage(sha, c, k, g);
  }

  lemma HandlesWhileAlive(c: Conn)
    requires ClientEnabled(c.client, c.down, Handle)
    ensures c.client.alive
  {
  }

  lemma NackStep(sha: Hash, c: Conn, f: Frame)
    requires ClientEnabled(c.client, c.down, Handle) && c.client.received == Some(f) && f.kind == NACK
    requires f.number in c.client.stored
    ensures ClientStep(sha, c, Handle)
         == c.(client := c.client.(received := None), up := c.up + [c.client.stored[f.number]])
  {
  }

  /** What a NACK asks for is in the table, and nowhere on its way. */
  lemma NackedIsStored(sha: Hash, c: Conn, f: Frame)
    requires ConnOk(sha, c) && c.client.alive && c.client.received == Some(f) && f.kind == NACK
    ensures f.number in c.client.stored && IsSent(c.client, c.client.stored[f.number])
    ensures c.client.stored[f.number].serial == f.serial && c.client.stored[f.number].kind == MESSAGE
    ensures Reading(c.thread) ==> f.serial !in Unanswered(c) && f.serial !in c.thread.acked
  {
    hide Serials, JobsOk, JobOk, Unanswered;
    OnlyToken(c, f);
    assert ToBeSent(c, f.serial);
  }

  // ---- Steps of the server thread ----

  /** The thread moves on without touching a token, an acknowledgement or a dispatch. */
  lemma QuietThread(sha: Hash, c: Conn, t: Thread)
    requires ConnOk(sha, c) && JobsOk(t) && (Reading(t) ==> Reading(c.thread))
    requires t.acked == c.thread.acked && t.dispatched == c.thread.dispatched
    requires Owed(t) == Owed(c.thread) && Queued(t) == Queued(c.thread)
    requires forall j | j in t.jobs :: JobOk(sha, c.client, t.name, j)
    ensures ConnOk(sha, c.(thread := t))
  {
    var c' := c.(thread := t);
    hide Serials, JobsOk, JobOk, Awaiting, OrderOk, TokensOk, Owed, Queued;
    assert FramesOk(sha, c');
    assert Tokens(c') == Tokens(c) && Unanswered(c') == Unanswered(c);
    SameTokens(c, c');
    SameOrder(c, c');
  }

  /** A message accepted for dispatch has been handed to the shared table. */
  lemma RelayDone(sha: Hash, c: Conn, t: Thread)
    requires ConnOk(sha, c) && c.thread.phase == Serving && |c.thread.jobs| == 1 && IsRelay(c.thread.jobs[0])
    requires var f := c.thread.jobs[0].frame;
      t.dispatched == c.thread.dispatched + [Dispatch(f.serial, f.body)]
    requires t.acked == c.thread.acked && t.phase == Serving && JobsOk(t)
    requires Owed(t) == multiset{} && Queued(t) == []
    requires forall j | j in t.jobs :: JobOk(sha, c.client, t.name, j)
    ensures ConnOk(sha, c.(thread := t))
  {
    var c' := c.(thread := t);
    var j := c.thread.jobs[0];
    assert j in c.thread.jobs && JobOk(sha, c.client, c.thread.name, j);
    assert Owed(c.thread) == multiset{};
    assert DispatchedSerials(t.dispatched) == DispatchedSerials(c.thread.dispatched) + [j.frame.serial];
    hide Serials, JobsOk, JobOk, Awaiting, TokensOk, Owed, OrderOk, DispatchedSerials;
    assert FramesOk(sha, c');
    assert Tokens(c') == Tokens(c) && Unanswered(c') == Unanswered(c);
    SameTokens(c, c');
    DispatchCatchesUp(c, c');
  }

  lemma DispatchCatchesUp(c: Conn, c': Conn)
    requires OrderOk(c) && Reading(c.thread) && Unanswered(c') == Unanswered(c)
    requires c'.client == c.client && c'.down == c.down && c'.thread.acked == c.thread.acked
    requires Queued(c'.thread) == [] && Owed(c'.thread) == multiset{}
    requires DispatchedSerials(c'.thread.dispatched) == DispatchedSerials(c.thread.dispatched) + Queued(c.thread)
    ensures OrderOk(c')
  {
    hide Unanswered, Queued, DispatchedSerials, Distinct, Reading;
    assert forall s: nat :: ToBeSent(c', s) ==> ToBeSent(c, s);
  }

  /** `t` is what the thread becomes once its answer `f` has been sent. */
  ghost predicate AfterAnswer(c: Thread, t: Thread, f: Frame) {
    && c.jobs != [] && c.jobs[0] == SendTo(c.name, f, false) && f.IsAnswer()
    && t.phase == c.phase && t.name == c.name && t.jobs == c.jobs[1..] && t.hold == SharedDone
    && t.dispatched == c.dispatched
    && t.acked == c.acked + if f.kind == ACK then [f.serial] else []
  }

  lemma AfterAnswerJobs(sha: Hash, c: Conn, t: Thread, f: Frame)
    requires FramesOk(sha, c) && JobsOk(c.thread) && AfterAnswer(c.thread, t, f)
    ensures Owed(c.thread) == multiset{f.serial} && Owed(t) == multiset{}
    ensures Queued(c.thread) == []
    ensures Queued(t) == if f.kind == ACK && t.phase == Serving then [f.serial] else []
    ensures JobsOk(t) && Answers(c.client, f) && (c.thread.phase == Serving || !Reading(c.thread))
    ensures forall j | j in t.jobs :: JobOk(sha, c.client, t.name, j)
  {
    var jobs := c.thread.jobs;
    assert jobs[0] in jobs;
    assert JobOk(sha, c.client, c.thread.name, jobs[0]);
    if |jobs| == 2 {
      assert jobs[1] in jobs && JobOk(sha, c.client, c.thread.name, jobs[1]);
      assert t.jobs == [jobs[1]];
    } else {
      assert t.jobs == [];
    }
  }

  /** The answer a thread owes reaches its own client's channel. */
  lemma AnswerSent(sha: Hash, c: Conn, t: Thread, f: Frame)
    requires ConnOk(sha, c) && AfterAnswer(c.thread, t, f)
    ensures ConnOk(sha, c.(thread := t, down := c.down + [f]))
  {
    var c' := c.(thread := t, down := c.down + [f]);
    AfterAnswerJobs(sha, c, t, f);
    SerialsAppend(c.down, [f], true);
    SerialsOne(f, true);
    hide Serials, JobsOk, JobOk, Awaiting, OrderOk, Owed, TokensOk, Queued;
    assert FramesOk(sha, c');
    assert Tokens(c') == Tokens(c);
    SameTokens(c, c');
    AnswerOrder(c, c', f);
  }

  lemma AnswerOrder(c: Conn, c': Conn, f: Frame)
    requires OrderOk(c) && TokensOk(c) && AfterAnswer(c.thread, c'.thread, f)
    requires Owed(c.thread) == multiset{f.serial} && Owed(c'.thread) == multiset{}
    requires Queued(c.thread) == []
    requires Queued(c'.thread) == if f.kind == ACK && c.thread.phase == Serving then [f.serial] else []
    requires c.thread.phase == Serving || !Reading(c.thread)
    requires c.client.pending.Some? ==> c.client.pending.value.kind == MESSAGE
    requires c'.client == c.client && c'.up == c.up && c'.down == c.down + [f]
    ensures OrderOk(c')
  {
    var t, t' := c.thread, c'.thread;
    assert f.serial in Owed(t) && f.serial !in t.acked;
    assert Unanswered(c) == Unanswered(c') + multiset{f.serial};
    forall s: nat | Engaged(c') && ToBeSent(c', s)
      ensures s !in t'.acked
    {
      if f.kind == ACK {
        AckEndsSending(c, c', f, s);
      } else {
        assert s == f.serial || ToBeSent(c, s);
      }
    }
    hide Unanswered, Queued, Owed, DispatchedSerials, TokensOk, ToBeSent;
    if Reading(t') {
      forall s: nat
        ensures Unanswered(c')[s] <= 1 && (s in Unanswered(c') ==> s !in t'.acked)
      {
        assert Unanswered(c)[s] == Unanswered(c')[s] + multiset{f.serial}[s];
        assert Unanswered(c)[s] <= 1;
      }
    }
  }

  /** A message whose ACK is just being sent is not also on its way to be sent again. */
  lemma AckEndsSending(c: Conn, c': Conn, f: Frame, s: nat)
    requires OrderOk(c) && TokensOk(c) && Owed(c.thread) == multiset{f.serial} && f.kind == ACK
    requires c'.client == c.client && c'.up == c.up && c'.down == c.down + [f]
    requires Engaged(c') && Engaged(c) && ToBeSent(c', s)
    requires c.client.pending.Some? ==> c.client.pending.value.kind == MESSAGE
    ensures s != f.serial && s !in c.thread.acked
  {
    assert ToBeSent(c, s);
    if s == f.serial {
      assert Tokens(c)[s] == Awaiting(c.client, s);
      if f' :| f' in c.down && f'.kind == NACK && f'.serial == s {
        SerialsMember(c.down, f', true);
      }
    }
  }

  lemma PopQuiet(sha: Hash, c: Conn)
    requires ConnOk(sha, c) && c.up != [] && c.up[0].kind != MESSAGE
    ensures ConnOk(sha, c.(up := c.up[1..]))
  {
    var c' := c.(up := c.up[1..]);
    assert Serials(c.up, false) == Serials(c.up[1..], false);
    hide Serials, JobsOk, JobOk, Awaiting, OrderOk, TokensOk;
    SameFrames(sha, c, c');
    assert Tokens(c') == Tokens(c);
    SameTokens(c, c');
    SameOrder(c, c');
  }

  /** Reading a MESSAGE: its token moves from the channel to the answer the thread owes. */
  lemma TakeMessage(sha: Hash, c: Conn, t: Thread)
    requires ConnOk(sha, c) && c.up != [] && c.up[0].kind == MESSAGE
    requires c.thread.phase == Serving && c.thread.jobs == []
    requires t.acked == c.thread.acked && t.dispatched == c.thread.dispatched && JobsOk(t)
    requires Owed(t) == multiset{c.up[0].serial} && Queued(t) == []
    requires t.phase == Serving || t.phase == Leaving
    requires forall j | j in t.jobs :: JobOk(sha, c.client, t.name, j)
    ensures ConnOk(sha, c.(up := c.up[1..], thread := t))
  {
    var c' := c.(up := c.up[1..], thread := t);
    var s := c.up[0].serial;
    assert Serials(c.up, false) == multiset{s} + Serials(c.up[1..], false);
    assert Owed(c.thread) == multiset{} && Queued(c.thread) == [];
    hide Serials, JobsOk, JobOk, Awaiting, TokensOk, Owed, Queued, OrderOk;
    assert FramesOk(sha, c');
    assert Tokens(c') == Tokens(c);
    SameTokens(c, c');
    assert Unanswered(c') == Unanswered(c);
    TakeOrder(c, c', s);
  }

  lemma TakeOrder(c: Conn, c': Conn, s: nat)
    requires OrderOk(c) && Reading(c.thread) && Unanswered(c') == Unanswered(c) && s in Unanswered(c)
    requires c'.thread.acked == c.thread.acked && c'.thread.dispatched == c.thread.dispatched
    requires Queued(c.thread) == [] && Queued(c'.thread) == [] && Owed(c'.thread) == multiset{s}
    requires c'.client == c.client && c'.down == c.down
    ensures OrderOk(c')
  {
    hide Unanswered, Queued, Owed, DispatchedSerials, Distinct, Reading;
    assert forall x: nat :: ToBeSent(c', x) ==> ToBeSent(c, x);
  }

  lemma ReadKeepsConn(sha: Hash, c: Conn, received: Bytes)
    requires ConnOk(sha, c) && c.up != []
    requires c.thread.phase == Serving && c.thread.hold == Free && c.thread.jobs == []
    ensures ConnOk(sha, c.(up := c.up[1..], thread := OnFrame(sha, c.thread, c.up[0], received)))
  {
    hide ConnOk, OnFrame;
    if c.up[0].kind == MESSAGE {
      ReadMessage(sha, c, received);
    } else {
      ReadOther(sha, c, received);
    }
  }

  lemma ReadMessage(sha: Hash, c: Conn, received: Bytes)
    requires ConnOk(sha, c) && c.up != [] && c.up[0].kind == MESSAGE
    requires c.thread.phase == Serving && c.thread.hold == Free && c.thread.jobs == []
    ensures ConnOk(sha, c.(up := c.up[1..], thread := OnFrame(sha, c.thread, c.up[0], received)))
  {
    hide Serials, TokensOk, OrderOk;
    var f := c.up[0];
    var t := OnFrame(sha, c.thread, f, received);
    assert f in c.up && IsSent(c.client, f);
    assert forall j | j in t.jobs :: JobOk(sha, c.client, t.name, j);
    TakeMessage(sha, c, t);
  }

  lemma ReadOther(sha: Hash, c: Conn, received: Bytes)
    requires ConnOk(sha, c) && c.up != [] && c.up[0].kind != MESSAGE
    requires c.thread.phase == Serving && c.thread.hold == Free && c.thread.jobs == []
    ensures ConnOk(sha, c.(up := c.up[1..], thread := OnFrame(sha, c.thread, c.up[0], received)))
  {
    hide Serials, TokensOk, OrderOk, FramesOk;
    PopQuiet(sha, c);
    QuietThread(sha, c.(up := c.up[1..]), OnFrame(sha, c.thread, c.up[0], received));
  }

  /** Logging in: the thread learns its client's name. */
  lemma LoginKeepsConn(sha: Hash, c: Conn)
    requires ConnOk(sha, c) && c.up != [] && c.up[0].kind == LOGIN && c.thread.phase == AwaitingLogin
    ensures ConnOk(sha, c.(up := c.up[1..], thread := c.thread.(phase := Registering, name := c.up[0].source)))
  {
    PopQuiet(sha, c);
    QuietThread(sha, c.(up := c.up[1..]), c.thread.(phase := Registering, name := c.up[0].source));
  }

  lemma NewConnOk(sha: Hash, id: nat, name: Name)
    ensures ConnOk(sha, NewConn(id, name))
  {
    var c := NewConn(id, name);
    assert Tokens(c) == multiset{} && Unanswered(c) == multiset{};
  }
}
