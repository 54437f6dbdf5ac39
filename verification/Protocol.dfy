/**
 The messaging system as a transition system: any number of connections, each with a C++ client
 (a sending and a receiving thread), a FIFO channel each way and a server thread; one table of
 logged-in users behind one read-write lock. Every step below is one indivisible action of one
 thread; threads interleave arbitrarily.

 Frames are read and written whole and headers arrive intact. The body the server reads may be
 any bytes of the length that was sent. A file descriptor may be used again once it is closed.
 */
module Protocol {
  import opened Words
  import opened HeaderLayout
  import opened Options
  import UserList

  type Fd = nat
  type Name = Bytes

  const ALL: Name := ['a' as int, 'l' as int, 'l' as int]
  const SERVER: Name := ['s' as int, 'e' as int, 'r' as int, 'v' as int, 'e' as int, 'r' as int]

  datatype Kind = LOGIN | ERROR | WHO | ACK | MESSAGE | DISCONNECT | NACK

  /**
   A header and its body. `serial` is not on the wire: it records which of the sender's MESSAGEs a
   frame carries or answers, so that re-used packet numbers can be told apart in statements.
   */
  datatype Frame = Frame(
    kind: Kind, number: uint16, source: Name, dest: Name, body: Bytes, checksum: Bytes, serial: nat)
  {
    predicate IsAnswer() { kind == ACK || kind == NACK }
  }

  function Plain(kind: Kind, number: uint16, source: Name, dest: Name, body: Bytes): Frame {
    Frame(kind, number, source, dest, body, [], 0)
  }

  // ---- The client ----

  /** Before the login; waiting for a line; carrying out a command; between DISCONNECT and the exit. */
  datatype Sender = Greeting | Prompting | Commanding | Quitting

  /**
   `stored` is `client_messages`; `pending` is a message stored but not yet handed to `send`;
   `received` is a header read but not yet acted upon. `sent` lists all messages ever stored.
   `alive` says that the process exists, `running` is `is_running`: the receiver stops as soon as it
   is false, the sender looks at it only after it has read a line. A header the receiver drops because
   `running` has become false just stays in `received`.
   */
  datatype Client = Client(
    alive: bool, running: bool, sender: Sender, name: Name, packetNumber: uint16, stored: map<uint16, Frame>,
    pending: Option<Frame>, received: Option<Frame>, sent: seq<Frame>)

  function NewClient(name: Name): Client {
    Client(true, true, Greeting, name, 0, map[], None, None, [])
  }

  /** `packet_number++` on a `uint16_t`. */
  function Increment(n: uint16): uint16 {
    (n + 1) % TWO_16
  }

  function NewMessage(sha: Hash, c: Client, dest: Name, body: Bytes): Frame {
    Frame(MESSAGE, c.packetNumber, c.name, dest, body, sha(body), |c.sent|)
  }

  datatype ClientAction =
    | Login | ReadLine | Who | Store(dest: Name, body: Bytes) | Transmit | Disconnect | Stop | Exit | Receive | Handle

  /** What one client step does: the client afterwards, and the frames it sends. */
  datatype Effect = Effect(client: Client, send: seq<Frame>)

  predicate ClientEnabled(c: Client, down: seq<Frame>, a: ClientAction) {
    && c.alive
    && match a
       case Login => c.sender == Greeting
       case ReadLine => c.sender == Prompting && c.running
       case Who => c.sender == Commanding && c.pending == None
       case Store(_, _) => c.sender == Commanding && c.pending == None
       case Transmit => c.pending != None
       case Disconnect => c.sender == Commanding && c.pending == None
       case Stop => c.sender == Quitting
       case Exit => true
       case Receive => c.running && c.received == None && down != []
       case Handle => c.received != None
  }

  function ClientEffect(sha: Hash, c: Client, down: seq<Frame>, a: ClientAction): Effect
    requires ClientEnabled(c, down, a)
  {
    match a
    case Login =>
      Effect(c.(sender := Prompting, packetNumber := Increment(c.packetNumber)),
             [Plain(LOGIN, c.packetNumber, c.name, SERVER, [])])
    case ReadLine => Effect(c.(sender := Commanding), [])
    case Who =>
      Effect(c.(sender := Prompting, packetNumber := Increment(c.packetNumber)),
             [Plain(WHO, c.packetNumber, c.name, SERVER, [])])
    case Store(dest, body) => Effect(StoreMessage(c, NewMessage(sha, c, dest, body)), [])
    case Transmit =>
      Effect(c.(pending := None, sender := Prompting, packetNumber := Increment(c.packetNumber)), [c.pending.value])
    case Disconnect =>
      Effect(c.(sender := Quitting, packetNumber := Increment(c.packetNumber)),
             [Plain(DISCONNECT, c.packetNumber, c.name, SERVER, [])])
    case Stop => Effect(c.(running := false), [])
    case Exit => Effect(CleanUp(c), [])
    case Receive => Effect(c.(received := Some(down[0])), [])
    case Handle => OnReceived(c.(received := None), c.received.value)
  }

  /** `cleanup_on_exit`: the end of both threads. */
  function CleanUp(c: Client): Client {
    c.(alive := false, running := false)
  }

  /** The sender's critical section: a packet number still in use makes the client give up. */
  function StoreMessage(c: Client, f: Frame): Client {
    if f.number in c.stored then CleanUp(c)
    else c.(stored := c.stored[f.number := f], pending := Some(f), sent := c.sent + [f])
  }

  /** The receiver's reaction to a frame from the server. */
  function OnReceived(c: Client, f: Frame): Effect {
    match f.kind
    case ACK => Effect(c.(stored := c.stored - {f.number}), [])
    case NACK =>
      if f.number in c.stored then Effect(c, [c.stored[f.number]])
      else Effect(c.(running := false), [])
    case DISCONNECT => Effect(c.(running := false), [])
    case _ => Effect(c, [])
  }

  // ---- The server thread of one connection ----

  /** A call into the shared table that the thread has still to make. */
  datatype Job =
    | SendTo(dest: Name, frame: Frame, relay: bool)
    | ToAll(frame: Frame, relay: bool)
    | ListUsers

  datatype Phase = AwaitingLogin | Registering | Replying | Rejected | Serving | Leaving | Closing

  /** The read-write lock as one thread sees it; `left` are the users a broadcast has still to visit. */
  datatype Hold = Free | Shared(left: set<Name>) | SharedDone | Exclusive | ExclusiveDone

  /** `acked` and `dispatched` record the messages acknowledged and passed on, in order. */
  datatype Thread = Thread(
    phase: Phase, name: Name, packetNumber: uint16, jobs: seq<Job>, hold: Hold, broadcast: nat,
    acked: seq<nat>, dispatched: seq<Dispatch>)

  datatype Dispatch = Dispatch(serial: nat, body: Bytes)

  const NEW_THREAD: Thread := Thread(AwaitingLogin, [], 1, [], Free, 0, [], [])

  /** `increment_packet_number`: the server never uses 65535. */
  function IncrementServer(n: uint16): uint16 {
    (n + 1) % 65535
  }

  /** `send_verification_message`: the answer carries the number of the frame it answers. */
  function Answer(kind: Kind, f: Frame, name: Name): Frame {
    Frame(kind, f.number, [], name, [], [], f.serial)
  }

  /** `send_error_message` to the thread's own client. */
  function ReportError(t: Thread, text: Bytes): (r: Thread)
    ensures r.phase == t.phase && r.name == t.name && r.hold == t.hold
  {
    var n := IncrementServer(t.packetNumber);
    t.(packetNumber := n, jobs := [SendTo(t.name, Plain(ERROR, n, [], t.name, text), false)] + t.jobs)
  }

  /** A notice from the server to everybody else. */
  function Announce(t: Thread, text: Bytes): (r: Thread)
    ensures r.phase == t.phase && r.name == t.name && r.hold == t.hold
  {
    var n := IncrementServer(t.packetNumber);
    t.(packetNumber := n, jobs := [ToAll(Plain(MESSAGE, n, SERVER, ALL, text), false)])
  }

  /** The main loop's reaction to one frame, whose body was read as `received`. */
  function OnFrame(sha: Hash, t: Thread, f: Frame, received: Bytes): (r: Thread)
    ensures r.name == t.name && r.hold == t.hold && (r.phase == t.phase || r.phase == Leaving)
  {
    match f.kind
    case LOGIN => ReportError(t, [])
    case WHO => t.(jobs := [ListUsers])
    case MESSAGE =>
      if sha(received) != f.checksum then
        t.(jobs := [SendTo(t.name, Answer(NACK, f, t.name), false)])
      else if received == [] then
        t.(jobs := [SendTo(t.name, Answer(ACK, f, t.name), false)], phase := Leaving)
      else
        t.(jobs := [SendTo(t.name, Answer(ACK, f, t.name), false), RelayJob(f.(body := received))])
    case DISCONNECT => Announce(t, []).(phase := Leaving)
    case _ => t
  }

  function RelayJob(f: Frame): Job {
    if f.dest == ALL then ToAll(f, true) else SendTo(f.dest, f, true)
  }

  /** The first job is done, successfully or not. */
  function JobDone(t: Thread, success: bool): (r: Thread)
    requires t.jobs != []
    ensures r.phase == t.phase && r.name == t.name && r.hold == SharedDone
  {
    var job := t.jobs[0];
    var t1 := t.(jobs := t.jobs[1..], hold := SharedDone);
    match job
    case SendTo(_, f, relay) =>
      if relay then
        var t2 := t1.(dispatched := t.dispatched + [Dispatch(f.serial, f.body)]);
        if success then t2 else ReportError(t2, [])
      else if f.kind == ACK then t1.(acked := t.acked + [f.serial])
      else t1
    case ToAll(f, relay) => if relay then t1.(dispatched := t.dispatched + [Dispatch(f.serial, f.body)]) else t1
    case ListUsers => t1
  }

  // ---- The whole system ----

  /** A frame appended to a channel on behalf of a broadcast. */
  datatype Hearing = Hearing(broadcast: nat, frame: Frame)

  /** A frame of a client passed on to another, with the id of the connection it came from. */
  datatype Receipt = Receipt(sender: nat, frame: Frame)

  /**
   `heard` collects the frames appended to `down` on behalf of broadcasts, `got` those that were
   messages of clients.
   */
  datatype Conn = Conn(
    id: nat, client: Client, up: seq<Frame>, down: seq<Frame>, heard: multiset<Hearing>, got: multiset<Receipt>,
    thread: Thread)

  function NewConn(id: nat, name: Name): Conn {
    Conn(id, NewClient(name), [], [], multiset{}, multiset{}, NEW_THREAD)
  }

  /** What a frame is sent for: a broadcast, a message from the connection with id `sender`, both or neither. */
  datatype Cause = Cause(broadcast: Option<nat>, sender: Option<nat>)

  /**
   A record of a broadcast: who sent it, and which frame; the table and the connections (those with
   an id below `bound`) there were when it got its lock; and the users it has still to visit.
   */
  datatype Started = Started(sender: Name, frame: Frame, table: map<Name, Fd>, bound: nat, left: set<Name>)

  function Visited(bs: seq<Started>, i: nat, user: Name): (r: seq<Started>)
    ensures |r| == |bs|
  {
    if i < |bs| then bs[i := bs[i].(left := bs[i].left - {user})] else bs
  }

  /** `leaked` are the users whose thread closed its socket without logging them out. */
  datatype World = World(
    conns: map<Fd, Conn>, table: map<Name, Fd>, readers: set<Fd>, writer: Option<Fd>,
    leaked: set<Name>, nextId: nat, broadcasts: seq<Started>)

  const INITIAL: World := World(map[], map[], {}, None, {}, 0, [])

  function SetThread(w: World, fd: Fd, t: Thread): World
    requires fd in w.conns
  {
    w.(conns := w.conns[fd := w.conns[fd].(thread := t)])
  }

  function CloseSocket(w: World, fd: Fd): World {
    w.(conns := w.conns - {fd})
  }

  /** `send` on a descriptor: lost if the socket is closed. */
  function Deliver(conns: map<Fd, Conn>, fd: Fd, f: Frame, cause: Cause): map<Fd, Conn> {
    if fd in conns then
      var c := conns[fd];
      conns[fd := c.(down := c.down + [f], heard := c.heard + Heard(cause, f), got := c.got + Got(cause, f))]
    else conns
  }

  function Heard(cause: Cause, f: Frame): multiset<Hearing> {
    if cause.broadcast.Some? then multiset{Hearing(cause.broadcast.value, f)} else multiset{}
  }

  function Got(cause: Cause, f: Frame): multiset<Receipt> {
    if cause.sender.Some? then multiset{Receipt(cause.sender.value, f)} else multiset{}
  }

  /** What the first job of a connection's thread sends its frame for. */
  function CauseOf(c: Conn): Cause
    requires c.thread.jobs != [] && !c.thread.jobs[0].ListUsers?
  {
    var job := c.thread.jobs[0];
    Cause(if job.ToAll? then Some(c.thread.broadcast) else None, if job.relay then Some(c.id) else None)
  }

  datatype Action =
    | Accept(fd: Fd, name: Name)
    | ClientAct(fd: Fd, act: ClientAction)
    | ReadLogin(fd: Fd)
    | AcquireWrite(fd: Fd)
    | Register(fd: Fd)
    | LogOut(fd: Fd)
    | ReleaseWrite(fd: Fd)
    | Reply(fd: Fd)
    | ReplyFails(fd: Fd)
    | Reject(fd: Fd)
    | ReadFrame(fd: Fd, received: Bytes)
    | ReadFails(fd: Fd)
    | AcquireRead(fd: Fd)
    | Visit(fd: Fd, user: Name)
    | FinishBroadcast(fd: Fd)
    | Send(fd: Fd)
    | List(fd: Fd, order: seq<Name>)
    | ReleaseRead(fd: Fd)
    | Close(fd: Fd)

  predicate Enabled(w: World, a: Action) {
    if a.Accept? then a.fd !in w.conns
    else a.fd in w.conns && EnabledFor(w, w.conns[a.fd], w.conns[a.fd].thread, a)
  }

  predicate EnabledFor(w: World, c: Conn, t: Thread, a: Action) {
    match a
    case Accept(_, _) => false
    case ClientAct(_, act) => ClientEnabled(c.client, c.down, act)
    case ReadLogin(_) => t.phase == AwaitingLogin && c.up != []
    case AcquireWrite(_) =>
      && t.hold == Free && (t.phase == Registering || (t.phase == Leaving && t.jobs == []))
      && w.readers == {} && w.writer == None
    case Register(_) => t.phase == Registering && t.hold == Exclusive
    case LogOut(_) => t.phase == Leaving && t.hold == Exclusive
    case ReleaseWrite(_) => t.hold == ExclusiveDone
    case Reply(_) => t.phase == Replying && t.hold == Free
    case ReplyFails(_) => t.phase == Replying && t.hold == Free
    case Reject(_) => t.phase == Rejected && t.hold == Free
    case ReadFrame(_, received) =>
      && t.phase == Serving && t.hold == Free && t.jobs == [] && c.up != []
      && |received| == |c.up[0].body|
    case ReadFails(_) => t.hold == Free && t.jobs == [] && (t.phase == AwaitingLogin || t.phase == Serving)
    case AcquireRead(_) => t.hold == Free && t.jobs != [] && w.writer == None
    case Visit(_, user) => t.hold.Shared? && t.jobs != [] && t.jobs[0].ToAll? && user in t.hold.left
    case FinishBroadcast(_) => t.jobs != [] && t.jobs[0].ToAll? && t.hold == Shared({})
    case Send(_) => t.hold.Shared? && t.jobs != [] && t.jobs[0].SendTo?
    case List(_, order) =>
      t.hold.Shared? && t.jobs == [ListUsers] && multiset(order) == multiset(w.table.Keys)
    case ReleaseRead(_) => t.hold == SharedDone
    case Close(_) => t.phase == Closing && t.hold == Free
  }

  /** Steps that take or give back the lock, or use it for writing. */
  predicate UsesLock(a: Action) {
    a.AcquireWrite? || a.Register? || a.LogOut? || a.ReleaseWrite? || a.AcquireRead? || a.ReleaseRead?
  }

  /** Steps of a job, under the lock for reading. */
  predicate DoesJob(a: Action) {
    a.Visit? || a.FinishBroadcast? || a.Send? || a.List?
  }

  function Step(sha: Hash, w: World, a: Action): World
    requires Enabled(w, a)
  {
    if UsesLock(a) then LockStep(w, a) else if DoesJob(a) then JobStep(w, a) else SessionStep(sha, w, a)
  }

  function SessionStep(sha: Hash, w: World, a: Action): World
    requires Enabled(w, a) && !UsesLock(a) && !DoesJob(a)
  {
    match a
    case Accept(fd, name) =>
      w.(conns := w.conns[fd := NewConn(w.nextId, name)],
         nextId := w.nextId + 1)
    case ClientAct(fd, act) =>
      var c := w.conns[fd];
      w.(conns := w.conns[fd := ClientStep(sha, c, act)])
    case ReadLogin(fd) =>
      var c := w.conns[fd];
      if c.up[0].kind == LOGIN then
        w.(conns := w.conns[fd := c.(up := c.up[1..],
                                     thread := c.thread.(phase := Registering, name := c.up[0].source))])
      else CloseSocket(w, fd)
    case Reply(fd) =>
      var c := w.conns[fd];
      var reply := Plain(LOGIN, c.thread.packetNumber, [], c.thread.name, []);
      w.(conns := w.conns[fd := c.(down := c.down + [reply], thread := Announce(c.thread, []).(phase := Serving))])
    case ReplyFails(fd) =>
      CloseSocket(w, fd).(leaked := w.leaked + {w.conns[fd].thread.name})
    case Reject(fd) => CloseSocket(w, fd)
    case ReadFrame(fd, received) =>
      var c := w.conns[fd];
      w.(conns := w.conns[fd := c.(up := c.up[1..], thread := OnFrame(sha, c.thread, c.up[0], received))])
    case ReadFails(fd) =>
      if w.conns[fd].thread.phase == AwaitingLogin then CloseSocket(w, fd)
      else SetThread(w, fd, w.conns[fd].thread.(phase := Leaving))
    case Close(fd) => CloseSocket(w, fd)
  }

  function LockStep(w: World, a: Action): World
    requires Enabled(w, a) && UsesLock(a)
  {
    match a
    case AcquireWrite(fd) =>
      SetThread(w, fd, w.conns[fd].thread.(hold := Exclusive)).(writer := Some(fd))
    case Register(fd) =>
      var t := w.conns[fd].thread;
      if t.name in w.table then SetThread(w, fd, t.(phase := Rejected, hold := ExclusiveDone))
      else SetThread(w, fd, t.(phase := Replying, hold := ExclusiveDone)).(table := w.table[t.name := fd])
    case LogOut(fd) =>
      var t := w.conns[fd].thread;
      SetThread(w, fd, t.(phase := Closing, hold := ExclusiveDone)).(table := w.table - {t.name})
    case ReleaseWrite(fd) =>
      SetThread(w, fd, w.conns[fd].thread.(hold := Free)).(writer := None)
    case AcquireRead(fd) =>
      var t := w.conns[fd].thread;
      var w1 := w.(readers := w.readers + {fd});
      if t.jobs[0].ToAll? then
        SetThread(w1, fd, t.(hold := Shared(w.table.Keys), broadcast := |w.broadcasts|))
          .(broadcasts := w.broadcasts + [Started(t.name, t.jobs[0].frame, w.table, w.nextId, w.table.Keys)])
      else SetThread(w1, fd, t.(hold := Shared({})))
    case ReleaseRead(fd) =>
      SetThread(w, fd, w.conns[fd].thread.(hold := Free)).(readers := w.readers - {fd})
  }

  function JobStep(w: World, a: Action): World
    requires Enabled(w, a) && DoesJob(a)
  {
    match a
    case Visit(fd, user) =>
      var t := w.conns[fd].thread;
      var w1 := SetThread(w, fd, t.(hold := Shared(t.hold.left - {user})))
        .(broadcasts := Visited(w.broadcasts, t.broadcast, user));
      if user == t.name || user !in w.table then w1
      else w1.(conns := Deliver(w1.conns, w.table[user], t.jobs[0].frame, CauseOf(w.conns[fd])))
    case FinishBroadcast(fd) => SetThread(w, fd, JobDone(w.conns[fd].thread, true))
    case Send(fd) =>
      var t := w.conns[fd].thread;
      var job := t.jobs[0];
      var success := job.dest in w.table && w.table[job.dest] in w.conns;
      var w1 := SetThread(w, fd, JobDone(t, success));
      if success then w1.(conns := Deliver(w1.conns, w.table[job.dest], job.frame, CauseOf(w.conns[fd]))) else w1
    case List(fd, order) =>
      var t := w.conns[fd].thread;
      var n := IncrementServer(t.packetNumber);
      var reply := SendTo(t.name, Plain(WHO, n, SERVER, t.name, UserList.Listing(order)), false);
      SetThread(w, fd, t.(packetNumber := n, jobs := [reply], hold := SharedDone))
  }

  function ClientStep(sha: Hash, c: Conn, act: ClientAction): (r: Conn)
    requires ClientEnabled(c.client, c.down, act)
    ensures r.thread == c.thread && r.id == c.id && r.heard == c.heard && r.got == c.got
  {
    var e := ClientEffect(sha, c.client, c.down, act);
    c.(client := e.client, up := c.up + e.send, down := if act == Receive then c.down[1..] else c.down)
  }

  /** A run: worlds connected by enabled actions, from the initial world. */
  ghost predicate IsRun(sha: Hash, run: seq<World>, actions: seq<Action>) {
    && |run| == |actions| + 1
    && run[0] == INITIAL
    && forall i | 0 <= i < |actions| :: Enabled(run[i], actions[i]) && run[i + 1] == Step(sha, run[i], actions[i])
  }
}
