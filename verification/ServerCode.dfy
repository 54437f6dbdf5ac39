/**
 The server's classes as sequential code: what each method does when no other thread interferes,
 in terms of the same jobs and frames the transition system is made of.
 */
module ServerCode {
  import opened Words
  import opened HeaderLayout
  import opened Options
  import opened Protocol
  import opened Broadcasts
  import UserList
  import Fips180

  /** The open sockets and everything sent to each. */
  type Sockets = map<Fd, seq<Frame>>

  function Append(sockets: Sockets, fd: Fd, f: Frame): (r: Sockets)
    ensures r.Keys == sockets.Keys
  {
    if fd in sockets then sockets[fd := sockets[fd] + [f]] else sockets
  }

  function Copies(f: Frame, n: nat): (s: seq<Frame>)
    ensures |s| == n && forall i | 0 <= i < n :: s[i] == f
  {
    if n == 0 then [] else Copies(f, n - 1) + [f]
  }

  /** `f` appended to every socket once for each of `names` that leads to it. */
  function AppendForAll(sockets: Sockets, table: map<Name, Fd>, names: set<Name>, f: Frame): (r: Sockets)
    ensures r.Keys == sockets.Keys
  {
    map fd | fd in sockets :: sockets[fd] + Copies(f, Times(table, names, fd))
  }

  lemma AppendOneMore(sockets: Sockets, table: map<Name, Fd>, names: set<Name>, u: Name, f: Frame)
    requires u !in names && u in table
    ensures AppendForAll(sockets, table, names + {u}, f) == Append(AppendForAll(sockets, table, names, f), table[u], f)
  {
    var all := AppendForAll(sockets, table, names, f);
    forall fd | fd in sockets
      ensures AppendForAll(sockets, table, names + {u}, f)[fd] == Append(all, table[u], f)[fd]
    {
      TimesOneMore(table, names, u, fd);
    }
  }

  lemma AppendForNobody(sockets: Sockets, table: map<Name, Fd>, f: Frame)
    ensures AppendForAll(sockets, table, {}, f) == sockets
  {
    forall fd | fd in sockets
      ensures AppendForAll(sockets, table, {}, f)[fd] == sockets[fd]
    {
      TimesNone(table, fd);
    }
  }

  /** The same in terms of the table's entries. */
  lemma EverybodyElse(sockets: Sockets, table: map<Name, Fd>, name: Name, f: Frame)
    ensures var r := AppendForAll(sockets, table, table.Keys - {name}, f);
      r.Keys == sockets.Keys && forall fd | fd in sockets ::
        var users := set u | u in table && u != name && table[u] == fd;
        r[fd] == sockets[fd] + Copies(f, |users|)
  {
    hide Copies;
    forall fd | fd in sockets
      ensures (set u | u in table && u != name && table[u] == fd)
           == (set u | u in table.Keys - {name} && u in table && table[u] == fd)
    {
    }
  }

  predicate Reachable(sockets: Sockets, table: map<Name, Fd>, u: Name) {
    u in table && table[u] in sockets
  }

  lemma Found(sockets: Sockets, table: map<Name, Fd>, u: Name)
    requires u in table
    ensures Reachable(sockets, table, u) <==> table[u] in sockets
  {
  }

  lemma AllReached(sockets: Sockets, table: map<Name, Fd>, name: Name)
    ensures (forall u | u in table.Keys - {name} :: Reachable(sockets, table, u))
       <==> (forall u | u in table && u != name :: table[u] in sockets)
  {
    assert forall u | u in table && u != name :: Reachable(sockets, table, u) == (table[u] in sockets);
  }

  class SharedClients {
    var clientObjects: map<Name, Fd>
    var sockets: Sockets
    var readers: nat
    var writing: bool

    constructor ()
      ensures clientObjects == map[] && sockets == map[] && readers == 0 && !writing
    {
      clientObjects, sockets, readers, writing := map[], map[], 0, false;
    }

    /** `send` on a descriptor. */
    method SendOn(fd: Fd, f: Frame) returns (ok: bool)
      modifies this`sockets
      ensures ok == (fd in sockets) && sockets == Append(old(sockets), fd, f)
    {
      ok := fd in sockets;
      if ok {
        sockets := sockets[fd := sockets[fd] + [f]];
      }
    }

    method CloseSocket(fd: Fd)
      modifies this`sockets
      ensures sockets == old(sockets) - {fd}
    {
      sockets := sockets - {fd};
    }

    method SendToClient(destUsername: Name, message: Frame) returns (sendSuccess: bool)
      requires !writing
      modifies this
      ensures sendSuccess == (destUsername in clientObjects && clientObjects[destUsername] in old(sockets))
      ensures sockets.Keys == old(sockets).Keys && forall fd | fd in sockets ::
        sockets[fd] == old(sockets)[fd]
                       + if destUsername in clientObjects && clientObjects[destUsername] == fd then [message] else []
      ensures sockets ==
        if sendSuccess then Append(old(sockets), clientObjects[destUsername], message) else old(sockets)
      ensures clientObjects == old(clientObjects) && readers == old(readers) && !writing
    {
      readers := readers + 1;
      sendSuccess := true;
      if destUsername in clientObjects {
        var ok := SendOn(clientObjects[destUsername], message);
        if !ok {
          sendSuccess := false;
        }
      } else {
        sendSuccess := false;
      }
      readers := readers - 1;
    }

    method SendToAll(senderUsername: Name, message: Frame) returns (sendSuccess: bool)
      requires !writing
      modifies this
      ensures sockets == AppendForAll(old(sockets), clientObjects, clientObjects.Keys - {senderUsername}, message)
      ensures sockets.Keys == old(sockets).Keys && forall fd | fd in sockets ::
        var users := set u | u in clientObjects && u != senderUsername && clientObjects[u] == fd;
        sockets[fd] == old(sockets)[fd] + Copies(message, |users|)
      ensures sendSuccess ==
        forall u | u in clientObjects && u != senderUsername :: clientObjects[u] in old(sockets)
      ensures clientObjects == old(clientObjects) && readers == old(readers) && !writing
    {
      hide AppendForAll, Append, Times, Copies, Reachable;
      readers := readers + 1;
      sendSuccess := true;
      var left := clientObjects.Keys;
      ghost var served: set<Name> := {};
      AppendForNobody(sockets, clientObjects, message);
      while left != {}
        invariant left <= clientObjects.Keys && served == clientObjects.Keys - left - {senderUsername}
        invariant sockets == AppendForAll(old(sockets), clientObjects, served, message)
        invariant sendSuccess == forall u | u in served :: Reachable(old(sockets), clientObjects, u)
        invariant clientObjects == old(clientObjects) && readers == old(readers) + 1 && !writing
        decreases left
      {
        var user :| user in left;
        left := left - {user};
        if user != senderUsername {
          AppendOneMore(old(sockets), clientObjects, served, user, message);
          served := served + {user};
          Found(old(sockets), clientObjects, user);
          var ok := SendOn(clientObjects[user], message);
          if !ok {
            sendSuccess := false;
          }
        }
      }
      assert served == clientObjects.Keys - {senderUsername};
      EverybodyElse(old(sockets), clientObjects, senderUsername, message);
      AllReached(old(sockets), clientObjects, senderUsername);
      readers := readers - 1;
    }

    /** The names in whatever order the table is walked. */
    method GetLoggedInUsers() returns (usernames: Bytes, ghost order: seq<Name>)
      requires !writing
      modifies this`readers
      ensures multiset(order) == multiset(clientObjects.Keys) && usernames == UserList.Listing(order)
      ensures readers == old(readers)
    {
      readers := readers + 1;
      usernames, order := [], [];
      var left := clientObjects.Keys;
      while left != {}
        invariant left <= clientObjects.Keys
        invariant multiset(order) == multiset(clientObjects.Keys - left)
        invariant usernames == UserList.Joined(order)
        invariant readers == old(readers) + 1
        decreases left
      {
        var user :| user in left;
        left := left - {user};
        assert clientObjects.Keys - left == clientObjects.Keys - (left + {user}) + {user};
        UserList.JoinedAppend(order, user);
        usernames := usernames + user + [UserList.COMMA, UserList.SPACE];
        order := order + [user];
      }
      assert clientObjects.Keys - left == clientObjects.Keys;
      usernames := usernames + [0];
      readers := readers - 1;
    }

    method AddNewUser(username: Name, clientSocket: Fd) returns (added: bool)
      requires !writing && readers == 0
      modifies this`clientObjects, this`writing
      ensures added == (username !in old(clientObjects)) && !writing
      ensures clientObjects == if added then old(clientObjects)[username := clientSocket] else old(clientObjects)
    {
      writing := true;
      added := false;
      if username !in clientObjects {
        clientObjects := clientObjects[username := clientSocket];
        added := true;
      }
      writing := false;
    }

    method LogOutUser(username: Name) returns (success: bool)
      requires !writing && readers == 0
      modifies this`clientObjects, this`writing
      ensures success == (username in old(clientObjects)) && !writing
      ensures clientObjects == old(clientObjects) - {username}
    {
      writing := true;
      success := username in clientObjects;
      clientObjects := clientObjects - {username};
      writing := false;
    }
  }

  // ---- Jobs one after the other ----

  function Weight(jobs: seq<Job>): nat {
    if jobs == [] then 0
    else (if jobs[0].ListUsers? || (jobs[0].SendTo? && jobs[0].relay) then 2 else 1) + Weight(jobs[1..])
  }

  /** The reply to a WHO request, for the listing `usernames`. */
  function UsersJob(t: Thread, usernames: Bytes): Thread
    requires t.jobs != []
  {
    var n := IncrementServer(t.packetNumber);
    t.(packetNumber := n, jobs := [SendTo(t.name, Plain(WHO, n, SERVER, t.name, usernames), false)] + t.jobs[1..])
  }

  /** The thread and the sockets after all jobs, with nobody else stepping in between. */
  function Work(table: map<Name, Fd>, sockets: Sockets, t: Thread, usernames: Bytes): (Sockets, Thread)
    decreases Weight(t.jobs)
  {
    if t.jobs == [] then (sockets, t)
    else
      WeightDrops(t, usernames);
      match t.jobs[0]
      case SendTo(dest, f, _) =>
        var ok := Reachable(sockets, table, dest);
        Work(table, if ok then Append(sockets, table[dest], f) else sockets, JobDone(t, ok), usernames)
      case ToAll(f, _) =>
        Work(table, AppendForAll(sockets, table, table.Keys - {t.name}, f), JobDone(t, true), usernames)
      case ListUsers => Work(table, sockets, UsersJob(t, usernames), usernames)
  }

  lemma WeightDrops(t: Thread, usernames: Bytes)
    requires t.jobs != []
    ensures !t.jobs[0].ListUsers? ==> forall ok :: Weight(JobDone(t, ok).jobs) < Weight(t.jobs)
    ensures t.jobs[0].ListUsers? ==> Weight(UsersJob(t, usernames).jobs) < Weight(t.jobs)
  {
    forall j: Job
      ensures ([j] + t.jobs[1..])[1..] == t.jobs[1..]
    {
    }
  }

  lemma WorkFirst(table: map<Name, Fd>, sockets: Sockets, t: Thread, usernames: Bytes)
    requires t.jobs != [] && t.jobs[0].SendTo?
    ensures var j := t.jobs[0];
      var ok := Reachable(sockets, table, j.dest);
      Work(table, sockets, t, usernames) ==
        Work(table, if ok then Append(sockets, table[j.dest], j.frame) else sockets, JobDone(t, ok), usernames)
  {
    hide Append, JobDone;
  }

  lemma WorkOne(table: map<Name, Fd>, sockets: Sockets, t: Thread, usernames: Bytes)
    requires |t.jobs| == 1 && ((t.jobs[0].SendTo? && !t.jobs[0].relay) || t.jobs[0].ToAll?)
    ensures var j := t.jobs[0];
      Work(table, sockets, t, usernames) ==
        if j.ToAll? then (AppendForAll(sockets, table, table.Keys - {t.name}, j.frame), JobDone(t, true))
        else if Reachable(sockets, table, j.dest) then (Append(sockets, table[j.dest], j.frame), JobDone(t, true))
        else (sockets, JobDone(t, false))
  {
    hide Append, AppendForAll;
    assert t.jobs[1..] == [];
  }

  lemma WorkList(table: map<Name, Fd>, sockets: Sockets, t: Thread, usernames: Bytes)
    requires t.jobs == [ListUsers]
    ensures Work(table, sockets, t, usernames) == Work(table, sockets, UsersJob(t, usernames), usernames)
  {
    hide UsersJob;
  }

  /** User lists, each made by walking the table in some order. */
  ghost predicate AreListings(table: map<Name, Fd>, listings: seq<Bytes>) {
    forall l | l in listings :: exists order :: multiset(order) == multiset(table.Keys) && l == UserList.Listing(order)
  }

  /** A frame from the client, with the bytes the server read as its body. */
  datatype Incoming = Incoming(frame: Frame, received: Bytes)

  /** The thread's own view when it is about to read. */
  function AtRead(name: Name, packetNumber: uint16): Thread {
    NEW_THREAD.(phase := Serving, name := name, packetNumber := packetNumber)
  }

  // ---- What a turn of the main loop does, socket by socket ----

  /**
   What the socket `fd` is sent when the thread of user `name`, whose number was `n`, handles frame `f`:
   answers and errors go to the own client, a message to its addressee or to everybody else.
   */
  function TurnSends(sha: Hash, table: map<Name, Fd>, open: set<Fd>, name: Name, n: uint16,
                     f: Frame, received: Bytes, usernames: Bytes, fd: Fd): seq<Frame>
  {
    var own := name in table && table[name] == fd;
    var next := (n + 1) % 65535;
    var others := |set u | u in table && u != name && table[u] == fd|;
    var error := if own then [Frame(ERROR, next, [], name, [], [], 0)] else [];
    match f.kind
    case LOGIN => error
    case WHO => if own then [Frame(WHO, next, SERVER, name, usernames, [], 0)] else []
    case DISCONNECT => Copies(Frame(MESSAGE, next, SERVER, ALL, [], [], 0), others)
    case MESSAGE =>
      var answer := if sha(received) == f.checksum then ACK else NACK;
      var told := if own then [Frame(answer, f.number, [], name, [], [], f.serial)] else [];
      var message := Frame(MESSAGE, f.number, f.source, f.dest, received, f.checksum, f.serial);
      if answer == NACK || received == [] then told
      else if f.dest == ALL then told + Copies(message, others)
      else if f.dest in table && table[f.dest] in open then
        told + if table[f.dest] == fd then [message] else []
      else told + error
    case _ => []
  }

  /** Whether that uses up a packet number, and whether the thread leaves. */
  predicate TurnCounts(sha: Hash, table: map<Name, Fd>, open: set<Fd>, f: Frame, received: Bytes) {
    || f.kind == LOGIN || f.kind == WHO || f.kind == DISCONNECT
    || (f.kind == MESSAGE && sha(received) == f.checksum && received != [] && f.dest != ALL
        && (f.dest in table ==> table[f.dest] !in open))
  }

  predicate TurnLeaves(sha: Hash, f: Frame, received: Bytes) {
    f.kind == DISCONNECT || (f.kind == MESSAGE && sha(received) == f.checksum && received == [])
  }

  ghost predicate TurnDoes(sha: Hash, table: map<Name, Fd>, before: Sockets, after: Sockets, name: Name,
                           n: uint16, n': uint16, f: Frame, received: Bytes, usernames: Bytes, leave: bool)
  {
    && after.Keys == before.Keys
    && (forall fd | fd in before ::
          after[fd] == before[fd] + TurnSends(sha, table, before.Keys, name, n, f, received, usernames, fd))
    && n' == (if TurnCounts(sha, table, before.Keys, f, received) then (n + 1) % 65535 else n)
    && leave == TurnLeaves(sha, f, received)
  }

  /** `f` has gone to the socket of user `u`, if there is one. */
  ghost predicate Tells(before: Sockets, after: Sockets, table: map<Name, Fd>, u: Name, f: Frame) {
    && after.Keys == before.Keys
    && forall fd | fd in before :: after[fd] == before[fd] + if u in table && table[u] == fd then [f] else []
  }

  /** `f` has gone to the sockets of all users but `name`. */
  ghost predicate TellsOthers(before: Sockets, after: Sockets, table: map<Name, Fd>, name: Name, f: Frame) {
    && after.Keys == before.Keys
    && forall fd | fd in before ::
         after[fd] == before[fd] + Copies(f, |set u | u in table && u != name && table[u] == fd|)
  }

  lemma SendsFirst(table: map<Name, Fd>, sockets: Sockets, t: Thread, usernames: Bytes) returns (sockets': Sockets)
    requires t.jobs != [] && t.jobs[0].SendTo?
    ensures Tells(sockets, sockets', table, t.jobs[0].dest, t.jobs[0].frame)
    ensures var found := t.jobs[0].dest in table && table[t.jobs[0].dest] in sockets;
      Work(table, sockets, t, usernames) == Work(table, sockets', JobDone(t, found), usernames)
  {
    hide Work, JobDone;
    var j := t.jobs[0];
    sockets' := if Reachable(sockets, table, j.dest) then Append(sockets, table[j.dest], j.frame) else sockets;
    WorkFirst(table, sockets, t, usernames);
  }

  lemma SendsAll(table: map<Name, Fd>, sockets: Sockets, t: Thread, usernames: Bytes) returns (sockets': Sockets)
    requires |t.jobs| == 1 && t.jobs[0].ToAll?
    ensures TellsOthers(sockets, sockets', table, t.name, t.jobs[0].frame)
    ensures Work(table, sockets, t, usernames) == (sockets', JobDone(t, true))
  {
    hide Work, JobDone, AppendForAll, Copies;
    sockets' := AppendForAll(sockets, table, table.Keys - {t.name}, t.jobs[0].frame);
    WorkOne(table, sockets, t, usernames);
    EverybodyElse(sockets, table, t.name, t.jobs[0].frame);
  }

  /** The jobs that follow from a frame, done one after the other, do exactly what a turn is said to do. */
  lemma WorkIsTurn(sha: Hash, table: map<Name, Fd>, sockets: Sockets, name: Name, n: uint16, f: Frame,
                   received: Bytes, usernames: Bytes)
    ensures var r := Work(table, sockets, OnFrame(sha, AtRead(name, n), f, received), usernames);
      TurnDoes(sha, table, sockets, r.0, name, n, r.1.packetNumber, f, received, usernames, r.1.phase == Leaving)
  {
    hide Work, OnFrame, TurnDoes;
    match f.kind
    case LOGIN => LoginTurn(sha, table, sockets, name, n, f, received, usernames);
    case WHO => WhoTurn(sha, table, sockets, name, n, f, received, usernames);
    case DISCONNECT => DisconnectTurn(sha, table, sockets, name, n, f, received, usernames);
    case MESSAGE =>
      if sha(received) != f.checksum || received == [] {
        AnswerTurn(sha, table, sockets, name, n, f, received, usernames);
      } else if f.dest == ALL {
        RoomTurn(sha, table, sockets, name, n, f, received, usernames);
      } else {
        PrivateTurn(sha, table, sockets, name, n, f, received, usernames);
      }
    case _ => IgnoredTurn(sha, table, sockets, name, n, f, received, usernames);
  }

  lemma LoginTurn(sha: Hash, table: map<Name, Fd>, sockets: Sockets, name: Name, n: uint16, f: Frame,
                  received: Bytes, usernames: Bytes)
    requires f.kind == LOGIN
    ensures var r := Work(table, sockets, OnFrame(sha, AtRead(name, n), f, received), usernames);
      TurnDoes(sha, table, sockets, r.0, name, n, r.1.packetNumber, f, received, usernames, r.1.phase == Leaving)
  {
    hide Work, Append, AppendForAll, Copies;
    var t := OnFrame(sha, AtRead(name, n), f, received);
    var sockets' := SendsFirst(table, sockets, t, usernames);
    var found := name in table && table[name] in sockets;
    NoWork(table, sockets', JobDone(t, found), usernames);
  }

  lemma WhoTurn(sha: Hash, table: map<Name, Fd>, sockets: Sockets, name: Name, n: uint16, f: Frame,
                received: Bytes, usernames: Bytes)
    requires f.kind == WHO
    ensures var r := Work(table, sockets, OnFrame(sha, AtRead(name, n), f, received), usernames);
      TurnDoes(sha, table, sockets, r.0, name, n, r.1.packetNumber, f, received, usernames, r.1.phase == Leaving)
  {
    hide Work, Append, AppendForAll, Copies;
    var t := OnFrame(sha, AtRead(name, n), f, received);
    WorkList(table, sockets, t, usernames);
    var t' := UsersJob(t, usernames);
    var sockets' := SendsFirst(table, sockets, t', usernames);
    var found := name in table && table[name] in sockets;
    NoWork(table, sockets', JobDone(t', found), usernames);
  }

  lemma DisconnectTurn(sha: Hash, table: map<Name, Fd>, sockets: Sockets, name: Name, n: uint16, f: Frame,
                       received: Bytes, usernames: Bytes)
    requires f.kind == DISCONNECT
    ensures var r := Work(table, sockets, OnFrame(sha, AtRead(name, n), f, received), usernames);
      TurnDoes(sha, table, sockets, r.0, name, n, r.1.packetNumber, f, received, usernames, r.1.phase == Leaving)
  {
    hide Work, Append, AppendForAll, Copies;
    var t := OnFrame(sha, AtRead(name, n), f, received);
    var _ := SendsAll(table, sockets, t, usernames);
  }

  /** A corrupted message, or an empty one. */
  lemma AnswerTurn(sha: Hash, table: map<Name, Fd>, sockets: Sockets, name: Name, n: uint16, f: Frame,
                   received: Bytes, usernames: Bytes)
    requires f.kind == MESSAGE && (sha(received) != f.checksum || received == [])
    ensures var r := Work(table, sockets, OnFrame(sha, AtRead(name, n), f, received), usernames);
      TurnDoes(sha, table, sockets, r.0, name, n, r.1.packetNumber, f, received, usernames, r.1.phase == Leaving)
  {
    hide Work, Append, AppendForAll, Copies;
    var t := OnFrame(sha, AtRead(name, n), f, received);
    var sockets' := SendsFirst(table, sockets, t, usernames);
    var found := name in table && table[name] in sockets;
    NoWork(table, sockets', JobDone(t, found), usernames);
  }

  predicate Intact(sha: Hash, f: Frame, received: Bytes) {
    f.kind == MESSAGE && sha(received) == f.checksum && received != []
  }

  /** What there is to do about an intact message: acknowledge it, and then pass it on. */
  lemma IntactJobs(sha: Hash, name: Name, n: uint16, f: Frame, received: Bytes, found: bool)
    requires Intact(sha, f, received)
    ensures var t := OnFrame(sha, AtRead(name, n), f, received);
      && |t.jobs| == 2 && t.jobs[0] == SendTo(name, Frame(ACK, f.number, [], name, [], [], f.serial), false)
      && var t' := JobDone(t, found);
      && t'.name == name && t'.packetNumber == n && t'.phase == Serving
      && var g := Frame(MESSAGE, f.number, f.source, f.dest, received, f.checksum, f.serial);
      && t'.jobs == [if f.dest == ALL then ToAll(g, true) else SendTo(f.dest, g, true)]
  {
    assert f.(body := received) == Frame(MESSAGE, f.number, f.source, f.dest, received, f.checksum, f.serial);
  }

  /** The acknowledgement, the message as passed on, and the error if nobody is there to take it. */
  function AckFor(f: Frame, name: Name): Frame {
    Frame(ACK, f.number, [], name, [], [], f.serial)
  }

  function MessageOf(f: Frame, received: Bytes): Frame {
    Frame(MESSAGE, f.number, f.source, f.dest, received, f.checksum, f.serial)
  }

  function ErrorFor(name: Name, n: uint16): Frame {
    Frame(ERROR, (n + 1) % 65535, [], name, [], [], 0)
  }

  lemma RoomSends(sha: Hash, table: map<Name, Fd>, sockets: Sockets, told: Sockets, after: Sockets, name: Name,
                  n: uint16, f: Frame, received: Bytes, usernames: Bytes)
    requires Intact(sha, f, received) && f.dest == ALL
    requires Tells(sockets, told, table, name, AckFor(f, name))
    requires TellsOthers(told, after, table, name, MessageOf(f, received))
    ensures TurnDoes(sha, table, sockets, after, name, n, n, f, received, usernames, false)
  {
    hide Copies;
    forall fd | fd in sockets
      ensures after[fd] == sockets[fd] + TurnSends(sha, table, sockets.Keys, name, n, f, received, usernames, fd)
    {
      var others := |set u | u in table && u != name && table[u] == fd|;
      var ack := if name in table && table[name] == fd then [AckFor(f, name)] else [];
      assert told[fd] == sockets[fd] + ack;
      assert after[fd] == told[fd] + Copies(MessageOf(f, received), others);
      Associates(sockets[fd], ack, Copies(MessageOf(f, received), others));
      hide Tells, TellsOthers;
    }
    hide TurnSends, Tells, TellsOthers;
  }

  lemma Associates(a: seq<Frame>, b: seq<Frame>, c: seq<Frame>)
    ensures a + b + c == a + (b + c)
  {
  }

  lemma PrivateSends(sha: Hash, table: map<Name, Fd>, sockets: Sockets, told: Sockets, after: Sockets, name: Name,
                     n: uint16, f: Frame, received: Bytes, usernames: Bytes)
    requires Intact(sha, f, received) && f.dest != ALL && f.dest in table && table[f.dest] in sockets
    requires Tells(sockets, told, table, name, AckFor(f, name))
    requires Tells(told, after, table, f.dest, MessageOf(f, received))
    ensures TurnDoes(sha, table, sockets, after, name, n, n, f, received, usernames, false)
  {
    hide Copies;
    forall fd | fd in sockets
      ensures after[fd] == sockets[fd] + TurnSends(sha, table, sockets.Keys, name, n, f, received, usernames, fd)
    {
      var ack := if name in table && table[name] == fd then [AckFor(f, name)] else [];
      var message := if table[f.dest] == fd then [MessageOf(f, received)] else [];
      assert told[fd] == sockets[fd] + ack && after[fd] == told[fd] + message;
      Associates(sockets[fd], ack, message);
      hide Tells;
    }
    hide TurnSends, Tells;
  }

  lemma PrivateFails(sha: Hash, table: map<Name, Fd>, sockets: Sockets, told: Sockets, passed: Sockets, after: Sockets,
                     name: Name, n: uint16, f: Frame, received: Bytes, usernames: Bytes)
    requires Intact(sha, f, received) && f.dest != ALL && (f.dest in table ==> table[f.dest] !in sockets)
    requires Tells(sockets, told, table, name, AckFor(f, name))
    requires Tells(told, passed, table, f.dest, MessageOf(f, received))
    requires Tells(passed, after, table, name, ErrorFor(name, n))
    ensures TurnDoes(sha, table, sockets, after, name, n, (n + 1) % 65535, f, received, usernames, false)
  {
    hide Copies;
    forall fd | fd in sockets
      ensures after[fd] == sockets[fd] + TurnSends(sha, table, sockets.Keys, name, n, f, received, usernames, fd)
    {
      var own := name in table && table[name] == fd;
      var ack, error := if own then [AckFor(f, name)] else [], if own then [ErrorFor(name, n)] else [];
      assert told[fd] == sockets[fd] + ack;
      assert passed[fd] == told[fd];
      assert after[fd] == passed[fd] + error;
      Associates(sockets[fd], ack, error);
      hide Tells;
    }
    hide TurnSends, Tells;
  }

  /** An intact message to everybody: the answer, then the message. */
  lemma RoomTurn(sha: Hash, table: map<Name, Fd>, sockets: Sockets, name: Name, n: uint16, f: Frame,
                 received: Bytes, usernames: Bytes)
    requires Intact(sha, f, received) && f.dest == ALL
    ensures var r := Work(table, sockets, OnFrame(sha, AtRead(name, n), f, received), usernames);
      TurnDoes(sha, table, sockets, r.0, name, n, r.1.packetNumber, f, received, usernames, r.1.phase == Leaving)
  {
    hide Work, OnFrame, TurnDoes, Tells, TellsOthers;
    var t := OnFrame(sha, AtRead(name, n), f, received);
    var found := name in table && table[name] in sockets;
    IntactJobs(sha, name, n, f, received, found);
    var told := SendsFirst(table, sockets, t, usernames);
    var after := SendsAll(table, told, JobDone(t, found), usernames);
    RoomSends(sha, table, sockets, told, after, name, n, f, received, usernames);
  }

  /** An intact message to one user: the answer, then the message or an error. */
  lemma PrivateTurn(sha: Hash, table: map<Name, Fd>, sockets: Sockets, name: Name, n: uint16, f: Frame,
                    received: Bytes, usernames: Bytes)
    requires Intact(sha, f, received) && f.dest != ALL
    ensures var r := Work(table, sockets, OnFrame(sha, AtRead(name, n), f, received), usernames);
      TurnDoes(sha, table, sockets, r.0, name, n, r.1.packetNumber, f, received, usernames, r.1.phase == Leaving)
  {
    hide Work, OnFrame, TurnDoes, JobDone;
    var t := OnFrame(sha, AtRead(name, n), f, received);
    var own := name in table && table[name] in sockets;
    IntactJobs(sha, name, n, f, received, own);
    var told := SendsFirst(table, sockets, t, usernames);
    var t' := JobDone(t, own);
    var passed := SendsFirst(table, told, t', usernames);
    var found := f.dest in table && table[f.dest] in sockets;
    PassedOn(t', found);
    if found {
      NoWork(table, passed, JobDone(t', true), usernames);
      PrivateSends(sha, table, sockets, told, passed, name, n, f, received, usernames);
    } else {
      var t2 := JobDone(t', false);
      var after := SendsFirst(table, passed, t2, usernames);
      PassedOn(t2, own);
      NoWork(table, after, JobDone(t2, own), usernames);
      PrivateFails(sha, table, sockets, told, passed, after, name, n, f, received, usernames);
    }
  }

  /** What is left to do after one `SendTo` that was the only job. */
  lemma PassedOn(t: Thread, found: bool)
    requires |t.jobs| == 1 && t.jobs[0].SendTo? && t.jobs[0].frame.kind != ACK
    ensures var t' := JobDone(t, found);
      && t'.name == t.name && t'.phase == t.phase
      && if t.jobs[0].relay && !found then
           && t'.packetNumber == (t.packetNumber + 1) % 65535
           && t'.jobs == [SendTo(t.name, Frame(ERROR, t'.packetNumber, [], t.name, [], [], 0), false)]
         else t'.packetNumber == t.packetNumber && t'.jobs == []
  {
    assert t.jobs[1..] == [];
  }

  lemma IgnoredTurn(sha: Hash, table: map<Name, Fd>, sockets: Sockets, name: Name, n: uint16, f: Frame,
                    received: Bytes, usernames: Bytes)
    requires f.kind == ERROR || f.kind == ACK || f.kind == NACK
    ensures var r := Work(table, sockets, OnFrame(sha, AtRead(name, n), f, received), usernames);
      TurnDoes(sha, table, sockets, r.0, name, n, r.1.packetNumber, f, received, usernames, r.1.phase == Leaving)
  {
    hide Work, Append, AppendForAll, Copies;
    NoWork(table, sockets, OnFrame(sha, AtRead(name, n), f, received), usernames);
  }

  /** The notice that a client has come: to everybody else, under the next number. */
  lemma NoticeReachesOthers(table: map<Name, Fd>, sockets: Sockets, name: Name, n: uint16)
    ensures var r := Work(table, sockets, Announce(AtRead(name, n), []), []);
      && r.1.packetNumber == (n + 1) % 65535
      && TellsOthers(sockets, r.0, table, name, Frame(MESSAGE, (n + 1) % 65535, SERVER, ALL, [], [], 0))
  {
    hide Work, TellsOthers;
    var _ := SendsAll(table, sockets, Announce(AtRead(name, n), []), []);
  }

  datatype Session = Session(sockets: Sockets, packetNumber: uint16, left: bool)

  /** The session after the first `n` frames; `listings` are the user lists made on the way. */
  function Serve(sha: Hash, table: map<Name, Fd>, name: Name, sockets: Sockets, packetNumber: uint16,
                 incoming: seq<Incoming>, listings: seq<Bytes>, n: nat): Session
    requires n <= |incoming| && n <= |listings|
    decreases n
  {
    if n == 0 then Session(sockets, packetNumber, false)
    else
      var s := Serve(sha, table, name, sockets, packetNumber, incoming, listings, n - 1);
      if s.left then s
      else
        var f := incoming[n - 1];
        var t := OnFrame(sha, AtRead(name, s.packetNumber), f.frame, f.received);
        var r := Work(table, s.sockets, t, listings[n - 1]);
        Session(r.0, r.1.packetNumber, r.1.phase == Leaving)
  }

  lemma {:induction false} ServeMore(
      sha: Hash, table: map<Name, Fd>, name: Name, sockets: Sockets, packetNumber: uint16,
      incoming: seq<Incoming>, listings: seq<Bytes>, next: Bytes, n: nat)
    requires n <= |incoming| && n <= |listings|
    ensures Serve(sha, table, name, sockets, packetNumber, incoming, listings + [next], n)
         == Serve(sha, table, name, sockets, packetNumber, incoming, listings, n)
    decreases n
  {
    hide Work, OnFrame;
    if n > 0 {
      ServeMore(sha, table, name, sockets, packetNumber, incoming, listings, next, n - 1);
      assert (listings + [next])[n - 1] == listings[n - 1];
    }
  }

  /** A session is one turn after the other. */
  lemma SessionIsTurns(sha: Hash, table: map<Name, Fd>, name: Name, sockets: Sockets, packetNumber: uint16,
                       incoming: seq<Incoming>, listings: seq<Bytes>, n: nat)
    requires n < |incoming| && n < |listings|
    ensures var s := Serve(sha, table, name, sockets, packetNumber, incoming, listings, n);
      var s' := Serve(sha, table, name, sockets, packetNumber, incoming, listings, n + 1);
      if s.left then s' == s
      else TurnDoes(sha, table, s.sockets, s'.sockets, name, s.packetNumber, s'.packetNumber,
                    incoming[n].frame, incoming[n].received, listings[n], s'.left)
    ensures Serve(sha, table, name, sockets, packetNumber, incoming, listings, 0)
         == Session(sockets, packetNumber, false)
  {
    hide TurnDoes, Work, OnFrame;
    var s := Serve(sha, table, name, sockets, packetNumber, incoming, listings, n);
    var f := incoming[n];
    WorkIsTurn(sha, table, s.sockets, name, s.packetNumber, f.frame, f.received, listings[n]);
  }

  class MessagingClient {
    const clientSocket: Fd
    const ourUsername: Name
    var packetNumber: uint16
    const sc: SharedClients

    constructor (clientSocket: Fd, packetNumber: uint16, ourUsername: Name, sc: SharedClients)
      ensures this.clientSocket == clientSocket && this.ourUsername == ourUsername
      ensures this.packetNumber == packetNumber && this.sc == sc
    {
      this.clientSocket, this.ourUsername, this.packetNumber, this.sc :=
        clientSocket, ourUsername, packetNumber, sc;
    }

    method IncrementPacketNumber() returns (n: uint16)
      modifies this`packetNumber
      ensures packetNumber == n == IncrementServer(old(packetNumber)) == (old(packetNumber) + 1) % 65535
    {
      packetNumber := (packetNumber + 1) % 65535;
      n := packetNumber;
    }

    method SendErrorMessage(text: Bytes) returns (ok: bool)
      requires !sc.writing
      modifies this`packetNumber, sc
      ensures packetNumber == IncrementServer(old(packetNumber))
      ensures ok == Reachable(old(sc.sockets), sc.clientObjects, ourUsername)
      ensures var f := Plain(ERROR, packetNumber, [], ourUsername, text);
        sc.sockets == if Reachable(old(sc.sockets), sc.clientObjects, ourUsername)
                      then Append(old(sc.sockets), sc.clientObjects[ourUsername], f) else old(sc.sockets)
      ensures sc.clientObjects == old(sc.clientObjects) && sc.readers == old(sc.readers) && !sc.writing
    {
      var n := IncrementPacketNumber();
      ok := sc.SendToClient(ourUsername, Plain(ERROR, n, [], ourUsername, text));
    }

    method SendVerificationMessage(kind: Kind, f: Frame) returns (ok: bool)
      requires !sc.writing
      modifies sc
      ensures ok == Reachable(old(sc.sockets), sc.clientObjects, ourUsername)
      ensures sc.sockets == if Reachable(old(sc.sockets), sc.clientObjects, ourUsername)
        then Append(old(sc.sockets), sc.clientObjects[ourUsername], Answer(kind, f, ourUsername)) else old(sc.sockets)
      ensures sc.clientObjects == old(sc.clientObjects) && sc.readers == old(sc.readers) && !sc.writing
    {
      ok := sc.SendToClient(ourUsername, Answer(kind, f, ourUsername));
    }

    /** One turn of the main loop: the calls it makes are the jobs of `OnFrame`, done in order. */
    method HandleFrame(f: Frame, received: Bytes) returns (leave: bool, ghost order: seq<Name>)
      requires !sc.writing
      modifies this`packetNumber, sc
      ensures var r := Work(sc.clientObjects, old(sc.sockets),
                            OnFrame(Fips180.Sha256, AtRead(ourUsername, old(packetNumber)), f, received),
                            UserList.Listing(order));
        sc.sockets == r.0 && packetNumber == r.1.packetNumber && leave == (r.1.phase == Leaving)
      ensures TurnDoes(Fips180.Sha256, sc.clientObjects, old(sc.sockets), sc.sockets, ourUsername,
                       old(packetNumber), packetNumber, f, received, UserList.Listing(order), leave)
      ensures multiset(order) == multiset(sc.clientObjects.Keys)
      ensures sc.clientObjects == old(sc.clientObjects) && sc.readers == old(sc.readers) && !sc.writing
    {
      hide Fips180.Sha256, Append, AppendForAll, Work, IncrementServer, TurnDoes;
      leave := false;
      order := UserList.SomeOrder(sc.clientObjects.Keys);
      ghost var usernames := UserList.Listing(order);
      ghost var t := OnFrame(Fips180.Sha256, AtRead(ourUsername, packetNumber), f, received);
      ghost var table, sockets := sc.clientObjects, sc.sockets;
      match f.kind {
      case LOGIN =>
        WorkOne(table, sockets, t, usernames);
        var _ := SendErrorMessage([]);
      case WHO =>
        var listing, walk := sc.GetLoggedInUsers();
        order, usernames := walk, listing;
        WorkList(table, sockets, t, usernames);
        WorkOne(table, sockets, UsersJob(t, usernames), usernames);
        var n := IncrementPacketNumber();
        var _ := sc.SendToClient(ourUsername, Plain(WHO, n, SERVER, ourUsername, listing));
      case MESSAGE =>
        if Fips180.Sha256(received) != f.checksum {
          WorkOne(table, sockets, t, usernames);
          var _ := SendVerificationMessage(NACK, f);
        } else {
          WorkFirst(table, sockets, t, usernames);
          var _ := SendVerificationMessage(ACK, f);
          if received == [] {
            WorkOne(table, sockets, t, usernames);
            leave := true;
          } else {
            Relay(f.(body := received), JobDone(t, Reachable(sockets, table, ourUsername)), usernames);
          }
        }
      case DISCONNECT =>
        WorkOne(table, sockets, t, usernames);
        var n := IncrementPacketNumber();
        var _ := sc.SendToAll(ourUsername, Plain(MESSAGE, n, SERVER, ALL, []));
        leave := true;
      case _ =>
        NoWork(table, sockets, t, usernames);
      }
      WorkIsTurn(Fips180.Sha256, table, sockets, ourUsername, old(packetNumber), f, received, usernames);
    }

    /**
     The whole life of a logged-in client: a notice to the others, then the main loop, until a frame
     makes it leave or `incoming` is exhausted and the read fails.
     */
    method Client(incoming: seq<Incoming>) returns (ghost listings: seq<Bytes>)
      requires !sc.writing
      modifies this`packetNumber, sc
      ensures |listings| <= |incoming| && AreListings(sc.clientObjects, listings)
      ensures var t := Announce(AtRead(ourUsername, old(packetNumber)), []);
        var start := Work(sc.clientObjects, old(sc.sockets), t, []);
        var r := Serve(Fips180.Sha256, sc.clientObjects, ourUsername, start.0, start.1.packetNumber,
                       incoming, listings, |listings|);
        && sc.sockets == r.sockets && packetNumber == r.packetNumber
        && (r.left || |listings| == |incoming|)
      ensures sc.clientObjects == old(sc.clientObjects) && sc.readers == old(sc.readers) && !sc.writing
    {
      hide Append, AppendForAll, Work, IncrementServer, Fips180.Sha256, OnFrame, TurnDoes, Copies;
      ghost var t := Announce(AtRead(ourUsername, packetNumber), []);
      WorkOne(sc.clientObjects, sc.sockets, t, []);
      var n := IncrementPacketNumber();
      var _ := sc.SendToAll(ourUsername, Plain(MESSAGE, n, SERVER, ALL, []));
      ghost var s0, n0 := sc.sockets, packetNumber;
      listings := [];
      var i := 0;
      while i < |incoming|
        invariant |listings| == i <= |incoming| && AreListings(sc.clientObjects, listings)
        invariant Serve(Fips180.Sha256, sc.clientObjects, ourUsername, s0, n0, incoming, listings, i)
               == Session(sc.sockets, packetNumber, false)
        invariant sc.clientObjects == old(sc.clientObjects) && sc.readers == old(sc.readers) && !sc.writing
      {
        ghost var before := listings;
        var leave, order := HandleFrame(incoming[i].frame, incoming[i].received);
        listings := listings + [UserList.Listing(order)];
        ServeMore(Fips180.Sha256, sc.clientObjects, ourUsername, s0, n0, incoming, before, UserList.Listing(order), i);
        i := i + 1;
        if leave {
          return;
        }
      }
    }

    /** Dispatch of an accepted message, with an error to the sender if its recipient is not reached. */
    method Relay(f: Frame, ghost t: Thread, ghost usernames: Bytes)
      requires !sc.writing
      requires t.name == ourUsername && t.packetNumber == packetNumber && t.jobs == [RelayJob(f)] && t.phase == Serving
      modifies this`packetNumber, sc
      ensures var r := Work(sc.clientObjects, old(sc.sockets), t, usernames);
        sc.sockets == r.0 && packetNumber == r.1.packetNumber && r.1.phase == Serving
      ensures sc.clientObjects == old(sc.clientObjects) && sc.readers == old(sc.readers) && !sc.writing
    {
      hide Append, AppendForAll, Work, IncrementServer;
      ghost var table, sockets := sc.clientObjects, sc.sockets;
      if f.dest == ALL {
        WorkOne(table, sockets, t, usernames);
        var _ := sc.SendToAll(ourUsername, f);
      } else {
        WorkFirst(table, sockets, t, usernames);
        var ok := sc.SendToClient(f.dest, f);
        if ok {
          NoWork(table, sc.sockets, JobDone(t, true), usernames);
        } else {
          WorkOne(table, sockets, JobDone(t, false), usernames);
          var _ := SendErrorMessage([]);
        }
      }
    }
  }

  lemma NoWork(table: map<Name, Fd>, sockets: Sockets, t: Thread, usernames: Bytes)
    requires t.jobs == []
    ensures Work(table, sockets, t, usernames) == (sockets, t)
  {
  }

  predicate LogsIn(table: map<Name, Fd>, login: Frame) {
    login.kind == LOGIN && login.source !in table
  }

  /** The session of a client whose login reply has been sent: the notice, then the main loop. */
  function Life(sha: Hash, table: map<Name, Fd>, name: Name, sockets: Sockets,
                incoming: seq<Incoming>, listings: seq<Bytes>): Session
    requires |listings| <= |incoming|
  {
    var start := Work(table, sockets, Announce(AtRead(name, 1), []), []);
    Serve(sha, table, name, start.0, start.1.packetNumber, incoming, listings, |listings|)
  }

  lemma OpenAndShut(sockets: Sockets, fd: Fd, f: Frame)
    ensures Append(sockets, fd, f) - {fd} == sockets - {fd}
  {
  }

  /**
   `login_procedure`, from the login frame to the closed socket. Whether the reply could be sent is
   up to the network. If not, the user just added stays in the table with a closed socket; in every
   other case the table is what it was. Nobody but a client that logs in causes anything to be sent
   to the others.
   */
  method LoginProcedure(sc: SharedClients, clientSocket: Fd, login: Frame, replySent: bool, incoming: seq<Incoming>)
    returns (ghost listings: seq<Bytes>)
    requires !sc.writing && sc.readers == 0
    modifies sc
    ensures !sc.writing && sc.readers == 0 && |listings| <= |incoming|
    ensures AreListings(old(sc.clientObjects)[login.source := clientSocket], listings)
    ensures LogsIn(old(sc.clientObjects), login) && replySent && |listings| < |incoming| ==>
              Life(Fips180.Sha256, old(sc.clientObjects)[login.source := clientSocket], login.source,
                   Append(old(sc.sockets), clientSocket, Plain(LOGIN, 1, [], login.source, [])),
                   incoming, listings).left
    ensures sc.clientObjects ==
      if LogsIn(old(sc.clientObjects), login) && !replySent
      then old(sc.clientObjects)[login.source := clientSocket]
      else old(sc.clientObjects)
    ensures sc.sockets ==
      if LogsIn(old(sc.clientObjects), login) && replySent
      then Life(Fips180.Sha256, old(sc.clientObjects)[login.source := clientSocket], login.source,
                Append(old(sc.sockets), clientSocket, Plain(LOGIN, 1, [], login.source, [])),
                incoming, listings).sockets - {clientSocket}
      else old(sc.sockets) - {clientSocket}
  {
    hide Append, Work, Serve, Fips180.Sha256;
    listings := [];
    if login.kind != LOGIN {
      sc.CloseSocket(clientSocket);
      return;
    }
    var username := login.source;
    var added := sc.AddNewUser(username, clientSocket);
    if !added {
      var error := Plain(ERROR, 1, [], username, []);
      OpenAndShut(sc.sockets, clientSocket, error);
      var _ := sc.SendOn(clientSocket, error);
      sc.CloseSocket(clientSocket);
      return;
    }
    if !replySent {
      sc.CloseSocket(clientSocket);
      return;
    }
    var _ := sc.SendOn(clientSocket, Plain(LOGIN, 1, [], username, []));
    var messagingClient := new MessagingClient(clientSocket, 1, username, sc);
    listings := messagingClient.Client(incoming);
    var _ := sc.LogOutUser(username);
    sc.CloseSocket(clientSocket);
  }
}
