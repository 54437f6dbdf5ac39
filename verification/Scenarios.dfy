/**
 Two concrete runs, of one connection each, in which the obvious claims fail: a login reply that
 cannot be sent, and a message without a body.
 */
module Scenarios {
  import opened Words
  import opened HeaderLayout
  import opened Options
  import opened Protocol
  import opened Runs

  /** A world with one connection. */
  function Solo(fd: Fd, c: Conn, table: map<Name, Fd>, readers: set<Fd>, writer: Option<Fd>, bs: seq<Started>): World {
    World(map[fd := c], table, readers, writer, {}, 1, bs)
  }

  function Connected(name: Name): Conn {
    NewConn(0, name)
  }

  /** Once its LOGIN has been read. */
  function Greeted(name: Name): Conn {
    Connected(name).(client := NewClient(name).(sender := Prompting, packetNumber := 1),
                     thread := NEW_THREAD.(phase := Registering, name := name))
  }

  /** The run goes on with one more action. */
  lemma Then(sha: Hash, run: seq<World>, actions: seq<Action>, a: Action, w: World)
    returns (run': seq<World>, actions': seq<Action>)
    requires IsRun(sha, run, actions)
    requires |run| == |actions| + 1 && Enabled(run[|actions|], a) && w == Step(sha, run[|actions|], a)
    ensures run' == run + [w] && actions' == actions + [a] && IsRun(sha, run', actions')
    ensures |run'| == |actions'| + 1
  {
    hide Step, Enabled;
    run', actions' := run + [w], actions + [a];
    forall i | 0 <= i < |actions'|
      ensures Enabled(run'[i], actions'[i]) && run'[i + 1] == Step(sha, run'[i], actions'[i])
    {
      assert i < |actions| ==> actions'[i] == actions[i];
    }
  }

  // ---- Logging in ----

  lemma Arrives(sha: Hash, fd: Fd, name: Name)
    ensures var a := Accept(fd, name);
      Enabled(INITIAL, a) && Step(sha, INITIAL, a) == Solo(fd, Connected(name), map[], {}, None, [])
  {
  }

  lemma LogsIn(sha: Hash, fd: Fd, name: Name)
    ensures var w, a := Solo(fd, Connected(name), map[], {}, None, []), ClientAct(fd, Login);
      var c := Connected(name).(client := NewClient(name).(sender := Prompting, packetNumber := 1),
                                up := [Plain(LOGIN, 0, name, SERVER, [])]);
      Enabled(w, a) && Step(sha, w, a) == Solo(fd, c, map[], {}, None, [])
  {
    var login := Plain(LOGIN, 0, name, SERVER, []);
    assert Increment(0) == 1;
    assert ClientEffect(sha, NewClient(name), [], Login)
        == Effect(NewClient(name).(sender := Prompting, packetNumber := 1), [login]);
    assert Connected(name).up + [login] == [login];
  }

  lemma IsRead(sha: Hash, fd: Fd, name: Name)
    ensures var c := Connected(name).(client := NewClient(name).(sender := Prompting, packetNumber := 1),
                                      up := [Plain(LOGIN, 0, name, SERVER, [])]);
      var w, a := Solo(fd, c, map[], {}, None, []), ReadLogin(fd);
      Enabled(w, a) && Step(sha, w, a) == Solo(fd, Greeted(name), map[], {}, None, [])
  {
    assert [Plain(LOGIN, 0, name, SERVER, [])][1..] == [];
  }

  lemma Locks(sha: Hash, fd: Fd, c: Conn)
    requires c.thread.hold == Free && c.thread.phase == Registering
    ensures var w, a := Solo(fd, c, map[], {}, None, []), AcquireWrite(fd);
      var c' := c.(thread := c.thread.(hold := Exclusive));
      Enabled(w, a) && Step(sha, w, a) == Solo(fd, c', map[], {}, Some(fd), [])
  {
  }

  lemma Registers(sha: Hash, fd: Fd, c: Conn)
    requires c.thread.hold == Exclusive && c.thread.phase == Registering
    ensures var w, a := Solo(fd, c, map[], {}, Some(fd), []), Register(fd);
      var c' := c.(thread := c.thread.(phase := Replying, hold := ExclusiveDone));
      Enabled(w, a) && Step(sha, w, a) == Solo(fd, c', map[c.thread.name := fd], {}, Some(fd), [])
  {
  }

  lemma Unlocks(sha: Hash, fd: Fd, c: Conn, table: map<Name, Fd>)
    requires c.thread.hold == ExclusiveDone
    ensures var w, a := Solo(fd, c, table, {}, Some(fd), []), ReleaseWrite(fd);
      Enabled(w, a) && Step(sha, w, a) == Solo(fd, c.(thread := c.thread.(hold := Free)), table, {}, None, [])
  {
  }

  /** Up to the moment at which the reply is about to be sent. */
  lemma ReadyToReply(sha: Hash, fd: Fd, name: Name) returns (run: seq<World>, actions: seq<Action>)
    ensures IsRun(sha, run, actions) && |actions| == 6
    ensures forall a | a in actions :: !a.ReplyFails?
    ensures var c := Greeted(name).(thread := Greeted(name).thread.(phase := Replying));
      run[6] == Solo(fd, c, map[name := fd], {}, None, [])
  {
    hide Step, Enabled;
    var c := Connected(name).(client := NewClient(name).(sender := Prompting, packetNumber := 1),
                              up := [Plain(LOGIN, 0, name, SERVER, [])]);
    var g := Greeted(name);
    var g1 := g.(thread := g.thread.(hold := Exclusive));
    var g2 := g.(thread := g.thread.(phase := Replying, hold := ExclusiveDone));
    var g3 := g.(thread := g.thread.(phase := Replying));
    var w1, w2, w3 := Solo(fd, Connected(name), map[], {}, None, []), Solo(fd, c, map[], {}, None, []),
                      Solo(fd, g, map[], {}, None, []);
    var w4, w5, w6 := Solo(fd, g1, map[], {}, Some(fd), []), Solo(fd, g2, map[name := fd], {}, Some(fd), []),
                      Solo(fd, g3, map[name := fd], {}, None, []);
    run, actions := [INITIAL], [];
    Arrives(sha, fd, name);
    run, actions := Then(sha, run, actions, Accept(fd, name), w1);
    LogsIn(sha, fd, name);
    run, actions := Then(sha, run, actions, ClientAct(fd, Login), w2);
    IsRead(sha, fd, name);
    run, actions := Then(sha, run, actions, ReadLogin(fd), w3);
    Locks(sha, fd, g);
    run, actions := Then(sha, run, actions, AcquireWrite(fd), w4);
    Registers(sha, fd, g1);
    run, actions := Then(sha, run, actions, Register(fd), w5);
    Unlocks(sha, fd, g2, map[name := fd]);
    run, actions := Then(sha, run, actions, ReleaseWrite(fd), w6);
  }

  // ---- A login reply that cannot be sent ----

  lemma Fails(sha: Hash, fd: Fd, c: Conn, table: map<Name, Fd>)
    requires c.thread.phase == Replying && c.thread.hold == Free
    ensures var w, a := Solo(fd, c, table, {}, None, []), ReplyFails(fd);
      Enabled(w, a) && Step(sha, w, a).conns == map[] && Step(sha, w, a).table == table
  {
  }

  /** One client, one failed reply: its name stays behind. */
  lemma FailedReplyLeaks(sha: Hash, fd: Fd, name: Name) returns (run: seq<World>, actions: seq<Action>)
    ensures IsRun(sha, run, actions) && |actions| == 7 && actions[6] == ReplyFails(fd)
    ensures run[7].conns == map[] && run[7].table == map[name := fd] && !TableSound(run[7])
  {
    hide Step, Enabled;
    run, actions := ReadyToReply(sha, fd, name);
    Fails(sha, fd, Greeted(name).(thread := Greeted(name).thread.(phase := Replying)), map[name := fd]);
    var w := Step(sha, run[6], ReplyFails(fd));
    run, actions := Then(sha, run, actions, ReplyFails(fd), w);
    assert name in w.table;
  }

  // ---- A message without a body ----

  lemma Replies(sha: Hash, fd: Fd, c: Conn, table: map<Name, Fd>)
    requires c.thread.phase == Replying && c.thread.hold == Free
    ensures var w, a := Solo(fd, c, table, {}, None, []), Reply(fd);
      var c' := c.(down := c.down + [Plain(LOGIN, c.thread.packetNumber, [], c.thread.name, [])],
                   thread := Announce(c.thread, []).(phase := Serving));
      Enabled(w, a) && Step(sha, w, a) == Solo(fd, c', table, {}, None, [])
  {
    hide Announce;
  }

  lemma Acquires(sha: Hash, fd: Fd, c: Conn, table: map<Name, Fd>, bs: seq<Started>)
    requires c.thread.hold == Free && c.thread.jobs != []
    ensures var w, a := Solo(fd, c, table, {}, None, bs), AcquireRead(fd);
      var t := c.thread;
      Enabled(w, a) && Step(sha, w, a) ==
        if t.jobs[0].ToAll? then
          Solo(fd, c.(thread := t.(hold := Shared(table.Keys), broadcast := |bs|)), table, {fd}, None,
               bs + [Started(t.name, t.jobs[0].frame, table, 1, table.Keys)])
        else Solo(fd, c.(thread := t.(hold := Shared({}))), table, {fd}, None, bs)
  {
  }

  lemma VisitsItself(sha: Hash, fd: Fd, c: Conn, table: map<Name, Fd>, b: Started)
    requires c.thread.hold == Shared({c.thread.name}) && c.thread.jobs != [] && c.thread.jobs[0].ToAll?
    requires c.thread.broadcast == 0 && b.left == {c.thread.name}
    ensures var w, a := Solo(fd, c, table, {fd}, None, [b]), Visit(fd, c.thread.name);
      var c' := c.(thread := c.thread.(hold := Shared({})));
      Enabled(w, a) && Step(sha, w, a) == Solo(fd, c', table, {fd}, None, [b.(left := {})])
  {
    assert {c.thread.name} - {c.thread.name} == {};
    assert [b][0 := b.(left := {})] == [b.(left := {})];
  }

  lemma FinishesBroadcast(sha: Hash, fd: Fd, c: Conn, table: map<Name, Fd>, bs: seq<Started>)
    requires c.thread.hold == Shared({}) && c.thread.jobs != [] && c.thread.jobs[0].ToAll?
    ensures var w, a := Solo(fd, c, table, {fd}, None, bs), FinishBroadcast(fd);
      Enabled(w, a) && Step(sha, w, a) == Solo(fd, c.(thread := JobDone(c.thread, true)), table, {fd}, None, bs)
  {
    hide JobDone;
  }

  lemma SendsToItself(sha: Hash, fd: Fd, c: Conn, table: map<Name, Fd>, bs: seq<Started>)
    requires c.thread.hold == Shared({}) && c.thread.jobs != [] && c.thread.jobs[0].SendTo?
    requires !c.thread.jobs[0].relay && c.thread.jobs[0].dest in table && table[c.thread.jobs[0].dest] == fd
    ensures var w, a := Solo(fd, c, table, {fd}, None, bs), Send(fd);
      var c' := c.(thread := JobDone(c.thread, true), down := c.down + [c.thread.jobs[0].frame]);
      Enabled(w, a) && Step(sha, w, a) == Solo(fd, c', table, {fd}, None, bs)
  {
    hide JobDone;
    assert c.heard + multiset{} == c.heard && c.got + multiset{} == c.got;
  }

  lemma Releases(sha: Hash, fd: Fd, c: Conn, table: map<Name, Fd>, bs: seq<Started>)
    requires c.thread.hold == SharedDone
    ensures var w, a := Solo(fd, c, table, {fd}, None, bs), ReleaseRead(fd);
      Enabled(w, a) && Step(sha, w, a) == Solo(fd, c.(thread := c.thread.(hold := Free)), table, {}, None, bs)
  {
    assert {fd} - {fd} == {};
  }

  lemma ClientActs(sha: Hash, fd: Fd, c: Conn, act: ClientAction, table: map<Name, Fd>, bs: seq<Started>)
    requires ClientEnabled(c.client, c.down, act)
    ensures var w, a := Solo(fd, c, table, {}, None, bs), ClientAct(fd, act);
      Enabled(w, a) && Step(sha, w, a) == Solo(fd, ClientStep(sha, c, act), table, {}, None, bs)
  {
    hide ClientStep;
  }

  lemma Reads(sha: Hash, fd: Fd, c: Conn, received: Bytes, table: map<Name, Fd>, bs: seq<Started>)
    requires c.thread.phase == Serving && c.thread.hold == Free && c.thread.jobs == [] && c.up != []
    requires |received| == |c.up[0].body|
    ensures var w, a := Solo(fd, c, table, {}, None, bs), ReadFrame(fd, received);
      var c' := c.(up := c.up[1..], thread := OnFrame(sha, c.thread, c.up[0], received));
      Enabled(w, a) && Step(sha, w, a) == Solo(fd, c', table, {}, None, bs)
  {
    hide OnFrame;
  }

  /** Login, reply and the notice to nobody: the thread is at its read for the first time. */
  lemma Enters(sha: Hash, fd: Fd, name: Name) returns (run: seq<World>, actions: seq<Action>, c: Conn, b: Started)
    ensures IsRun(sha, run, actions) && |actions| == 11 && run[11] == Solo(fd, c, map[name := fd], {}, None, [b])
    ensures c.client == Greeted(name).client && c.up == []
    ensures c.thread == NEW_THREAD.(phase := Serving, name := name, packetNumber := c.thread.packetNumber)
  {
    hide Step, Enabled, IncrementServer;
    var table := map[name := fd];
    run, actions := ReadyToReply(sha, fd, name);
    var g := Greeted(name).(thread := Greeted(name).thread.(phase := Replying));
    var t := Announce(g.thread, []).(phase := Serving);
    c := g.(down := g.down + [Plain(LOGIN, g.thread.packetNumber, [], name, [])], thread := t);
    Replies(sha, fd, g, table);
    run, actions := Then(sha, run, actions, Reply(fd), Solo(fd, c, table, {}, None, []));
    b := Started(name, t.jobs[0].frame, table, 1, {name});
    assert table.Keys == {name} && [] + [b] == [b];
    Acquires(sha, fd, c, table, []);
    c := c.(thread := t.(hold := Shared({name}), broadcast := 0));
    run, actions := Then(sha, run, actions, AcquireRead(fd), Solo(fd, c, table, {fd}, None, [b]));
    VisitsItself(sha, fd, c, table, b);
    b := b.(left := {});
    c := c.(thread := c.thread.(hold := Shared({})));
    run, actions := Then(sha, run, actions, Visit(fd, name), Solo(fd, c, table, {fd}, None, [b]));
    FinishesBroadcast(sha, fd, c, table, [b]);
    c := c.(thread := JobDone(c.thread, true));
    run, actions := Then(sha, run, actions, FinishBroadcast(fd), Solo(fd, c, table, {fd}, None, [b]));
    Releases(sha, fd, c, table, [b]);
    c := c.(thread := c.thread.(hold := Free));
    run, actions := Then(sha, run, actions, ReleaseRead(fd), Solo(fd, c, table, {}, None, [b]));
  }

  lemma EmptyCommand(sha: Hash, c: Conn, name: Name, dest: Name) returns (c1: Conn, c2: Conn, c3: Conn)
    requires c.client == Greeted(name).client && c.up == []
    ensures ClientEnabled(c.client, c.down, ReadLine) && c1 == ClientStep(sha, c, ReadLine)
    ensures ClientEnabled(c1.client, c1.down, Store(dest, [])) && c2 == ClientStep(sha, c1, Store(dest, []))
    ensures ClientEnabled(c2.client, c2.down, Transmit) && c3 == ClientStep(sha, c2, Transmit)
    ensures c3.thread == c.thread && c3.up == [Frame(MESSAGE, 1, name, dest, [], sha([]), 0)]
  {
    c1 := ClientStep(sha, c, ReadLine);
    c2 := ClientStep(sha, c1, Store(dest, []));
    c3 := ClientStep(sha, c2, Transmit);
    assert c1.up == [] && c2.up == [];
  }

  /** The client's half: an empty message is stored and sent. */
  lemma EmptyMessageIsSent(sha: Hash, fd: Fd, name: Name, dest: Name)
    returns (run: seq<World>, actions: seq<Action>, c: Conn, b: Started)
    ensures IsRun(sha, run, actions) && |actions| == 14 && |run| == 15
    ensures run[14] == Solo(fd, c, map[name := fd], {}, None, [b])
    ensures c.up == [Frame(MESSAGE, 1, name, dest, [], sha([]), 0)]
    ensures c.thread == NEW_THREAD.(phase := Serving, name := name, packetNumber := c.thread.packetNumber)
  {
    hide Step, Enabled, ClientStep, ClientEnabled;
    var table := map[name := fd];
    run, actions, c, b := Enters(sha, fd, name);
    var c1, c2, c3 := EmptyCommand(sha, c, name, dest);
    ClientActs(sha, fd, c, ReadLine, table, [b]);
    run, actions := Then(sha, run, actions, ClientAct(fd, ReadLine), Solo(fd, c1, table, {}, None, [b]));
    ClientActs(sha, fd, c1, Store(dest, []), table, [b]);
    run, actions := Then(sha, run, actions, ClientAct(fd, Store(dest, [])), Solo(fd, c2, table, {}, None, [b]));
    ClientActs(sha, fd, c2, Transmit, table, [b]);
    run, actions := Then(sha, run, actions, ClientAct(fd, Transmit), Solo(fd, c3, table, {}, None, [b]));
    c := c3;
  }

  /** What the thread does with it: an ACK, and nothing to pass on. */
  lemma EmptyFrame(sha: Hash, t: Thread, f: Frame)
    requires t.phase == Serving && t.jobs == [] && f.kind == MESSAGE && f.checksum == sha([])
    ensures OnFrame(sha, t, f, []) == t.(jobs := [SendTo(t.name, Answer(ACK, f, t.name), false)], phase := Leaving)
  {
  }

  lemma AckDone(t: Thread, f: Frame)
    requires t.jobs == [SendTo(t.name, f, false)] && f.kind == ACK
    ensures JobDone(t, true) == t.(jobs := [], hold := SharedDone, acked := t.acked + [f.serial])
  {
  }

  /**
   A client that sends an empty message: it is acknowledged, and the thread leaves without dispatching
   it. The shipped client encrypts every body and so never stores an empty one.
   */
  lemma EmptyMessageIsNotDispatched(sha: Hash, fd: Fd, name: Name, dest: Name)
    returns (run: seq<World>, actions: seq<Action>)
    ensures IsRun(sha, run, actions) && |actions| == 18 && |run| == 19 && fd in run[18].conns
    ensures var t := run[18].conns[fd].thread;
      t.phase == Leaving && t.jobs == [] && t.acked == [0] && t.dispatched == []
  {
    hide Step, Enabled, OnFrame, JobDone, IsRun;
    var table := map[name := fd];
    var c, b;
    run, actions, c, b := EmptyMessageIsSent(sha, fd, name, dest);
    var f := c.up[0];
    Reads(sha, fd, c, [], table, [b]);
    EmptyFrame(sha, c.thread, f);
    c := c.(up := c.up[1..], thread := OnFrame(sha, c.thread, f, []));
    run, actions := Then(sha, run, actions, ReadFrame(fd, []), Solo(fd, c, table, {}, None, [b]));
    Acquires(sha, fd, c, table, [b]);
    c := c.(thread := c.thread.(hold := Shared({})));
    run, actions := Then(sha, run, actions, AcquireRead(fd), Solo(fd, c, table, {fd}, None, [b]));
    SendsToItself(sha, fd, c, table, [b]);
    AckDone(c.thread, Answer(ACK, f, name));
    c := c.(thread := JobDone(c.thread, true), down := c.down + [c.thread.jobs[0].frame]);
    run, actions := Then(sha, run, actions, Send(fd), Solo(fd, c, table, {fd}, None, [b]));
    Releases(sha, fd, c, table, [b]);
    c := c.(thread := c.thread.(hold := Free));
    run, actions := Then(sha, run, actions, ReleaseRead(fd), Solo(fd, c, table, {}, None, [b]));
  }
}
