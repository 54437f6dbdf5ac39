/**
 The sequential server code and the transition system agree: what a thread does when nobody
 interferes is a run of its own steps, lock by lock and visit by visit.
 */
module Refinement {
  import opened Words
  import opened HeaderLayout
  import opened Options
  import opened Protocol
  import opened Broadcasts
  import opened ServerCode
  import UserList

  /** The actions lead from `w` to `w'`. */
  ghost predicate Leads(sha: Hash, w: World, actions: seq<Action>, w': World)
    decreases |actions|
  {
    if actions == [] then w == w'
    else Enabled(w, actions[0]) && Leads(sha, Step(sha, w, actions[0]), actions[1..], w')
  }

  lemma {:induction false} LeadsOn(sha: Hash, w: World, a: seq<Action>, w1: World, b: seq<Action>, w2: World)
    requires Leads(sha, w, a, w1) && Leads(sha, w1, b, w2)
    ensures Leads(sha, w, a + b, w2)
    decreases |a|
  {
    hide Step, Enabled;
    if a == [] {
      assert a + b == b;
    } else {
      assert (a + b)[0] == a[0] && (a + b)[1..] == a[1..] + b;
      LeadsOn(sha, Step(sha, w, a[0]), a[1..], w1, b, w2);
    }
  }

  lemma LeadsOne(sha: Hash, w: World, a: Action)
    requires Enabled(w, a)
    ensures Leads(sha, w, [a], Step(sha, w, a))
  {
    hide Step, Enabled;
    assert [a][1..] == [];
  }

  /** What has been sent to each open socket. */
  function Downs(conns: map<Fd, Conn>): Sockets {
    map fd | fd in conns :: conns[fd].down
  }

  lemma DownsDeliver(conns: map<Fd, Conn>, fd: Fd, f: Frame, cause: Cause)
    ensures Downs(Deliver(conns, fd, f, cause)) == Append(Downs(conns), fd, f)
  {
  }

  /** Threads that differ in what they see of the lock only. */
  predicate SameWork(t: Thread, t': Thread) {
    t' == t.(hold := t'.hold, broadcast := t'.broadcast)
  }

  /** Threads that have the same work to do, whatever they have acknowledged and dispatched before. */
  predicate SamePlan(t: Thread, t': Thread) {
    t' == t.(hold := t'.hold, broadcast := t'.broadcast, acked := t'.acked, dispatched := t'.dispatched)
  }

  lemma {:induction false} WorkIgnoresHistory(
      table: map<Name, Fd>, sockets: Sockets, t: Thread, t': Thread, usernames: Bytes)
    requires SamePlan(t, t')
    ensures Work(table, sockets, t, usernames).0 == Work(table, sockets, t', usernames).0
    ensures SamePlan(Work(table, sockets, t, usernames).1, Work(table, sockets, t', usernames).1)
    ensures SameWork(t, t') ==>
      SameWork(Work(table, sockets, t, usernames).1, Work(table, sockets, t', usernames).1)
    decreases Weight(t.jobs)
  {
    hide Append, AppendForAll;
    if t.jobs != [] {
      WeightDrops(t, usernames);
      match t.jobs[0]
      case SendTo(dest, f, _) =>
        var ok := Reachable(sockets, table, dest);
        var sockets' := if ok then Append(sockets, table[dest], f) else sockets;
        WorkIgnoresHistory(table, sockets', JobDone(t, ok), JobDone(t', ok), usernames);
      case ToAll(f, _) =>
        var sockets' := AppendForAll(sockets, table, table.Keys - {t.name}, f);
        WorkIgnoresHistory(table, sockets', JobDone(t, true), JobDone(t', true), usernames);
      case ListUsers =>
        WorkIgnoresHistory(table, sockets, UsersJob(t, usernames), UsersJob(t', usernames), usernames);
    }
  }

  /** The thread of `fd` is between two jobs and could take the lock. */
  ghost predicate Ready(w: World, fd: Fd) {
    && fd in w.conns && w.conns[fd].thread.hold == Free
    && w.writer == None && fd !in w.readers
    && (w.conns[fd].thread.jobs == [ListUsers] || ListUsers !in w.conns[fd].thread.jobs)
  }

  /** From `w` to `w'` one thread took the lock, changed its work to `t` and sent what turns `Downs` into `sockets`. */
  ghost predicate Performs(sha: Hash, w: World, fd: Fd, actions: seq<Action>, w': World, t: Thread, sockets: Sockets) {
    && Leads(sha, w, actions, w')
    && fd in w'.conns && SameWork(t, w'.conns[fd].thread) && w'.conns[fd].thread.hold == Free
    && Downs(w'.conns) == sockets
    && fd in w.conns && w'.conns[fd].up == w.conns[fd].up
    && w'.table == w.table && w'.writer == None && w'.readers == w.readers
  }

  /** `w` is `w0` with the lock held for reading by the thread of `fd`, whatever it has sent. */
  ghost predicate InLock(w0: World, w: World, fd: Fd) {
    && fd in w0.conns && fd in w.conns && fd !in w0.readers
    && w.conns[fd].up == w0.conns[fd].up
    && w.table == w0.table && w.writer == None && w.readers == w0.readers + {fd}
  }

  lemma Acquire(sha: Hash, w: World, fd: Fd)
    requires Ready(w, fd) && w.conns[fd].thread.jobs != []
    ensures Enabled(w, AcquireRead(fd))
    ensures var t, w1 := w.conns[fd].thread, Step(sha, w, AcquireRead(fd));
      && InLock(w, w1, fd) && Downs(w1.conns) == Downs(w.conns)
      && SameWork(t, w1.conns[fd].thread)
      && w1.conns[fd].thread.hold == Shared(if t.jobs[0].ToAll? then w.table.Keys else {})
  {
    hide JobStep, SessionStep;
  }

  lemma Release(sha: Hash, w0: World, w: World, fd: Fd)
    requires InLock(w0, w, fd) && w.conns[fd].thread.hold == SharedDone
    ensures Enabled(w, ReleaseRead(fd))
    ensures var t, w' := w.conns[fd].thread, Step(sha, w, ReleaseRead(fd));
      && fd in w'.conns && w'.conns[fd].thread == t.(hold := Free) && Downs(w'.conns) == Downs(w.conns)
      && w'.conns[fd].up == w0.conns[fd].up
      && w'.table == w0.table && w'.writer == None && w'.readers == w0.readers
  {
    hide JobStep, SessionStep;
  }

  lemma MovedDowns(conns: map<Fd, Conn>, fd: Fd, t: Thread)
    requires fd in conns
    ensures Downs(conns[fd := conns[fd].(thread := t)]) == Downs(conns)
  {
  }

  lemma SendEffect(sha: Hash, w0: World, w: World, fd: Fd)
    requires InLock(w0, w, fd) && w.conns[fd].thread.hold.Shared?
    requires w.conns[fd].thread.jobs != [] && w.conns[fd].thread.jobs[0].SendTo?
    ensures Enabled(w, Send(fd))
    ensures var t, w' := w.conns[fd].thread, Step(sha, w, Send(fd));
      var j := t.jobs[0];
      var ok := Reachable(Downs(w.conns), w.table, j.dest);
      && InLock(w0, w', fd) && w'.conns[fd].thread == JobDone(t, ok)
      && Downs(w'.conns) == if ok then Append(Downs(w.conns), w.table[j.dest], j.frame) else Downs(w.conns)
  {
    hide LockStep, SessionStep, JobDone;
    var t := w.conns[fd].thread;
    var j := t.jobs[0];
    var ok := Reachable(Downs(w.conns), w.table, j.dest);
    var conns := w.conns[fd := w.conns[fd].(thread := JobDone(t, ok))];
    MovedDowns(w.conns, fd, JobDone(t, ok));
    if ok {
      DownsDeliver(conns, w.table[j.dest], j.frame, CauseOf(w.conns[fd]));
    }
    hide Append, Downs;
  }

  lemma ThreeSteps(sha: Hash, w: World, a: Action, w1: World, b: seq<Action>, w2: World, c: Action)
    requires Enabled(w, a) && w1 == Step(sha, w, a) && Leads(sha, w1, b, w2) && Enabled(w2, c)
    ensures Leads(sha, w, [a] + b + [c], Step(sha, w2, c))
  {
    hide Step, Enabled, Leads;
    LeadsOne(sha, w, a);
    LeadsOne(sha, w2, c);
    LeadsOn(sha, w, [a], w1, b, w2);
    LeadsOn(sha, w, [a] + b, w2, [c], Step(sha, w2, c));
  }

  lemma SendRuns(sha: Hash, w: World, fd: Fd) returns (actions: seq<Action>, w': World)
    requires Ready(w, fd) && w.conns[fd].thread.jobs != [] && w.conns[fd].thread.jobs[0].SendTo?
    ensures var t := w.conns[fd].thread;
      var j := t.jobs[0];
      var ok := Reachable(Downs(w.conns), w.table, j.dest);
      Performs(sha, w, fd, actions, w', JobDone(t, ok),
               if ok then Append(Downs(w.conns), w.table[j.dest], j.frame) else Downs(w.conns))
  {
    hide Step, Enabled, Append, Leads, Downs;
    Acquire(sha, w, fd);
    var w1 := Step(sha, w, AcquireRead(fd));
    SendEffect(sha, w, w1, fd);
    var w2 := Step(sha, w1, Send(fd));
    Release(sha, w, w2, fd);
    w' := Step(sha, w2, ReleaseRead(fd));
    LeadsOne(sha, w1, Send(fd));
    ThreeSteps(sha, w, AcquireRead(fd), w1, [Send(fd)], w2, ReleaseRead(fd));
    actions := [AcquireRead(fd)] + [Send(fd)] + [ReleaseRead(fd)];
  }

  lemma ListRuns(sha: Hash, w: World, fd: Fd, order: seq<Name>) returns (actions: seq<Action>, w': World)
    requires Ready(w, fd) && w.conns[fd].thread.jobs == [ListUsers] && multiset(order) == multiset(w.table.Keys)
    ensures Performs(sha, w, fd, actions, w', UsersJob(w.conns[fd].thread, UserList.Listing(order)), Downs(w.conns))
  {
    hide Step, Append, Leads, Downs, UserList.Listing;
    Acquire(sha, w, fd);
    var w1 := Step(sha, w, AcquireRead(fd));
    var a := List(fd, order);
    assert Enabled(w1, a);
    ListEffect(sha, w, w1, fd, order);
    var w2 := Step(sha, w1, a);
    Release(sha, w, w2, fd);
    w' := Step(sha, w2, ReleaseRead(fd));
    LeadsOne(sha, w1, a);
    ThreeSteps(sha, w, AcquireRead(fd), w1, [a], w2, ReleaseRead(fd));
    actions := [AcquireRead(fd)] + [a] + [ReleaseRead(fd)];
  }

  lemma ListEffect(sha: Hash, w0: World, w: World, fd: Fd, order: seq<Name>)
    requires InLock(w0, w, fd) && Enabled(w, List(fd, order))
    ensures var t, w' := w.conns[fd].thread, Step(sha, w, List(fd, order));
      && InLock(w0, w', fd) && w'.conns[fd].thread == UsersJob(t, UserList.Listing(order)).(hold := SharedDone)
      && Downs(w'.conns) == Downs(w.conns)
  {
    hide LockStep, SessionStep, UserList.Listing, IncrementServer;
    assert w.conns[fd].thread.jobs[1..] == [];
  }

  // ---- Broadcasts, visit by visit ----

  lemma VisitEffect(sha: Hash, w0: World, w: World, fd: Fd, u: Name)
    requires InLock(w0, w, fd) && w.conns[fd].thread.hold.Shared? && u in w.conns[fd].thread.hold.left && u in w.table
    requires w.conns[fd].thread.jobs != [] && w.conns[fd].thread.jobs[0].ToAll?
    ensures Enabled(w, Visit(fd, u))
    ensures var t, w' := w.conns[fd].thread, Step(sha, w, Visit(fd, u));
      && InLock(w0, w', fd) && w'.conns[fd].thread == t.(hold := Shared(t.hold.left - {u}))
      && Downs(w'.conns) == if u == t.name then Downs(w.conns) else Append(Downs(w.conns), w.table[u], t.jobs[0].frame)
  {
    hide LockStep, SessionStep, Visited;
    var t := w.conns[fd].thread;
    var t' := t.(hold := Shared(t.hold.left - {u}));
    var conns := w.conns[fd := w.conns[fd].(thread := t')];
    MovedDowns(w.conns, fd, t');
    if u != t.name {
      DownsDeliver(conns, w.table[u], t.jobs[0].frame, CauseOf(w.conns[fd]));
    }
    hide Append, Downs;
  }

  /** All remaining visits of a broadcast that has served the users in `served` so far. */
  lemma {:induction false} VisitsRun(sha: Hash, w0: World, w: World, fd: Fd, served: set<Name>)
    returns (actions: seq<Action>, w': World)
    requires InLock(w0, w, fd)
    requires var t := w.conns[fd].thread;
      t.hold.Shared? && t.jobs != [] && t.jobs[0].ToAll? && t.hold.left <= w.table.Keys
    requires var t := w.conns[fd].thread; served == w.table.Keys - t.hold.left - {t.name}
    requires Downs(w.conns) == AppendForAll(Downs(w0.conns), w.table, served, w.conns[fd].thread.jobs[0].frame)
    ensures Leads(sha, w, actions, w') && InLock(w0, w', fd)
    ensures var t := w.conns[fd].thread;
      && w'.conns[fd].thread == t.(hold := Shared({}))
      && Downs(w'.conns) == AppendForAll(Downs(w0.conns), w.table, w.table.Keys - {t.name}, t.jobs[0].frame)
    decreases w.conns[fd].thread.hold.left
  {
    hide Step, Enabled, Append, AppendForAll, Downs;
    var t := w.conns[fd].thread;
    if t.hold.left == {} {
      actions, w' := [], w;
      assert served == w.table.Keys - {t.name};
    } else {
      var u :| u in t.hold.left;
      VisitEffect(sha, w0, w, fd, u);
      var w1 := Step(sha, w, Visit(fd, u));
      var served' := if u == t.name then served else served + {u};
      assert served' == w.table.Keys - (t.hold.left - {u}) - {t.name};
      if u != t.name {
        AppendOneMore(Downs(w0.conns), w.table, served, u, t.jobs[0].frame);
      }
      var rest;
      rest, w' := VisitsRun(sha, w0, w1, fd, served');
      LeadsOne(sha, w, Visit(fd, u));
      LeadsOn(sha, w, [Visit(fd, u)], w1, rest, w');
      actions := [Visit(fd, u)] + rest;
    }
  }

  lemma FinishEffect(sha: Hash, w0: World, w: World, fd: Fd)
    requires InLock(w0, w, fd) && w.conns[fd].thread.hold == Shared({})
    requires w.conns[fd].thread.jobs != [] && w.conns[fd].thread.jobs[0].ToAll?
    ensures Enabled(w, FinishBroadcast(fd))
    ensures var t, w' := w.conns[fd].thread, Step(sha, w, FinishBroadcast(fd));
      && InLock(w0, w', fd) && w'.conns[fd].thread == JobDone(t, true) && Downs(w'.conns) == Downs(w.conns)
  {
    hide LockStep, SessionStep, JobDone;
  }

  lemma ToAllRuns(sha: Hash, w: World, fd: Fd) returns (actions: seq<Action>, w': World)
    requires Ready(w, fd) && w.conns[fd].thread.jobs != [] && w.conns[fd].thread.jobs[0].ToAll?
    ensures var t := w.conns[fd].thread;
      Performs(sha, w, fd, actions, w', JobDone(t, true),
               AppendForAll(Downs(w.conns), w.table, w.table.Keys - {t.name}, t.jobs[0].frame))
  {
    hide Step, Enabled, AppendForAll, Leads, Downs;
    var t := w.conns[fd].thread;
    Acquire(sha, w, fd);
    var w1 := Step(sha, w, AcquireRead(fd));
    AppendForNobody(Downs(w.conns), w.table, t.jobs[0].frame);
    var visits, w2 := VisitsRun(sha, w, w1, fd, {});
    FinishEffect(sha, w, w2, fd);
    var w3 := Step(sha, w2, FinishBroadcast(fd));
    Release(sha, w, w3, fd);
    w' := Step(sha, w3, ReleaseRead(fd));
    LeadsOne(sha, w2, FinishBroadcast(fd));
    LeadsOn(sha, w1, visits, w2, [FinishBroadcast(fd)], w3);
    ThreeSteps(sha, w, AcquireRead(fd), w1, visits + [FinishBroadcast(fd)], w3, ReleaseRead(fd));
    actions := [AcquireRead(fd)] + (visits + [FinishBroadcast(fd)]) + [ReleaseRead(fd)];
  }

  /**
   Left alone, a thread with jobs to do has a run of its own steps that ends with exactly the
   sockets and the thread that the sequential code computes.
   */
  lemma {:induction false} SequentialIsARun(sha: Hash, w: World, fd: Fd, order: seq<Name>)
    returns (actions: seq<Action>, w': World)
    requires Ready(w, fd) && multiset(order) == multiset(w.table.Keys)
    ensures var r := Work(w.table, Downs(w.conns), w.conns[fd].thread, UserList.Listing(order));
      Performs(sha, w, fd, actions, w', r.1, r.0)
    decreases Weight(w.conns[fd].thread.jobs)
  {
    hide Leads, Downs, Append, AppendForAll, UserList.Listing, Step, Enabled;
    var t, usernames := w.conns[fd].thread, UserList.Listing(order);
    if t.jobs == [] {
      actions, w' := [], w;
      LeadsNowhere(sha, w);
    } else {
      WeightDrops(t, usernames);
      var first, w1;
      ghost var sockets, t1;
      if t.jobs[0].SendTo? {
        first, w1 := SendRuns(sha, w, fd);
        var ok := Reachable(Downs(w.conns), w.table, t.jobs[0].dest);
        t1 := JobDone(t, ok);
        sockets := if ok then Append(Downs(w.conns), w.table[t.jobs[0].dest], t.jobs[0].frame) else Downs(w.conns);
      } else if t.jobs[0].ToAll? {
        first, w1 := ToAllRuns(sha, w, fd);
        t1 := JobDone(t, true);
        sockets := AppendForAll(Downs(w.conns), w.table, w.table.Keys - {t.name}, t.jobs[0].frame);
      } else {
        first, w1 := ListRuns(sha, w, fd, order);
        t1 := UsersJob(t, usernames);
        sockets := Downs(w.conns);
      }
      assert Work(w.table, Downs(w.conns), t, usernames) == Work(w.table, sockets, t1, usernames);
      WorkIgnoresHistory(w.table, sockets, t1, w1.conns[fd].thread, usernames);
      hide Work;
      var rest;
      rest, w' := SequentialIsARun(sha, w1, fd, order);
      LeadsOn(sha, w, first, w1, rest, w');
      actions := first + rest;
    }
  }

  lemma LeadsNowhere(sha: Hash, w: World)
    ensures Leads(sha, w, [], w)
  {
  }

  // ---- The main loop ----

  /** The thread of `fd` is about to read, and nobody keeps it from taking the lock. */
  ghost predicate AtItsRead(w: World, fd: Fd) {
    && fd in w.conns && w.conns[fd].thread.phase == Serving
    && w.conns[fd].thread.hold == Free && w.conns[fd].thread.jobs == []
    && w.writer == None && fd !in w.readers
  }

  /** From `w` to `w'` the thread of `fd` has sent what turns `Downs` into `sockets`, and has no jobs left. */
  ghost predicate Serves(sha: Hash, w: World, fd: Fd, actions: seq<Action>, w': World, sockets: Sockets) {
    && Leads(sha, w, actions, w')
    && fd in w.conns && fd in w'.conns && w'.conns[fd].thread.hold == Free && w'.conns[fd].thread.jobs == []
    && Downs(w'.conns) == sockets && w'.conns[fd].thread.name == w.conns[fd].thread.name
    && w'.table == w.table && w'.writer == w.writer && w'.readers == w.readers
  }

  lemma {:induction false} WorkEnds(table: map<Name, Fd>, sockets: Sockets, t: Thread, usernames: Bytes)
    ensures var t' := Work(table, sockets, t, usernames).1;
      t'.jobs == [] && t'.name == t.name && t'.phase == t.phase
    decreases Weight(t.jobs)
  {
    hide Append, AppendForAll;
    if t.jobs != [] {
      WeightDrops(t, usernames);
      match t.jobs[0]
      case SendTo(dest, f, _) =>
        var ok := Reachable(sockets, table, dest);
        WorkEnds(table, if ok then Append(sockets, table[dest], f) else sockets, JobDone(t, ok), usernames);
      case ToAll(f, _) =>
        WorkEnds(table, AppendForAll(sockets, table, table.Keys - {t.name}, f), JobDone(t, true), usernames);
      case ListUsers => WorkEnds(table, sockets, UsersJob(t, usernames), usernames);
    }
  }

  lemma ReadEffect(sha: Hash, w: World, fd: Fd, received: Bytes)
    requires AtItsRead(w, fd) && w.conns[fd].up != [] && |received| == |w.conns[fd].up[0].body|
    ensures Enabled(w, ReadFrame(fd, received))
    ensures var c, w' := w.conns[fd], Step(sha, w, ReadFrame(fd, received));
      && fd in w'.conns && w'.conns[fd].up == c.up[1..]
      && w'.conns[fd].thread == OnFrame(sha, c.thread, c.up[0], received)
      && Ready(w', fd) && Downs(w'.conns) == Downs(w.conns)
      && w'.table == w.table && w'.readers == w.readers
  {
    var c := w.conns[fd];
    var t := OnFrame(sha, c.thread, c.up[0], received);
    assert t.hold == Free && (t.jobs == [ListUsers] || ListUsers !in t.jobs);
    hide OnFrame, LockStep, JobStep;
  }

  /** A thread at its read reacts like one that has just started, apart from what it remembers. */
  lemma ReactsAfresh(sha: Hash, t: Thread, f: Frame, received: Bytes)
    requires t.phase == Serving && t.jobs == [] && t.hold == Free
    ensures SamePlan(OnFrame(sha, AtRead(t.name, t.packetNumber), f, received), OnFrame(sha, t, f, received))
  {
  }

  /**
   One turn of the main loop, undisturbed: reading the frame and then doing its jobs step by step
   leads to the sockets, the packet number and the phase that the sequential code computes, whatever
   the thread has done before.
   */
  lemma TurnIsARun(sha: Hash, w: World, fd: Fd, received: Bytes, order: seq<Name>)
    returns (actions: seq<Action>, w': World)
    requires AtItsRead(w, fd) && w.conns[fd].up != [] && |received| == |w.conns[fd].up[0].body|
    requires multiset(order) == multiset(w.table.Keys)
    ensures actions != [] && actions[0] == ReadFrame(fd, received)
    ensures var t := w.conns[fd].thread;
      var r := Work(w.table, Downs(w.conns), OnFrame(sha, AtRead(t.name, t.packetNumber), w.conns[fd].up[0], received),
                    UserList.Listing(order));
      && Serves(sha, w, fd, actions, w', r.0) && w'.conns[fd].up == w.conns[fd].up[1..]
      && w'.conns[fd].thread.packetNumber == r.1.packetNumber && w'.conns[fd].thread.phase == r.1.phase
    ensures var t, t' := w.conns[fd].thread, w'.conns[fd].thread;
      TurnDoes(sha, w.table, Downs(w.conns), Downs(w'.conns), t.name, t.packetNumber, t'.packetNumber,
               w.conns[fd].up[0], received, UserList.Listing(order), t'.phase == Leaving)
  {
    hide Leads, Downs, Append, AppendForAll, UserList.Listing, Step, Enabled, Work, OnFrame, TurnDoes;
    var c, usernames := w.conns[fd], UserList.Listing(order);
    var fresh', t := OnFrame(sha, AtRead(c.thread.name, c.thread.packetNumber), c.up[0], received),
                     OnFrame(sha, c.thread, c.up[0], received);
    ReadEffect(sha, w, fd, received);
    var w1 := Step(sha, w, ReadFrame(fd, received));
    var rest;
    rest, w' := SequentialIsARun(sha, w1, fd, order);
    ReactsAfresh(sha, c.thread, c.up[0], received);
    WorkIgnoresHistory(w.table, Downs(w.conns), fresh', t, usernames);
    WorkEnds(w.table, Downs(w.conns), t, usernames);
    LeadsOne(sha, w, ReadFrame(fd, received));
    LeadsOn(sha, w, [ReadFrame(fd, received)], w1, rest, w');
    actions := [ReadFrame(fd, received)] + rest;
    WorkIsTurn(sha, w.table, Downs(w.conns), c.thread.name, c.thread.packetNumber, c.up[0], received, usernames);
  }

  /** The frames waiting in the channel are those of `incoming`, in the length they were sent. */
  predicate Waiting(up: seq<Frame>, incoming: seq<Incoming>) {
    && |up| == |incoming|
    && forall i | 0 <= i < |up| :: up[i] == incoming[i].frame && |incoming[i].received| == |up[i].body|
  }

  function Listings(orders: seq<seq<Name>>): (s: seq<Bytes>)
    ensures |s| == |orders|
  {
    seq(|orders|, i requires 0 <= i < |orders| => UserList.Listing(orders[i]))
  }

  /** The main loop over any number of frames, undisturbed, until one makes the thread leave. */
  lemma {:induction false} LoopIsARun(
      sha: Hash, w: World, fd: Fd, incoming: seq<Incoming>, orders: seq<seq<Name>>, n: nat)
    returns (actions: seq<Action>, w': World)
    requires AtItsRead(w, fd) && Waiting(w.conns[fd].up, incoming) && n <= |orders| <= |incoming|
    requires forall order | order in orders :: multiset(order) == multiset(w.table.Keys)
    ensures var t := w.conns[fd].thread;
      var s := Serve(sha, w.table, t.name, Downs(w.conns), t.packetNumber, incoming, Listings(orders), n);
      && Serves(sha, w, fd, actions, w', s.sockets)
      && w'.conns[fd].thread.packetNumber == s.packetNumber
      && w'.conns[fd].thread.phase == (if s.left then Leaving else Serving)
      && (!s.left ==> w'.conns[fd].up == w.conns[fd].up[n..])
    decreases n
  {
    hide Leads, Downs, Append, AppendForAll, UserList.Listing, Step, Enabled, Work, OnFrame, Listings;
    var t := w.conns[fd].thread;
    if n == 0 {
      actions, w' := [], w;
      LeadsNowhere(sha, w);
    } else {
      actions, w' := LoopIsARun(sha, w, fd, incoming, orders, n - 1);
      var s := Serve(sha, w.table, t.name, Downs(w.conns), t.packetNumber, incoming, Listings(orders), n - 1);
      if !s.left {
        assert w'.conns[fd].up[0] == w.conns[fd].up[n - 1] == incoming[n - 1].frame;
        assert w'.conns[fd].up[1..] == w.conns[fd].up[n..];
        assert orders[n - 1] in orders && Listings(orders)[n - 1] == UserList.Listing(orders[n - 1]) by {
          ListingAt(orders, n - 1);
        }
        var more, w2 := TurnIsARun(sha, w', fd, incoming[n - 1].received, orders[n - 1]);
        PhaseAfter(sha, w.table, Downs(w'.conns), t.name, s.packetNumber, incoming[n - 1],
                   UserList.Listing(orders[n - 1]));
        LeadsOn(sha, w, actions, w', more, w2);
        actions, w' := actions + more, w2;
      }
    }
  }

  lemma ListingAt(orders: seq<seq<Name>>, i: nat)
    requires i < |orders|
    ensures Listings(orders)[i] == UserList.Listing(orders[i])
  {
    hide UserList.Listing;
  }

  lemma PhaseAfter(sha: Hash, table: map<Name, Fd>, sockets: Sockets, name: Name, n: uint16, f: Incoming,
                   usernames: Bytes)
    ensures var t := Work(table, sockets, OnFrame(sha, AtRead(name, n), f.frame, f.received), usernames).1;
      t.phase == Serving || t.phase == Leaving
  {
    hide Work;
    WorkEnds(table, sockets, OnFrame(sha, AtRead(name, n), f.frame, f.received), usernames);
  }

  /**
   The whole of `client`, undisturbed: from the reply to the login to the frame that makes the thread
   leave, or the last one there is, a run of the thread's own steps ends with the sockets and the
   packet number that the sequential code ends with.
   */
  lemma ClientIsARun(sha: Hash, w: World, fd: Fd, incoming: seq<Incoming>, orders: seq<seq<Name>>)
    returns (actions: seq<Action>, w': World)
    requires Ready(w, fd) && Waiting(w.conns[fd].up, incoming) && |orders| <= |incoming|
    requires w.conns[fd].thread == Announce(AtRead(w.conns[fd].thread.name, 1), [])
    requires forall order | order in orders :: multiset(order) == multiset(w.table.Keys)
    ensures var s := Life(sha, w.table, w.conns[fd].thread.name, Downs(w.conns), incoming, Listings(orders));
      && Serves(sha, w, fd, actions, w', s.sockets)
      && w'.conns[fd].thread.packetNumber == s.packetNumber
      && w'.conns[fd].thread.phase == (if s.left then Leaving else Serving)
  {
    hide Leads, Downs, Append, AppendForAll, UserList.Listing, Step, Enabled, Work, Serve, IncrementServer, Listings;
    var t := w.conns[fd].thread;
    var order := UserList.SomeOrder(w.table.Keys);
    var first, w1 := SequentialIsARun(sha, w, fd, order);
    WorkOne(w.table, Downs(w.conns), t, UserList.Listing(order));
    WorkOne(w.table, Downs(w.conns), t, []);
    var more;
    more, w' := LoopIsARun(sha, w1, fd, incoming, orders, |orders|);
    LeadsOn(sha, w, first, w1, more, w');
    actions := first + more;
  }

  // ---- The whole login procedure ----

  /** The connection `fd` between two steps of its thread, with nobody else at the lock. */
  ghost predicate At(w: World, fd: Fd, t: Thread, up: seq<Frame>, sockets: Sockets, table: map<Name, Fd>) {
    && fd in w.conns && w.conns[fd].thread == t && w.conns[fd].up == up && Downs(w.conns) == sockets
    && w.table == table && w.readers == {} && w.writer == if t.hold == Free then None else Some(fd)
  }

  /** The socket `fd` is closed. */
  ghost predicate Gone(w: World, fd: Fd, sockets: Sockets, table: map<Name, Fd>) {
    && fd !in w.conns && Downs(w.conns) == sockets
    && w.table == table && w.readers == {} && w.writer == None
  }

  lemma ClosedDowns(conns: map<Fd, Conn>, fd: Fd)
    ensures Downs(conns - {fd}) == Downs(conns) - {fd}
  {
  }

  lemma ReadsLogin(sha: Hash, w: World, fd: Fd, login: Frame, up: seq<Frame>, sockets: Sockets, table: map<Name, Fd>)
    requires At(w, fd, NEW_THREAD, [login] + up, sockets, table)
    ensures var a := ReadLogin(fd);
      && Enabled(w, a)
      && if login.kind == LOGIN
         then At(Step(sha, w, a), fd, NEW_THREAD.(phase := Registering, name := login.source), up, sockets, table)
         else Gone(Step(sha, w, a), fd, sockets - {fd}, table)
  {
    hide LockStep, JobStep;
    assert ([login] + up)[1..] == up;
    ClosedDowns(w.conns, fd);
  }

  lemma TakesLock(sha: Hash, w: World, fd: Fd, t: Thread, up: seq<Frame>, sockets: Sockets, table: map<Name, Fd>)
    requires At(w, fd, t, up, sockets, table) && t.hold == Free
    requires t.phase == Registering || (t.phase == Leaving && t.jobs == [])
    ensures var a := AcquireWrite(fd);
      Enabled(w, a) && At(Step(sha, w, a), fd, t.(hold := Exclusive), up, sockets, table)
  {
    hide SessionStep, JobStep;
    MovedDowns(w.conns, fd, t.(hold := Exclusive));
  }

  lemma GivesLockBack(sha: Hash, w: World, fd: Fd, t: Thread, up: seq<Frame>, sockets: Sockets, table: map<Name, Fd>)
    requires At(w, fd, t, up, sockets, table) && t.hold == ExclusiveDone
    ensures var a := ReleaseWrite(fd);
      Enabled(w, a) && At(Step(sha, w, a), fd, t.(hold := Free), up, sockets, table)
  {
    hide SessionStep, JobStep;
    MovedDowns(w.conns, fd, t.(hold := Free));
  }

  lemma RegistersName(sha: Hash, w: World, fd: Fd, t: Thread, up: seq<Frame>, sockets: Sockets, table: map<Name, Fd>)
    requires At(w, fd, t, up, sockets, table) && t.hold == Exclusive && t.phase == Registering
    ensures var a := Register(fd);
      && Enabled(w, a)
      && if t.name in table
         then At(Step(sha, w, a), fd, t.(phase := Rejected, hold := ExclusiveDone), up, sockets, table)
         else At(Step(sha, w, a), fd, t.(phase := Replying, hold := ExclusiveDone), up, sockets, table[t.name := fd])
  {
    hide SessionStep, JobStep;
    MovedDowns(w.conns, fd, t.(phase := Rejected, hold := ExclusiveDone));
    MovedDowns(w.conns, fd, t.(phase := Replying, hold := ExclusiveDone));
  }

  lemma LogsOut(sha: Hash, w: World, fd: Fd, t: Thread, up: seq<Frame>, sockets: Sockets, table: map<Name, Fd>)
    requires At(w, fd, t, up, sockets, table) && t.hold == Exclusive && t.phase == Leaving
    ensures var a := LogOut(fd);
      && Enabled(w, a)
      && At(Step(sha, w, a), fd, t.(phase := Closing, hold := ExclusiveDone), up, sockets, table - {t.name})
  {
    hide SessionStep, JobStep;
    MovedDowns(w.conns, fd, t.(phase := Closing, hold := ExclusiveDone));
  }

  /** The three ways to close the socket: after a rejection, a failed reply or a logout. */
  lemma ClosesSocket(sha: Hash, w: World, fd: Fd, t: Thread, up: seq<Frame>, sockets: Sockets, table: map<Name, Fd>)
    requires At(w, fd, t, up, sockets, table) && t.hold == Free
    requires t.phase == Rejected || t.phase == Replying || t.phase == Closing
    ensures var a :=
        if t.phase == Rejected then Reject(fd) else if t.phase == Replying then ReplyFails(fd) else Close(fd);
      Enabled(w, a) && Gone(Step(sha, w, a), fd, sockets - {fd}, table)
  {
    hide LockStep, JobStep;
    ClosedDowns(w.conns, fd);
  }

  lemma SendsReply(sha: Hash, w: World, fd: Fd, t: Thread, up: seq<Frame>, sockets: Sockets, table: map<Name, Fd>)
    requires At(w, fd, t, up, sockets, table) && t.hold == Free && t.phase == Replying
    ensures var a := Reply(fd);
      var reply := Plain(LOGIN, t.packetNumber, [], t.name, []);
      && Enabled(w, a)
      && At(Step(sha, w, a), fd, Announce(t, []).(phase := Serving), up, Append(sockets, fd, reply), table)
  {
    hide LockStep, JobStep, Announce;
  }

  lemma StopsReading(sha: Hash, w: World, fd: Fd, t: Thread, up: seq<Frame>, sockets: Sockets, table: map<Name, Fd>)
    requires At(w, fd, t, up, sockets, table) && t.hold == Free && t.phase == Serving && t.jobs == []
    ensures var a := ReadFails(fd);
      Enabled(w, a) && At(Step(sha, w, a), fd, t.(phase := Leaving), up, sockets, table)
  {
    hide LockStep, JobStep;
    MovedDowns(w.conns, fd, t.(phase := Leaving));
  }

  lemma LeadsMore(sha: Hash, w: World, actions: seq<Action>, w1: World, a: Action)
    requires Leads(sha, w, actions, w1) && Enabled(w1, a)
    ensures Leads(sha, w, actions + [a], Step(sha, w1, a))
  {
    hide Step, Enabled, Leads;
    LeadsOne(sha, w1, a);
    LeadsOn(sha, w, actions, w1, [a], Step(sha, w1, a));
  }

  /** `add_new_user`: from the login frame to the lock given back. */
  lemma EntersTable(sha: Hash, w: World, fd: Fd, login: Frame, up: seq<Frame>, sockets: Sockets, table: map<Name, Fd>)
    returns (actions: seq<Action>, w': World)
    requires At(w, fd, NEW_THREAD, [login] + up, sockets, table) && login.kind == LOGIN
    ensures Leads(sha, w, actions, w')
    ensures var t := NEW_THREAD.(name := login.source);
      if login.source in table then At(w', fd, t.(phase := Rejected), up, sockets, table)
      else At(w', fd, t.(phase := Replying), up, sockets, table[login.source := fd])
  {
    hide Step, Enabled, Leads, At;
    var t := NEW_THREAD.(phase := Registering, name := login.source);
    ReadsLogin(sha, w, fd, login, up, sockets, table);
    LeadsOne(sha, w, ReadLogin(fd));
    var w1 := Step(sha, w, ReadLogin(fd));
    TakesLock(sha, w1, fd, t, up, sockets, table);
    LeadsMore(sha, w, [ReadLogin(fd)], w1, AcquireWrite(fd));
    actions := [ReadLogin(fd)] + [AcquireWrite(fd)];
    var w2 := Step(sha, w1, AcquireWrite(fd));
    RegistersName(sha, w2, fd, t.(hold := Exclusive), up, sockets, table);
    LeadsMore(sha, w, actions, w2, Register(fd));
    actions := actions + [Register(fd)];
    var w3 := Step(sha, w2, Register(fd));
    if login.source in table {
      GivesLockBack(sha, w3, fd, t.(phase := Rejected, hold := ExclusiveDone), up, sockets, table);
    } else {
      GivesLockBack(sha, w3, fd, t.(phase := Replying, hold := ExclusiveDone), up, sockets, table[login.source := fd]);
    }
    LeadsMore(sha, w, actions, w3, ReleaseWrite(fd));
    actions := actions + [ReleaseWrite(fd)];
    w' := Step(sha, w3, ReleaseWrite(fd));
  }

  /** `log_out_user` and the closing of the socket. */
  lemma LeavesTable(sha: Hash, w: World, fd: Fd, t: Thread, up: seq<Frame>, sockets: Sockets, table: map<Name, Fd>)
    returns (actions: seq<Action>, w': World)
    requires At(w, fd, t, up, sockets, table) && t.hold == Free && t.phase == Leaving && t.jobs == []
    ensures Leads(sha, w, actions, w') && Gone(w', fd, sockets - {fd}, table - {t.name})
  {
    hide Step, Enabled, Leads, At;
    TakesLock(sha, w, fd, t, up, sockets, table);
    LeadsOne(sha, w, AcquireWrite(fd));
    var w1 := Step(sha, w, AcquireWrite(fd));
    LogsOut(sha, w1, fd, t.(hold := Exclusive), up, sockets, table);
    LeadsMore(sha, w, [AcquireWrite(fd)], w1, LogOut(fd));
    actions := [AcquireWrite(fd)] + [LogOut(fd)];
    var w2 := Step(sha, w1, LogOut(fd));
    GivesLockBack(sha, w2, fd, t.(phase := Closing, hold := ExclusiveDone), up, sockets, table - {t.name});
    LeadsMore(sha, w, actions, w2, ReleaseWrite(fd));
    actions := actions + [ReleaseWrite(fd)];
    var w3 := Step(sha, w2, ReleaseWrite(fd));
    ClosesSocket(sha, w3, fd, t.(phase := Closing), up, sockets, table - {t.name});
    LeadsMore(sha, w, actions, w3, Close(fd));
    actions := actions + [Close(fd)];
    w' := Step(sha, w3, Close(fd));
  }

  /** From the reply to the closed socket. */
  lemma LifeIsARun(sha: Hash, w: World, fd: Fd, t: Thread, up: seq<Frame>, sockets: Sockets, table: map<Name, Fd>,
                   incoming: seq<Incoming>, orders: seq<seq<Name>>)
    returns (actions: seq<Action>, w': World)
    requires t == NEW_THREAD.(phase := Replying, name := t.name) && At(w, fd, t, up, sockets, table)
    requires Waiting(up, incoming) && |orders| <= |incoming|
    requires forall order | order in orders :: multiset(order) == multiset(table.Keys)
    ensures Leads(sha, w, actions, w')
    ensures var reply := Plain(LOGIN, 1, [], t.name, []);
      var life := Life(sha, table, t.name, Append(sockets, fd, reply), incoming, Listings(orders));
      Gone(w', fd, life.sockets - {fd}, table - {t.name})
  {
    hide Step, Enabled, Leads, Append, Life, Listings, Downs, IncrementServer, Waiting;
    SendsReply(sha, w, fd, t, up, sockets, table);
    LeadsOne(sha, w, Reply(fd));
    var w1 := Step(sha, w, Reply(fd));
    var more, w2 := ClientIsARun(sha, w1, fd, incoming, orders);
    LeadsOn(sha, w, [Reply(fd)], w1, more, w2);
    actions := [Reply(fd)] + more;
    var t2, sockets2 := w2.conns[fd].thread, Downs(w2.conns);
    var up2 := w2.conns[fd].up;
    if t2.phase == Serving {
      StopsReading(sha, w2, fd, t2, up2, sockets2, table);
      LeadsMore(sha, w, actions, w2, ReadFails(fd));
      actions := actions + [ReadFails(fd)];
      w2, t2 := Step(sha, w2, ReadFails(fd)), t2.(phase := Leaving);
    }
    var last;
    last, w' := LeavesTable(sha, w2, fd, t2, up2, sockets2, table);
    LeadsOn(sha, w, actions, w2, last, w');
    actions := actions + last;
  }

  /**
   `login_procedure`, undisturbed: from the accepted socket to the closed one, a run of the thread's own
   steps ends with the sockets and the table that the sequential contract gives, in all of its cases.
   */
  lemma LoginIsARun(sha: Hash, w: World, fd: Fd, login: Frame, replySent: bool,
                    incoming: seq<Incoming>, orders: seq<seq<Name>>)
    returns (actions: seq<Action>, w': World)
    requires fd in w.conns && At(w, fd, NEW_THREAD, w.conns[fd].up, Downs(w.conns), w.table)
    requires w.conns[fd].up != [] && w.conns[fd].up[0] == login
    requires Waiting(w.conns[fd].up[1..], incoming) && |orders| <= |incoming|
    requires forall order | order in orders :: multiset(order) == multiset(w.table[login.source := fd].Keys)
    ensures Leads(sha, w, actions, w') && fd !in w'.conns && w'.readers == {} && w'.writer == None
    ensures w'.table == if LogsIn(w.table, login) && !replySent then w.table[login.source := fd] else w.table
    ensures Downs(w'.conns) ==
      if LogsIn(w.table, login) && replySent
      then Life(sha, w.table[login.source := fd], login.source,
                Append(Downs(w.conns), fd, Plain(LOGIN, 1, [], login.source, [])),
                incoming, Listings(orders)).sockets - {fd}
      else Downs(w.conns) - {fd}
  {
    hide Step, Enabled, Leads, Append, Life, Listings, Downs, Waiting;
    var up, sockets, table := w.conns[fd].up[1..], Downs(w.conns), w.table;
    assert w.conns[fd].up == [login] + up;
    var name := login.source;
    if login.kind != LOGIN {
      ReadsLogin(sha, w, fd, login, up, sockets, table);
      LeadsOne(sha, w, ReadLogin(fd));
      actions, w' := [ReadLogin(fd)], Step(sha, w, ReadLogin(fd));
    } else {
      var w1;
      actions, w1 := EntersTable(sha, w, fd, login, up, sockets, table);
      var t := NEW_THREAD.(name := name);
      if name in table {
        ClosesSocket(sha, w1, fd, t.(phase := Rejected), up, sockets, table);
        LeadsMore(sha, w, actions, w1, Reject(fd));
        actions, w' := actions + [Reject(fd)], Step(sha, w1, Reject(fd));
      } else if !replySent {
        ClosesSocket(sha, w1, fd, t.(phase := Replying), up, sockets, table[name := fd]);
        LeadsMore(sha, w, actions, w1, ReplyFails(fd));
        actions, w' := actions + [ReplyFails(fd)], Step(sha, w1, ReplyFails(fd));
      } else {
        var more;
        more, w' := LifeIsARun(sha, w1, fd, t.(phase := Replying), up, sockets, table[name := fd], incoming, orders);
        LeadsOn(sha, w, actions, w1, more, w');
        actions := actions + more;
        assert table[name := fd] - {name} == table;
      }
    }
  }
}
