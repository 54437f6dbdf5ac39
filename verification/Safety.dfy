/**
 What holds in every world of every run.
 */
module Safety {
  import opened Words
  import opened HeaderLayout
  import opened Options
  import opened Protocol
  import opened Delivery
  import opened SharedTable

  ghost predicate ConnsOk(sha: Hash, w: World) {
    forall fd | fd in w.conns :: ConnOk(sha, w.conns[fd])
  }

  /** Steps of a thread that neither read a frame nor finish a job. */
  predicate MovesOnly(a: Action) {
    a.AcquireWrite? || a.Register? || a.LogOut? || a.ReleaseWrite? || a.AcquireRead? || a.ReleaseRead? || a.List?
  }

  /** The same jobs, except that a request for the user list becomes its reply. */
  ghost predicate QuietMove(t: Thread, t': Thread) {
    && t'.acked == t.acked && t'.dispatched == t.dispatched && t'.name == t.name
    && (Reading(t') ==> Reading(t))
    && (t'.hold.Shared? ==> t'.jobs != [])
    && (t'.hold.Exclusive? || t'.hold.ExclusiveDone? ==> t'.jobs == [])
    && (t'.phase == t.phase || (t.jobs == [] && t'.jobs == []))
    && (t'.jobs == t.jobs
        || (t.jobs == [ListUsers] && |t'.jobs| == 1 && IsUserList(t'.jobs[0], t.name)))
  }

  predicate IsUserList(j: Job, name: Name) {
    j.SendTo? && j.dest == name && j.frame.kind == WHO && !j.relay
  }

  ghost predicate QuietConn(c: Conn, c': Conn) {
    c' == c.(thread := c'.thread) && QuietMove(c.thread, c'.thread)
  }

  lemma LockMoveIsQuiet(w: World, a: Action)
    requires Enabled(w, a) && UsesLock(a) && JobsOk(w.conns[a.fd].thread)
    ensures a.fd in LockStep(w, a).conns && QuietConn(w.conns[a.fd], LockStep(w, a).conns[a.fd])
  {
    hide IsUserList;
  }

  lemma ListMoveIsQuiet(w: World, a: Action)
    requires Enabled(w, a) && a.List? && JobsOk(w.conns[a.fd].thread)
    ensures a.fd in JobStep(w, a).conns && QuietConn(w.conns[a.fd], JobStep(w, a).conns[a.fd])
  {
    hide IncrementServer, UserList.Listing;
  }

  lemma MoveIsQuiet(sha: Hash, w: World, a: Action)
    requires Enabled(w, a) && MovesOnly(a) && JobsOk(w.conns[a.fd].thread)
    ensures a.fd in Step(sha, w, a).conns
    ensures QuietConn(w.conns[a.fd], Step(sha, w, a).conns[a.fd])
  {
    hide QuietConn, LockStep, JobStep, JobsOk, EnabledFor;
    if a.List? {
      ListMoveIsQuiet(w, a);
    } else {
      LockMoveIsQuiet(w, a);
    }
  }

  lemma QuietMoveKeepsConn(sha: Hash, c: Conn, t: Thread)
    requires ConnOk(sha, c) && QuietMove(c.thread, t)
    ensures ConnOk(sha, c.(thread := t))
  {
    hide Serials, FramesOk, TokensOk, OrderOk;
    JobsOkOf(sha, c);
    QuietThread(sha, c, t);
  }

  lemma JobsOkOf(sha: Hash, c: Conn)
    requires ConnOk(sha, c)
    ensures JobsOk(c.thread)
    ensures forall j | j in c.thread.jobs :: JobOk(sha, c.client, c.thread.name, j)
  {
  }

  ghost predicate AllOk(sha: Hash, conns: map<Fd, Conn>) {
    forall fd | fd in conns :: ConnOk(sha, conns[fd])
  }

  lemma DeliverKeepsConns(sha: Hash, conns: map<Fd, Conn>, fd: Fd, f: Frame, cause: Cause)
    requires AllOk(sha, conns) && !f.IsAnswer()
    ensures AllOk(sha, Deliver(conns, fd, f, cause))
  {
    if fd in conns {
      var c := conns[fd];
      ArrivalKeepsConn(sha, c, f, c.heard + Heard(cause, f), c.got + Got(cause, f));
    }
    hide ConnOk;
  }

  /** A job other than an answer is done. */
  lemma JobDoneKeepsConn(sha: Hash, c: Conn, success: bool)
    requires ConnOk(sha, c) && c.thread.hold.Shared?
    requires c.thread.jobs != [] && !c.thread.jobs[0].ListUsers?
    requires c.thread.jobs[0].SendTo? ==> !c.thread.jobs[0].frame.IsAnswer()
    ensures ConnOk(sha, c.(thread := JobDone(c.thread, success)))
    ensures c.thread.jobs[0].frame.IsAnswer() == false
  {
    var t := c.thread;
    var t' := JobDone(t, success);
    JobsOkOf(sha, c);
    assert t.jobs[0] in t.jobs;
    assert !IsAck(t.jobs[0]) && |t.jobs| == 1;
    hide Serials, FramesOk, TokensOk, OrderOk;
    if IsRelay(t.jobs[0]) {
      RelayDone(sha, c, t');
    } else {
      assert t'.jobs == [];
      QuietThread(sha, c, t');
    }
  }

  lemma AnswerJobDone(sha: Hash, c: Conn)
    requires ConnOk(sha, c) && c.thread.jobs != [] && c.thread.jobs[0].SendTo? && c.thread.jobs[0].frame.IsAnswer()
    ensures AfterAnswer(c.thread, JobDone(c.thread, true), c.thread.jobs[0].frame)
    ensures c.thread.jobs[0].dest == c.thread.name && Registered(c.thread)
  {
    hide Serials, FramesOk, TokensOk, OrderOk;
    JobsOkOf(sha, c);
    assert c.thread.jobs[0] in c.thread.jobs;
  }

  lemma MovedOk(sha: Hash, w: World, fd: Fd, t: Thread)
    requires ConnsOk(sha, w) && fd in w.conns && ConnOk(sha, w.conns[fd].(thread := t))
    ensures AllOk(sha, Moved(w, fd, t))
  {
    hide ConnOk;
  }

  lemma SendKeepsConns(sha: Hash, w: World, a: Action)
    requires TableOk(w) && ConnsOk(sha, w) && Enabled(w, a) && a.Send?
    ensures ConnsOk(sha, Step(sha, w, a))
  {
    hide Step, ConnOk, JobDone, Deliver, Moved;
    SendStep(sha, w, a);
    var c := w.conns[a.fd];
    var job := c.thread.jobs[0];
    if job.frame.IsAnswer() {
      AnswerKeepsConns(sha, w, a.fd);
    } else {
      var success := job.dest in w.table && w.table[job.dest] in w.conns;
      JobDoneKeepsConn(sha, c, success);
      MovedOk(sha, w, a.fd, JobDone(c.thread, success));
      if success {
        DeliverKeepsConns(sha, Moved(w, a.fd, JobDone(c.thread, success)), w.table[job.dest], job.frame, CauseOf(c));
      }
    }
  }

  lemma AnswerIsNoRelay(sha: Hash, c: Conn)
    requires ConnOk(sha, c) && c.thread.jobs != [] && c.thread.jobs[0].SendTo? && c.thread.jobs[0].frame.IsAnswer()
    ensures !c.thread.jobs[0].relay
  {
    hide Serials, FramesOk, TokensOk, OrderOk;
    JobsOkOf(sha, c);
    assert c.thread.jobs[0] in c.thread.jobs;
  }

  /** An answer always finds its way to the client that is waiting for it. */
  lemma AnswerKeepsConns(sha: Hash, w: World, fd: Fd)
    requires TableOk(w) && ConnsOk(sha, w) && fd in w.conns
    requires var t := w.conns[fd].thread; t.jobs != [] && t.jobs[0].SendTo? && t.jobs[0].frame.IsAnswer()
    ensures var t := w.conns[fd].thread;
      && t.jobs[0].dest in w.table && w.table[t.jobs[0].dest] == fd
      && AllOk(sha, Deliver(Moved(w, fd, JobDone(t, true)), fd, t.jobs[0].frame, CauseOf(w.conns[fd])))
  {
    hide ConnOk, JobDone, AfterAnswer;
    var c := w.conns[fd];
    var f := c.thread.jobs[0].frame;
    AnswerJobDone(sha, c);
    AnswerSent(sha, c, JobDone(c.thread, true), f);
    var c' := c.(thread := JobDone(c.thread, true), down := c.down + [f]);
    assert CauseOf(c) == Cause(None, None) by { AnswerIsNoRelay(sha, c); }
    assert c.heard + multiset{} == c.heard && c.got + multiset{} == c.got;
    assert Deliver(Moved(w, fd, JobDone(c.thread, true)), fd, f, CauseOf(c)) == w.conns[fd := c'];
  }

  lemma VisitKeepsConns(sha: Hash, w: World, a: Action)
    requires ConnsOk(sha, w) && Enabled(w, a) && a.Visit?
    ensures ConnsOk(sha, Step(sha, w, a))
  {
    hide Step, ConnOk, Deliver, Moved;
    VisitStep(sha, w, a);
    var c := w.conns[a.fd];
    JobsOkOf(sha, c);
    assert c.thread.jobs[0] in c.thread.jobs;
    var t := c.thread.(hold := Shared(c.thread.hold.left - {a.user}));
    QuietMoveKeepsConn(sha, c, t);
    MovedOk(sha, w, a.fd, t);
    if a.user != c.thread.name && a.user in w.table {
      DeliverKeepsConns(sha, Moved(w, a.fd, t), w.table[a.user], c.thread.jobs[0].frame, CauseOf(c));
    }
  }

  lemma FinishKeepsConns(sha: Hash, w: World, a: Action)
    requires ConnsOk(sha, w) && Enabled(w, a) && a.FinishBroadcast?
    ensures ConnsOk(sha, Step(sha, w, a))
  {
    hide ConnOk, JobDone;
    var c := w.conns[a.fd];
    assert Step(sha, w, a).conns == Moved(w, a.fd, JobDone(c.thread, true));
    JobDoneKeepsConn(sha, c, true);
    MovedOk(sha, w, a.fd, JobDone(c.thread, true));
  }

  lemma MoveKeepsConns(sha: Hash, w: World, a: Action)
    requires ConnsOk(sha, w) && Enabled(w, a) && MovesOnly(a)
    ensures ConnsOk(sha, Step(sha, w, a))
  {
    hide Step, EnabledFor, ConnOk, JobsOk, QuietMove;
    JobsOkOf(sha, w.conns[a.fd]);
    MoveIsQuiet(sha, w, a);
    StepOthers(sha, w, a);
    QuietMoveKeepsConn(sha, w.conns[a.fd], Step(sha, w, a).conns[a.fd].thread);
  }

  /** Steps that deliver nothing leave every other connection as it is. */
  lemma StepOthers(sha: Hash, w: World, a: Action)
    requires Enabled(w, a) && !a.Send? && !a.Visit?
    ensures forall x | x in Step(sha, w, a).conns && x != a.fd :: x in w.conns && Step(sha, w, a).conns[x] == w.conns[x]
  {
    hide EnabledFor, ClientStep, OnFrame, Announce, JobDone, IncrementServer;
  }

  /** Steps that read a frame, talk to the own client only, or open or close the connection. */
  lemma OwnKeepsConns(sha: Hash, w: World, a: Action)
    requires ConnsOk(sha, w) && Enabled(w, a)
    requires !a.Send? && !a.Visit? && !a.FinishBroadcast? && !MovesOnly(a)
    ensures ConnsOk(sha, Step(sha, w, a))
  {
    hide Step, EnabledFor, ConnOk;
    StepOthers(sha, w, a);
    if a.fd in Step(sha, w, a).conns {
      OwnConnOk(sha, w, a);
    }
  }

  lemma OwnConnOk(sha: Hash, w: World, a: Action)
    requires ConnsOk(sha, w) && Enabled(w, a) && a.fd in Step(sha, w, a).conns
    requires !a.Send? && !a.Visit? && !a.FinishBroadcast? && !MovesOnly(a)
    ensures ConnOk(sha, Step(sha, w, a).conns[a.fd])
  {
    hide ConnOk, ClientStep, OnFrame, Announce, LockStep, JobStep;
    match a
    case Accept(fd, name) => NewConnOk(sha, w.nextId, name);
    case ClientAct(fd, act) => ClientKeepsConn(sha, w.conns[fd], act);
    case ReadLogin(fd) => LoginKeepsConn(sha, w.conns[fd]);
    case ReadFrame(fd, received) => ReadKeepsConn(sha, w.conns[fd], received);
    case Reply(fd) => ReplyKeepsConn(sha, w.conns[fd]);
    case ReadFails(fd) =>
      JobsOkOf(sha, w.conns[fd]);
      QuietMoveKeepsConn(sha, w.conns[fd], w.conns[fd].thread.(phase := Leaving));
    case _ =>
  }

  lemma ReplyKeepsConn(sha: Hash, c: Conn)
    requires ConnOk(sha, c) && c.thread.phase == Replying && c.thread.hold == Free
    ensures var reply := Plain(LOGIN, c.thread.packetNumber, [], c.thread.name, []);
      ConnOk(sha, c.(down := c.down + [reply], thread := Announce(c.thread, []).(phase := Serving)))
  {
    var reply := Plain(LOGIN, c.thread.packetNumber, [], c.thread.name, []);
    ArrivalKeepsConn(sha, c, reply, c.heard, c.got);
    var c1 := c.(down := c.down + [reply]);
    JobsOkOf(sha, c1);
    hide Serials, FramesOk, TokensOk, OrderOk;
    QuietThread(sha, c1, Announce(c.thread, []).(phase := Serving));
  }

  lemma ConnsKept(sha: Hash, w: World, a: Action)
    requires TableOk(w) && ConnsOk(sha, w) && Enabled(w, a)
    ensures ConnsOk(sha, Step(sha, w, a))
  {
    hide Step, ConnsOk, TableOk, EnabledFor;
    if a.Send? {
      SendKeepsConns(sha, w, a);
    } else if a.Visit? {
      VisitKeepsConns(sha, w, a);
    } else if a.FinishBroadcast? {
      FinishKeepsConns(sha, w, a);
    } else if MovesOnly(a) {
      MoveKeepsConns(sha, w, a);
    } else {
      OwnKeepsConns(sha, w, a);
    }
  }

  // ---- Clients ----

  /** Only a client's own steps change the client. */
  ghost predicate ClientMoves(sha: Hash, w: World, w': World, a: Action)
    requires Enabled(w, a)
  {
    forall fd | fd in w.conns && fd in w'.conns ::
      w'.conns[fd].client ==
        if a.ClientAct? && a.fd == fd then ClientEffect(sha, w.conns[fd].client, w.conns[fd].down, a.act).client
        else w.conns[fd].client
  }

  lemma SessionClients(sha: Hash, w: World, a: Action)
    requires Enabled(w, a) && !UsesLock(a) && !DoesJob(a)
    ensures ClientMoves(sha, w, SessionStep(sha, w, a), a)
  {
    hide ClientEffect, OnFrame, Announce;
  }

  lemma LockClients(sha: Hash, w: World, a: Action)
    requires Enabled(w, a) && UsesLock(a)
    ensures ClientMoves(sha, w, LockStep(w, a), a)
  {
    hide EnabledFor;
  }

  lemma SendClients(sha: Hash, w: World, a: Action)
    requires Enabled(w, a) && a.Send?
    ensures ClientMoves(sha, w, Step(sha, w, a), a)
  {
    SendStep(sha, w, a);
    hide Step, JobDone, Deliver, CauseOf, ClientEffect;
    var c := w.conns[a.fd];
    var job := c.thread.jobs[0];
    if job.dest in w.table && w.table[job.dest] in w.conns {
      DeliverKeeps(Moved(w, a.fd, JobDone(c.thread, true)), w.table[job.dest], job.frame, CauseOf(c));
    }
  }

  lemma VisitClients(sha: Hash, w: World, a: Action)
    requires Enabled(w, a) && a.Visit?
    ensures ClientMoves(sha, w, Step(sha, w, a), a)
  {
    VisitStep(sha, w, a);
    hide Step, Deliver, CauseOf, ClientEffect;
    var c := w.conns[a.fd];
    if a.user in w.table {
      var conns := Moved(w, a.fd, c.thread.(hold := Shared(c.thread.hold.left - {a.user})));
      DeliverKeeps(conns, w.table[a.user], c.thread.jobs[0].frame, CauseOf(c));
    }
  }

  lemma OtherJobClients(sha: Hash, w: World, a: Action)
    requires Enabled(w, a) && (a.List? || a.FinishBroadcast?)
    ensures ClientMoves(sha, w, JobStep(w, a), a)
  {
    hide JobDone, IncrementServer, UserList.Listing, EnabledFor, ClientEffect;
  }

  lemma ClientsMove(sha: Hash, w: World, a: Action)
    requires Enabled(w, a)
    ensures ClientMoves(sha, w, Step(sha, w, a), a)
  {
    hide SessionStep, LockStep, JobStep, ClientMoves, EnabledFor;
    if UsesLock(a) {
      LockClients(sha, w, a);
    } else if DoesJob(a) {
      if a.Send? {
        SendClients(sha, w, a);
      } else if a.Visit? {
        VisitClients(sha, w, a);
      } else {
        OtherJobClients(sha, w, a);
      }
    } else {
      SessionClients(sha, w, a);
    }
  }
}
