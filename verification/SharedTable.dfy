/**
 The table of logged-in users and its read-write lock, under every interleaving of the threads.
 */
module SharedTable {
  import opened Words
  import opened HeaderLayout
  import opened Options
  import opened Protocol

  predicate Reads(t: Thread) { t.hold.Shared? || t.hold.SharedDone? }

  predicate Writes(t: Thread) { t.hold.Exclusive? || t.hold.ExclusiveDone? }

  /** The lock is what the threads believe it is, and a writer is alone. */
  ghost predicate LockOk(w: World) {
    && (forall fd | fd in w.conns :: (fd in w.readers <==> Reads(w.conns[fd].thread)))
    && (forall fd | fd in w.conns :: (w.writer == Some(fd) <==> Writes(w.conns[fd].thread)))
    && (forall fd | fd in w.conns && w.conns[fd].thread.phase == AwaitingLogin :: w.conns[fd].thread == NEW_THREAD)
    && w.readers <= w.conns.Keys
    && (w.writer.Some? ==> w.writer.value in w.conns && w.readers == {})
  }

  /** From `add_new_user` to `log_out_user`. */
  predicate Registered(t: Thread) {
    t.phase == Replying || t.phase == Serving || t.phase == Leaving
  }

  predicate Owns(w: World, u: Name, fd: Fd) {
    fd in w.conns && Registered(w.conns[fd].thread) && w.conns[fd].thread.name == u
  }

  /** A registered thread's name leads to its own socket; every other entry was leaked. */
  ghost predicate TableOk(w: World) {
    && (forall fd | fd in w.conns && Registered(w.conns[fd].thread) ::
          var u := w.conns[fd].thread.name; u in w.table && w.table[u] == fd && u !in w.leaked)
    && (forall u | u in w.table && u !in w.leaked :: Owns(w, u, w.table[u]))
    && w.leaked <= w.table.Keys
  }

  // ---- What a step does to the table, the lock and the threads ----

  /** The step closes the socket of its thread. */
  predicate Closes(w: World, a: Action)
    requires Enabled(w, a)
  {
    match a
    case ReadLogin(fd) => w.conns[fd].up[0].kind != LOGIN
    case ReadFails(fd) => w.conns[fd].thread.phase == AwaitingLogin
    case ReplyFails(_) => true
    case Reject(_) => true
    case Close(_) => true
    case _ => false
  }

  lemma StepTable(sha: Hash, w: World, a: Action)
    requires Enabled(w, a)
    ensures var t := if a.Accept? then NEW_THREAD else w.conns[a.fd].thread;
      Step(sha, w, a).table ==
        if a.Register? && t.name !in w.table then w.table[t.name := a.fd]
        else if a.LogOut? then w.table - {t.name}
        else w.table
    ensures Step(sha, w, a).leaked == w.leaked + if a.ReplyFails? then {w.conns[a.fd].thread.name} else {}
  {
    hide EnabledFor, ClientStep, OnFrame, Announce, JobDone, IncrementServer;
  }

  lemma StepLock(sha: Hash, w: World, a: Action)
    requires Enabled(w, a)
    ensures Step(sha, w, a).readers ==
              if a.AcquireRead? then w.readers + {a.fd} else if a.ReleaseRead? then w.readers - {a.fd} else w.readers
    ensures Step(sha, w, a).writer ==
              if a.AcquireWrite? then Some(a.fd) else if a.ReleaseWrite? then None else w.writer
  {
    hide EnabledFor, ClientStep, OnFrame, Announce, JobDone, IncrementServer;
  }

  /** A step opens, closes or changes one connection; other threads do not move. */
  ghost predicate ThreadsMove(w: World, w': World, a: Action)
    requires Enabled(w, a)
  {
    && w'.conns.Keys == (if Closes(w, a) then w.conns.Keys - {a.fd} else w.conns.Keys + {a.fd})
    && forall x | x in w'.conns && x != a.fd :: x in w.conns && w'.conns[x].thread == w.conns[x].thread
  }

  /** The moving thread's part of the lock, and when it enters and leaves the table. */
  ghost predicate OwnThreadMoves(w: World, w': World, a: Action)
    requires Enabled(w, a)
  {
    !Closes(w, a) ==>
      && a.fd in w'.conns
      && var t' := w'.conns[a.fd].thread;
      if a.Accept? then t' == NEW_THREAD
      else
        var t := w.conns[a.fd].thread;
        && Reads(t') == (a.AcquireRead? || (Reads(t) && !a.ReleaseRead?))
        && Writes(t') == (a.AcquireWrite? || (Writes(t) && !a.ReleaseWrite?))
        && Registered(t') == ((a.Register? && t.name !in w.table) || (Registered(t) && !a.LogOut?))
        && (!a.ReadLogin? ==> t'.name == t.name)
        && (t'.phase == AwaitingLogin ==> t.phase == AwaitingLogin && (t == NEW_THREAD ==> t' == t))
  }

  lemma SessionThreads(sha: Hash, w: World, a: Action)
    requires Enabled(w, a) && !UsesLock(a) && !DoesJob(a)
    ensures ThreadsMove(w, SessionStep(sha, w, a), a)
  {
    hide ClientStep, OnFrame, Announce, EnabledFor;
  }

  lemma LockThreads(w: World, a: Action)
    requires Enabled(w, a) && UsesLock(a)
    ensures ThreadsMove(w, LockStep(w, a), a)
  {
    hide EnabledFor;
  }

  /** The connections after a job's first half: the thread has moved on, nothing is delivered yet. */
  function Moved(w: World, fd: Fd, t: Thread): map<Fd, Conn>
    requires fd in w.conns
  {
    w.conns[fd := w.conns[fd].(thread := t)]
  }

  lemma SendJob(w: World, a: Action)
    requires Enabled(w, a) && a.Send?
    ensures var t := w.conns[a.fd].thread;
      var job := t.jobs[0];
      var success := job.dest in w.table && w.table[job.dest] in w.conns;
      var conns := Moved(w, a.fd, JobDone(t, success));
      JobStep(w, a).conns ==
        if success then Deliver(conns, w.table[job.dest], job.frame, CauseOf(w.conns[a.fd])) else conns
  {
    hide JobDone, Deliver, CauseOf;
  }

  lemma SendStep(sha: Hash, w: World, a: Action)
    requires Enabled(w, a) && a.Send?
    ensures var t := w.conns[a.fd].thread;
      var job := t.jobs[0];
      var success := job.dest in w.table && w.table[job.dest] in w.conns;
      var conns := Moved(w, a.fd, JobDone(t, success));
      Step(sha, w, a).conns ==
        if success then Deliver(conns, w.table[job.dest], job.frame, CauseOf(w.conns[a.fd])) else conns
  {
    SendJob(w, a);
    hide EnabledFor, JobStep, Deliver, JobDone, CauseOf;
  }

  lemma VisitJob(w: World, a: Action)
    requires Enabled(w, a) && a.Visit?
    ensures var t := w.conns[a.fd].thread;
      var conns := Moved(w, a.fd, t.(hold := Shared(t.hold.left - {a.user})));
      JobStep(w, a).conns ==
        if a.user == t.name || a.user !in w.table then conns
        else Deliver(conns, w.table[a.user], t.jobs[0].frame, CauseOf(w.conns[a.fd]))
  {
    hide Deliver, CauseOf;
  }

  lemma VisitStep(sha: Hash, w: World, a: Action)
    requires Enabled(w, a) && a.Visit?
    ensures var t := w.conns[a.fd].thread;
      var conns := Moved(w, a.fd, t.(hold := Shared(t.hold.left - {a.user})));
      Step(sha, w, a).conns ==
        if a.user == t.name || a.user !in w.table then conns
        else Deliver(conns, w.table[a.user], t.jobs[0].frame, CauseOf(w.conns[a.fd]))
  {
    VisitJob(w, a);
    hide EnabledFor, JobStep, Deliver, JobDone, CauseOf;
  }

  lemma DeliverKeeps(conns: map<Fd, Conn>, fd: Fd, f: Frame, cause: Cause)
    ensures var conns' := Deliver(conns, fd, f, cause);
      && conns'.Keys == conns.Keys
      && forall x | x in conns :: conns'[x].client == conns[x].client && conns'[x].thread == conns[x].thread
  {
  }

  /** A job leaves the sockets open, and changes no thread but its own. */
  ghost predicate JobThread(w: World, w': World, fd: Fd, t: Thread) {
    && w'.conns.Keys == w.conns.Keys && fd in w.conns
    && forall x | x in w.conns :: w'.conns[x].thread == if x == fd then t else w.conns[x].thread
  }

  lemma MovesOne(w: World, fd: Fd, t: Thread, conns: map<Fd, Conn>)
    requires fd in w.conns && conns.Keys == w.conns.Keys
    requires forall x | x in w.conns :: conns[x].thread == Moved(w, fd, t)[x].thread
    ensures forall x | x in w.conns :: conns[x].thread == if x == fd then t else w.conns[x].thread
    ensures Moved(w, fd, t).Keys == w.conns.Keys
  {
  }

  lemma SendThread(w: World, a: Action)
    requires Enabled(w, a) && a.Send?
    ensures var t := w.conns[a.fd].thread;
      t.jobs != [] && exists success :: JobThread(w, JobStep(w, a), a.fd, JobDone(t, success))
  {
    SendJob(w, a);
    var c := w.conns[a.fd];
    var t := c.thread;
    var job := t.jobs[0];
    var success := job.dest in w.table && w.table[job.dest] in w.conns;
    hide Deliver, JobDone, EnabledFor, JobStep, CauseOf;
    var conns := Moved(w, a.fd, JobDone(t, success));
    if success {
      DeliverKeeps(conns, w.table[job.dest], job.frame, CauseOf(c));
    }
    MovesOne(w, a.fd, JobDone(t, success), JobStep(w, a).conns);
    hide Moved;
    assert JobThread(w, JobStep(w, a), a.fd, JobDone(t, success));
  }

  lemma VisitedThread(w: World, a: Action)
    requires Enabled(w, a) && a.Visit?
    ensures var t := w.conns[a.fd].thread;
      t.hold.Shared? && JobThread(w, JobStep(w, a), a.fd, t.(hold := Shared(t.hold.left - {a.user})))
  {
    VisitJob(w, a);
    var c := w.conns[a.fd];
    var t := c.thread.(hold := Shared(c.thread.hold.left - {a.user}));
    hide Deliver, EnabledFor, JobStep, CauseOf;
    if a.user in w.table {
      DeliverKeeps(Moved(w, a.fd, t), w.table[a.user], c.thread.jobs[0].frame, CauseOf(c));
    }
    MovesOne(w, a.fd, t, JobStep(w, a).conns);
  }

  lemma FinishedThread(w: World, a: Action)
    requires Enabled(w, a) && a.FinishBroadcast?
    ensures var t := w.conns[a.fd].thread;
      t.jobs != [] && t.hold.Shared? && JobThread(w, JobStep(w, a), a.fd, JobDone(t, true))
  {
    hide JobDone;
  }

  /** What every job does to its thread, as far as the lock and the table are concerned. */
  ghost predicate StaysShared(t: Thread, t': Thread) {
    t.hold.Shared? && t'.phase == t.phase && t'.name == t.name && (t'.hold.Shared? || t'.hold == SharedDone)
  }

  lemma ListedThread(w: World, a: Action)
    requires Enabled(w, a) && a.List?
    ensures exists t' :: JobThread(w, JobStep(w, a), a.fd, t') && StaysShared(w.conns[a.fd].thread, t')
  {
    hide IncrementServer, UserList.Listing, StaysShared;
    var t' := JobStep(w, a).conns[a.fd].thread;
    assert JobThread(w, JobStep(w, a), a.fd, t');
    assert StaysShared(w.conns[a.fd].thread, t') by { ListStaysShared(w, a); }
  }

  lemma ListStaysShared(w: World, a: Action)
    requires Enabled(w, a) && a.List?
    ensures a.fd in JobStep(w, a).conns && StaysShared(w.conns[a.fd].thread, JobStep(w, a).conns[a.fd].thread)
  {
    hide IncrementServer, UserList.Listing;
  }

  lemma AnyJobThread(w: World, a: Action)
    requires Enabled(w, a) && DoesJob(a)
    ensures exists t' :: JobThread(w, JobStep(w, a), a.fd, t') && StaysShared(w.conns[a.fd].thread, t')
  {
    hide JobStep, JobThread, JobDone;
    var t := w.conns[a.fd].thread;
    if a.Send? {
      SendThread(w, a);
      var success :| JobThread(w, JobStep(w, a), a.fd, JobDone(t, success));
      assert StaysShared(t, JobDone(t, success));
    } else if a.Visit? {
      VisitedThread(w, a);
      assert StaysShared(t, t.(hold := Shared(t.hold.left - {a.user})));
    } else if a.FinishBroadcast? {
      FinishedThread(w, a);
      assert StaysShared(t, JobDone(t, true));
    } else {
      ListedThread(w, a);
    }
  }

  lemma JobClosesNothing(w: World, a: Action)
    requires Enabled(w, a) && DoesJob(a)
    ensures !Closes(w, a)
  {
  }

  lemma JobThreads(w: World, a: Action)
    requires Enabled(w, a) && DoesJob(a)
    ensures ThreadsMove(w, JobStep(w, a), a)
  {
    hide JobStep, Closes, EnabledFor, StaysShared;
    JobClosesNothing(w, a);
    AnyJobThread(w, a);
  }

  lemma StepThreads(sha: Hash, w: World, a: Action)
    requires Enabled(w, a)
    ensures ThreadsMove(w, Step(sha, w, a), a)
  {
    hide SessionStep, LockStep, JobStep, ThreadsMove, EnabledFor;
    if UsesLock(a) {
      LockThreads(w, a);
    } else if DoesJob(a) {
      JobThreads(w, a);
    } else {
      SessionThreads(sha, w, a);
    }
  }

  lemma SessionOwnThread(sha: Hash, w: World, a: Action)
    requires Enabled(w, a) && !UsesLock(a) && !DoesJob(a)
    ensures OwnThreadMoves(w, SessionStep(sha, w, a), a)
  {
    hide ClientStep, OnFrame, Announce;
  }

  lemma LockOwnThread(w: World, a: Action)
    requires Enabled(w, a) && UsesLock(a)
    ensures OwnThreadMoves(w, LockStep(w, a), a)
  {
  }

  lemma JobOwnThread(w: World, a: Action)
    requires Enabled(w, a) && DoesJob(a)
    ensures OwnThreadMoves(w, JobStep(w, a), a)
  {
    hide JobStep, Closes, EnabledFor;
    AnyJobThread(w, a);
  }

  lemma StepOwnThread(sha: Hash, w: World, a: Action)
    requires Enabled(w, a)
    ensures OwnThreadMoves(w, Step(sha, w, a), a)
  {
    hide SessionStep, LockStep, JobStep, OwnThreadMoves, EnabledFor;
    if UsesLock(a) {
      LockOwnThread(w, a);
    } else if DoesJob(a) {
      JobOwnThread(w, a);
    } else {
      SessionOwnThread(sha, w, a);
    }
  }

  lemma ClosingIsFree(w: World, a: Action)
    requires LockOk(w) && Enabled(w, a) && Closes(w, a)
    ensures w.conns[a.fd].thread.hold == Free && (Registered(w.conns[a.fd].thread) <==> a.ReplyFails?)
    ensures !UsesLock(a) && !DoesJob(a) && !a.Accept?
  {
  }

  /** The connection `fd` went away, or it is the only one whose thread moved. */
  ghost predicate OneMoved(w: World, w': World, fd: Fd) {
    && (w'.conns.Keys == w.conns.Keys - {fd} || w'.conns.Keys == w.conns.Keys + {fd})
    && forall x | x in w'.conns && x != fd :: x in w.conns && w'.conns[x].thread == w.conns[x].thread
  }

  /** How the lock changes hands, as a step of the thread of `fd`. */
  ghost predicate LockMoves(w: World, w': World, fd: Fd) {
    && OneMoved(w, w', fd)
    && (fd !in w'.conns ==>
          fd in w.conns && w.conns[fd].thread.hold == Free && w'.readers == w.readers && w'.writer == w.writer)
    && (fd in w'.conns && fd !in w.conns ==>
          w'.conns[fd].thread == NEW_THREAD && w'.readers == w.readers && w'.writer == w.writer)
    && (fd in w'.conns && fd in w.conns ==>
          var t, t' := w.conns[fd].thread, w'.conns[fd].thread;
          && (t'.phase == AwaitingLogin ==> t' == t)
          && (|| (w'.readers == w.readers && w'.writer == w.writer && Reads(t') == Reads(t) && Writes(t') == Writes(t))
              || (w.writer == None && w.readers == {} && w'.writer == Some(fd) && w'.readers == {}
                  && Writes(t') && !Reads(t'))
              || (Writes(t) && !Writes(t') && !Reads(t') && w'.writer == None && w'.readers == w.readers)
              || (w.writer == None && w'.writer == None && w'.readers == w.readers + {fd} && Reads(t') && !Writes(t'))
              || (Reads(t) && !Reads(t') && !Writes(t') && w'.writer == w.writer && w'.readers == w.readers - {fd})))
  }

  lemma LockMovesKeep(w: World, w': World, fd: Fd)
    requires LockOk(w) && LockMoves(w, w', fd)
    ensures LockOk(w')
  {
  }

  lemma StepMovesLock(sha: Hash, w: World, a: Action)
    requires LockOk(w) && Enabled(w, a)
    ensures LockMoves(w, Step(sha, w, a), a.fd)
  {
    hide Step, Closes, EnabledFor;
    StepLock(sha, w, a);
    StepThreads(sha, w, a);
    LockRules(w, a);
    StepOwnThread(sha, w, a);
    if Closes(w, a) {
      ClosingIsFree(w, a);
    }
  }

  lemma LockKept(sha: Hash, w: World, a: Action)
    requires LockOk(w) && Enabled(w, a)
    ensures LockOk(Step(sha, w, a))
  {
    hide *;
    StepMovesLock(sha, w, a);
    LockMovesKeep(w, Step(sha, w, a), a.fd);
  }

  /** When the lock may be taken and who may give it back. */
  lemma LockRules(w: World, a: Action)
    requires Enabled(w, a)
    ensures a.AcquireWrite? ==> w.readers == {} && w.writer == None
    ensures a.AcquireRead? ==> w.writer == None
    ensures a.ReleaseWrite? ==> Writes(w.conns[a.fd].thread)
    ensures a.ReleaseRead? ==> Reads(w.conns[a.fd].thread)
    ensures a.Register? || a.LogOut? ==> Writes(w.conns[a.fd].thread)
    ensures a.LogOut? ==> Registered(w.conns[a.fd].thread)
    ensures a.Register? ==> !Registered(w.conns[a.fd].thread)
    ensures a.ReadLogin? ==> !Registered(w.conns[a.fd].thread)
    ensures a.ReplyFails? ==> Closes(w, a)
  {
  }

  /** How the table follows the registrations, as a step of the thread of `fd`. */
  ghost predicate TableMoves(w: World, w': World, fd: Fd) {
    && OneMoved(w, w', fd)
    && (fd !in w'.conns ==>
          && fd in w.conns && w'.table == w.table
          && w'.leaked == w.leaked + if Registered(w.conns[fd].thread) then {w.conns[fd].thread.name} else {})
    && (fd in w'.conns ==> w'.leaked == w.leaked)
    && (fd in w'.conns && fd !in w.conns ==> w'.table == w.table && !Registered(w'.conns[fd].thread))
    && (fd in w'.conns && fd in w.conns ==>
          var t, t' := w.conns[fd].thread, w'.conns[fd].thread;
          || (w'.table == w.table && Registered(t') == Registered(t) && (Registered(t) ==> t'.name == t.name))
          || (!Registered(t) && Registered(t') && t.name !in w.table && t'.name == t.name
              && w'.table == w.table[t.name := fd])
          || (Registered(t) && !Registered(t') && w'.table == w.table - {t.name}))
  }

  /** A thread other than the one that moves owns its entry as before. */
  lemma OthersKeepEntries(w: World, w': World, fd: Fd, x: Fd)
    requires TableOk(w) && TableMoves(w, w', fd) && x in w'.conns && x != fd && Registered(w'.conns[x].thread)
    ensures var u := w'.conns[x].thread.name; u in w'.table && w'.table[u] == x && u !in w'.leaked
  {
    hide Owns;
    var u := w.conns[x].thread.name;
    assert u in w.table && w.table[u] == x && u !in w.leaked;
  }

  /** So does the moving thread, unless it has just logged in or out. */
  lemma MoverKeepsEntry(w: World, w': World, fd: Fd)
    requires TableOk(w) && TableMoves(w, w', fd) && fd in w'.conns && Registered(w'.conns[fd].thread)
    ensures var u := w'.conns[fd].thread.name; u in w'.table && w'.table[u] == fd && u !in w'.leaked
  {
    hide Owns;
    var u := w.conns[fd].thread.name;
    assert Registered(w.conns[fd].thread) ==> u in w.table && w.table[u] == fd && u !in w.leaked;
  }

  lemma EntriesKeepOwners(w: World, w': World, fd: Fd, u: Name)
    requires TableOk(w) && TableMoves(w, w', fd) && u in w'.table && u !in w'.leaked
    ensures Owns(w', u, w'.table[u])
  {
    if u in w.table && u !in w.leaked {
      assert Owns(w, u, w.table[u]);
    }
  }

  lemma LeaksKeepEntries(w: World, w': World, fd: Fd)
    requires TableOk(w) && TableMoves(w, w', fd)
    ensures w'.leaked <= w'.table.Keys
  {
    hide Owns;
    if fd in w.conns && Registered(w.conns[fd].thread) {
      assert w.conns[fd].thread.name in w.table && w.conns[fd].thread.name !in w.leaked;
    }
  }

  lemma TableMovesKeep(w: World, w': World, fd: Fd)
    requires TableOk(w) && TableMoves(w, w', fd)
    ensures TableOk(w')
  {
    forall x | x in w'.conns && Registered(w'.conns[x].thread)
      ensures var u := w'.conns[x].thread.name; u in w'.table && w'.table[u] == x && u !in w'.leaked
    {
      if x == fd {
        MoverKeepsEntry(w, w', fd);
      } else {
        OthersKeepEntries(w, w', fd, x);
      }
    }
    forall u | u in w'.table && u !in w'.leaked
      ensures Owns(w', u, w'.table[u])
    {
      EntriesKeepOwners(w, w', fd, u);
    }
    LeaksKeepEntries(w, w', fd);
    hide TableMoves, Owns, Registered;
  }

  lemma StepMovesTable(sha: Hash, w: World, a: Action)
    requires LockOk(w) && Enabled(w, a)
    ensures TableMoves(w, Step(sha, w, a), a.fd)
  {
    hide Step, Closes, LockOk, EnabledFor;
    StepTable(sha, w, a);
    StepThreads(sha, w, a);
    LockRules(w, a);
    StepOwnThread(sha, w, a);
    if Closes(w, a) {
      ClosingIsFree(w, a);
    }
  }

  lemma TableKept(sha: Hash, w: World, a: Action)
    requires LockOk(w) && TableOk(w) && Enabled(w, a)
    ensures TableOk(Step(sha, w, a))
  {
    hide *;
    StepMovesTable(sha, w, a);
    TableMovesKeep(w, Step(sha, w, a), a.fd);
  }

  /** No step changes the table while any thread holds the lock for reading. */
  lemma TableFrozenWhileRead(sha: Hash, w: World, a: Action)
    requires LockOk(w) && Enabled(w, a) && w.readers != {}
    ensures Step(sha, w, a).table == w.table
  {
    StepTable(sha, w, a);
    LockRules(w, a);
    hide Step, EnabledFor;
  }
}
