/**
 Broadcasts under all interleavings: who hears one, and how often.
 */
module Broadcasts {
  import opened Words
  import opened HeaderLayout
  import opened Options
  import opened Protocol
  import opened SharedTable
  import opened Safety

  predicate Broadcasting(t: Thread) {
    t.hold.Shared? && t.jobs != [] && t.jobs[0].ToAll?
  }

  /** How many of `names` the table maps to `fd`. */
  function Times(table: map<Name, Fd>, names: set<Name>, fd: Fd): nat {
    |set u | u in names && u in table && table[u] == fd|
  }

  /** The users a broadcast has visited and not skipped. */
  function Served(b: Started): set<Name> {
    b.table.Keys - b.left - {b.sender}
  }

  predicate Injective(table: map<Name, Fd>) {
    forall u, v | u in table && v in table && table[u] == table[v] :: u == v
  }

  /** The thread's broadcast is on record, and the table is still the one it locked. */
  ghost predicate Underway(w: World, t: Thread)
    requires Broadcasting(t)
  {
    && t.broadcast < |w.broadcasts|
    && var b := w.broadcasts[t.broadcast];
       && b.sender == t.name && b.frame == t.jobs[0].frame && b.table == w.table
       && b.left == t.hold.left && b.left <= b.table.Keys
  }

  /**
   On behalf of broadcast `i` connection `fd` has been sent the frame of that broadcast, once for
   each visit to its socket, and no other frame `f`, if it was open when the broadcast began; and
   nothing if the broadcast has not begun.
   */
  predicate HeardAt(w: World, fd: Fd, i: nat, f: Frame)
    requires fd in w.conns
  {
    if i >= |w.broadcasts| then w.conns[fd].heard[Hearing(i, f)] == 0
    else var b := w.broadcasts[i];
      w.conns[fd].id < b.bound ==>
        w.conns[fd].heard[Hearing(i, f)] == if f == b.frame then Times(b.table, Served(b), fd) else 0
  }

  ghost predicate HeardOk(w: World) {
    forall fd, i: nat, f | fd in w.conns :: HeardAt(w, fd, i, f)
  }

  ghost predicate IdsOk(w: World) {
    && (forall fd | fd in w.conns :: w.conns[fd].id < w.nextId)
    && (forall b | b in w.broadcasts :: b.bound <= w.nextId)
    && (w.leaked == {} ==> forall b | b in w.broadcasts :: Injective(b.table))
  }

  ghost predicate BroadcastsOk(w: World) {
    && IdsOk(w)
    && (forall fd | fd in w.conns && Broadcasting(w.conns[fd].thread) :: Underway(w, w.conns[fd].thread))
    && (forall x, y | x in w.conns && y in w.conns && x != y
          && Broadcasting(w.conns[x].thread) && Broadcasting(w.conns[y].thread) ::
          w.conns[x].thread.broadcast != w.conns[y].thread.broadcast)
  }

  lemma TimesOneMore(table: map<Name, Fd>, names: set<Name>, u: Name, fd: Fd)
    requires u !in names && u in table
    ensures Times(table, names + {u}, fd) == Times(table, names, fd) + if table[u] == fd then 1 else 0
  {
    var s := set x | x in names && x in table && table[x] == fd;
    var s' := set x | x in names + {u} && x in table && table[x] == fd;
    assert s' == if table[u] == fd then s + {u} else s;
  }

  lemma TimesNone(table: map<Name, Fd>, fd: Fd)
    ensures Times(table, {}, fd) == 0
  {
  }

  lemma TimesInjective(table: map<Name, Fd>, names: set<Name>, fd: Fd)
    requires Injective(table)
    ensures Times(table, names, fd) == if exists u :: u in names && u in table && table[u] == fd then 1 else 0
  {
    var s := set u | u in names && u in table && table[u] == fd;
    if u :| u in names && u in table && table[u] == fd {
      assert s == {u};
    } else {
      assert s == {};
    }
  }

  // ---- What a step does to the records ----

  /** The step is a visit that appends to the channel of `x`. */
  predicate VisitsSocket(w: World, a: Action, x: Fd)
    requires Enabled(w, a)
  {
    a.Visit? && a.user != w.conns[a.fd].thread.name && a.user in w.table && w.table[a.user] == x
  }

  function Visiting(t: Thread): Hearing
    requires Broadcasting(t)
  {
    Hearing(t.broadcast, t.jobs[0].frame)
  }

  /** The step sends the frame of its thread's first job to `x`. */
  predicate Reaches(w: World, a: Action, x: Fd)
    requires Enabled(w, a)
  {
    || VisitsSocket(w, a, x)
    || (a.Send? && var job := w.conns[a.fd].thread.jobs[0]; job.dest in w.table && w.table[job.dest] == x)
  }

  /** What connection `x` has heard and got after a step, if `c` sends `f` to it or `reached` is false. */
  predicate Receives(w: World, c': Conn, x: Fd, reached: bool, f: Frame, cause: Cause) {
    if x in w.conns then
      var c := w.conns[x];
      && c'.id == c.id
      && c'.heard == c.heard + (if reached then Heard(cause, f) else multiset{})
      && c'.got == c.got + (if reached then Got(cause, f) else multiset{})
    else !reached && c'.id == w.nextId && c'.heard == multiset{} && c'.got == multiset{}
  }

  const NO_FRAME: Frame := Plain(ERROR, 0, [], [], [])
  const NO_CAUSE: Cause := Cause(None, None)

  /** Steps that deliver nothing. */
  lemma OwnReceives(sha: Hash, w: World, a: Action)
    requires Enabled(w, a) && !a.Send? && !a.Visit? && a.fd in Step(sha, w, a).conns
    ensures Receives(w, Step(sha, w, a).conns[a.fd], a.fd, false, NO_FRAME, NO_CAUSE)
    ensures a.fd !in w.conns ==> a.Accept?
  {
    hide EnabledFor, ClientStep, OnFrame, Announce, JobDone, IncrementServer, UserList.Listing;
  }

  lemma QuietReceives(sha: Hash, w: World, a: Action, x: Fd)
    requires Enabled(w, a) && !a.Send? && !a.Visit? && x in Step(sha, w, a).conns
    ensures Receives(w, Step(sha, w, a).conns[x], x, false, NO_FRAME, NO_CAUSE)
    ensures x !in w.conns ==> a.Accept?
  {
    hide Step, EnabledFor;
    if x == a.fd {
      OwnReceives(sha, w, a);
    } else {
      StepOthers(sha, w, a);
    }
  }

  lemma DeliverReceives(w: World, fd: Fd, t: Thread, y: Fd, f: Frame, cause: Cause, x: Fd)
    requires fd in w.conns && x in Deliver(Moved(w, fd, t), y, f, cause)
    ensures Receives(w, Deliver(Moved(w, fd, t), y, f, cause)[x], x, x == y, f, cause) && x in w.conns
  {
    hide Heard, Got;
  }

  lemma MovedReceives(w: World, fd: Fd, t: Thread, x: Fd, f: Frame, cause: Cause)
    requires fd in w.conns && x in w.conns
    ensures Receives(w, Moved(w, fd, t)[x], x, false, f, cause)
  {
  }

  lemma SendReceives(sha: Hash, w: World, a: Action, x: Fd)
    requires Enabled(w, a) && a.Send? && x in Step(sha, w, a).conns
    ensures var c := w.conns[a.fd];
      Receives(w, Step(sha, w, a).conns[x], x, Reaches(w, a, x), c.thread.jobs[0].frame, CauseOf(c))
    ensures x in w.conns
  {
    SendStep(sha, w, a);
    var c := w.conns[a.fd];
    var job := c.thread.jobs[0];
    hide Step, JobDone, Receives, Deliver, Moved, CauseOf, EnabledFor;
    if job.dest in w.table && w.table[job.dest] in w.conns {
      DeliverReceives(w, a.fd, JobDone(c.thread, true), w.table[job.dest], job.frame, CauseOf(c), x);
    } else {
      SameSockets(w, a.fd, JobDone(c.thread, false));
      MovedReceives(w, a.fd, JobDone(c.thread, false), x, job.frame, CauseOf(c));
    }
  }

  lemma SameSockets(w: World, fd: Fd, t: Thread)
    requires fd in w.conns
    ensures Moved(w, fd, t).Keys == w.conns.Keys
  {
  }

  lemma VisitReceives(sha: Hash, w: World, a: Action, x: Fd)
    requires Enabled(w, a) && a.Visit? && x in Step(sha, w, a).conns
    ensures var c := w.conns[a.fd];
      Receives(w, Step(sha, w, a).conns[x], x, Reaches(w, a, x), c.thread.jobs[0].frame, CauseOf(c))
    ensures x in w.conns
  {
    VisitStep(sha, w, a);
    var c := w.conns[a.fd];
    var t := c.thread.(hold := Shared(c.thread.hold.left - {a.user}));
    hide Step, Receives, Deliver, Moved, CauseOf, EnabledFor;
    if a.user == c.thread.name || a.user !in w.table {
      SameSockets(w, a.fd, t);
      MovedReceives(w, a.fd, t, x, c.thread.jobs[0].frame, CauseOf(c));
    } else {
      DeliverReceives(w, a.fd, t, w.table[a.user], c.thread.jobs[0].frame, CauseOf(c), x);
    }
  }

  lemma StepHeard(sha: Hash, w: World, a: Action, x: Fd)
    requires Enabled(w, a) && x in Step(sha, w, a).conns
    ensures var c' := Step(sha, w, a).conns[x];
      if x in w.conns then
        c'.id == w.conns[x].id
        && c'.heard == w.conns[x].heard
             + if VisitsSocket(w, a, x) then multiset{Visiting(w.conns[a.fd].thread)} else multiset{}
      else c'.id == w.nextId && c'.heard == multiset{} && a.Accept?
  {
    if a.Send? {
      SendReceives(sha, w, a, x);
      assert CauseOf(w.conns[a.fd]).broadcast == None;
    } else if a.Visit? {
      VisitReceives(sha, w, a, x);
      assert CauseOf(w.conns[a.fd]).broadcast == Some(w.conns[a.fd].thread.broadcast);
    } else {
      QuietReceives(sha, w, a, x);
    }
    hide Step, EnabledFor, CauseOf, Got;
  }

  /** The record of a broadcast that thread `t` begins now. */
  function Starting(w: World, t: Thread): Started
    requires t.jobs != [] && t.jobs[0].ToAll?
  {
    Started(t.name, t.jobs[0].frame, w.table, w.nextId, w.table.Keys)
  }

  lemma StepBroadcasts(sha: Hash, w: World, a: Action)
    requires Enabled(w, a)
    ensures Step(sha, w, a).broadcasts ==
      if a.AcquireRead? && w.conns[a.fd].thread.jobs[0].ToAll? then w.broadcasts + [Starting(w, w.conns[a.fd].thread)]
      else if a.Visit? then Visited(w.broadcasts, w.conns[a.fd].thread.broadcast, a.user)
      else w.broadcasts
  {
    hide ClientStep, OnFrame, Announce, JobDone, IncrementServer, Deliver, Visited;
  }

  /** When the moving thread broadcasts afterwards, and as what. */
  ghost predicate BroadcastsAs(w: World, w': World, a: Action) {
    a.fd in w'.conns && Broadcasting(w'.conns[a.fd].thread) ==>
      && a.fd in w.conns
      && var t, t' := w.conns[a.fd].thread, w'.conns[a.fd].thread;
      && t'.name == t.name
      && if a.AcquireRead? then
           && t.jobs != [] && t'.jobs == t.jobs && t.jobs[0].ToAll?
           && t'.broadcast == |w.broadcasts| && t'.hold == Shared(w.table.Keys)
         else Broadcasting(t) && t'.jobs == t.jobs && t'.broadcast == t.broadcast
              && t'.hold == if a.Visit? then Shared(t.hold.left - {a.user}) else t.hold
  }

  lemma SessionBroadcasting(sha: Hash, w: World, a: Action)
    requires LockOk(w) && Enabled(w, a) && !UsesLock(a) && !DoesJob(a)
    ensures BroadcastsAs(w, SessionStep(sha, w, a), a)
  {
    hide OnFrame, Announce, ClientStep;
  }

  lemma LockBroadcasting(w: World, a: Action)
    requires Enabled(w, a) && UsesLock(a)
    ensures BroadcastsAs(w, LockStep(w, a), a)
  {
  }

  lemma JobBroadcasting(w: World, a: Action)
    requires Enabled(w, a) && DoesJob(a)
    ensures BroadcastsAs(w, JobStep(w, a), a)
  {
    hide JobDone, IncrementServer;
  }

  lemma StepBroadcasting(sha: Hash, w: World, a: Action)
    requires LockOk(w) && Enabled(w, a)
    ensures BroadcastsAs(w, Step(sha, w, a), a)
  {
    hide SessionStep, LockStep, JobStep, BroadcastsAs, LockOk, EnabledFor;
    if UsesLock(a) {
      LockBroadcasting(w, a);
    } else if DoesJob(a) {
      JobBroadcasting(w, a);
    } else {
      SessionBroadcasting(sha, w, a);
    }
  }

  lemma TableIsInjective(w: World)
    requires TableOk(w) && w.leaked == {}
    ensures Injective(w.table)
  {
  }

  lemma HeardKept(sha: Hash, w: World, a: Action)
    requires LockOk(w) && BroadcastsOk(w) && HeardOk(w) && Enabled(w, a)
    ensures HeardOk(Step(sha, w, a))
  {
    var w' := Step(sha, w, a);
    StepBroadcasts(sha, w, a);
    forall x, i: nat, f | x in w'.conns
      ensures HeardAt(w', x, i, f)
    {
      StepHeard(sha, w, a, x);
      hide Step;
      assert x in w.conns ==> HeardAt(w, x, i, f);
      if a.Visit? {
        VisitHeard(w, w', a, x, i, f);
      } else if x in w.conns && |w.broadcasts| == i < |w'.broadcasts| {
        var b := w'.broadcasts[i];
        assert Served(b) == {};
        TimesNone(b.table, x);
      }
    }
  }

  lemma VisitHeard(w: World, w': World, a: Action, x: Fd, i: nat, f: Frame)
    requires BroadcastsOk(w) && HeardOk(w) && Enabled(w, a) && a.Visit?
    requires x in w'.conns && x in w.conns && w'.conns[x].id == w.conns[x].id
    requires w'.broadcasts == Visited(w.broadcasts, w.conns[a.fd].thread.broadcast, a.user)
    requires w'.conns[x].heard == w.conns[x].heard
               + if VisitsSocket(w, a, x) then multiset{Visiting(w.conns[a.fd].thread)} else multiset{}
    ensures HeardAt(w', x, i, f)
  {
    var t := w.conns[a.fd].thread;
    assert Underway(w, t) && HeardAt(w, x, i, f);
    var k := t.broadcast;
    if i < |w.broadcasts| && i == k {
      var b, b' := w.broadcasts[k], w'.broadcasts[k];
      if a.user == b.sender {
        assert Served(b') == Served(b);
      } else {
        assert Served(b') == Served(b) + {a.user};
        TimesOneMore(b.table, Served(b), a.user, x);
      }
    } else {
      assert multiset{Visiting(t)}[Hearing(i, f)] == 0;
      assert w'.conns[x].heard[Hearing(i, f)] == w.conns[x].heard[Hearing(i, f)];
    }
  }

  lemma IdsKept(sha: Hash, w: World, a: Action)
    requires TableOk(w) && IdsOk(w) && Enabled(w, a)
    ensures IdsOk(Step(sha, w, a))
  {
    var w' := Step(sha, w, a);
    StepBroadcasts(sha, w, a);
    StepTable(sha, w, a);
    StepNextId(sha, w, a);
    if w.leaked == {} { TableIsInjective(w); }
    forall x | x in w'.conns
      ensures w'.conns[x].id < w'.nextId
    {
      StepHeard(sha, w, a, x);
    }
    hide Step, EnabledFor, Injective;
    forall b | b in w'.broadcasts
      ensures b.bound <= w'.nextId && (w'.leaked == {} ==> Injective(b.table))
    {
      var i :| 0 <= i < |w'.broadcasts| && w'.broadcasts[i] == b;
      assert i < |w.broadcasts| ==> w.broadcasts[i] in w.broadcasts;
    }
  }

  lemma StepNextId(sha: Hash, w: World, a: Action)
    requires Enabled(w, a)
    ensures Step(sha, w, a).nextId == w.nextId + if a.Accept? then 1 else 0
  {
    hide EnabledFor, ClientStep, OnFrame, Announce, JobDone, IncrementServer;
  }

  predicate IsVisit(w: World, w': World, t: Thread, t': Thread, u: Name)
    requires Broadcasting(t)
  {
    && t'.broadcast == t.broadcast && t'.hold == Shared(t.hold.left - {u})
    && w'.broadcasts == Visited(w.broadcasts, t.broadcast, u)
  }

  /** The broadcasts underway, as a step of the thread of `fd`. */
  ghost predicate BroadcastMoves(w: World, w': World, fd: Fd) {
    && OneMoved(w, w', fd)
    && (w.readers != {} ==> w'.table == w.table)
    && (fd in w'.conns && Broadcasting(w'.conns[fd].thread) ==>
          && fd in w.conns
          && var t, t' := w.conns[fd].thread, w'.conns[fd].thread;
          && t'.name == t.name && t'.jobs == t.jobs
          && (|| (&& t'.broadcast == |w.broadcasts| && t'.hold == Shared(w.table.Keys) && w'.table == w.table
                  && w'.broadcasts == w.broadcasts + [Starting(w, t)])
              || (Broadcasting(t) && t'.broadcast == t.broadcast && t'.hold == t.hold && w'.broadcasts == w.broadcasts)
              || (Broadcasting(t) && exists u :: IsVisit(w, w', t, t', u))))
    && (!(fd in w'.conns && Broadcasting(w'.conns[fd].thread)) ==> w'.broadcasts == w.broadcasts)
  }

  lemma UnderwayKept(w: World, w': World, fd: Fd, x: Fd)
    requires LockOk(w) && BroadcastsOk(w) && BroadcastMoves(w, w', fd)
    requires x in w'.conns && Broadcasting(w'.conns[x].thread)
    ensures Underway(w', w'.conns[x].thread)
  {
    hide IdsOk;
    if x != fd {
      assert x in w.readers;
      assert Underway(w, w.conns[x].thread);
    } else if Broadcasting(w.conns[fd].thread) {
      assert fd in w.readers;
      assert Underway(w, w.conns[fd].thread);
    }
  }

  lemma BroadcastMovesKeep(w: World, w': World, fd: Fd)
    requires LockOk(w) && BroadcastsOk(w) && BroadcastMoves(w, w', fd) && IdsOk(w')
    ensures BroadcastsOk(w')
  {
    forall x | x in w'.conns && Broadcasting(w'.conns[x].thread)
      ensures Underway(w', w'.conns[x].thread)
    {
      UnderwayKept(w, w', fd, x);
    }
    hide IdsOk, LockOk, Underway;
    assert forall x | x in w.conns && Broadcasting(w.conns[x].thread) :: Underway(w, w.conns[x].thread);
    OnRecord(w);
  }

  lemma OnRecord(w: World)
    requires BroadcastsOk(w)
    ensures forall x | x in w.conns && Broadcasting(w.conns[x].thread) :: w.conns[x].thread.broadcast < |w.broadcasts|
  {
    hide IdsOk;
  }

  lemma StepMovesBroadcasts(sha: Hash, w: World, a: Action)
    requires LockOk(w) && Enabled(w, a)
    ensures BroadcastMoves(w, Step(sha, w, a), a.fd)
  {
    var w' := Step(sha, w, a);
    StepBroadcasts(sha, w, a);
    StepThreads(sha, w, a);
    StepTable(sha, w, a);
    LockRules(w, a);
    if a.AcquireRead? || a.Visit? {
      BroadcastsOnRecord(sha, w, a);
    }
    StepBroadcasting(sha, w, a);
    if a.fd in w'.conns && Broadcasting(w'.conns[a.fd].thread) {
      if a.Visit? {
        assert IsVisit(w, w', w.conns[a.fd].thread, w'.conns[a.fd].thread, a.user);
      }
    }
    hide Step, LockOk, Visited;
  }

  /** A step that changes the records is a step of a thread that then broadcasts. */
  lemma BroadcastsOnRecord(sha: Hash, w: World, a: Action)
    requires Enabled(w, a) && (a.AcquireRead? || a.Visit?)
    ensures a.fd in Step(sha, w, a).conns
    ensures a.Visit? || w.conns[a.fd].thread.jobs[0].ToAll? ==> Broadcasting(Step(sha, w, a).conns[a.fd].thread)
  {
  }

  lemma BroadcastsKept(sha: Hash, w: World, a: Action)
    requires LockOk(w) && TableOk(w) && BroadcastsOk(w) && Enabled(w, a)
    ensures BroadcastsOk(Step(sha, w, a))
  {
    hide LockOk, TableOk, IdsOk, Enabled, Step, BroadcastMoves;
    StepMovesBroadcasts(sha, w, a);
    IdsKept(sha, w, a);
    BroadcastMovesKeep(w, Step(sha, w, a), a.fd);
  }

  // ---- Connections accepted after a broadcast began ----

  /** A connection accepted after broadcast `i` began has not heard it. */
  predicate Unheard(w: World, x: Fd, i: nat, f: Frame)
    requires x in w.conns
  {
    i < |w.broadcasts| && w.conns[x].id >= w.broadcasts[i].bound ==> w.conns[x].heard[Hearing(i, f)] == 0
  }

  /** No entry of the table leads to a connection accepted since the broadcast of thread `t` began. */
  predicate OutOfReach(w: World, t: Thread, x: Fd)
    requires x in w.conns
  {
    t.broadcast < |w.broadcasts| && w.conns[x].id >= w.broadcasts[t.broadcast].bound ==>
      forall u | u in w.table :: w.table[u] != x
  }

  ghost predicate LateOk(w: World) {
    w.leaked == {} ==>
      && (forall x, i: nat, f | x in w.conns :: Unheard(w, x, i, f))
      && (forall fd, x | fd in w.conns && Broadcasting(w.conns[fd].thread) && x in w.conns ::
            OutOfReach(w, w.conns[fd].thread, x))
  }

  /** A visit reaches only connections that were open when the broadcast began. */
  lemma VisitsOldSocket(w: World, a: Action, x: Fd)
    requires BroadcastsOk(w) && LateOk(w) && w.leaked == {} && Enabled(w, a) && VisitsSocket(w, a, x) && x in w.conns
    ensures Broadcasting(w.conns[a.fd].thread)
    ensures var k := w.conns[a.fd].thread.broadcast;
      k < |w.broadcasts| && w.conns[x].id < w.broadcasts[k].bound
  {
    hide IdsOk, Unheard;
    var t := w.conns[a.fd].thread;
    assert Underway(w, t) && OutOfReach(w, t, x);
  }

  lemma UnheardKept(sha: Hash, w: World, a: Action, x: Fd, i: nat, f: Frame)
    requires BroadcastsOk(w) && LateOk(w) && w.leaked == {} && Enabled(w, a)
    requires x in Step(sha, w, a).conns
    ensures Unheard(Step(sha, w, a), x, i, f)
  {
    hide Step, EnabledFor, BroadcastsOk, Injective, OutOfReach;
    StepBroadcasts(sha, w, a);
    StepHeard(sha, w, a, x);
    IdsOf(w);
    if x in w.conns {
      assert Unheard(w, x, i, f);
      if VisitsSocket(w, a, x) {
        VisitsOldSocket(w, a, x);
        var t := w.conns[a.fd].thread;
        assert i != t.broadcast ==> multiset{Visiting(t)}[Hearing(i, f)] == 0;
      }
    }
  }

  lemma IdsOf(w: World)
    requires BroadcastsOk(w)
    ensures forall fd | fd in w.conns :: w.conns[fd].id < w.nextId
  {
    hide Underway, Injective;
  }

  /** Connections keep their id, and a new one finds the table as it was. */
  predicate KeepsIds(w: World, w': World) {
    && (forall x | x in w'.conns :: if x in w.conns then w'.conns[x].id == w.conns[x].id else w'.table == w.table)
    && |w'.broadcasts| >= |w.broadcasts|
    && forall j | 0 <= j < |w.broadcasts| :: w'.broadcasts[j].bound == w.broadcasts[j].bound
  }

  lemma IdsStay(sha: Hash, w: World, a: Action)
    requires Enabled(w, a)
    ensures KeepsIds(w, Step(sha, w, a))
  {
    var w' := Step(sha, w, a);
    StepBroadcasts(sha, w, a);
    StepTable(sha, w, a);
    forall x | x in w'.conns
      ensures if x in w.conns then w'.conns[x].id == w.conns[x].id else w'.table == w.table
    {
      StepHeard(sha, w, a, x);
    }
    hide Step, Enabled;
  }

  /** What a broadcasting thread was doing before: the same broadcast, or waiting for the lock. */
  lemma BroadcastBefore(w: World, w': World, moved: Fd, fd: Fd)
    requires LockOk(w) && BroadcastsOk(w) && BroadcastMoves(w, w', moved)
    requires fd in w'.conns && Broadcasting(w'.conns[fd].thread)
    ensures fd in w.conns
    ensures var t, t' := w.conns[fd].thread, w'.conns[fd].thread;
      || (Broadcasting(t) && t'.broadcast == t.broadcast && w'.table == w.table)
      || (t'.broadcast == |w.broadcasts| && w'.table == w.table
          && w'.broadcasts == w.broadcasts + [Starting(w, t)])
  {
    hide BroadcastsOk;
    var t := w.conns[fd].thread;
    if Broadcasting(t) {
      assert fd in w.readers;
    }
  }

  lemma StaysOutOfReach(w: World, w': World, moved: Fd, fd: Fd, x: Fd)
    requires LockOk(w) && TableOk(w) && BroadcastsOk(w) && LateOk(w) && w.leaked == {}
    requires BroadcastMoves(w, w', moved) && KeepsIds(w, w')
    requires fd in w'.conns && Broadcasting(w'.conns[fd].thread) && x in w'.conns
    ensures OutOfReach(w', w'.conns[fd].thread, x)
  {
    BroadcastBefore(w, w', moved, fd);
    var t := w.conns[fd].thread;
    assert x !in w.conns ==> forall u | u in w.table :: w.table[u] != x;
    assert IdsOk(w);
    if Broadcasting(t) {
      assert Underway(w, t);
      assert x in w.conns ==> OutOfReach(w, t, x);
    }
    hide BroadcastMoves, LockOk, BroadcastsOk, LateOk, TableOk, IdsOk, Broadcasting;
  }

  lemma LateKept(sha: Hash, w: World, a: Action)
    requires LockOk(w) && TableOk(w) && BroadcastsOk(w) && LateOk(w) && Enabled(w, a)
    ensures LateOk(Step(sha, w, a))
  {
    var w' := Step(sha, w, a);
    StepTable(sha, w, a);
    StepMovesBroadcasts(sha, w, a);
    IdsStay(sha, w, a);
    hide Step, Enabled, LockOk, TableOk, BroadcastsOk, BroadcastMoves, KeepsIds, OutOfReach, Unheard;
    if w'.leaked == {} {
      assert w.leaked == {};
      forall x, i: nat, f | x in w'.conns
        ensures Unheard(w', x, i, f)
      {
        UnheardKept(sha, w, a, x, i, f);
      }
      forall fd, x | fd in w'.conns && Broadcasting(w'.conns[fd].thread) && x in w'.conns
        ensures OutOfReach(w', w'.conns[fd].thread, x)
      {
        StaysOutOfReach(w, w', a.fd, fd, x);
      }
    }
  }
}
