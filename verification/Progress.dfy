/**
 Freedom from deadlock: whoever holds the lock can give it back by steps of its own, so that from
 every world the lock can become free without anybody else moving.
 */
module Progress {
  import opened Words
  import opened HeaderLayout
  import opened Options
  import opened Protocol
  import opened Delivery
  import opened SharedTable
  import opened Safety
  import opened Endings
  import opened Runs
  import opened Refinement
  import UserList

  /** Only a thread that registers or leaves asks for the lock for writing. */
  predicate WritesForAReason(t: Thread) {
    t.hold.Exclusive? ==> t.phase == Registering || t.phase == Leaving
  }

  ghost predicate HoldsOk(w: World) {
    forall fd | fd in w.conns :: WritesForAReason(w.conns[fd].thread)
  }

  lemma SessionHold(sha: Hash, w: World, a: Action)
    requires LockOk(w) && HoldsOk(w) && Enabled(w, a) && !UsesLock(a) && !DoesJob(a)
    ensures var w' := SessionStep(sha, w, a);
      a.fd in w'.conns ==> WritesForAReason(w'.conns[a.fd].thread)
  {
    hide ClientStep, OnFrame, Announce;
  }

  lemma LockHold(w: World, a: Action)
    requires HoldsOk(w) && Enabled(w, a) && UsesLock(a)
    ensures a.fd in LockStep(w, a).conns && WritesForAReason(LockStep(w, a).conns[a.fd].thread)
  {
  }

  lemma JobHold(sha: Hash, w: World, a: Action)
    requires Enabled(w, a) && DoesJob(a)
    ensures var w' := Step(sha, w, a);
      a.fd in w'.conns ==> WritesForAReason(w'.conns[a.fd].thread)
  {
    hide IncrementServer, SessionStep, LockStep;
  }

  lemma HoldsKept(sha: Hash, w: World, a: Action)
    requires LockOk(w) && HoldsOk(w) && Enabled(w, a)
    ensures HoldsOk(Step(sha, w, a))
  {
    hide SessionStep, LockStep, JobStep, EnabledFor, LockOk, WritesForAReason;
    StepThreads(sha, w, a);
    if UsesLock(a) {
      LockHold(w, a);
    } else if DoesJob(a) {
      JobHold(sha, w, a);
    } else {
      SessionHold(sha, w, a);
    }
  }

  /** What holds in every world of every run, and is needed here. */
  ghost predicate Safe(sha: Hash, w: World) {
    Invariant(sha, w) && HoldsOk(w)
  }

  lemma SafeKept(sha: Hash, w: World, a: Action)
    requires Safe(sha, w) && Enabled(w, a)
    ensures Safe(sha, Step(sha, w, a))
  {
    assert LockOk(w);
    hide Step, Enabled, LockOk, HoldsOk;
    InvariantKept(sha, w, a);
    HoldsKept(sha, w, a);
  }

  lemma {:induction false} RunsHold(sha: Hash, run: seq<World>, actions: seq<Action>, i: nat)
    requires IsRun(sha, run, actions) && i < |run|
    ensures Safe(sha, run[i])
  {
    hide Invariant, Step, Enabled, HoldsOk;
    if i == 0 {
      InitiallyInvariant(sha);
      NobodyHolds();
    } else {
      RunsHold(sha, run, actions, i - 1);
      assert Enabled(run[i - 1], actions[i - 1]) && run[i] == Step(sha, run[i - 1], actions[i - 1]);
      SafeKept(sha, run[i - 1], actions[i - 1]);
    }
  }

  lemma NobodyHolds()
    ensures HoldsOk(INITIAL)
  {
  }

  /** How many steps a thread is from giving the lock back, at most. */
  function StepsToGo(t: Thread): nat {
    match t.hold
    case Free => 0
    case SharedDone => 1
    case ExclusiveDone => 1
    case Exclusive => 2
    case Shared(left) => |left| + 2
  }

  /** The step of a thread that holds the lock. */
  function NextStep(fd: Fd, t: Thread, user: Name, order: seq<Name>): Action
    requires t.hold != Free && (t.hold.Shared? ==> t.jobs != [])
  {
    match t.hold
    case SharedDone => ReleaseRead(fd)
    case ExclusiveDone => ReleaseWrite(fd)
    case Exclusive => if t.phase == Registering then Register(fd) else LogOut(fd)
    case Shared(left) =>
      match t.jobs[0]
      case SendTo(_, _, _) => Send(fd)
      case ListUsers => List(fd, order)
      case ToAll(_, _) => if left == {} then FinishBroadcast(fd) else Visit(fd, user)
  }

  /** A thread that holds the lock is never stuck. */
  lemma HolderHasAStep(sha: Hash, w: World, fd: Fd) returns (a: Action)
    requires Safe(sha, w) && fd in w.conns && w.conns[fd].thread.hold != Free
    ensures Enabled(w, a) && a.fd == fd && (UsesLock(a) || DoesJob(a)) && !a.AcquireRead? && !a.AcquireWrite?
    ensures a.Visit? ==> w.conns[fd].thread.hold.Shared? && a.user in w.conns[fd].thread.hold.left
  {
    hide LockOk, TableOk, ConnOk, JobsOk;
    var t := w.conns[fd].thread;
    assert ConnOk(sha, w.conns[fd]) && WritesForAReason(t);
    hide Invariant, HoldsOk;
    HoldersJobs(sha, w.conns[fd]);
    var order := UserList.SomeOrder(w.table.Keys);
    var user :| t.hold.Shared? && t.hold.left != {} ==> user in t.hold.left;
    a := NextStep(fd, t, user, order);
  }

  lemma HoldersJobs(sha: Hash, c: Conn)
    requires ConnOk(sha, c)
    ensures c.thread.hold.Shared? ==>
              c.thread.jobs != [] && (c.thread.jobs[0].ListUsers? ==> c.thread.jobs == [ListUsers])
  {
    hide Serials, FramesOk, TokensOk, OrderOk;
    JobsOkOf(sha, c);
  }

  /** Such a step brings the thread nearer to giving the lock back, and is the only thing it does to the lock. */
  lemma StepsGoDown(sha: Hash, w: World, a: Action)
    requires Enabled(w, a) && (UsesLock(a) || DoesJob(a)) && !a.AcquireRead? && !a.AcquireWrite?
    ensures a.fd in w.conns && a.fd in Step(sha, w, a).conns
    ensures StepsToGo(Step(sha, w, a).conns[a.fd].thread) < StepsToGo(w.conns[a.fd].thread)
    ensures Step(sha, w, a).conns[a.fd].thread.hold == Free <==> a.ReleaseRead? || a.ReleaseWrite?
  {
    hide Step, EnabledFor;
    if UsesLock(a) {
      LockStepsGoDown(sha, w, a);
    } else {
      JobStepsGoDown(sha, w, a);
    }
  }

  lemma LockStepsGoDown(sha: Hash, w: World, a: Action)
    requires Enabled(w, a) && UsesLock(a) && !a.AcquireRead? && !a.AcquireWrite?
    ensures a.fd in w.conns && a.fd in Step(sha, w, a).conns
    ensures StepsToGo(Step(sha, w, a).conns[a.fd].thread) < StepsToGo(w.conns[a.fd].thread)
    ensures Step(sha, w, a).conns[a.fd].thread.hold == Free <==> a.ReleaseRead? || a.ReleaseWrite?
  {
    hide SessionStep, JobStep;
  }

  lemma JobStepsGoDown(sha: Hash, w: World, a: Action)
    requires Enabled(w, a) && DoesJob(a)
    ensures a.fd in w.conns && a.fd in Step(sha, w, a).conns
    ensures StepsToGo(Step(sha, w, a).conns[a.fd].thread) < StepsToGo(w.conns[a.fd].thread)
    ensures Step(sha, w, a).conns[a.fd].thread.hold != Free
  {
    hide Step, JobDone;
    HoldsShared(w, a);
    if a.Send? || a.FinishBroadcast? {
      DoneThread(sha, w, a);
    } else if a.List? {
      ListThread(sha, w, a);
    } else {
      VisitThread(sha, w, a);
    }
  }

  lemma HoldsShared(w: World, a: Action)
    requires Enabled(w, a) && DoesJob(a)
    ensures a.fd in w.conns && w.conns[a.fd].thread.hold.Shared?
  {
  }

  lemma ListThread(sha: Hash, w: World, a: Action)
    requires Enabled(w, a) && a.List?
    ensures a.fd in Step(sha, w, a).conns && Step(sha, w, a).conns[a.fd].thread.hold == SharedDone
  {
    hide IncrementServer, UserList.Listing;
  }

  lemma VisitThread(sha: Hash, w: World, a: Action)
    requires Enabled(w, a) && a.Visit?
    ensures a.fd in Step(sha, w, a).conns
    ensures a.user in w.conns[a.fd].thread.hold.left
    ensures Step(sha, w, a).conns[a.fd].thread.hold == Shared(w.conns[a.fd].thread.hold.left - {a.user})
  {
    VisitStep(sha, w, a);
    hide Step, Heard, Got, CauseOf;
  }

  predicate Holds(w: World, fd: Fd) {
    fd in w.readers || w.writer == Some(fd)
  }

  /** From `w` to `w'` only threads in `movers` have moved. */
  ghost predicate OthersWait(w: World, w': World, movers: set<Fd>) {
    forall x | x in w.conns && x !in movers :: x in w'.conns && w'.conns[x].thread == w.conns[x].thread
  }

  /** By at most as many steps of its own as it has to go, a thread gives the lock back. */
  lemma {:induction false} HolderReleases(sha: Hash, w: World, fd: Fd) returns (actions: seq<Action>, w': World)
    requires Safe(sha, w) && fd in w.conns && w.conns[fd].thread.hold != Free
    ensures Leads(sha, w, actions, w') && |actions| <= StepsToGo(w.conns[fd].thread)
    ensures Safe(sha, w') && fd in w'.conns && w'.conns[fd].thread.hold == Free
    ensures w'.readers == w.readers - {fd} && w'.writer == (if w.writer == Some(fd) then None else w.writer)
    ensures OthersWait(w, w', {fd}) && forall a | a in actions :: a.fd == fd
    decreases StepsToGo(w.conns[fd].thread)
  {
    hide Step, Enabled, Safe, Leads, StepsToGo, Closes;
    var a := HolderHasAStep(sha, w, fd);
    var w1 := Step(sha, w, a);
    StepsGoDown(sha, w, a);
    SafeKept(sha, w, a);
    StepLock(sha, w, a);
    StepThreads(sha, w, a);
    LeadsOne(sha, w, a);
    LockIsKnown(sha, w, fd);
    LockIsKnown(sha, w1, fd);
    if w1.conns[fd].thread.hold == Free {
      actions, w' := [a], w1;
    } else {
      var rest;
      rest, w' := HolderReleases(sha, w1, fd);
      LeadsOn(sha, w, [a], w1, rest, w');
      actions := [a] + rest;
    }
    KeepsOthers(sha, w, a);
  }

  lemma LockIsKnown(sha: Hash, w: World, fd: Fd)
    requires Safe(sha, w) && fd in w.conns
    ensures fd in w.readers <==> Reads(w.conns[fd].thread)
    ensures w.writer == Some(fd) <==> Writes(w.conns[fd].thread)
    ensures w.readers <= w.conns.Keys && (w.writer.Some? ==> w.writer.value in w.conns && w.readers == {})
  {
    assert LockOk(w);
  }

  /** A step of a holder closes no socket. */
  lemma KeepsOthers(sha: Hash, w: World, a: Action)
    requires Enabled(w, a) && (UsesLock(a) || DoesJob(a))
    ensures OthersWait(w, Step(sha, w, a), {a.fd})
  {
    hide Step, EnabledFor;
    StepThreads(sha, w, a);
  }

  /**
   From every safe world the lock comes free by steps of those who hold it; nobody else moves
   meanwhile, so whoever is waiting for the lock can then take it.
   */
  lemma {:induction false} LockComesFree(sha: Hash, w: World) returns (actions: seq<Action>, w': World)
    requires Safe(sha, w)
    ensures Leads(sha, w, actions, w') && w'.readers == {} && w'.writer == None
    ensures forall a | a in actions :: Holds(w, a.fd)
    ensures forall x | x in w.conns && !Holds(w, x) :: x in w'.conns && w'.conns[x].thread == w.conns[x].thread
    decreases |w.readers| + if w.writer.Some? then 1 else 0
  {
    hide Step, Enabled, Safe, Leads;
    if fd :| Holds(w, fd) {
      SomeHolder(sha, w, fd);
      var first, w1 := HolderReleases(sha, w, fd);
      var rest;
      rest, w' := LockComesFree(sha, w1);
      LeadsOn(sha, w, first, w1, rest, w');
      actions := first + rest;
    } else {
      actions, w' := [], w;
      LeadsNowhere(sha, w);
      NobodyElse(w);
    }
  }

  lemma SomeHolder(sha: Hash, w: World, fd: Fd)
    requires Safe(sha, w) && Holds(w, fd)
    ensures fd in w.conns && w.conns[fd].thread.hold != Free
    ensures w.writer.Some? ==> w.readers == {}
  {
    assert LockOk(w);
  }

  lemma NobodyElse(w: World)
    requires forall fd :: !Holds(w, fd)
    ensures w.readers == {} && w.writer == None
  {
    if w.writer.Some? {
      assert Holds(w, w.writer.value);
    }
    forall fd | fd in w.readers
      ensures false
    {
      assert Holds(w, fd);
    }
  }

  /** Every run can be continued, by lock holders alone, to a world in which the lock is free. */
  lemma NoDeadlock(sha: Hash, run: seq<World>, actions: seq<Action>, i: nat) returns (more: seq<Action>, w': World)
    requires IsRun(sha, run, actions) && i < |run|
    ensures Leads(sha, run[i], more, w') && forall a | a in more :: Holds(run[i], a.fd)
    ensures forall x | x in run[i].conns && !Holds(run[i], x) ::
      && x in w'.conns && w'.conns[x].thread == run[i].conns[x].thread
      && (WantsToRead(run[i].conns[x].thread) ==> Enabled(w', AcquireRead(x)))
      && (WantsToWrite(run[i].conns[x].thread) ==> Enabled(w', AcquireWrite(x)))
  {
    hide IsRun, Safe, Leads, Step;
    RunsHold(sha, run, actions, i);
    more, w' := LockComesFree(sha, run[i]);
  }

  /** The thread cannot go on with its job without the lock. */
  predicate WantsToRead(t: Thread) {
    t.hold == Free && t.jobs != []
  }

  predicate WantsToWrite(t: Thread) {
    t.hold == Free && (t.phase == Registering || (t.phase == Leaving && t.jobs == []))
  }
}
