/**
 Messages from client to client: what each connection got, and that it got no message twice.
 */
module Receipts {
  import opened Words
  import opened HeaderLayout
  import opened Options
  import opened Protocol
  import opened Delivery
  import opened SharedTable
  import opened Safety
  import opened Endings
  import opened Broadcasts

  /** The thread is just passing on message `s` of its client to everybody. */
  predicate Relaying(t: Thread, s: nat) {
    Broadcasting(t) && t.jobs[0].relay && t.jobs[0].frame.serial == s
  }

  /**
   What connection `x` got of the message that `f` carries, if `f` comes from connection `y`: nothing
   before it is dispatched, except that a message to everybody arrives visit by visit.
   */
  predicate GotAt(w: World, y: Fd, x: Fd, f: Frame)
    requires y in w.conns && x in w.conns
  {
    var t, n := w.conns[y].thread, w.conns[x].got[Receipt(w.conns[y].id, f)];
    if Relaying(t, f.serial) then n == w.conns[x].heard[Hearing(t.broadcast, f)]
    else f.serial !in Dispatched(t) ==> n == 0
  }

  ghost predicate SendersOk(w: World) {
    && (forall x, y | x in w.conns && y in w.conns && x != y :: w.conns[x].id != w.conns[y].id)
    && (forall x, r | x in w.conns && r in w.conns[x].got :: r.sender < w.nextId)
  }

  ghost predicate GotOk(w: World) {
    forall y, x, f | y in w.conns && x in w.conns :: GotAt(w, y, x, f)
  }

  /** No frame twice, and no two frames for the same message. */
  ghost predicate OnceAt(c: Conn) {
    && (forall r :: c.got[r] <= 1)
    && (forall r, r' | r in c.got && r' in c.got ::
          r.sender == r'.sender && r.frame.serial == r'.frame.serial ==> r == r')
  }

  ghost predicate OnceOk(w: World) {
    w.leaked == {} ==> forall x | x in w.conns :: OnceAt(w.conns[x])
  }

  // ---- What a step does ----

  /** Steps that work on the first job of a thread with a frame to send. */
  predicate Sends(a: Action) {
    a.Send? || a.Visit? || a.FinishBroadcast?
  }

  function FrameSent(w: World, a: Action): Frame
    requires Enabled(w, a) && Sends(a)
  {
    w.conns[a.fd].thread.jobs[0].frame
  }

  /** That frame is a message of the thread's client. */
  predicate IsMessage(w: World, a: Action)
    requires Enabled(w, a) && Sends(a)
  {
    w.conns[a.fd].thread.jobs[0].relay
  }

  lemma JobsOf(w: World, a: Action)
    requires Enabled(w, a) && Sends(a)
    ensures a.fd in w.conns
    ensures var t := w.conns[a.fd].thread;
      && t.jobs != [] && !t.jobs[0].ListUsers?
      && t.jobs[0].frame == FrameSent(w, a) && t.jobs[0].relay == IsMessage(w, a)
      && (a.Send? <==> t.jobs[0].SendTo?)
      && (a.Send? ==> !Broadcasting(t)) && (!a.Send? ==> Broadcasting(t))
      && (a.FinishBroadcast? ==> t.hold.left == {})
  {
  }

  /** The step completes the dispatch of a client's message. */
  predicate Completes(w: World, a: Action)
    requires Enabled(w, a)
  {
    (a.Send? || a.FinishBroadcast?) && IsMessage(w, a)
  }

  ghost predicate DispatchMoves(t: Thread, t': Thread, completes: bool) {
    if completes then
      t.jobs != [] && IsRelay(t.jobs[0]) && Dispatched(t') == Dispatched(t) + [t.jobs[0].frame.serial]
    else Dispatched(t') == Dispatched(t)
  }

  lemma StepDispatched(sha: Hash, w: World, a: Action)
    requires ConnsOk(sha, w) && Enabled(w, a) && !a.Accept? && a.fd in Step(sha, w, a).conns
    ensures DispatchMoves(w.conns[a.fd].thread, Step(sha, w, a).conns[a.fd].thread, Completes(w, a))
  {
    hide Step, EnabledFor, ConnOk, JobsOk, OnFrame, JobDone;
    var c := w.conns[a.fd];
    JobsOkOf(sha, c);
    if a.ClientAct? {
      ClientThread(sha, w, a);
    } else if a.ReadFrame? {
      ReadThread(sha, w, a);
      FrameDispatchesNothing(sha, c.thread, c.up[0], a.received);
    } else if a.Send? || a.FinishBroadcast? {
      DoneThread(sha, w, a);
      JobsOf(w, a);
      JobDispatches(c.thread, true);
      JobDispatches(c.thread, false);
    } else {
      OtherThread(sha, w, a);
    }
  }

  lemma FrameDispatchesNothing(sha: Hash, t: Thread, f: Frame, received: Bytes)
    ensures Dispatched(OnFrame(sha, t, f, received)) == Dispatched(t)
  {
  }

  lemma JobDispatches(t: Thread, success: bool)
    requires t.jobs != [] && !t.jobs[0].ListUsers?
    ensures Dispatched(JobDone(t, success)) == Dispatched(t) + if t.jobs[0].relay then [t.jobs[0].frame.serial] else []
  {
  }

  /** What is about to be passed on has not been dispatched before. */
  lemma RelayIsFresh(sha: Hash, c: Conn)
    requires ConnOk(sha, c) && c.thread.jobs != [] && IsRelay(c.thread.jobs[0])
    ensures c.thread.jobs[0].frame.serial !in Dispatched(c.thread)
  {
    var t := c.thread;
    var s := t.jobs[0].frame.serial;
    JobsOkOf(sha, c);
    assert t.phase == Serving && |t.jobs| == 1 by {
      assert t.jobs[0] in t.jobs;
    }
    assert t.acked == Dispatched(t) + [s];
    hide Serials, FramesOk, TokensOk, Unanswered, ToBeSent, JobsOk, Dispatched;
    LastIsNew(Dispatched(t), s);
  }

  lemma LastIsNew(ss: seq<nat>, s: nat)
    requires Distinct(ss + [s])
    ensures s !in ss
  {
    forall i | 0 <= i < |ss|
      ensures ss[i] != s
    {
      assert (ss + [s])[i] != (ss + [s])[|ss|];
    }
  }

  /** What `x` gets in a step, and from whom. */
  lemma StepGot(sha: Hash, w: World, a: Action, x: Fd)
    requires Enabled(w, a) && x in Step(sha, w, a).conns
    ensures var c' := Step(sha, w, a).conns[x];
      if x in w.conns then
        && c'.id == w.conns[x].id
        && c'.got == w.conns[x].got + if Reaches(w, a, x) then Given(w, a) else multiset{}
      else a.Accept? && c'.id == w.nextId && c'.got == multiset{}
  {
    hide Step, EnabledFor, CauseOf, Heard;
    if a.Send? {
      SendReceives(sha, w, a, x);
      CauseIsRelay(w, a);
    } else if a.Visit? {
      VisitReceives(sha, w, a, x);
      CauseIsRelay(w, a);
    } else {
      QuietReceives(sha, w, a, x);
    }
  }

  /** The receipt a step gives to whom it reaches, if what it sends is a client's message. */
  function Given(w: World, a: Action): multiset<Receipt>
    requires Enabled(w, a) && (a.Send? || a.Visit?)
  {
    if IsMessage(w, a) then multiset{Receipt(w.conns[a.fd].id, FrameSent(w, a))} else multiset{}
  }

  lemma CauseIsRelay(w: World, a: Action)
    requires Enabled(w, a) && (a.Send? || a.Visit?)
    ensures var c := w.conns[a.fd];
      Got(CauseOf(c), c.thread.jobs[0].frame) == Given(w, a)
  {
  }

  // ---- The invariants are kept ----

  lemma SendersKept(sha: Hash, w: World, a: Action)
    requires BroadcastsOk(w) && SendersOk(w) && Enabled(w, a)
    ensures SendersOk(Step(sha, w, a))
  {
    hide Step, EnabledFor, BroadcastsOk, Given, Reaches;
    var w' := Step(sha, w, a);
    IdsOf(w);
    StepNextId(sha, w, a);
    forall x | x in w'.conns
      ensures x in w.conns ==> w'.conns[x].id == w.conns[x].id
      ensures x !in w.conns ==> a.Accept? && w'.conns[x].id == w.nextId && x == a.fd
      ensures forall r | r in w'.conns[x].got :: r.sender < w'.nextId
    {
      StepGot(sha, w, a, x);
      StepThreads(sha, w, a);
      if a.Send? || a.Visit? {
        GivenFrom(w, a);
      } else {
        NotReached(w, a, x);
      }
    }
  }

  lemma GivenFrom(w: World, a: Action)
    requires Enabled(w, a) && (a.Send? || a.Visit?)
    ensures forall r | r in Given(w, a) :: r == Receipt(w.conns[a.fd].id, FrameSent(w, a))
    ensures Given(w, a) == if IsMessage(w, a) then multiset{Receipt(w.conns[a.fd].id, FrameSent(w, a))} else multiset{}
  {
  }

  /** A newly accepted connection has sent nothing. */
  lemma NewSender(sha: Hash, w: World, a: Action, y: Fd, x: Fd, f: Frame)
    requires LockOk(w) && SendersOk(w) && Enabled(w, a)
    requires y in Step(sha, w, a).conns && x in Step(sha, w, a).conns && y !in w.conns
    ensures GotAt(Step(sha, w, a), y, x, f)
  {
    hide Step, EnabledFor, LockOk;
    StepGot(sha, w, a, y);
    StepGot(sha, w, a, x);
    StepThreads(sha, w, a);
    StepOwnThread(sha, w, a);
    NotReached(w, a, x);
    var r := Receipt(w.nextId, f);
    assert x in w.conns ==> r !in w.conns[x].got;
  }

  lemma NotReached(w: World, a: Action, x: Fd)
    requires Enabled(w, a) && !a.Send? && !a.Visit?
    ensures !Reaches(w, a, x)
  {
  }

  /** A newly accepted connection has got nothing. */
  lemma NewReceiver(sha: Hash, w: World, a: Action, y: Fd, x: Fd, f: Frame)
    requires Enabled(w, a) && y in w.conns
    requires y in Step(sha, w, a).conns && x in Step(sha, w, a).conns && x !in w.conns
    ensures GotAt(Step(sha, w, a), y, x, f)
  {
    hide Step, EnabledFor;
    StepGot(sha, w, a, x);
    StepHeard(sha, w, a, x);
  }

  /** A step of another thread neither sends nor broadcasts anything for `y`. */
  lemma OtherSender(sha: Hash, w: World, a: Action, y: Fd, x: Fd, f: Frame)
    requires BroadcastsOk(w) && SendersOk(w) && GotOk(w) && Enabled(w, a)
    requires y in w.conns && x in w.conns && y != a.fd
    requires y in Step(sha, w, a).conns && x in Step(sha, w, a).conns
    ensures GotAt(Step(sha, w, a), y, x, f)
  {
    hide Step, EnabledFor, IdsOk, Underway;
    StepGot(sha, w, a, x);
    StepGot(sha, w, a, y);
    StepHeard(sha, w, a, x);
    StepThreads(sha, w, a);
    assert GotAt(w, y, x, f);
    if a.Send? || a.Visit? {
      GivenFrom(w, a);
      hide Given;
      var t := w.conns[y].thread;
      assert a.fd in w.conns && w.conns[a.fd].id != w.conns[y].id;
      assert Given(w, a)[Receipt(w.conns[y].id, f)] == 0;
      if Broadcasting(t) && VisitsSocket(w, a, x) {
        JobsOf(w, a);
        assert multiset{Visiting(w.conns[a.fd].thread)}[Hearing(t.broadcast, f)] == 0;
      }
    }
  }

  /** What the thread of a connection has been doing when it broadcasts after a step, or has just stopped. */
  lemma OwnBroadcast(sha: Hash, w: World, a: Action)
    requires LockOk(w) && Enabled(w, a) && a.fd in w.conns && a.fd in Step(sha, w, a).conns
    ensures var t, t' := w.conns[a.fd].thread, Step(sha, w, a).conns[a.fd].thread;
      && (Broadcasting(t') && !a.AcquireRead? ==> Broadcasting(t) && t'.jobs == t.jobs && t'.broadcast == t.broadcast)
      && (Broadcasting(t') && a.AcquireRead? ==>
            !Broadcasting(t) && t.jobs != [] && t'.jobs == t.jobs && t'.broadcast == |w.broadcasts|)
      && (Broadcasting(t) && !Broadcasting(t') ==> a.FinishBroadcast?)
  {
    hide Step, LockOk;
    StepBroadcasting(sha, w, a);
    if Broadcasting(w.conns[a.fd].thread) {
      BusyThread(w, a);
      if a.Visit? {
        BroadcastsOnRecord(sha, w, a);
      } else if a.ClientAct? {
        ClientThread(sha, w, a);
      }
    }
  }

  lemma BusyThread(w: World, a: Action)
    requires LockOk(w) && Enabled(w, a) && a.fd in w.conns && Broadcasting(w.conns[a.fd].thread)
    ensures a.Visit? || a.FinishBroadcast? || a.ClientAct?
  {
  }

  /** The thread's own step: by what it does to a message that `f` may carry. */
  lemma OwnSender(sha: Hash, w: World, a: Action, x: Fd, f: Frame)
    requires LockOk(w) && HeardOk(w) && ConnsOk(sha, w) && GotOk(w) && Enabled(w, a)
    requires a.fd in w.conns && x in w.conns && a.fd in Step(sha, w, a).conns && x in Step(sha, w, a).conns
    ensures GotAt(Step(sha, w, a), a.fd, x, f)
  {
    hide Step, EnabledFor, LockOk, ConnOk, JobsOk;
    var c, t := w.conns[a.fd], w.conns[a.fd].thread;
    assert GotAt(w, a.fd, x, f) && HeardAt(w, x, |w.broadcasts|, f);
    OwnBroadcast(sha, w, a);
    StepDispatched(sha, w, a);
    StepGot(sha, w, a, a.fd);
    StepGot(sha, w, a, x);
    StepHeard(sha, w, a, x);
    if t.jobs != [] && IsRelay(t.jobs[0]) {
      RelayIsFresh(sha, c);
    }
    hide Dispatched;
    if a.Send? || a.Visit? {
      GivenFrom(w, a);
      hide Given;
      if a.Send? {
        JobsOf(w, a);
      } else {
        JobsOf(w, a);
      }
    } else {
      NotReached(w, a, x);
    }
  }

  lemma GotKept(sha: Hash, w: World, a: Action)
    requires LockOk(w) && HeardOk(w) && BroadcastsOk(w) && ConnsOk(sha, w) && SendersOk(w) && GotOk(w) && Enabled(w, a)
    ensures GotOk(Step(sha, w, a))
  {
    hide Step, Enabled, LockOk, HeardOk, BroadcastsOk, ConnsOk, SendersOk, GotAt;
    var w' := Step(sha, w, a);
    forall y, x, f | y in w'.conns && x in w'.conns
      ensures GotAt(w', y, x, f)
    {
      if y !in w.conns {
        NewSender(sha, w, a, y, x, f);
      } else if x !in w.conns {
        NewReceiver(sha, w, a, y, x, f);
      } else if y != a.fd {
        OtherSender(sha, w, a, y, x, f);
      } else {
        OwnSender(sha, w, a, x, f);
      }
    }
  }

  // ---- At most once ----

  lemma Bounded(w: World, x: Fd, k: nat, f: Frame)
    requires w.leaked == {} && BroadcastsOk(w) && HeardOk(w) && LateOk(w) && x in w.conns && k < |w.broadcasts|
    ensures w.conns[x].heard[Hearing(k, f)] <= 1
    ensures f != w.broadcasts[k].frame ==> w.conns[x].heard[Hearing(k, f)] == 0
  {
    assert HeardAt(w, x, k, f) && Unheard(w, x, k, f);
    var b := w.broadcasts[k];
    assert IdsOk(w) && Injective(b.table);
    hide HeardOk, LateOk, BroadcastsOk;
    TimesInjective(b.table, Served(b), x);
  }

  /** A connection that gets a frame has got nothing of that message before, or only by the same broadcast. */
  lemma GotForItsMessage(sha: Hash, w: World, a: Action, x: Fd, f: Frame)
    requires ConnsOk(sha, w) && GotOk(w) && Enabled(w, a) && x in w.conns && (a.Send? || a.Visit?)
    requires IsMessage(w, a) && f.serial == FrameSent(w, a).serial
    ensures var c := w.conns[a.fd];
      w.conns[x].got[Receipt(c.id, f)] == if a.Send? then 0 else w.conns[x].heard[Hearing(c.thread.broadcast, f)]
  {
    hide ConnOk, Dispatched, EnabledFor, JobsOk;
    JobsOf(w, a);
    assert GotAt(w, a.fd, x, f);
    if a.Send? {
      RelayIsFresh(sha, w.conns[a.fd]);
    }
  }

  lemma ReachesBySending(w: World, a: Action, x: Fd)
    requires Enabled(w, a) && Reaches(w, a, x)
    ensures a.Send? || a.Visit?
  {
  }

  lemma BroadcastIsOnRecord(w: World, fd: Fd)
    requires BroadcastsOk(w) && fd in w.conns && Broadcasting(w.conns[fd].thread)
    ensures Underway(w, w.conns[fd].thread)
  {
    hide IdsOk;
  }

  /** Whom a private message reaches, has one copy of it afterwards, and nothing else of that message. */
  lemma OneBySending(sha: Hash, w: World, a: Action, x: Fd, g: Frame)
    requires ConnsOk(sha, w) && GotOk(w) && Enabled(w, a) && a.Send?
    requires x in w.conns && x in Step(sha, w, a).conns
    requires IsMessage(w, a) && g.serial == FrameSent(w, a).serial
    ensures var f := FrameSent(w, a);
      Step(sha, w, a).conns[x].got[Receipt(w.conns[a.fd].id, g)] == if Reaches(w, a, x) && g == f then 1 else 0
  {
    hide Step, EnabledFor, ConnsOk, GotOk, Given, Reaches;
    StepGot(sha, w, a, x);
    GivenFrom(w, a);
    GotForItsMessage(sha, w, a, x, g);
  }

  /** The same for a visit, on the strength of what is known about broadcasts. */
  lemma OneByVisit(sha: Hash, w: World, a: Action, x: Fd, g: Frame)
    requires ConnsOk(sha, w) && BroadcastsOk(w) && GotOk(w) && Enabled(w, a) && a.Visit?
    requires x in w.conns && Reaches(w, a, x) && x in Step(sha, w, a).conns
    requires IsMessage(w, a) && g.serial == FrameSent(w, a).serial
    requires var w' := Step(sha, w, a);
      BroadcastsOk(w') && HeardOk(w') && LateOk(w') && w'.leaked == {}
    ensures var f := FrameSent(w, a);
      Step(sha, w, a).conns[x].got[Receipt(w.conns[a.fd].id, g)] == if g == f then 1 else 0
  {
    hide Step, EnabledFor, ConnsOk, BroadcastsOk, GotOk, HeardOk, LateOk, Given;
    StepGot(sha, w, a, x);
    StepHeard(sha, w, a, x);
    GivenFrom(w, a);
    GotForItsMessage(sha, w, a, x, g);
    JobsOf(w, a);
    var k := w.conns[a.fd].thread.broadcast;
    BroadcastIsOnRecord(w, a.fd);
    StepBroadcasts(sha, w, a);
    Bounded(Step(sha, w, a), x, k, g);
  }

  lemma OnceKeptAt(sha: Hash, w: World, a: Action, x: Fd)
    requires ConnsOk(sha, w) && BroadcastsOk(w) && GotOk(w) && Enabled(w, a)
    requires x in Step(sha, w, a).conns && (x in w.conns ==> OnceAt(w.conns[x]))
    requires var w' := Step(sha, w, a);
      BroadcastsOk(w') && HeardOk(w') && LateOk(w') && w'.leaked == {}
    ensures OnceAt(Step(sha, w, a).conns[x])
  {
    hide Step, EnabledFor, ConnsOk, BroadcastsOk, GotOk, HeardOk, LateOk, Given, Reaches;
    StepGot(sha, w, a, x);
    var w' := Step(sha, w, a);
    if x in w.conns && Reaches(w, a, x) {
      ReachesBySending(w, a, x);
      GivenFrom(w, a);
      var c := w.conns[a.fd];
      var f := FrameSent(w, a);
      if IsMessage(w, a) {
        forall g: Frame | g.serial == f.serial
          ensures w'.conns[x].got[Receipt(c.id, g)] == if g == f then 1 else 0
        {
          if a.Send? {
            OneBySending(sha, w, a, x, g);
          } else {
            OneByVisit(sha, w, a, x, g);
          }
        }
        OnlyOne(w.conns[x], w'.conns[x], Receipt(c.id, f));
      }
    }
  }

  /** Adding the first receipt for a message. */
  lemma OnlyOne(c: Conn, c': Conn, r: Receipt)
    requires OnceAt(c) && c'.got == c.got + multiset{r}
    requires forall g: Frame | g.serial == r.frame.serial ::
               c'.got[Receipt(r.sender, g)] == if g == r.frame then 1 else 0
    ensures OnceAt(c')
  {
    forall q: Receipt
      ensures c'.got[q] <= 1
      ensures q in c'.got && q.sender == r.sender && q.frame.serial == r.frame.serial ==> q == r
      ensures q in c'.got && q != r ==> q in c.got
    {
      assert q == Receipt(q.sender, q.frame);
    }
  }

  lemma OnceKept(sha: Hash, w: World, a: Action)
    requires ConnsOk(sha, w) && BroadcastsOk(w) && GotOk(w) && OnceOk(w) && Enabled(w, a)
    requires var w' := Step(sha, w, a); BroadcastsOk(w') && HeardOk(w') && LateOk(w')
    ensures OnceOk(Step(sha, w, a))
  {
    hide Step, Enabled, ConnsOk, BroadcastsOk, GotOk, HeardOk, LateOk, OnceAt;
    var w' := Step(sha, w, a);
    StepTable(sha, w, a);
    if w'.leaked == {} {
      forall x | x in w'.conns
        ensures OnceAt(w'.conns[x])
      {
        OnceKeptAt(sha, w, a, x);
      }
    }
  }

  // ---- Exactly once ----

  /** The frame sent is for whoever has the socket `x`. */
  predicate Addressed(w: World, a: Action, x: Fd)
    requires Enabled(w, a) && Sends(a)
  {
    var t := w.conns[a.fd].thread;
    if a.Send? then t.jobs[0].dest in w.table && w.table[t.jobs[0].dest] == x
    else exists u :: u in w.table && u != t.name && w.table[u] == x
  }

  /** The last visit made, a message to everybody has reached everybody once. */
  lemma OneByBroadcast(sha: Hash, w: World, a: Action, x: Fd, g: Frame)
    requires BroadcastsOk(w) && HeardOk(w) && LateOk(w) && GotOk(w) && w.leaked == {}
    requires Enabled(w, a) && a.FinishBroadcast? && x in w.conns
    requires IsMessage(w, a) && g.serial == FrameSent(w, a).serial
    ensures var c := w.conns[a.fd];
      w.conns[x].got[Receipt(c.id, g)] == if Addressed(w, a, x) && g == FrameSent(w, a) then 1 else 0
  {
    hide EnabledFor, BroadcastsOk, HeardOk, LateOk, Times;
    var c := w.conns[a.fd];
    var k := c.thread.broadcast;
    JobsOf(w, a);
    BroadcastIsOnRecord(w, a.fd);
    var b := w.broadcasts[k];
    assert GotAt(w, a.fd, x, g);
    HeardOf(w, a.fd, x, k, g);
    assert Served(b) == w.table.Keys - {c.thread.name};
    IsInjective(w, k);
    TimesInjective(b.table, Served(b), x);
  }

  lemma HeardOf(w: World, y: Fd, x: Fd, k: nat, g: Frame)
    requires HeardOk(w) && LateOk(w) && w.leaked == {} && y in w.conns && x in w.conns && k < |w.broadcasts|
    requires Broadcasting(w.conns[y].thread) && w.conns[y].thread.broadcast == k
    ensures HeardAt(w, x, k, g)
    ensures w.conns[x].id >= w.broadcasts[k].bound ==>
              w.conns[x].heard[Hearing(k, g)] == 0 && forall u | u in w.table :: w.table[u] != x
  {
    assert HeardAt(w, x, k, g) && Unheard(w, x, k, g);
    assert OutOfReach(w, w.conns[y].thread, x);
  }

  lemma IsInjective(w: World, k: nat)
    requires BroadcastsOk(w) && w.leaked == {} && k < |w.broadcasts|
    ensures Injective(w.broadcasts[k].table)
  {
    hide Underway, Injective;
    assert w.broadcasts[k] in w.broadcasts;
  }

  /** Right after the dispatch of a client's message everybody it is for has it once, and nobody else. */
  lemma OneWhenDispatched(sha: Hash, w: World, a: Action, x: Fd, g: Frame)
    requires BroadcastsOk(w) && HeardOk(w) && LateOk(w) && ConnsOk(sha, w) && GotOk(w) && w.leaked == {}
    requires Enabled(w, a) && Completes(w, a) && x in Step(sha, w, a).conns
    requires g.serial == FrameSent(w, a).serial
    ensures x in w.conns && Step(sha, w, a).conns[x].id == w.conns[x].id
    ensures var c := w.conns[a.fd];
      Step(sha, w, a).conns[x].got[Receipt(c.id, g)]
      == if Addressed(w, a, x) && g == FrameSent(w, a) then 1 else 0
  {
    hide Step, EnabledFor, BroadcastsOk, HeardOk, LateOk, ConnsOk, GotOk, Given;
    StepGot(sha, w, a, x);
    if a.Send? {
      OneBySending(sha, w, a, x, g);
      assert Reaches(w, a, x) == Addressed(w, a, x);
    } else {
      NotReached(w, a, x);
      OneByBroadcast(sha, w, a, x, g);
    }
  }

  /** Message `s` from the connection with id `k` is done with: whoever has that id has dispatched it. */
  ghost predicate Settled(w: World, k: nat, s: nat) {
    k < w.nextId && forall y | y in w.conns && w.conns[y].id == k :: s in Dispatched(w.conns[y].thread)
  }

  lemma SettledByDispatch(sha: Hash, w: World, a: Action)
    requires BroadcastsOk(w) && ConnsOk(sha, w) && SendersOk(w) && Enabled(w, a) && Completes(w, a)
    ensures Settled(Step(sha, w, a), w.conns[a.fd].id, FrameSent(w, a).serial)
  {
    hide Step, EnabledFor, BroadcastsOk, ConnsOk, Dispatched;
    var w' := Step(sha, w, a);
    IdsOf(w);
    StepNextId(sha, w, a);
    forall y | y in w'.conns && w'.conns[y].id == w.conns[a.fd].id
      ensures FrameSent(w, a).serial in Dispatched(w'.conns[y].thread)
    {
      StepGot(sha, w, a, y);
      assert y == a.fd;
      StepDispatched(sha, w, a);
    }
  }

  /** Once settled, always settled, and nobody gets it any more. */
  lemma SettledStays(sha: Hash, w: World, a: Action, k: nat, g: Frame, x: Fd)
    requires BroadcastsOk(w) && ConnsOk(sha, w) && Enabled(w, a) && Settled(w, k, g.serial)
    ensures Settled(Step(sha, w, a), k, g.serial)
    ensures var w' := Step(sha, w, a);
      x in w'.conns ==>
        if x in w.conns then
          w'.conns[x].id == w.conns[x].id && w'.conns[x].got[Receipt(k, g)] == w.conns[x].got[Receipt(k, g)]
        else w'.conns[x].id == w.nextId && w'.conns[x].got[Receipt(k, g)] == 0
  {
    hide Step, EnabledFor, BroadcastsOk, ConnOk, Dispatched, Given, Reaches, JobsOk;
    var w' := Step(sha, w, a);
    IdsOf(w);
    StepNextId(sha, w, a);
    StepThreads(sha, w, a);
    forall y | y in w'.conns && w'.conns[y].id == k
      ensures g.serial in Dispatched(w'.conns[y].thread)
    {
      StepGot(sha, w, a, y);
      if y == a.fd {
        StepDispatched(sha, w, a);
      }
    }
    if x in w'.conns {
      StepGot(sha, w, a, x);
      if x in w.conns && Reaches(w, a, x) {
        ReachesBySending(w, a, x);
        GivenFrom(w, a);
        var c := w.conns[a.fd];
        if IsMessage(w, a) {
          JobsOf(w, a);
          RelayIsFresh(sha, c);
        }
      }
    }
  }
}
