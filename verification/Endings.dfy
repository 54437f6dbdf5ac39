/**
 What becomes of acknowledged messages when a server thread leaves: at most one of them, the last,
 has not been dispatched, and it is empty.
 */
module Endings {
  import opened Words
  import opened HeaderLayout
  import opened Options
  import opened Protocol
  import opened Delivery
  import opened SharedTable
  import opened Safety

  predicate IsEmpty(sent: seq<Frame>, s: nat) {
    s < |sent| && sent[s].body == []
  }

  /** `body` is as long as that of message `s`, and not empty. */
  predicate FitsMessage(sent: seq<Frame>, s: nat, body: Bytes) {
    s < |sent| && body != [] && |body| == |sent[s].body|
  }

  /** `j` passes on a message of the client as it was stored, save for corruption of its body, to its addressee. */
  predicate PassesOn(sent: seq<Frame>, j: Job)
    requires !j.ListUsers?
  {
    var f := j.frame;
    FitsMessage(sent, f.serial, f.body) && f == sent[f.serial].(body := f.body) && j == RelayJob(f)
  }

  function Dispatched(t: Thread): (s: seq<nat>)
    ensures |s| == |t.dispatched|
  {
    DispatchedSerials(t.dispatched)
  }

  /** All acknowledged messages have been dispatched, except that the last may be an empty one. */
  predicate AllButEmptyLast(sent: seq<Frame>, t: Thread) {
    || t.acked == Dispatched(t)
    || (t.acked != [] && t.acked[..|t.acked| - 1] == Dispatched(t) && IsEmpty(sent, t.acked[|t.acked| - 1]))
  }

  ghost predicate EndOk(sent: seq<Frame>, t: Thread) {
    && (forall d | d in t.dispatched :: FitsMessage(sent, d.serial, d.body))
    && (forall j | j in t.jobs && IsRelay(j) :: PassesOn(sent, j))
    && (t.phase == Leaving ==> forall j | j in t.jobs && IsAck(j) :: IsEmpty(sent, j.frame.serial))
    && (t.phase == Leaving && t.jobs != [] ==> t.acked == Dispatched(t))
    && (!Reading(t) ==> AllButEmptyLast(sent, t))
  }

  ghost predicate EndsOk(w: World) {
    forall fd | fd in w.conns :: EndOk(w.conns[fd].client.sent, w.conns[fd].thread)
  }

  /** Messages stored later make no difference. */
  lemma EndGrows(sent: seq<Frame>, sent': seq<Frame>, t: Thread)
    requires EndOk(sent, t) && sent <= sent'
    ensures EndOk(sent', t)
  {
    hide Dispatched;
  }

  /** The thread moves on without acknowledging or dispatching; if it stops reading it has no jobs. */
  lemma EndQuiet(sent: seq<Frame>, t: Thread, t': Thread)
    requires EndOk(sent, t) && t'.acked == t.acked && t'.dispatched == t.dispatched
    requires forall j | j in t'.jobs :: j in t.jobs || (!IsRelay(j) && !IsAck(j))
    requires Reading(t) && !Reading(t') ==> t.jobs == [] && t.acked == Dispatched(t)
    requires !Reading(t) ==> !Reading(t') && (t'.jobs != [] ==> t'.phase == t.phase == Leaving && t.jobs != [])
    ensures EndOk(sent, t')
  {
    assert Dispatched(t') == Dispatched(t);
    hide Dispatched, FitsMessage, PassesOn, IsEmpty, IsRelay, IsAck;
  }

  /** A thread at its read has dispatched what it has acknowledged. */
  lemma CaughtUp(c: Conn)
    requires OrderOk(c) && Reading(c.thread) && c.thread.jobs == []
    ensures c.thread.acked == Dispatched(c.thread)
  {
    hide Unanswered, ToBeSent;
  }

  lemma DispatchesOf(sha: Hash, c: Conn)
    requires ConnOk(sha, c) && EndOk(c.client.sent, c.thread)
    ensures Distinct(DispatchedSerials(c.thread.dispatched))
    ensures c.thread.phase == Serving && c.thread.jobs == [] ==>
              DispatchedSerials(c.thread.dispatched) == c.thread.acked
    ensures forall d | d in c.thread.dispatched ::
      && d.serial < |c.client.sent| && |d.body| == |c.client.sent[d.serial].body|
      && sha(d.body) == sha(c.client.sent[d.serial].body)
  {
    hide Serials, JobOk, JobsOk, TokensOk, Unanswered, ToBeSent;
  }

  lemma DispatchedNotEmpty(sent: seq<Frame>, t: Thread, s: nat)
    requires EndOk(sent, t) && s in Dispatched(t)
    ensures s < |sent| && sent[s].body != []
  {
    var k :| 0 <= k < |t.dispatched| && Dispatched(t)[k] == s;
    assert t.dispatched[k] in t.dispatched;
  }

  /** With no job left, all that was acknowledged has been dispatched exactly if nothing of it was empty. */
  lemma AllDispatchedUnlessEmpty(c: Conn)
    requires OrderOk(c) && EndOk(c.client.sent, c.thread) && c.thread.jobs == []
    ensures forall s | s in c.thread.acked :: s < |c.client.sent|
    ensures Dispatched(c.thread) == c.thread.acked
       <==> forall s | s in c.thread.acked :: c.client.sent[s].body != []
  {
    var t := c.thread;
    if Reading(t) {
      CaughtUp(c);
    }
    assert AllButEmptyLast(c.client.sent, t);
    forall s | s in Dispatched(t)
      ensures s < |c.client.sent| && c.client.sent[s].body != []
    {
      DispatchedNotEmpty(c.client.sent, t, s);
    }
    hide OrderOk, EndOk, Dispatched;
    if t.acked != Dispatched(t) {
      var n := |t.acked| - 1;
      assert t.acked == t.acked[..n] + [t.acked[n]];
    }
  }

  lemma EndRead(sha: Hash, c: Conn, received: Bytes)
    requires ConnOk(sha, c) && EndOk(c.client.sent, c.thread) && c.up != [] && |received| == |c.up[0].body|
    requires c.thread.phase == Serving && c.thread.jobs == []
    ensures EndOk(c.client.sent, OnFrame(sha, c.thread, c.up[0], received))
  {
    hide Serials, JobOk, TokensOk, Unanswered, ToBeSent;
    CaughtUp(c);
    var f := c.up[0];
    assert f in c.up;
    assert f.kind == MESSAGE ==> IsSent(c.client, f);
    var t' := OnFrame(sha, c.thread, f, received);
    assert t'.acked == c.thread.acked && t'.dispatched == c.thread.dispatched;
    assert Dispatched(t') == Dispatched(c.thread);
    hide OrderOk, FramesOk, Dispatched;
  }

  lemma EndDone(sha: Hash, c: Conn, success: bool)
    requires ConnOk(sha, c) && EndOk(c.client.sent, c.thread) && c.thread.jobs != [] && !c.thread.jobs[0].ListUsers?
    ensures EndOk(c.client.sent, JobDone(c.thread, success))
  {
    var t, t' := c.thread, JobDone(c.thread, success);
    var job := t.jobs[0];
    JobsOkOf(sha, c);
    assert job in t.jobs;
    assert forall j | j in t'.jobs :: j in t.jobs || (!IsRelay(j) && !IsAck(j));
    hide FramesOk, TokensOk, OrderOk, JobOk;
    if IsRelay(job) {
      assert t'.dispatched == t.dispatched + [Dispatch(job.frame.serial, job.frame.body)];
      assert Reading(t');
    } else if IsAck(job) {
      assert t'.acked[..|t'.acked| - 1] == t.acked;
      assert Dispatched(t') == Dispatched(t);
    } else {
      assert t'.acked == t.acked && t'.dispatched == t.dispatched;
      EndQuiet(c.client.sent, t, t');
    }
  }

  lemma EndsKept(sha: Hash, w: World, a: Action)
    requires ConnsOk(sha, w) && EndsOk(w) && Enabled(w, a)
    ensures EndsOk(Step(sha, w, a))
  {
    var w' := Step(sha, w, a);
    ClientsMove(sha, w, a);
    StepThreads(sha, w, a);
    hide Step, EnabledFor, ConnOk, EndOk, ClientEffect, Closes;
    forall x | x in w'.conns
      ensures EndOk(w'.conns[x].client.sent, w'.conns[x].thread)
    {
      if x != a.fd {
        assert w'.conns[x].client == w.conns[x].client;
      } else {
        OwnEnd(sha, w, a);
      }
    }
  }

  lemma OwnEnd(sha: Hash, w: World, a: Action)
    requires ConnsOk(sha, w) && EndsOk(w) && Enabled(w, a) && a.fd in Step(sha, w, a).conns
    ensures var c' := Step(sha, w, a).conns[a.fd]; EndOk(c'.client.sent, c'.thread)
  {
    hide Step, EnabledFor, ConnOk, EndOk, JobsOk, OnFrame, JobDone, ClientEffect, OtherMove;
    if a.Accept? {
      AcceptEnd(sha, w, a);
    } else {
      ClientsMove(sha, w, a);
      var c, c' := w.conns[a.fd], Step(sha, w, a).conns[a.fd];
      JobsOkOf(sha, c);
      if a.ClientAct? {
        MaySend(w, a);
        SentGrows(sha, c.client, c.down, a.act);
        ClientThread(sha, w, a);
        EndGrows(c.client.sent, c'.client.sent, c.thread);
      } else if a.ReadFrame? {
        MayRead(w, a);
        ReadThread(sha, w, a);
        EndRead(sha, c, a.received);
      } else if a.Send? || a.FinishBroadcast? {
        MayFinish(w, a);
        DoneThread(sha, w, a);
        EndDone(sha, c, true);
        EndDone(sha, c, false);
      } else {
        OtherThread(sha, w, a);
        QuietEnd(sha, c, c'.thread);
      }
    }
  }

  lemma AcceptEnd(sha: Hash, w: World, a: Action)
    requires Enabled(w, a) && a.Accept?
    ensures a.fd in Step(sha, w, a).conns
    ensures var c' := Step(sha, w, a).conns[a.fd]; EndOk(c'.client.sent, c'.thread)
  {
    NewEnd();
  }

  lemma MaySend(w: World, a: Action)
    requires Enabled(w, a) && a.ClientAct?
    ensures ClientEnabled(w.conns[a.fd].client, w.conns[a.fd].down, a.act)
  {
  }

  lemma MayRead(w: World, a: Action)
    requires Enabled(w, a) && a.ReadFrame?
    ensures var c := w.conns[a.fd];
      c.up != [] && |a.received| == |c.up[0].body| && c.thread.phase == Serving && c.thread.jobs == []
  {
  }

  lemma MayFinish(w: World, a: Action)
    requires Enabled(w, a) && (a.Send? || a.FinishBroadcast?)
    ensures var t := w.conns[a.fd].thread; t.jobs != [] && !t.jobs[0].ListUsers?
  {
  }

  lemma NewEnd()
    ensures EndOk([], NEW_THREAD)
  {
  }

  lemma SentGrows(sha: Hash, c: Client, down: seq<Frame>, act: ClientAction)
    requires ClientEnabled(c, down, act)
    ensures c.sent <= ClientEffect(sha, c, down, act).client.sent
  {
  }

  lemma ClientThread(sha: Hash, w: World, a: Action)
    requires Enabled(w, a) && a.ClientAct?
    ensures a.fd in Step(sha, w, a).conns && Step(sha, w, a).conns[a.fd].thread == w.conns[a.fd].thread
  {
    hide ClientStep, EnabledFor;
  }

  lemma ReadThread(sha: Hash, w: World, a: Action)
    requires Enabled(w, a) && a.ReadFrame?
    ensures var c := w.conns[a.fd];
      && c.up != [] && a.fd in Step(sha, w, a).conns
      && Step(sha, w, a).conns[a.fd].thread == OnFrame(sha, c.thread, c.up[0], a.received)
  {
    hide OnFrame;
  }

  lemma DoneThread(sha: Hash, w: World, a: Action)
    requires Enabled(w, a) && (a.Send? || a.FinishBroadcast?)
    ensures a.fd in Step(sha, w, a).conns
    ensures var t := w.conns[a.fd].thread;
      exists success :: Step(sha, w, a).conns[a.fd].thread == JobDone(t, success)
  {
    hide JobDone, SessionStep, LockStep;
  }

  /** Any other step of a thread that goes on: the same jobs, the user list answered, or a notice. */
  ghost predicate OtherMove(t: Thread, t': Thread) {
    && t'.acked == t.acked && t'.dispatched == t.dispatched
    && (Reading(t') ==> Reading(t))
    && (t'.phase == t.phase || t.jobs == [])
    && (t.jobs == [] && !Reading(t') ==> t'.jobs == [])
    && (t'.jobs == t.jobs
        || (|t'.jobs| == 1 && !IsRelay(t'.jobs[0]) && !IsAck(t'.jobs[0]) && (t.jobs == [] || t.jobs == [ListUsers])))
  }

  lemma SessionOther(sha: Hash, w: World, a: Action)
    requires Enabled(w, a) && !UsesLock(a) && !DoesJob(a) && !a.Accept? && !a.ClientAct? && !a.ReadFrame?
    requires JobsOk(w.conns[a.fd].thread) && a.fd in SessionStep(sha, w, a).conns
    ensures OtherMove(w.conns[a.fd].thread, SessionStep(sha, w, a).conns[a.fd].thread)
  {
    hide IncrementServer;
  }

  lemma LockOther(w: World, a: Action)
    requires Enabled(w, a) && UsesLock(a) && JobsOk(w.conns[a.fd].thread) && a.fd in LockStep(w, a).conns
    ensures OtherMove(w.conns[a.fd].thread, LockStep(w, a).conns[a.fd].thread)
  {
  }

  lemma ListOther(w: World, a: Action)
    requires Enabled(w, a) && a.List? && JobsOk(w.conns[a.fd].thread) && a.fd in JobStep(w, a).conns
    ensures OtherMove(w.conns[a.fd].thread, JobStep(w, a).conns[a.fd].thread)
  {
    hide IncrementServer, UserList.Listing;
  }

  lemma VisitOther(w: World, a: Action)
    requires Enabled(w, a) && a.Visit? && JobsOk(w.conns[a.fd].thread) && a.fd in JobStep(w, a).conns
    ensures OtherMove(w.conns[a.fd].thread, JobStep(w, a).conns[a.fd].thread)
  {
    hide JobStep;
    VisitedThread(w, a);
  }

  lemma OtherThread(sha: Hash, w: World, a: Action)
    requires Enabled(w, a) && !a.Accept? && JobsOk(w.conns[a.fd].thread) && a.fd in Step(sha, w, a).conns
    requires !a.ClientAct? && !a.ReadFrame? && !a.Send? && !a.FinishBroadcast?
    ensures OtherMove(w.conns[a.fd].thread, Step(sha, w, a).conns[a.fd].thread)
  {
    hide SessionStep, LockStep, JobStep, OtherMove, JobsOk, EnabledFor;
    if UsesLock(a) {
      LockOther(w, a);
    } else if a.List? {
      ListOther(w, a);
    } else if a.Visit? {
      VisitOther(w, a);
    } else {
      SessionOther(sha, w, a);
    }
  }

  lemma QuietEnd(sha: Hash, c: Conn, t: Thread)
    requires ConnOk(sha, c) && EndOk(c.client.sent, c.thread) && OtherMove(c.thread, t)
    ensures EndOk(c.client.sent, t)
  {
    JobsOkOf(sha, c);
    assert forall j | j in t.jobs :: j in c.thread.jobs || (!IsRelay(j) && !IsAck(j));
    if Reading(c.thread) && !Reading(t) {
      assert c.thread.jobs == [];
      CaughtUp(c);
    }
    hide EndOk, ConnOk, IsRelay, IsAck;
    EndQuiet(c.client.sent, c.thread, t);
  }
}
