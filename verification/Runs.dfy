/**
 The main results about the protocol: statements about every world of every run.
 */
module Runs {
  import opened Words
  import opened HeaderLayout
  import opened Options
  import opened Protocol
  import opened Delivery
  import opened SharedTable
  import opened Broadcasts
  import opened Endings
  import opened Receipts
  import opened Safety

  ghost predicate Invariant(sha: Hash, w: World) {
    && LockOk(w) && TableOk(w) && ConnsOk(sha, w)
    && BroadcastsOk(w) && HeardOk(w) && LateOk(w)
    && EndsOk(w) && SendersOk(w) && GotOk(w) && OnceOk(w)
  }

  lemma InitiallyInvariant(sha: Hash)
    ensures Invariant(sha, INITIAL)
  {
  }

  lemma InvariantKept(sha: Hash, w: World, a: Action)
    requires Invariant(sha, w) && Enabled(w, a)
    ensures Invariant(sha, Step(sha, w, a))
  {
    hide LockOk, TableOk, ConnsOk, BroadcastsOk, HeardOk, LateOk, EndsOk, SendersOk, GotOk, OnceOk, Step, Enabled;
    LockKept(sha, w, a);
    TableKept(sha, w, a);
    ConnsKept(sha, w, a);
    BroadcastsKept(sha, w, a);
    HeardKept(sha, w, a);
    LateKept(sha, w, a);
    EndsKept(sha, w, a);
    SendersKept(sha, w, a);
    GotKept(sha, w, a);
    OnceKept(sha, w, a);
  }

  lemma {:induction false} RunsAreSafe(sha: Hash, run: seq<World>, actions: seq<Action>, i: nat)
    requires IsRun(sha, run, actions) && i < |run|
    ensures Invariant(sha, run[i])
  {
    hide Invariant, Step, Enabled;
    if i == 0 {
      InitiallyInvariant(sha);
    } else {
      RunsAreSafe(sha, run, actions, i - 1);
      assert Enabled(run[i - 1], actions[i - 1]) && run[i] == Step(sha, run[i - 1], actions[i - 1]);
      InvariantKept(sha, run[i - 1], actions[i - 1]);
    }
  }

  // ---- Acknowledgement and retransmission ----

  /** Message number `s` has one token if it is the one stored under its number, and none otherwise. */
  predicate HasItsToken(c: Conn, s: nat)
    requires s < |c.client.sent|
  {
    var n := c.client.sent[s].number;
    Tokens(c)[s] == if n in c.client.stored && c.client.stored[n] == c.client.sent[s] then 1 else 0
  }

  /** The answer `f` names a message that is in the table, and the very one it answers. */
  predicate AnswersStored(k: Client, f: Frame) {
    && f.number in k.stored && k.stored[f.number].serial == f.serial
    && f.serial < |k.sent| && k.stored[f.number] == k.sent[f.serial]
  }

  predicate IsUnderway(c: Conn, f: Frame) {
    f.IsAnswer() && (c.client.received == Some(f) || f in c.down)
  }

  lemma TokenOf(sha: Hash, c: Conn, s: nat)
    requires ConnOk(sha, c) && c.client.alive && s < |c.client.sent|
    ensures HasItsToken(c, s)
  {
    hide Serials, Tokens;
    var n := c.client.sent[s].number;
    assert Tokens(c)[s] == Awaiting(c.client, s);
    if n in c.client.stored {
      assert IsSent(c.client, c.client.stored[n]);
    }
  }

  lemma AnswerOf(sha: Hash, c: Conn, f: Frame)
    requires ConnOk(sha, c) && c.client.alive && IsUnderway(c, f)
    ensures AnswersStored(c.client, f)
  {
    if f in c.down {
      SerialsMember(c.down, f, true);
    }
    hide Serials;
    assert Answers(c.client, f);
    assert Tokens(c)[f.serial] == Awaiting(c.client, f.serial);
    assert Tokens(c)[f.serial] > 0;
    assert IsSent(c.client, c.client.stored[f.number]);
  }

  /**
   As long as a client lives, whatever its server thread does, a packet number in its table has
   exactly one token, that of the message stored under it; a number not in the table has none.
   */
  lemma OneTokenPerNumber(sha: Hash, run: seq<World>, actions: seq<Action>, i: nat, fd: Fd, s: nat)
    requires IsRun(sha, run, actions) && i < |run| && fd in run[i].conns && run[i].conns[fd].client.alive
    requires s < |run[i].conns[fd].client.sent|
    ensures HasItsToken(run[i].conns[fd], s)
  {
    hide HasItsToken;
    RunsAreSafe(sha, run, actions, i);
    assert ConnOk(sha, run[i].conns[fd]);
    TokenOf(sha, run[i].conns[fd], s);
  }

  /** An answer on its way to a living client answers the very message now stored under its number. */
  lemma AnswersMatchStored(sha: Hash, run: seq<World>, actions: seq<Action>, i: nat, fd: Fd, f: Frame)
    requires IsRun(sha, run, actions) && i < |run| && fd in run[i].conns && run[i].conns[fd].client.alive
    requires IsUnderway(run[i].conns[fd], f)
    ensures AnswersStored(run[i].conns[fd].client, f)
  {
    hide AnswersStored, IsUnderway;
    RunsAreSafe(sha, run, actions, i);
    assert ConnOk(sha, run[i].conns[fd]);
    AnswerOf(sha, run[i].conns[fd], f);
  }

  /** Steps of the client of one connection, with nobody at the other end. */
  ghost predicate ClientLeads(sha: Hash, c: Conn, acts: seq<ClientAction>, c': Conn)
    decreases |acts|
  {
    if acts == [] then c == c'
    else ClientEnabled(c.client, c.down, acts[0]) && ClientLeads(sha, ClientStep(sha, c, acts[0]), acts[1..], c')
  }

  lemma {:induction false} ClientLeadsOk(sha: Hash, c: Conn, acts: seq<ClientAction>, c': Conn)
    requires ConnOk(sha, c) && ClientLeads(sha, c, acts, c')
    ensures ConnOk(sha, c')
    decreases |acts|
  {
    hide ConnOk, ClientStep, ClientEnabled;
    if acts != [] {
      ClientKeepsConn(sha, c, acts[0]);
      ClientLeadsOk(sha, ClientStep(sha, c, acts[0]), acts[1..], c');
    }
  }

  /**
   A client that goes on after the server has closed the socket, at whatever point of a run that was,
   and works off the frames left in its channel: the same holds for it.
   */
  lemma SoForAbandonedClients(sha: Hash, run: seq<World>, actions: seq<Action>, i: nat, fd: Fd,
                              acts: seq<ClientAction>, c: Conn)
    requires IsRun(sha, run, actions) && i < |run| && fd in run[i].conns
    requires ClientLeads(sha, run[i].conns[fd], acts, c) && c.client.alive
    ensures forall s: nat | s < |c.client.sent| :: HasItsToken(c, s)
    ensures forall f | IsUnderway(c, f) :: AnswersStored(c.client, f)
  {
    hide HasItsToken, AnswersStored, IsUnderway;
    RunsAreSafe(sha, run, actions, i);
    assert ConnOk(sha, run[i].conns[fd]);
    ClientLeadsOk(sha, run[i].conns[fd], acts, c);
    hide ConnOk, Invariant, IsRun;
    forall s: nat | s < |c.client.sent|
      ensures HasItsToken(c, s)
    {
      TokenOf(sha, c, s);
    }
    forall f | IsUnderway(c, f)
      ensures AnswersStored(c.client, f)
    {
      AnswerOf(sha, c, f);
    }
  }

  /**
   A stored message stays as it is until the client handles the ACK of that very message, whatever
   numbers have been used again meanwhile.
   */
  lemma StoredUntilAcked(sha: Hash, run: seq<World>, actions: seq<Action>, i: nat, fd: Fd, n: uint16)
    requires IsRun(sha, run, actions) && i < |actions|
    requires fd in run[i].conns && fd in run[i + 1].conns && run[i].conns[fd].client.alive
    requires n in run[i].conns[fd].client.stored
    ensures var k, k' := run[i].conns[fd].client, run[i + 1].conns[fd].client;
      if actions[i] == ClientAct(fd, Handle) && k.received.value.kind == ACK && k.received.value.number == n
      then n !in k'.stored && k.received.value.serial == k.stored[n].serial
      else n in k'.stored && k'.stored[n] == k.stored[n]
  {
    hide Step, EnabledFor, ClientEffect, ClientEnabled, IsUnderway;
    var w, a := run[i], actions[i];
    assert Enabled(w, a) && run[i + 1] == Step(sha, w, a);
    ClientsMove(sha, w, a);
    if a.ClientAct? && a.fd == fd {
      MaySend(w, a);
      var c := w.conns[fd];
      StoredStays(sha, c.client, c.down, a.act, n);
      if a.act == Handle && c.client.received.value.kind == ACK {
        IsOnItsWay(c);
        AnswersMatchStored(sha, run, actions, i, fd, c.client.received.value);
      }
    }
  }

  lemma IsOnItsWay(c: Conn)
    requires c.client.received.Some? && c.client.received.value.kind == ACK
    ensures IsUnderway(c, c.client.received.value)
  {
  }

  /** Only an ACK for its number removes a message from the table; nothing replaces it. */
  lemma StoredStays(sha: Hash, k: Client, down: seq<Frame>, act: ClientAction, n: uint16)
    requires ClientEnabled(k, down, act) && n in k.stored
    ensures act == Handle ==> k.received.Some?
    ensures var k' := ClientEffect(sha, k, down, act).client;
      if act == Handle && k.received.value.kind == ACK && k.received.value.number == n then n !in k'.stored
      else n in k'.stored && k'.stored[n] == k.stored[n]
  {
  }

  /**
   Every message is dispatched at most once, in the order of the acknowledgements; when the thread
   is back at its read, exactly the acknowledged messages have been dispatched; and a dispatched
   body is as long as the body its sender stored and hashes like it.
   */
  lemma DispatchedOnce(sha: Hash, run: seq<World>, actions: seq<Action>, i: nat, fd: Fd)
    requires IsRun(sha, run, actions) && i < |run| && fd in run[i].conns
    ensures var c := run[i].conns[fd];
      && Distinct(DispatchedSerials(c.thread.dispatched))
      && (c.thread.phase == Serving && c.thread.jobs == [] ==> DispatchedSerials(c.thread.dispatched) == c.thread.acked)
      && forall d | d in c.thread.dispatched ::
           && d.serial < |c.client.sent| && |d.body| == |c.client.sent[d.serial].body|
           && sha(d.body) == sha(c.client.sent[d.serial].body)
  {
    hide LockOk, TableOk, BroadcastsOk, HeardOk, LateOk, SendersOk, GotOk, OnceOk, ConnOk, EndOk;
    RunsAreSafe(sha, run, actions, i);
    var c := run[i].conns[fd];
    assert ConnOk(sha, c);
    assert EndOk(c.client.sent, c.thread);
    DispatchesOf(sha, c);
  }

  /**
   Whatever its thread is doing, once no job is left: exactly the acknowledged messages have been
   dispatched if and only if none of them was stored with an empty body.
   */
  lemma DispatchedUnlessEmpty(sha: Hash, run: seq<World>, actions: seq<Action>, i: nat, fd: Fd)
    requires IsRun(sha, run, actions) && i < |run| && fd in run[i].conns && run[i].conns[fd].thread.jobs == []
    ensures var c := run[i].conns[fd];
      && (forall s | s in c.thread.acked :: s < |c.client.sent|)
      && (DispatchedSerials(c.thread.dispatched) == c.thread.acked
          <==> forall s | s in c.thread.acked :: c.client.sent[s].body != [])
  {
    hide LockOk, TableOk, BroadcastsOk, HeardOk, LateOk, TokensOk, FramesOk, OrderOk, EndOk;
    RunsAreSafe(sha, run, actions, i);
    var c := run[i].conns[fd];
    assert ConnOk(sha, c);
    assert EndOk(c.client.sent, c.thread);
    AllDispatchedUnlessEmpty(c);
  }

  /**
   Reading a MESSAGE: the thread owes exactly one answer, with the number of the message, to its own
   client; it is an ACK if and only if the bytes read hash to the checksum, so always if nothing was
   corrupted; and an acknowledged message that is not empty is passed on next, to whom it is for.
   */
  lemma AnswersRightly(sha: Hash, run: seq<World>, actions: seq<Action>, i: nat)
    requires IsRun(sha, run, actions) && i < |actions| && actions[i].ReadFrame?
    requires actions[i].fd in run[i].conns && run[i].conns[actions[i].fd].up != []
    requires run[i].conns[actions[i].fd].up[0].kind == MESSAGE
    ensures actions[i].fd in run[i + 1].conns
    ensures var c, t := run[i].conns[actions[i].fd], run[i + 1].conns[actions[i].fd].thread;
      var f, received := c.up[0], actions[i].received;
      && t.jobs != [] && t.jobs[0].SendTo? && !t.jobs[0].relay && t.jobs[0].dest == c.thread.name
      && var answer := t.jobs[0].frame;
      && answer.number == f.number && answer.serial == f.serial && (answer.kind == ACK || answer.kind == NACK)
      && (answer.kind == ACK <==> sha(received) == f.checksum)
      && (received == f.body ==> answer.kind == ACK)
      && t.jobs[1..] ==
           if sha(received) != f.checksum || received == [] then []
           else if f.dest == ALL then [ToAll(f.(body := received), true)]
           else [SendTo(f.dest, f.(body := received), true)]
  {
    hide Step, EnabledFor, LockOk, TableOk, BroadcastsOk, HeardOk, LateOk, EndsOk, SendersOk, GotOk, OnceOk;
    RunsAreSafe(sha, run, actions, i);
    var w, a := run[i], actions[i];
    assert Enabled(w, a) && run[i + 1] == Step(sha, w, a);
    ReadThread(sha, w, a);
    assert ConnOk(sha, w.conns[a.fd]);
    SentIntact(sha, w.conns[a.fd]);
    hide ConnOk;
  }

  lemma SentIntact(sha: Hash, c: Conn)
    requires ConnOk(sha, c) && c.up != [] && c.up[0].kind == MESSAGE
    ensures c.up[0].checksum == sha(c.up[0].body)
  {
    hide Serials, JobsOk, TokensOk, OrderOk;
    assert c.up[0] in c.up;
    assert IsSent(c.client, c.up[0]);
  }

  // ---- The shared table ----

  /** Every entry belongs to a running thread of that name, whose socket is open. */
  ghost predicate TableSound(w: World) {
    forall u | u in w.table :: Owns(w, u, w.table[u])
  }

  /** No two registered threads share a name, and each one's name leads to its own socket. */
  lemma NamesLeadHome(sha: Hash, run: seq<World>, actions: seq<Action>, i: nat)
    requires IsRun(sha, run, actions) && i < |run|
    ensures var w := run[i];
      && (forall fd | fd in w.conns && Registered(w.conns[fd].thread) ::
            w.conns[fd].thread.name in w.table && w.table[w.conns[fd].thread.name] == fd)
      && (forall x, y | x in w.conns && y in w.conns && Registered(w.conns[x].thread) && Registered(w.conns[y].thread)
            && w.conns[x].thread.name == w.conns[y].thread.name :: x == y)
  {
    RunsAreSafe(sha, run, actions, i);
    assert TableOk(run[i]);
  }

  lemma {:induction false} LeakedByFailedReplies(sha: Hash, run: seq<World>, actions: seq<Action>, i: nat)
    requires IsRun(sha, run, actions) && i < |run|
    ensures run[i].leaked == {} <==> forall j | 0 <= j < i :: !actions[j].ReplyFails?
  {
    if i > 0 {
      var w, a := run[i - 1], actions[i - 1];
      assert Enabled(w, a) && run[i] == Step(sha, w, a);
      StepTable(sha, w, a);
      LeakedByFailedReplies(sha, run, actions, i - 1);
      hide Step, EnabledFor;
    }
  }

  /** The table is sound exactly if every login reply so far was sent. */
  lemma TableSoundIffRepliesSent(sha: Hash, run: seq<World>, actions: seq<Action>, i: nat)
    requires IsRun(sha, run, actions) && i < |run|
    ensures TableSound(run[i]) <==> forall j | 0 <= j < i :: !actions[j].ReplyFails?
  {
    RunsAreSafe(sha, run, actions, i);
    LeakedByFailedReplies(sha, run, actions, i);
    var w := run[i];
    assert TableOk(w);
    hide Step, EnabledFor;
    if w.leaked != {} {
      var u :| u in w.leaked;
      assert u in w.table && !Owns(w, u, w.table[u]);
    }
  }

  lemma LeakKept(sha: Hash, w: World, a: Action, u: Name)
    requires LockOk(w) && TableOk(w) && Enabled(w, a) && u in w.leaked
    ensures var w' := Step(sha, w, a); u in w'.leaked && u in w'.table && w'.table[u] == w.table[u]
  {
    StepTable(sha, w, a);
    LockRules(w, a);
    hide Step, EnabledFor;
  }

  /** A name that leaked keeps its entry, unchanged, for the rest of the run. */
  lemma {:induction false} LeaksAreForEver(sha: Hash, run: seq<World>, actions: seq<Action>, i: nat, j: nat, u: Name)
    requires IsRun(sha, run, actions) && i <= j < |run| && u in run[i].leaked
    ensures u in run[i].table && u in run[j].leaked && u in run[j].table && run[j].table[u] == run[i].table[u]
    decreases j - i
  {
    hide Step, Enabled, LockOk;
    RunsAreSafe(sha, run, actions, i);
    if i < j {
      assert Enabled(run[i], actions[i]) && run[i + 1] == Step(sha, run[i], actions[i]);
      LeakKept(sha, run[i], actions[i], u);
      LeaksAreForEver(sha, run, actions, i + 1, j, u);
    }
  }

  // ---- Broadcasts ----

  /**
   A broadcast that has visited everybody: its own frame, and no other, was appended on its behalf to
   the channel of a connection open since it began, once for every user other than its sender whom
   the locked table maps to that socket.
   */
  lemma BroadcastCounts(sha: Hash, run: seq<World>, actions: seq<Action>, i: nat, fd: Fd, k: nat, f: Frame)
    requires IsRun(sha, run, actions) && i < |run| && fd in run[i].conns && k < |run[i].broadcasts|
    requires run[i].broadcasts[k].left == {} && run[i].conns[fd].id < run[i].broadcasts[k].bound
    ensures var b := run[i].broadcasts[k];
      run[i].conns[fd].heard[Hearing(k, f)] ==
        if f == b.frame then Times(b.table, b.table.Keys - {b.sender}, fd) else 0
  {
    RunsAreSafe(sha, run, actions, i);
    var b := run[i].broadcasts[k];
    assert HeardAt(run[i], fd, k, f);
    assert Served(b) == b.table.Keys - {b.sender};
  }

  /**
   If every login reply was sent, that is exactly once for each user but the sender, and never for
   anybody else: nor for a connection accepted while the broadcast was under way.
   */
  lemma BroadcastOnce(sha: Hash, run: seq<World>, actions: seq<Action>, i: nat, fd: Fd, k: nat, f: Frame)
    requires IsRun(sha, run, actions) && i < |run| && fd in run[i].conns && k < |run[i].broadcasts|
    requires run[i].broadcasts[k].left == {}
    requires forall j | 0 <= j < i :: !actions[j].ReplyFails?
    ensures var b := run[i].broadcasts[k];
      run[i].conns[fd].heard[Hearing(k, f)] ==
        if f == b.frame && run[i].conns[fd].id < b.bound
           && exists u :: u in b.table && b.table[u] == fd && u != b.sender
        then 1 else 0
  {
    LeakedByFailedReplies(sha, run, actions, i);
    RunsAreSafe(sha, run, actions, i);
    var w := run[i];
    var b := w.broadcasts[k];
    if w.conns[fd].id < b.bound {
      BroadcastCounts(sha, run, actions, i, fd, k, f);
      assert IdsOk(w);
      assert Injective(b.table);
      hide Step, EnabledFor, Invariant, IsRun;
      TimesInjective(b.table, b.table.Keys - {b.sender}, fd);
    } else {
      assert LateOk(w);
      assert Unheard(w, fd, k, f);
    }
  }

  /**
   The frame a broadcast was begun with is the one it delivers at each visit, to the socket of the
   user visited, and no other step delivers anything on behalf of a broadcast.
   */
  lemma VisitsDeliverTheFrame(sha: Hash, run: seq<World>, actions: seq<Action>, i: nat, x: Fd)
    requires IsRun(sha, run, actions) && i < |actions| && x in run[i].conns && x in run[i + 1].conns
    ensures var w, w', a := run[i], run[i + 1], actions[i];
      if VisitsSocket(w, a, x) then
        var k := w.conns[a.fd].thread.broadcast;
        && k < |w.broadcasts| && w.broadcasts[k].sender == w.conns[a.fd].thread.name
        && w'.conns[x].down == w.conns[x].down + [w.broadcasts[k].frame]
        && w'.conns[x].heard == w.conns[x].heard + multiset{Hearing(k, w.broadcasts[k].frame)}
      else w'.conns[x].heard == w.conns[x].heard
  {
    hide Step, Enabled, LockOk, TableOk, ConnsOk, HeardOk, LateOk, EndsOk;
    RunsAreSafe(sha, run, actions, i);
    var w, a := run[i], actions[i];
    assert Enabled(w, a) && run[i + 1] == Step(sha, w, a);
    VisitDelivers(sha, w, a, x);
  }

  lemma VisitDelivers(sha: Hash, w: World, a: Action, x: Fd)
    requires BroadcastsOk(w) && Enabled(w, a) && x in w.conns && x in Step(sha, w, a).conns
    ensures var w' := Step(sha, w, a);
      if VisitsSocket(w, a, x) then
        var k := w.conns[a.fd].thread.broadcast;
        && k < |w.broadcasts| && w.broadcasts[k].sender == w.conns[a.fd].thread.name
        && w'.conns[x].down == w.conns[x].down + [w.broadcasts[k].frame]
        && w'.conns[x].heard == w.conns[x].heard + multiset{Hearing(k, w.broadcasts[k].frame)}
      else w'.conns[x].heard == w.conns[x].heard
  {
    StepHeard(sha, w, a, x);
    if VisitsSocket(w, a, x) {
      VisitStep(sha, w, a);
      assert Underway(w, w.conns[a.fd].thread);
    }
    hide Step, IdsOk;
  }

  // ---- Messages from client to client ----

  /**
   A message is dispatched as its sender stored it, to the addressee it was stored with; only its body
   may differ, and that has the length and the hash of the one that was stored.
   */
  lemma DispatchedAsStored(sha: Hash, run: seq<World>, actions: seq<Action>, i: nat)
    requires IsRun(sha, run, actions) && i < |actions| && Enabled(run[i], actions[i]) && Completes(run[i], actions[i])
    ensures var c, f := run[i].conns[actions[i].fd], FrameSent(run[i], actions[i]);
      && f.serial < |c.client.sent| && f == c.client.sent[f.serial].(body := f.body)
      && |f.body| == |c.client.sent[f.serial].body| && sha(f.body) == sha(c.client.sent[f.serial].body)
      && (actions[i].Send? ==> c.thread.jobs[0].dest == f.dest != ALL)
      && (!actions[i].Send? ==> f.dest == ALL)
  {
    hide Enabled, LockOk, TableOk, BroadcastsOk, HeardOk, LateOk, SendersOk, GotOk, OnceOk;
    RunsAreSafe(sha, run, actions, i);
    var w, a := run[i], actions[i];
    JobsOf(w, a);
    RelayedAsStored(sha, w.conns[a.fd]);
  }

  lemma RelayedAsStored(sha: Hash, c: Conn)
    requires ConnOk(sha, c) && EndOk(c.client.sent, c.thread)
    requires c.thread.jobs != [] && IsRelay(c.thread.jobs[0])
    ensures var j := c.thread.jobs[0];
      var f := j.frame;
      && f.serial < |c.client.sent| && f == c.client.sent[f.serial].(body := f.body) && j == RelayJob(f)
      && |f.body| == |c.client.sent[f.serial].body| && sha(f.body) == sha(c.client.sent[f.serial].body)
  {
    hide Serials, TokensOk, OrderOk, JobsOk;
    var j := c.thread.jobs[0];
    assert j in c.thread.jobs;
    assert PassesOn(c.client.sent, j) && JobOk(sha, c.client, c.thread.name, j);
    assert c.client.sent[j.frame.serial].checksum == sha(c.client.sent[j.frame.serial].body);
  }

  /** If every login reply was sent: no connection ever got two frames for the same message of a client. */
  lemma NothingTwice(sha: Hash, run: seq<World>, actions: seq<Action>, i: nat, x: Fd)
    requires IsRun(sha, run, actions) && i < |run| && x in run[i].conns
    requires forall j | 0 <= j < i :: !actions[j].ReplyFails?
    ensures OnceAt(run[i].conns[x])
  {
    hide OnceAt, Step, Enabled;
    LeakedByFailedReplies(sha, run, actions, i);
    RunsAreSafe(sha, run, actions, i);
    assert OnceOk(run[i]);
  }

  /** Settled from index `m` on: who was there keeps what he got of the message, who comes later gets nothing. */
  lemma {:induction false} SettledForEver(sha: Hash, run: seq<World>, actions: seq<Action>, m: nat, j: nat,
                                          k: nat, g: Frame, x: Fd)
    requires IsRun(sha, run, actions) && m <= j < |run| && Settled(run[m], k, g.serial)
    ensures Settled(run[j], k, g.serial) && run[m].nextId <= run[j].nextId
    ensures x in run[j].conns ==>
      var c := run[j].conns[x];
      if x in run[m].conns && run[m].conns[x].id == c.id
      then c.got[Receipt(k, g)] == run[m].conns[x].got[Receipt(k, g)]
      else c.got[Receipt(k, g)] == 0
    decreases j - m
  {
    hide Step, Enabled, Settled, LockOk, TableOk, ConnsOk, HeardOk, LateOk, EndsOk, BroadcastsOk;
    hide GotOk, OnceOk, SendersOk;
    IdsBelow(sha, run, actions, m);
    if m < j {
      SettledForEver(sha, run, actions, m, j - 1, k, g, x);
      var w, a := run[j - 1], actions[j - 1];
      assert Enabled(w, a) && run[j] == Step(sha, w, a);
      RunsAreSafe(sha, run, actions, j - 1);
      StepNextId(sha, w, a);
      SettledStays(sha, w, a, k, g, x);
    }
  }

  lemma IdsBelow(sha: Hash, run: seq<World>, actions: seq<Action>, m: nat)
    requires IsRun(sha, run, actions) && m < |run|
    ensures forall x | x in run[m].conns :: run[m].conns[x].id < run[m].nextId
  {
    hide Step, Enabled, LockOk, TableOk, ConnsOk, HeardOk, LateOk, EndsOk, BroadcastsOk, GotOk, OnceOk, SendersOk;
    RunsAreSafe(sha, run, actions, m);
    IdsOf(run[m]);
  }

  /**
   If every login reply was sent: at any time after a client's message has been dispatched, each
   connection that was open and registered under a name it was for has got it exactly once, as it was
   dispatched, and every other connection, later ones included, has got nothing of it.
   */
  lemma MessageArrivesOnce(sha: Hash, run: seq<World>, actions: seq<Action>, i: nat, j: nat, x: Fd, g: Frame)
    requires IsRun(sha, run, actions) && i < j < |run| && x in run[j].conns
    requires forall n | 0 <= n < j :: !actions[n].ReplyFails?
    requires Enabled(run[i], actions[i]) && Completes(run[i], actions[i])
    requires g.serial == FrameSent(run[i], actions[i]).serial
    ensures var w, a := run[i], actions[i];
      run[j].conns[x].got[Receipt(w.conns[a.fd].id, g)] ==
        if g == FrameSent(w, a) && x in w.conns && run[j].conns[x].id == w.conns[x].id && Addressed(w, a, x)
        then 1 else 0
  {
    hide Step, Enabled, LockOk, TableOk, ConnsOk, HeardOk, LateOk, EndsOk, BroadcastsOk, GotOk, OnceOk, SendersOk;
    hide Settled, Addressed, FrameSent;
    var w, a := run[i], actions[i];
    JobsOf(w, a);
    assert run[i + 1] == Step(sha, w, a);
    RunsAreSafe(sha, run, actions, i);
    LeakedByFailedReplies(sha, run, actions, i);
    SettledByDispatch(sha, w, a);
    SettledForEver(sha, run, actions, i + 1, j, w.conns[a.fd].id, g, x);
    IdsBelow(sha, run, actions, i);
    if x in run[i + 1].conns {
      OneWhenDispatched(sha, w, a, x, g);
    }
    if x in w.conns && x !in run[i + 1].conns {
      StaysOpen(sha, w, a, x);
    }
  }

  lemma StaysOpen(sha: Hash, w: World, a: Action, x: Fd)
    requires Enabled(w, a) && (a.Send? || a.FinishBroadcast?) && x in w.conns
    ensures x in Step(sha, w, a).conns
  {
    hide Step, Closes;
    StepThreads(sha, w, a);
    SendingClosesNothing(w, a);
  }

  lemma SendingClosesNothing(w: World, a: Action)
    requires Enabled(w, a) && (a.Send? || a.FinishBroadcast?)
    ensures !Closes(w, a)
  {
  }
}
