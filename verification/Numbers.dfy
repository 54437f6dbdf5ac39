/**
 Packet numbers of clients over whole runs: each command uses up one, whatever is sent again, and they
 count modulo 2^16.
 */
module Numbers {
  import opened Words
  import opened HeaderLayout
  import opened Options
  import opened Protocol
  import opened Delivery
  import opened SharedTable
  import opened Safety
  import opened Endings

  /** Steps by which a client sends a frame for a command of its user; sending again is not one of them. */
  predicate IsCommand(act: ClientAction) {
    act.Login? || act.Who? || act.Transmit? || act.Disconnect?
  }

  /** How many frames the client now at `fd` has sent for commands, since its connection was accepted. */
  function Commands(actions: seq<Action>, fd: Fd): nat {
    if actions == [] then 0
    else
      var last := actions[|actions| - 1];
      if last.Accept? && last.fd == fd then 0
      else Commands(actions[..|actions| - 1], fd)
           + if last.ClientAct? && last.fd == fd && IsCommand(last.act) then 1 else 0
  }

  /** As long as the numbers have not wrapped, those in use are behind the counter, or just at it. */
  predicate InUse(c: Client, count: nat) {
    count < 65536 ==>
      && (forall n | n in c.stored :: n < count || (n == count && c.pending.Some?))
      && (c.pending.Some? ==> c.pending.value.number == count)
  }

  predicate Counted(c: Client, count: nat) {
    c.packetNumber == count % 65536 && InUse(c, count)
    && (c.pending.Some? ==>
          && c.sender == Commanding && c.pending.value.kind == MESSAGE
          && c.pending.value.number == c.packetNumber && c.pending.value.source == c.name)
  }

  lemma EffectCounts(sha: Hash, c: Client, down: seq<Frame>, act: ClientAction, count: nat)
    requires ClientEnabled(c, down, act) && Counted(c, count)
    ensures Counted(ClientEffect(sha, c, down, act).client, count + if IsCommand(act) then 1 else 0)
  {
  }

  lemma NewClientCounts(name: Name)
    ensures Counted(NewClient(name), 0)
  {
  }

  /** The packet number of every client is the number of its commands so far, modulo 2^16. */
  lemma {:induction false} NumbersCount(sha: Hash, run: seq<World>, actions: seq<Action>, i: nat, fd: Fd)
    requires IsRun(sha, run, actions) && i < |run| && fd in run[i].conns
    ensures Counted(run[i].conns[fd].client, Commands(actions[..i], fd))
    decreases i
  {
    hide Step, EnabledFor, ClientEffect, ClientEnabled, Counted, IsCommand;
    if i > 0 {
      var w, a := run[i - 1], actions[i - 1];
      assert Enabled(w, a) && run[i] == Step(sha, w, a);
      assert actions[..i][..i - 1] == actions[..i - 1] && actions[..i][i - 1] == a;
      if fd in w.conns {
        NumbersCount(sha, run, actions, i - 1, fd);
        StepCounts(sha, w, a, fd, Commands(actions[..i - 1], fd));
      } else {
        Arrival(sha, w, a, fd);
        NewClientCounts(a.name);
      }
    }
  }

  lemma StepCounts(sha: Hash, w: World, a: Action, fd: Fd, count: nat)
    requires Enabled(w, a) && fd in w.conns && fd in Step(sha, w, a).conns && Counted(w.conns[fd].client, count)
    ensures !(a.Accept? && a.fd == fd)
    ensures Counted(Step(sha, w, a).conns[fd].client,
                    count + if a.ClientAct? && a.fd == fd && IsCommand(a.act) then 1 else 0)
  {
    hide Step, EnabledFor, ClientEffect, ClientEnabled, Counted, IsCommand;
    ClientsMove(sha, w, a);
    if a.ClientAct? && a.fd == fd {
      MaySend(w, a);
      EffectCounts(sha, w.conns[fd].client, w.conns[fd].down, a.act, count);
    }
  }

  lemma Arrival(sha: Hash, w: World, a: Action, fd: Fd)
    requires Enabled(w, a) && fd !in w.conns && fd in Step(sha, w, a).conns
    ensures a.Accept? && a.fd == fd && Step(sha, w, a).conns[fd].client == NewClient(a.name)
  {
    hide Step, EnabledFor;
    StepThreads(sha, w, a);
    if a.Accept? {
      Accepted(sha, w, a);
    }
  }

  lemma Accepted(sha: Hash, w: World, a: Action)
    requires Enabled(w, a) && a.Accept?
    ensures a.fd in Step(sha, w, a).conns && Step(sha, w, a).conns[a.fd].client == NewClient(a.name)
  {
  }

  /** The frames of a client's commands carry 0, 1, 2 and so on, modulo 2^16, under its own name. */
  lemma CommandsAreNumbered(sha: Hash, run: seq<World>, actions: seq<Action>, i: nat)
    requires IsRun(sha, run, actions) && i < |actions| && actions[i].ClientAct? && IsCommand(actions[i].act)
    ensures var fd := actions[i].fd;
      && fd in run[i].conns && fd in run[i + 1].conns
      && var up, up' := run[i].conns[fd].up, run[i + 1].conns[fd].up;
      && |up'| == |up| + 1 && up'[..|up|] == up && up'[|up|].number == Commands(actions[..i], fd) % 65536
      && up'[|up|].kind == (if actions[i].act.Login? then LOGIN else if actions[i].act.Who? then WHO
                            else if actions[i].act.Disconnect? then DISCONNECT else MESSAGE)
      && up'[|up|].source == run[i].conns[fd].client.name
      && (!actions[i].act.Transmit? ==> up'[|up|].dest == SERVER && up'[|up|].body == [])
  {
    hide Step, EnabledFor, Commands;
    var w, a := run[i], actions[i];
    assert Enabled(w, a) && run[i + 1] == Step(sha, w, a);
    MaySend(w, a);
    ClientSends(sha, w, a);
    NumbersCount(sha, run, actions, i, a.fd);
  }

  lemma ClientSends(sha: Hash, w: World, a: Action)
    requires Enabled(w, a) && a.ClientAct? && a.fd in w.conns
    requires ClientEnabled(w.conns[a.fd].client, w.conns[a.fd].down, a.act)
    ensures var c := w.conns[a.fd];
      && a.fd in Step(sha, w, a).conns
      && Step(sha, w, a).conns[a.fd].up == c.up + ClientEffect(sha, c.client, c.down, a.act).send
  {
    hide ClientEffect, EnabledFor;
  }

  /** A client that has sent fewer than 65536 commands never gives up because a number is in use. */
  lemma NumbersAreFree(sha: Hash, run: seq<World>, actions: seq<Action>, i: nat)
    requires IsRun(sha, run, actions) && i < |actions| && actions[i].ClientAct? && actions[i].act.Store?
    requires Commands(actions[..i], actions[i].fd) < 65536
    ensures var fd := actions[i].fd;
      && fd in run[i].conns && fd in run[i + 1].conns
      && var c, c' := run[i].conns[fd].client, run[i + 1].conns[fd].client;
      && c.alive && c.packetNumber !in c.stored && c'.alive
      && c.packetNumber in c'.stored && c'.stored[c.packetNumber].body == actions[i].act.body
      && c'.stored[c.packetNumber].dest == actions[i].act.dest && c'.pending == Some(c'.stored[c.packetNumber])
  {
    hide Step, EnabledFor, Commands;
    var w, a := run[i], actions[i];
    assert Enabled(w, a) && run[i + 1] == Step(sha, w, a);
    MaySend(w, a);
    ClientSends(sha, w, a);
    ClientsMove(sha, w, a);
    NumbersCount(sha, run, actions, i, a.fd);
  }

  /** When the numbers have wrapped, a client gives up exactly if the message that had the number is unanswered. */
  lemma GivesUpIffInUse(sha: Hash, run: seq<World>, actions: seq<Action>, i: nat)
    requires IsRun(sha, run, actions) && i < |actions| && actions[i].ClientAct? && actions[i].act.Store?
    ensures var fd := actions[i].fd;
      && fd in run[i].conns && fd in run[i + 1].conns
      && (!run[i + 1].conns[fd].client.alive <==>
            (Commands(actions[..i], fd) % 65536) as uint16 in run[i].conns[fd].client.stored)
  {
    hide Step, EnabledFor, Commands;
    var w, a := run[i], actions[i];
    assert Enabled(w, a) && run[i + 1] == Step(sha, w, a);
    MaySend(w, a);
    ClientSends(sha, w, a);
    ClientsMove(sha, w, a);
    NumbersCount(sha, run, actions, i, a.fd);
  }
}
