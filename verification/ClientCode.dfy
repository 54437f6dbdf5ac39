/**
 The client's message table as sequential code: what its sender and its receiver do between taking
 and releasing the mutex, in terms of the steps of the transition system.
 */
module ClientCode {
  import opened Words
  import opened HeaderLayout
  import opened Options
  import opened Protocol
  import Fips180

  class MessageClient {
    const username: Name
    var clientMessages: map<uint16, Frame>
    var packetNumber: uint16
    var isRunning: bool
    var exited: bool
    var toServer: seq<Frame>
    // every message stored so far, in order: the source of the serial numbers, which are part of a
    // `Frame`; nothing else depends on it
    var sent: seq<Frame>

    constructor (username: Name)
      ensures State() == NewClient(username).(sender := Prompting) && toServer == []
    {
      this.username := username;
      clientMessages, packetNumber, isRunning, exited, toServer, sent := map[], 0, true, false, [], [];
    }

    /** Between two commands nothing is pending and no header is half handled. */
    ghost function State(): Client
      reads this
    {
      Client(!exited, isRunning, Prompting, username, packetNumber, clientMessages, None, None, sent)
    }

    /**
     `message_sender`, from the line just read to the next prompt: store under the packet number,
     send, count up. A packet number in use ends the program, and so does a receiver that has stopped.
     */
    method SendMessage(recipient: Name, encrypted: Bytes)
      requires !exited
      modifies this
      ensures var s := old(State());
        if !s.running then State() == CleanUp(s) && toServer == old(toServer)
        else
          var commanded := ClientEffect(Fips180.Sha256, s, [], ReadLine).client;
          var stored := ClientEffect(Fips180.Sha256, commanded, [], Store(recipient, encrypted)).client;
          if stored.alive then
            var e := ClientEffect(Fips180.Sha256, stored, [], Transmit);
            State() == e.client && toServer == old(toServer) + e.send
          else State() == stored.(sender := Prompting) && toServer == old(toServer)
      ensures
        var n := old(packetNumber);
        var f := Frame(MESSAGE, n, username, recipient, encrypted, Fips180.Sha256(encrypted), |old(sent)|);
        if old(isRunning) && n !in old(clientMessages) then
          && clientMessages == old(clientMessages)[n := f] && toServer == old(toServer) + [f]
          && packetNumber == (n + 1) % 65536 && isRunning && !exited
        else
          && clientMessages == old(clientMessages) && toServer == old(toServer)
          && packetNumber == n && !isRunning && exited
    {
      hide Fips180.Sha256;
      if !isRunning {
        isRunning, exited := false, true;
        return;
      }
      var sum := Fips180.Sha256(encrypted);
      var fullMessage := Frame(MESSAGE, packetNumber, username, recipient, encrypted, sum, |sent|);
      if packetNumber in clientMessages {
        isRunning, exited := false, true;
        return;
      }
      clientMessages := clientMessages[packetNumber := fullMessage];
      sent := sent + [fullMessage];
      toServer := toServer + [fullMessage];
      packetNumber := (packetNumber + 1) % TWO_16;
    }

    /** `message_receiver`, once a whole header has been read. */
    method OnHeader(f: Frame)
      requires !exited
      modifies this`clientMessages, this`isRunning, this`toServer
      ensures State() == OnReceived(old(State()), f).client
      ensures toServer == old(toServer) + OnReceived(old(State()), f).send
      ensures clientMessages == if f.kind == ACK then old(clientMessages) - {f.number} else old(clientMessages)
      ensures toServer == old(toServer)
                          + if f.kind == NACK && f.number in clientMessages then [clientMessages[f.number]] else []
      ensures isRunning == (old(isRunning)
                            && f.kind != DISCONNECT && !(f.kind == NACK && f.number !in clientMessages))
    {
      match f.kind
      case ACK =>
        clientMessages := clientMessages - {f.number};
      case NACK =>
        if f.number !in clientMessages {
          isRunning := false;
        } else {
          toServer := toServer + [clientMessages[f.number]];
        }
      case DISCONNECT =>
        isRunning := false;
      case _ =>
    }
  }
}
