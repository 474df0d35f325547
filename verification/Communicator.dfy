/**
  The communicator object of one process.  `outgoing` is what has been handed
  to the network for each process, `incoming` what the network holds from each.
*/
module Communicator {
  import opened Packets
  import opened Network
  import opened WireFormat
  import opened Framing

  /** p has been appended to the channels to `done`. */
  ghost predicate Handed(before: seq<seq<Packet>>, done: set<ProcessId>, p: Packet, now: seq<seq<Packet>>) {
    && |now| == |before|
    && (forall j :: 0 <= j < |before| ==> now[j] == if j in done then before[j] + [p] else before[j])
  }

  lemma HandedTo(before: seq<seq<Packet>>, done: set<ProcessId>, p: Packet, now: seq<seq<Packet>>, j: ProcessId)
    requires Handed(before, done, p, now) && j < |before| && j !in done
    ensures Handed(before, done + {j}, p, now[j := now[j] + [p]])
  {
  }

  /** Each recipient is sent a header and, unless the message is empty, the message; nobody else anything. */
  ghost predicate Transferred(before: seq<seq<Frame>>, recipients: set<ProcessId>, p: Packet, now: seq<seq<Frame>>) {
    && |now| == |before|
    && (forall j :: 0 <= j < |before| && j !in recipients ==> now[j] == before[j])
    && (forall j :: 0 <= j < |before| && j in recipients ==>
          var header := Header(p.lamportTime, TypeByte(p.messageType), |p.message| % 0x1_0000_0000);
          now[j] == before[j] + if p.message == [] then [header] else [header, Payload(p.message)])
  }

  lemma WiredSent(channels: seq<seq<Frame>>, before: seq<seq<Packet>>, channels': seq<seq<Frame>>,
                  now: seq<seq<Packet>>, recipients: set<ProcessId>, p: Packet)
    requires Wired(channels, before) && Wired(channels', now) && Handed(before, recipients, p, now)
    ensures Transferred(channels, recipients, p, channels')
  {
    forall j | 0 <= j < |before| && j in recipients ensures channels'[j] == channels[j] + Frames(p) {
      WireAppend(before[j], p);
    }
  }

  class SimpleCommunicator {
    const myProcessId: ProcessId
    const numberOfProcesses: nat
    var currentLamportTime: LamportTime
    var outgoing: seq<seq<Frame>>
    var incoming: seq<seq<Frame>>
    ghost var out: seq<seq<Packet>>     // the packets in outgoing

    ghost predicate Valid()
      reads this
    {
      && myProcessId < numberOfProcesses
      && |incoming| == |out| == numberOfProcesses
      && Wired(outgoing, out)
    }

    /** This process's end of the network, in whole packets. */
    ghost function Endpoint(): Endpoint
      reads this
    {
      Network.Endpoint.Endpoint(myProcessId, currentLamportTime, out)
    }

    constructor (id: ProcessId, n: nat)
      requires id < n
      ensures Valid() && myProcessId == id && numberOfProcesses == n
      ensures Endpoint() == Network.Endpoint.Endpoint(id, 0, seq(n, _ => []))
      ensures forall j :: 0 <= j < n ==> incoming[j] == []
    {
      myProcessId, numberOfProcesses := id, n;
      currentLamportTime := 0;
      outgoing, incoming, out := seq(n, _ => []), seq(n, _ => []), seq(n, _ => []);
    }

    /** One stamp for all recipients, whichever order they are served in. */
    method Send(messageType: MessageType, message: Bytes, recipients: set<ProcessId>) returns (packet: Packet)
      requires Valid() && forall r :: r in recipients ==> r < numberOfProcesses
      modifies this`currentLamportTime, this`outgoing, this`out
      ensures Valid() && Endpoint() == Network.Send(old(Endpoint()), messageType, message, recipients)
      ensures packet == Stamped(old(Endpoint()), messageType, message)
      ensures packet == Packet(old(currentLamportTime) + 1, myProcessId, messageType, message)
      ensures currentLamportTime == old(currentLamportTime) + 1
      ensures Transferred(old(outgoing), recipients, packet, outgoing)
    {
      currentLamportTime := currentLamportTime + 1;
      packet := Packet(currentLamportTime, myProcessId, messageType, message);
      var header := Header(currentLamportTime, TypeByte(messageType), |message| % 0x1_0000_0000);
      var todo := recipients;
      while todo != {}
        invariant Valid() && todo <= recipients
        invariant currentLamportTime == packet.lamportTime
        invariant Handed(old(out), recipients - todo, packet, out)
        decreases todo
      {
        var recipient :| recipient in todo;
        WiredGrows(outgoing, out, recipient, packet);
        HandedTo(old(out), recipients - todo, packet, out, recipient);
        var frames := outgoing[recipient] + [header];
        if message != [] {
          frames := frames + [Payload(message)];
        }
        outgoing := outgoing[recipient := frames];
        out := out[recipient := out[recipient] + [packet]];
        assert recipients - (todo - {recipient}) == recipients - todo + {recipient};
        todo := todo - {recipient};
      }
      assert recipients - todo == recipients;
      assert out == Network.Send(old(Endpoint()), messageType, message, recipients).out;
      WiredSent(old(outgoing), old(out), outgoing, out, recipients, packet);
    }

    method SendOthers(messageType: MessageType, message: Bytes) returns (packet: Packet)
      requires Valid()
      modifies this`currentLamportTime, this`outgoing, this`out
      ensures Valid() && Endpoint() == Network.SendOthers(old(Endpoint()), messageType, message)
      ensures packet == Stamped(old(Endpoint()), messageType, message)
      ensures packet == Packet(old(currentLamportTime) + 1, myProcessId, messageType, message)
      ensures currentLamportTime == old(currentLamportTime) + 1
      ensures SentToOthers(old(out), myProcessId, packet, out)
    {
      packet := Send(messageType, message, Others(numberOfProcesses, myProcessId));
    }

    /** A blocking receive from any source, when all that the network holds are whole packets and there is
        one.  `arrived` is what it holds from each source. */
    method Receive(ghost arrived: seq<seq<Packet>>) returns (packet: Packet)
      requires Valid() && |arrived| == numberOfProcesses
      requires forall j :: 0 <= j < numberOfProcesses ==> incoming[j] == Wire(arrived[j])
      requires forall j, k :: 0 <= j < numberOfProcesses && 0 <= k < |arrived[j]| ==>
                                arrived[j][k].source == j && |arrived[j][k].message| < MAX_COUNT
      requires exists j :: 0 <= j < numberOfProcesses && arrived[j] != []
      modifies this`currentLamportTime, this`incoming
      ensures Valid() && packet.source < numberOfProcesses
      ensures arrived[packet.source] != [] && packet == arrived[packet.source][0]
      ensures incoming == old(incoming)[packet.source := Wire(arrived[packet.source][1..])]
      ensures currentLamportTime == Merge(old(currentLamportTime), packet.lamportTime)
      ensures currentLamportTime > old(currentLamportTime) && currentLamportTime > packet.lamportTime
      ensures currentLamportTime == old(currentLamportTime) + 1 || currentLamportTime == packet.lamportTime + 1
      ensures out == old(out)
    {
      ghost var some :| 0 <= some < numberOfProcesses && arrived[some] != [];
      WireStarts(arrived[some]);
      assert incoming[some] != [];
      var source: ProcessId :| source < numberOfProcesses && incoming[source] != [];
      WireStarts(arrived[source]);
      var frames := incoming[source];
      var header := frames[0];
      frames := frames[1..];
      var message: Bytes := [];
      if header.nextPacketLength > 0 {
        message := frames[0].bytes;
        frames := frames[1..];
      }
      incoming := incoming[source := frames];
      currentLamportTime :=
        (if header.lamportTime < currentLamportTime then currentLamportTime else header.lamportTime) + 1;
      packet := Packet(header.lamportTime, source, TypeOf(header.messageType), message);
    }
  }
}
