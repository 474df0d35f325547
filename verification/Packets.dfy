/**
  Packets and the two containers of packets the program keeps.

  Two packets are equal when source, type and message agree: the Lamport time
  is ignored.  A hash set of packets is therefore exactly a finite map from
  (source, type, message) to the time of the packet inserted first.  The order
  on packets, on the other hand, looks at the Lamport time alone, so an ordered
  set of packets is exactly a finite map from a time to the packet inserted
  first with that time.
*/
module Packets {

  type Byte = b: int | 0 <= b < 256
  type Bytes = seq<Byte>
  type ProcessId = nat
  type LamportTime = nat

  datatype Option<+T> = None | Some(value: T)

  datatype MessageType =
    | MutexRequest
    | MutexAgreement
    | CondWait
    | CondWaitEnd
    | CondWaitEndConfirm
    | CondNotify
    | Sync

  datatype PacketKey = PacketKey(source: ProcessId, messageType: MessageType, message: Bytes)

  datatype Packet = Packet(lamportTime: LamportTime, source: ProcessId, messageType: MessageType, message: Bytes) {
    function Key(): PacketKey {
      PacketKey(source, messageType, message)
    }

    predicate Is(t: MessageType, x: Bytes) {
      messageType == t && message == x
    }
  }

  /** A hash set of packets. */
  type PacketSet = map<PacketKey, LamportTime>

  function Insert(s: PacketSet, p: Packet): PacketSet {
    if p.Key() in s then s else s[p.Key() := p.lamportTime]
  }

  /** An insertion adds a packet unless an equal one is there, whose time then stays. */
  lemma InsertKeepsFirst(s: PacketSet, p: Packet)
    ensures Insert(s, p).Keys == s.Keys + {PacketKey(p.source, p.messageType, p.message)}
    ensures forall k :: k in s ==> Insert(s, p)[k] == s[k]
    ensures p.Key() !in s ==> Insert(s, p)[p.Key()] == p.lamportTime
  {
  }

  /** An ordered set of packets. */
  type TimeSet = map<LamportTime, PacketKey>

  function InsertByTime(s: TimeSet, p: Packet): TimeSet {
    if p.lamportTime in s then s else s[p.lamportTime := p.Key()]
  }

  lemma InsertByTimeKeepsFirst(s: TimeSet, p: Packet)
    ensures InsertByTime(s, p).Keys == s.Keys + {p.lamportTime}
    ensures forall t :: t in s ==> InsertByTime(s, p)[t] == s[t]
    ensures p.lamportTime !in s ==>
              InsertByTime(s, p)[p.lamportTime] == PacketKey(p.source, p.messageType, p.message)
  {
  }

  /** The first element of an ordered set: the packet with the least time. */
  ghost function Earliest(s: TimeSet): (t: LamportTime)
    requires s != map[]
    ensures t in s
    ensures forall u :: u in s ==> t <= u
  {
    Least(s.Keys)
  }

  ghost function Least(s: set<nat>): (t: nat)
    requires s != {}
    ensures t in s
    ensures forall u :: u in s ==> t <= u
  {
    var x :| x in s;
    if s == {x} then x
    else
      var y := Least(s - {x});
      assert s == {x} + (s - {x});
      if x < y then x else y
  }

  /** The processes named by the packets of an ordered set. */
  function Sources(s: TimeSet): set<ProcessId> {
    set t | t in s :: s[t].source
  }
}
