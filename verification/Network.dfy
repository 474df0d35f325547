/**
  A process's end of the network: its Lamport clock and one FIFO channel to
  every process.  A broadcast holds the communicator lock, so it is one step
  with one time stamp.
*/
module Network {
  import opened Packets

  datatype Endpoint = Endpoint(id: ProcessId, clock: LamportTime, out: seq<seq<Packet>>)

  predicate IsPeer(n: nat, id: ProcessId, k: ProcessId) {
    k < n && k != id
  }

  function Others(n: nat, id: ProcessId): set<ProcessId> {
    set k: nat | k < n && IsPeer(n, id, k)
  }

  function Stamped(e: Endpoint, t: MessageType, x: Bytes): Packet {
    Packet(e.clock + 1, e.id, t, x)
  }

  function Send(e: Endpoint, t: MessageType, x: Bytes, recipients: set<ProcessId>): (e': Endpoint)
    ensures e'.id == e.id && e'.clock == e.clock + 1 && |e'.out| == |e.out|
    ensures forall j :: 0 <= j < |e.out| ==>
                          e'.out[j] == if j in recipients then e.out[j] + [Stamped(e, t, x)] else e.out[j]
  {
    e.(clock := e.clock + 1,
       out := seq(|e.out|, j requires 0 <= j < |e.out| =>
                    if j in recipients then e.out[j] + [Stamped(e, t, x)] else e.out[j]))
  }

  function SendOthers(e: Endpoint, t: MessageType, x: Bytes): Endpoint {
    Send(e, t, x, Others(|e.out|, e.id))
  }

  /** The packet is at the end of every channel but the process's own. */
  ghost predicate SentToOthers(before: seq<seq<Packet>>, id: ProcessId, p: Packet, now: seq<seq<Packet>>) {
    && |now| == |before|
    && (forall j :: 0 <= j < |before| ==> now[j] == if j == id then before[j] else before[j] + [p])
  }

  /** Merging the time of a packet taken from the network into the clock. */
  function Merge(clock: LamportTime, stamp: LamportTime): LamportTime {
    (if stamp < clock then clock else stamp) + 1
  }

  /** The clock after a merge is above both, by one above the larger. */
  lemma MergeIsLeast(clock: LamportTime, stamp: LamportTime)
    ensures Merge(clock, stamp) > clock && Merge(clock, stamp) > stamp
    ensures Merge(clock, stamp) == clock + 1 || Merge(clock, stamp) == stamp + 1
  {
  }

  /** How many packets of a channel have the given type and message. */
  ghost function Count(ch: seq<Packet>, t: MessageType, x: Bytes): nat {
    if ch == [] then 0 else (if ch[0].Is(t, x) then 1 else 0) + Count(ch[1..], t, x)
  }

  lemma {:induction false} CountAppend(ch: seq<Packet>, p: Packet, t: MessageType, x: Bytes)
    ensures Count(ch + [p], t, x) == Count(ch, t, x) + (if p.Is(t, x) then 1 else 0)
  {
    if ch == [] {
      assert ch + [p] == [p];
      assert [p][1..] == [];
    } else {
      assert (ch + [p])[1..] == ch[1..] + [p];
      CountAppend(ch[1..], p, t, x);
    }
  }

  lemma {:induction false} CountMember(ch: seq<Packet>, k: nat, t: MessageType, x: Bytes)
    requires k < |ch| && ch[k].Is(t, x)
    ensures Count(ch, t, x) >= 1
  {
    if k > 0 {
      CountMember(ch[1..], k - 1, t, x);
    }
  }

  lemma {:induction false} CountWitness(ch: seq<Packet>, t: MessageType, x: Bytes) returns (k: nat)
    requires Count(ch, t, x) >= 1
    ensures k < |ch| && ch[k].Is(t, x)
  {
    if ch[0].Is(t, x) {
      k := 0;
    } else {
      var l := CountWitness(ch[1..], t, x);
      k := l + 1;
    }
  }
}
