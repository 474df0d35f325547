/**
  How the simple communicator puts packets on the network: a fixed-size header,
  followed by the message as a second transfer unless it is empty.  A receiver
  takes a header from any source and then the message from that same source.

  One receiver is followed here, with any number of sources whose transfers
  interleave arbitrarily.
*/
module Framing {
  import opened Packets
  import opened Network
  import opened WireFormat

  const MAX_COUNT: nat := 0x8000_0000

  datatype Frame =
    | Header(lamportTime: LamportTime, messageType: Byte, nextPacketLength: nat)
    | Payload(bytes: Bytes)

  function HeaderOf(p: Packet): Frame {
    Header(p.lamportTime, TypeByte(p.messageType), |p.message| % 0x1_0000_0000)
  }

  function Frames(p: Packet): seq<Frame> {
    if p.message == [] then [HeaderOf(p)] else [HeaderOf(p), Payload(p.message)]
  }

  /** A channel that holds whole packets. */
  function Wire(ps: seq<Packet>): seq<Frame> {
    if ps == [] then [] else Frames(ps[0]) + Wire(ps[1..])
  }

  lemma {:induction false} WireAppend(ps: seq<Packet>, p: Packet)
    ensures Wire(ps + [p]) == Wire(ps) + Frames(p)
  {
    if ps == [] {
      assert ps + [p] == [p];
    } else {
      assert (ps + [p])[1..] == ps[1..] + [p];
      WireAppend(ps[1..], p);
    }
  }

  /** Channels that hold the given packets. */
  ghost predicate Wired(channels: seq<seq<Frame>>, packets: seq<seq<Packet>>) {
    |channels| == |packets| && forall j :: 0 <= j < |packets| ==> channels[j] == Wire(packets[j])
  }

  /** What a sender adds. */
  lemma WiredGrows(channels: seq<seq<Frame>>, packets: seq<seq<Packet>>, j: nat, p: Packet)
    requires Wired(channels, packets) && j < |packets|
    ensures var frames := channels[j] + [HeaderOf(p)];
            Wired(channels[j := if p.message == [] then frames else frames + [Payload(p.message)]],
                  packets[j := packets[j] + [p]])
  {
    WireAppend(packets[j], p);
  }

  /** What a receiver meets first. */
  lemma WireStarts(ps: seq<Packet>)
    requires ps != [] && |ps[0].message| < MAX_COUNT
    ensures Wire(ps) != [] && Wire(ps)[0] == HeaderOf(ps[0]) && Wire(ps)[0].nextPacketLength == |ps[0].message|
    ensures if ps[0].message == [] then Wire(ps)[1..] == Wire(ps[1..])
            else |Wire(ps)| > 1 && Wire(ps)[1] == Payload(ps[0].message) && Wire(ps)[1..][1..] == Wire(ps[1..])
  {
    assert Wire(ps) == Frames(ps[0]) + Wire(ps[1..]);
    assert |ps[0].message| % 0x1_0000_0000 == |ps[0].message|;
  }

  /** None when the type byte names no message type. */
  function ToPacket(h: Frame, source: ProcessId, message: Bytes): Option<Packet>
    requires h.Header?
  {
    if h.messageType >= 7 then None else Some(Packet(h.lamportTime, source, TypeOf(h.messageType), message))
  }

  datatype Expected = Expected(source: ProcessId, header: Frame)

  datatype Line = Line(
    channel: seq<seq<Frame>>,      // per source, what the network holds for the receiver
    unsent: seq<Option<Bytes>>,    // per source, a message whose header is already on the network
    expecting: Option<Expected>,   // the receiver has a header and wants its message
    clock: LamportTime,
    broken: bool,                  // the receiver met something it did not expect
    sent: seq<seq<Packet>>,        // per source, the packets sent so far, and ...
    received: seq<seq<Packet>>)    // ... the packets returned by receive so far

  datatype Transfer =
    | SendHeader(p: Packet)
    | SendPayload(source: ProcessId)
    | ReceiveHeader(source: ProcessId)
    | ReceivePayload

  predicate Shaped(n: nat, s: Line) {
    |s.channel| == |s.unsent| == |s.sent| == |s.received| == n
    && (s.expecting.Some? ==> s.expecting.value.source < n && s.expecting.value.header.Header?)
  }

  predicate CanTransfer(n: nat, s: Line, t: Transfer)
    requires Shaped(n, s)
  {
    match t
    case SendHeader(p) => p.source < n && s.unsent[p.source].None? && |p.message| < MAX_COUNT
    case SendPayload(j) => j < n && s.unsent[j].Some?
    case ReceiveHeader(j) => j < n && s.expecting.None? && s.channel[j] != []
    case ReceivePayload => s.expecting.Some? && s.channel[s.expecting.value.source] != []
  }

  /** receive returns: the clock is merged and the packet handed over. */
  function Return(s: Line, h: Frame, j: ProcessId, message: Bytes): Line
    requires h.Header? && j < |s.received|
  {
    match ToPacket(h, j, message)
    case None => s.(broken := true)
    case Some(p) =>
      s.(expecting := None, clock := Merge(s.clock, h.lamportTime), received := s.received[j := s.received[j] + [p]])
  }

  function TransferNext(n: nat, s: Line, t: Transfer): Line
    requires Shaped(n, s) && CanTransfer(n, s, t)
  {
    match t
    case SendHeader(p) =>
      var j := p.source;
      s.(channel := s.channel[j := s.channel[j] + [HeaderOf(p)]],
         unsent := s.unsent[j := if p.message == [] then None else Some(p.message)],
         sent := s.sent[j := s.sent[j] + [p]])
    case SendPayload(j) =>
      s.(channel := s.channel[j := s.channel[j] + [Payload(s.unsent[j].value)]], unsent := s.unsent[j := None])
    case ReceiveHeader(j) =>
      var h := s.channel[j][0];
      var s' := s.(channel := s.channel[j := s.channel[j][1..]]);
      if h.Payload? then s'.(broken := true)
      else if h.nextPacketLength > 0 then s'.(expecting := Some(Expected(j, h)))
      else Return(s', h, j, [])
    case ReceivePayload =>
      var j, h := s.expecting.value.source, s.expecting.value.header;
      var f := s.channel[j][0];
      var s' := s.(channel := s.channel[j := s.channel[j][1..]]);
      if f.Header? || |f.bytes| != h.nextPacketLength then s'.(broken := true)
      else Return(s', h, j, f.bytes)
  }

  function Quiet(n: nat, clock: LamportTime): Line {
    Line(seq(n, _ => []), seq(n, _ => None), None, clock, false, seq(n, _ => []), seq(n, _ => []))
  }

  /** The state after a sequence of transfers; None when one of them was not possible. */
  function Transfers(n: nat, clock: LamportTime, ts: seq<Transfer>): (r: Option<Line>)
    ensures r.Some? ==> Shaped(n, r.value)
  {
    if ts == [] then Some(Quiet(n, clock))
    else
      match Transfers(n, clock, ts[..|ts| - 1])
      case None => None
      case Some(s) => if CanTransfer(n, s, ts[|ts| - 1]) then Some(TransferNext(n, s, ts[|ts| - 1])) else None
  }

  // ---- The invariant -----------------------------------------------------------------------

  /** What the receiver has not returned of source j: the header it holds, the channel, and the message
      the source still has to put on the network. */
  function Unread(n: nat, s: Line, j: ProcessId): seq<Frame>
    requires Shaped(n, s) && j < n
  {
    (if s.expecting.Some? && s.expecting.value.source == j then [s.expecting.value.header] else [])
    + s.channel[j]
    + (if s.unsent[j].Some? then [Payload(s.unsent[j].value)] else [])
  }

  ghost predicate SourceOk(n: nat, s: Line, j: ProcessId)
    requires Shaped(n, s) && j < n
  {
    && s.received[j] <= s.sent[j]
    && Unread(n, s, j) == Wire(s.sent[j][|s.received[j]|..])
    && (forall k :: 0 <= k < |s.sent[j]| ==> s.sent[j][k].source == j && |s.sent[j][k].message| < MAX_COUNT)
    && (forall k :: 0 <= k < |s.received[j]| ==> s.received[j][k].lamportTime < s.clock)
    && (s.expecting.Some? && s.expecting.value.source == j ==> s.expecting.value.header.nextPacketLength > 0)
  }

  ghost predicate LineOk(n: nat, s: Line) {
    Shaped(n, s) && !s.broken && forall j :: 0 <= j < n ==> SourceOk(n, s, j)
  }

  /** What a step on one source's channel leaves of the others. */
  lemma OthersOk(n: nat, s: Line, s': Line, j: ProcessId)
    requires LineOk(n, s) && Shaped(n, s') && j < n && s'.expecting == s.expecting && s'.clock == s.clock
    requires forall i :: 0 <= i < n && i != j ==>
                           s'.channel[i] == s.channel[i] && s'.unsent[i] == s.unsent[i]
                           && s'.sent[i] == s.sent[i] && s'.received[i] == s.received[i]
    ensures forall i :: 0 <= i < n && i != j ==> SourceOk(n, s', i)
  {
    forall i | 0 <= i < n && i != j ensures SourceOk(n, s', i) {
      assert SourceOk(n, s, i);
      assert Unread(n, s', i) == Unread(n, s, i);
    }
  }

  lemma SendHeaderOk(n: nat, s: Line, p: Packet)
    requires LineOk(n, s) && CanTransfer(n, s, SendHeader(p))
    ensures LineOk(n, TransferNext(n, s, SendHeader(p)))
  {
    var s', j := TransferNext(n, s, SendHeader(p)), p.source;
    assert SourceOk(n, s, j);
    OthersOk(n, s, s', j);
    HeaderAppended(n, s, p);
  }

  lemma HeaderUnread(n: nat, s: Line, p: Packet)
    requires Shaped(n, s) && CanTransfer(n, s, SendHeader(p))
    ensures Unread(n, TransferNext(n, s, SendHeader(p)), p.source) == Unread(n, s, p.source) + Frames(p)
  {
  }

  lemma HeaderAppended(n: nat, s: Line, p: Packet)
    requires Shaped(n, s) && CanTransfer(n, s, SendHeader(p)) && SourceOk(n, s, p.source)
    ensures SourceOk(n, TransferNext(n, s, SendHeader(p)), p.source)
  {
    var s', j := TransferNext(n, s, SendHeader(p)), p.source;
    var k := |s.received[j]|;
    assert s'.sent[j] == s.sent[j] + [p];
    assert s'.sent[j][k..] == s.sent[j][k..] + [p];
    WireAppend(s.sent[j][k..], p);
    HeaderUnread(n, s, p);
  }

  lemma SendPayloadOk(n: nat, s: Line, j: ProcessId)
    requires LineOk(n, s) && CanTransfer(n, s, SendPayload(j))
    ensures LineOk(n, TransferNext(n, s, SendPayload(j)))
  {
    var s' := TransferNext(n, s, SendPayload(j));
    assert SourceOk(n, s, j);
    assert Unread(n, s', j) == Unread(n, s, j);
    forall i | 0 <= i < n && i != j ensures SourceOk(n, s', i) {
      assert SourceOk(n, s, i);
    }
  }

  /** Returning the next packet of a source, once its frames are consumed: that source, */
  lemma ReturnOwn(n: nat, s: Line, s1: Line, h: Frame, j: ProcessId, message: Bytes)
    requires Shaped(n, s) && Shaped(n, s1) && j < n && SourceOk(n, s, j) && |s.received[j]| < |s.sent[j]|
    requires s.channel[j] != [] && s1 == s.(channel := s.channel[j := s.channel[j][1..]])
    requires s.expecting.None? || s.expecting.value.source == j
    requires var p := s.sent[j][|s.received[j]|]; h == HeaderOf(p) && message == p.message
    requires Unread(n, s1.(expecting := None), j) == Wire(s.sent[j][|s.received[j]| + 1..])
    ensures Shaped(n, Return(s1, h, j, message)) && SourceOk(n, Return(s1, h, j, message), j)
    ensures Return(s1, h, j, message).broken == s.broken
  {
    var s' := Return(s1, h, j, message);
    var p := s.sent[j][|s.received[j]|];
    assert ToPacket(h, j, message) == Some(p);
    assert s'.received[j] == s.sent[j][..|s.received[j]| + 1];
    assert Unread(n, s', j) == Unread(n, s1.(expecting := None), j);
  }

  /** and the others. */
  lemma ReturnOthers(n: nat, s: Line, s1: Line, h: Frame, j: ProcessId, message: Bytes, i: ProcessId)
    requires Shaped(n, s) && Shaped(n, s1) && j < n && i < n && i != j && SourceOk(n, s, i)
    requires s.channel[j] != [] && s1 == s.(channel := s.channel[j := s.channel[j][1..]])
    requires s.expecting.None? || s.expecting.value.source == j
    requires h.Header? && Shaped(n, Return(s1, h, j, message)) && !Return(s1, h, j, message).broken
    ensures SourceOk(n, Return(s1, h, j, message), i)
  {
    assert Unread(n, Return(s1, h, j, message), i) == Unread(n, s, i);
  }

  lemma ReturnOk(n: nat, s: Line, s1: Line, h: Frame, j: ProcessId, message: Bytes)
    requires LineOk(n, s) && Shaped(n, s1) && j < n && |s.received[j]| < |s.sent[j]|
    requires s.channel[j] != [] && s1 == s.(channel := s.channel[j := s.channel[j][1..]])
    requires s.expecting.None? || s.expecting.value.source == j
    requires var p := s.sent[j][|s.received[j]|]; h == HeaderOf(p) && message == p.message
    requires Unread(n, s1.(expecting := None), j) == Wire(s.sent[j][|s.received[j]| + 1..])
    ensures LineOk(n, Return(s1, h, j, message))
  {
    assert SourceOk(n, s, j);
    ReturnOwn(n, s, s1, h, j, message);
    forall i | 0 <= i < n && i != j ensures SourceOk(n, Return(s1, h, j, message), i) {
      assert SourceOk(n, s, i);
      ReturnOthers(n, s, s1, h, j, message, i);
    }
  }

  /** The head of an idle channel is the header of the source's next packet. */
  lemma HeadIsHeader(n: nat, s: Line, j: ProcessId)
    requires LineOk(n, s) && j < n && s.channel[j] != [] && (s.expecting.None? || s.expecting.value.source != j)
    ensures |s.received[j]| < |s.sent[j]| && s.channel[j][0] == HeaderOf(s.sent[j][|s.received[j]|])
  {
    assert SourceOk(n, s, j);
    var rest := s.sent[j][|s.received[j]|..];
    assert Unread(n, s, j)[0] == s.channel[j][0];
    if rest != [] {
      assert Wire(rest)[0] == HeaderOf(rest[0]);
    }
  }

  /** After a header that announces a message, the channel's head is that message. */
  lemma HeadIsPayload(n: nat, s: Line)
    requires LineOk(n, s) && s.expecting.Some? && s.channel[s.expecting.value.source] != []
    ensures var j := s.expecting.value.source;
            && |s.received[j]| < |s.sent[j]|
            && s.expecting.value.header == HeaderOf(s.sent[j][|s.received[j]|])
            && s.channel[j][0] == Payload(s.sent[j][|s.received[j]|].message)
  {
    var j := s.expecting.value.source;
    assert SourceOk(n, s, j);
    var rest := s.sent[j][|s.received[j]|..];
    var unread := Unread(n, s, j);
    assert unread[0] == s.expecting.value.header && unread[1] == s.channel[j][0];
    assert rest != [];
    assert Wire(rest) == Frames(rest[0]) + Wire(rest[1..]);
    assert Wire(rest)[0] == HeaderOf(rest[0]) && Wire(rest)[1] == Payload(rest[0].message);
  }

  /** A header that announces a message is kept, */
  lemma HeaderKept(n: nat, s: Line, j: ProcessId)
    requires LineOk(n, s) && CanTransfer(n, s, ReceiveHeader(j))
    requires s.channel[j][0].Header? && s.channel[j][0].nextPacketLength > 0
    ensures LineOk(n, TransferNext(n, s, ReceiveHeader(j)))
  {
    var s' := TransferNext(n, s, ReceiveHeader(j));
    forall i | 0 <= i < n ensures SourceOk(n, s', i) {
      assert SourceOk(n, s, i);
      assert Unread(n, s', i) == Unread(n, s, i);
    }
  }

  /** and any other is a packet. */
  lemma HeaderReturned(n: nat, s: Line, j: ProcessId)
    requires LineOk(n, s) && CanTransfer(n, s, ReceiveHeader(j)) && |s.received[j]| < |s.sent[j]|
    requires var p := s.sent[j][|s.received[j]|]; s.channel[j][0] == HeaderOf(p) && p.message == []
    ensures LineOk(n, TransferNext(n, s, ReceiveHeader(j)))
  {
    assert SourceOk(n, s, j);
    var h, rest := s.channel[j][0], s.sent[j][|s.received[j]|..];
    var s1 := s.(channel := s.channel[j := s.channel[j][1..]]);
    assert Unread(n, s, j) == [h] + Unread(n, s1, j);
    assert Unread(n, s1, j) == ([h] + Wire(rest[1..]))[1..];
    assert rest[1..] == s.sent[j][|s.received[j]| + 1..];
    assert s1.(expecting := None) == s1;
    ReturnOk(n, s, s1, h, j, []);
  }

  lemma ReceiveHeaderOk(n: nat, s: Line, j: ProcessId)
    requires LineOk(n, s) && CanTransfer(n, s, ReceiveHeader(j))
    ensures LineOk(n, TransferNext(n, s, ReceiveHeader(j)))
  {
    HeadIsHeader(n, s, j);
    assert SourceOk(n, s, j);
    if s.channel[j][0].nextPacketLength > 0 {
      HeaderKept(n, s, j);
    } else {
      HeaderReturned(n, s, j);
    }
  }

  lemma ReceivePayloadOk(n: nat, s: Line)
    requires LineOk(n, s) && CanTransfer(n, s, ReceivePayload)
    ensures LineOk(n, TransferNext(n, s, ReceivePayload))
  {
    HeadIsPayload(n, s);
    var j, h := s.expecting.value.source, s.expecting.value.header;
    assert SourceOk(n, s, j);
    var p, f := s.sent[j][|s.received[j]|], s.channel[j][0];
    var rest := s.sent[j][|s.received[j]|..];
    assert rest[0] == p && rest[1..] == s.sent[j][|s.received[j]| + 1..];
    var s1 := s.(channel := s.channel[j := s.channel[j][1..]]);
    assert |p.message| % 0x1_0000_0000 == |p.message|;
    assert Unread(n, s, j) == [h, f] + Unread(n, s1.(expecting := None), j);
    assert Wire(rest) == [h, f] + Wire(rest[1..]);
    assert Unread(n, s1.(expecting := None), j) == ([h, f] + Wire(rest[1..]))[2..];
    ReturnOk(n, s, s1, h, j, f.bytes);
  }

  lemma {:induction false} LineStaysOk(n: nat, clock: LamportTime, ts: seq<Transfer>)
    requires Transfers(n, clock, ts).Some?
    ensures LineOk(n, Transfers(n, clock, ts).value)
  {
    if ts != [] {
      LineStaysOk(n, clock, ts[..|ts| - 1]);
      var s := Transfers(n, clock, ts[..|ts| - 1]).value;
      match ts[|ts| - 1]
      case SendHeader(p) => SendHeaderOk(n, s, p);
      case SendPayload(j) => SendPayloadOk(n, s, j);
      case ReceiveHeader(j) => ReceiveHeaderOk(n, s, j);
      case ReceivePayload => ReceivePayloadOk(n, s);
    }
  }

  /** However the transfers of all sources interleave, the receiver never meets a frame it does not
      expect, returns each source's packets in the order they were sent, loses none - once a source's
      channel is empty and its last message is out, all its packets have been returned - and ends with
      a clock above every stamp it took in. */
  lemma FramingIsTransparent(n: nat, clock: LamportTime, ts: seq<Transfer>, j: ProcessId)
    requires Transfers(n, clock, ts).Some? && j < n
    ensures var s := Transfers(n, clock, ts).value;
            && !s.broken
            && s.received[j] <= s.sent[j]
            && (s.channel[j] == [] && s.unsent[j].None? && s.expecting.None? ==> s.received[j] == s.sent[j])
            && (s.channel[j] != [] && s.expecting.None? ==> s.channel[j][0].Header?)
            && (forall p :: p in s.received[j] ==> p.lamportTime < s.clock)
  {
    LineStaysOk(n, clock, ts);
    var s := Transfers(n, clock, ts).value;
    assert SourceOk(n, s, j);
    if s.channel[j] != [] && s.expecting.None? {
      HeadIsHeader(n, s, j);
    }
    if s.channel[j] == [] && s.unsent[j].None? && s.expecting.None? {
      WireLength(s.sent[j][|s.received[j]|..]);
    }
  }

  lemma {:induction false} WireLength(ps: seq<Packet>)
    ensures |Wire(ps)| >= |ps|
  {
    if ps != [] {
      WireLength(ps[1..]);
    }
  }

  // ---- Everything arrives ----------------------------------------------------------------------

  lemma TransferOn(n: nat, clock: LamportTime, ts: seq<Transfer>, s: Line, t: Transfer)
    requires Transfers(n, clock, ts) == Some(s) && CanTransfer(n, s, t)
    ensures Transfers(n, clock, ts + [t]) == Some(TransferNext(n, s, t))
    ensures LineOk(n, s) && LineOk(n, TransferNext(n, s, t))
  {
    assert (ts + [t])[..|ts + [t]| - 1] == ts;
    LineStaysOk(n, clock, ts);
    LineStaysOk(n, clock, ts + [t]);
  }

  /** What may happen next: a source starts a packet once the last one is out, or goes on with it; the receiver
      takes a header from any channel, and after one that announces a message, only from that channel. */
  lemma TransferExactly(n: nat, clock: LamportTime, ts: seq<Transfer>, s: Line, p: Packet, j: ProcessId)
    requires Transfers(n, clock, ts) == Some(s)
    ensures Transfers(n, clock, ts + [SendHeader(p)]).Some? <==>
              p.source < n && s.unsent[p.source] == None && |p.message| < 0x8000_0000
    ensures Transfers(n, clock, ts + [SendPayload(j)]).Some? <==> j < n && s.unsent[j] != None
    ensures Transfers(n, clock, ts + [ReceiveHeader(j)]).Some? <==> j < n && s.expecting == None && s.channel[j] != []
    ensures Transfers(n, clock, ts + [ReceivePayload]).Some? <==>
              s.expecting != None && s.channel[s.expecting.value.source] != []
  {
    assert (ts + [SendHeader(p)])[..|ts|] == ts;
    assert (ts + [SendPayload(j)])[..|ts|] == ts;
    assert (ts + [ReceiveHeader(j)])[..|ts|] == ts;
    assert (ts + [ReceivePayload])[..|ts|] == ts;
  }

  /** A message whose header has been taken is in the channel, unless its source still has it. */
  lemma ExpectedIsComing(n: nat, s: Line)
    requires LineOk(n, s) && s.expecting.Some?
    ensures var j := s.expecting.value.source; s.channel[j] != [] || s.unsent[j].Some?
  {
    var j, h := s.expecting.value.source, s.expecting.value.header;
    assert SourceOk(n, s, j);
    var rest := s.sent[j][|s.received[j]|..];
    assert Unread(n, s, j)[0] == h;
    assert rest != [] && Wire(rest) == Frames(rest[0]) + Wire(rest[1..]);
    assert Wire(rest)[0] == HeaderOf(rest[0]);
    assert |Frames(rest[0])| == 2;
  }

  /** Nothing but j's channel, and what has been received of it, has changed. */
  ghost predicate OnlyOf(n: nat, s: Line, j: ProcessId, s': Line)
    requires Shaped(n, s) && Shaped(n, s') && j < n
  {
    && s'.sent == s.sent
    && s'.channel == s.channel[j := s'.channel[j]] && s'.unsent == s.unsent[j := s'.unsent[j]]
  }

  lemma OnlyOfBoth(n: nat, s: Line, j: ProcessId, next: Line, s': Line)
    requires Shaped(n, s) && Shaped(n, next) && Shaped(n, s') && j < n
    requires OnlyOf(n, s, j, next) && OnlyOf(n, next, j, s')
    ensures OnlyOf(n, s, j, s')
  {
  }

  lemma Regroup(ts: seq<Transfer>, first: seq<Transfer>, rest: seq<Transfer>)
    ensures ts + first + rest == ts + (first + rest)
  {
  }

  lemma TakePayload(n: nat, clock: LamportTime, ts: seq<Transfer>, s: Line)
    returns (more: seq<Transfer>, s': Line)
    requires Transfers(n, clock, ts) == Some(s) && s.expecting.Some?
    ensures Transfers(n, clock, ts + more) == Some(s') && s'.expecting.None?
    ensures var j := s.expecting.value.source;
            && OnlyOf(n, s, j, s') && |s'.channel[j]| <= |s.channel[j]|
            && (s.unsent[j].None? ==> s'.unsent[j].None?)
  {
    var j := s.expecting.value.source;
    LineStaysOk(n, clock, ts);
    ExpectedIsComing(n, s);
    var before, s1 := [], s;
    if s.channel[j] == [] {
      before, s1 := [SendPayload(j)], TransferNext(n, s, SendPayload(j));
      TransferOn(n, clock, ts, s, SendPayload(j));
    } else {
      assert ts + [] == ts;
    }
    s' := TransferNext(n, s1, ReceivePayload);
    TransferOn(n, clock, ts + before, s1, ReceivePayload);
    more := before + [ReceivePayload];
    assert ts + before + [ReceivePayload] == ts + more;
  }

  /** One more packet of j, header and message. */
  lemma TakePacket(n: nat, clock: LamportTime, ts: seq<Transfer>, s: Line, j: ProcessId)
    returns (more: seq<Transfer>, s': Line)
    requires Transfers(n, clock, ts) == Some(s) && s.expecting.None?
    requires j < n && s.channel[j] != [] && s.unsent[j].None?
    ensures Transfers(n, clock, ts + more) == Some(s') && s'.expecting.None?
    ensures OnlyOf(n, s, j, s') && |s'.channel[j]| < |s.channel[j]| && s'.unsent[j].None?
  {
    var s1 := TransferNext(n, s, ReceiveHeader(j));
    TransferOn(n, clock, ts, s, ReceiveHeader(j));
    if s1.expecting.None? {
      more, s' := [ReceiveHeader(j)], s1;
    } else {
      var rest;
      rest, s' := TakePayload(n, clock, ts + [ReceiveHeader(j)], s1);
      more := [ReceiveHeader(j)] + rest;
      Regroup(ts, [ReceiveHeader(j)], rest);
    }
  }

  lemma {:induction false} TakeAllOf(n: nat, clock: LamportTime, ts: seq<Transfer>, s: Line, j: ProcessId)
    returns (more: seq<Transfer>, s': Line)
    requires Transfers(n, clock, ts) == Some(s) && s.expecting.None? && j < n && s.unsent[j].None?
    ensures Transfers(n, clock, ts + more) == Some(s') && s'.expecting.None?
    ensures OnlyOf(n, s, j, s') && s'.channel[j] == [] && s'.unsent[j].None?
    decreases |s.channel[j]|
  {
    if s.channel[j] == [] {
      more, s' := [], s;
      assert ts + [] == ts;
    } else {
      var first, next := TakePacket(n, clock, ts, s, j);
      var rest;
      rest, s' := TakeAllOf(n, clock, ts + first, next, j);
      more := first + rest;
      Regroup(ts, first, rest);
      OnlyOfBoth(n, s, j, next, s');
    }
  }

  lemma DrainOf(n: nat, clock: LamportTime, ts: seq<Transfer>, s: Line, j: ProcessId)
    returns (more: seq<Transfer>, s': Line)
    requires Transfers(n, clock, ts) == Some(s) && s.expecting.None? && j < n
    ensures Transfers(n, clock, ts + more) == Some(s') && s'.expecting.None?
    ensures OnlyOf(n, s, j, s') && s'.channel[j] == [] && s'.unsent[j].None?
  {
    if s.unsent[j].None? {
      more, s' := TakeAllOf(n, clock, ts, s, j);
    } else {
      var s1 := TransferNext(n, s, SendPayload(j));
      TransferOn(n, clock, ts, s, SendPayload(j));
      var rest;
      rest, s' := TakeAllOf(n, clock, ts + [SendPayload(j)], s1, j);
      more := [SendPayload(j)] + rest;
      assert ts + [SendPayload(j)] + rest == ts + more;
    }
  }

  ghost predicate Drained(n: nat, s: Line, k: nat) {
    Shaped(n, s) && s.expecting.None? && k <= n && forall j :: 0 <= j < k ==> s.channel[j] == [] && s.unsent[j].None?
  }

  lemma {:induction false} DrainUpTo(n: nat, clock: LamportTime, ts: seq<Transfer>, s: Line, k: nat)
    returns (more: seq<Transfer>, s': Line)
    requires Transfers(n, clock, ts) == Some(s) && s.expecting.None? && k <= n
    ensures Transfers(n, clock, ts + more) == Some(s') && s'.sent == s.sent && Drained(n, s', k)
  {
    if k == 0 {
      more, s' := [], s;
      assert ts + [] == ts;
    } else {
      var first, next := DrainUpTo(n, clock, ts, s, k - 1);
      var rest;
      rest, s' := DrainOf(n, clock, ts + first, next, k - 1);
      more := first + rest;
      Regroup(ts, first, rest);
    }
  }

  lemma DrainedIsReceived(n: nat, clock: LamportTime, ts: seq<Transfer>, s: Line)
    requires Transfers(n, clock, ts) == Some(s) && Drained(n, s, n)
    ensures s.received == s.sent
  {
    forall j: ProcessId | j < n ensures s.received[j] == s.sent[j] {
      FramingIsTransparent(n, clock, ts, j);
    }
  }

  /** From wherever the transfers are, they can go on until everything sent has been returned. */
  lemma Drains(n: nat, clock: LamportTime, ts: seq<Transfer>, s: Line)
    returns (more: seq<Transfer>, s': Line)
    requires Transfers(n, clock, ts) == Some(s)
    ensures Transfers(n, clock, ts + more) == Some(s') && s'.sent == s.sent && Drained(n, s', n)
    ensures s'.received == s.sent
  {
    var first, next := [], s;
    if s.expecting.Some? {
      first, next := TakePayload(n, clock, ts, s);
    } else {
      assert ts + [] == ts;
    }
    var rest;
    rest, s' := DrainUpTo(n, clock, ts + first, next, n);
    more := first + rest;
    Regroup(ts, first, rest);
    DrainedIsReceived(n, clock, ts + more, s');
  }

  lemma SendNext(n: nat, clock: LamportTime, ts: seq<Transfer>, s: Line, p: Packet) returns (next: Line)
    requires Transfers(n, clock, ts) == Some(s) && Drained(n, s, n) && p.source < n && |p.message| < MAX_COUNT
    ensures Transfers(n, clock, ts + [SendHeader(p)]) == Some(next)
    ensures next.sent == s.sent[p.source := s.sent[p.source] + [p]]
  {
    TransferOn(n, clock, ts, s, SendHeader(p));
    next := TransferNext(n, s, SendHeader(p));
  }

  /** Any packet that a source sends next is returned by receive, after all that was sent before it. */
  lemma Delivered(n: nat, clock: LamportTime, ts: seq<Transfer>, s: Line, p: Packet)
    returns (more: seq<Transfer>, s': Line)
    requires Transfers(n, clock, ts) == Some(s) && p.source < n && |p.message| < MAX_COUNT
    ensures Transfers(n, clock, ts + more) == Some(s')
    ensures s'.received == s.sent[p.source := s.sent[p.source] + [p]]
  {
    var before, quiet := Drains(n, clock, ts, s);
    var next := SendNext(n, clock, ts + before, quiet, p);
    var after;
    after, s' := Drains(n, clock, ts + before + [SendHeader(p)], next);
    more := before + [SendHeader(p)] + after;
    Regroup(ts, before, [SendHeader(p)] + after);
    Regroup(ts + before, [SendHeader(p)], after);
    assert before + ([SendHeader(p)] + after) == more;
  }
}
