/**
  The inductive invariant of the mutual exclusion protocol, for any number of
  processes and any one mutex m, in the presence of every other kind of step.

  It relates two processes at a time.  `Link(m, i, pi, j, pj)` follows the one
  request i may have outstanding at j: it is a token that is a request under
  way, then possibly a deferred request, then an agreement under way, then an
  agreement received, and it exists exactly while i is queued.
*/
module MutexInvariant {
  import opened Packets
  import opened Network
  import opened Protocol
  import opened SyncFormat

  function RequestKey(i: ProcessId, m: Name): PacketKey { PacketKey(i, MutexRequest, m) }
  function AgreementKey(j: ProcessId, m: Name): PacketKey { PacketKey(j, MutexAgreement, m) }

  predicate Waiting(p: Proc, m: Name) { p.main.Requesting? && p.main.name == m }
  predicate Inside(p: Proc, m: Name) { m in p.held }
  predicate Unlocking(p: Proc, m: Name) { p.main == Releasing(m) }

  /** Packets under way from p to j. */
  ghost function Flight(p: Proc, j: ProcessId, t: MessageType, x: Bytes): nat {
    if j < |p.net.out| then Count(p.net.out[j], t, x) else 0
  }

  /** A packet from j received by p and not yet dispatched. */
  ghost function Pending(p: Proc, j: ProcessId, t: MessageType, x: Bytes): nat {
    if p.pending.Some? && p.pending.value.source == j && p.pending.value.Is(t, x) then 1 else 0
  }

  ghost function DeferredBit(p: Proc, m: Name, i: ProcessId): nat {
    if RequestKey(i, m) in DeferredOf(p, m) then 1 else 0
  }

  ghost function ReceivedBit(p: Proc, m: Name, j: ProcessId): nat {
    if Inside(p, m) || Unlocking(p, m) then 1
    else if Waiting(p, m) && AgreementKey(j, m) in p.main.agreements then 1
    else 0
  }

  /** i's request to j, not answered yet. */
  ghost function Asked(m: Name, i: ProcessId, pi: Proc, j: ProcessId, pj: Proc): nat {
    Flight(pi, j, MutexRequest, m) + Pending(pj, i, MutexRequest, m) + DeferredBit(pj, m, i)
  }

  /** j's answer to i's request. */
  ghost function Granted(m: Name, i: ProcessId, pi: Proc, j: ProcessId, pj: Proc): nat {
    Flight(pj, i, MutexAgreement, m) + Pending(pi, j, MutexAgreement, m) + ReceivedBit(pi, m, j)
  }

  /** Every channel carries this process's packets in strictly increasing time. */
  ghost predicate ChannelOk(e: Endpoint, ch: seq<Packet>) {
    && (forall k :: 0 <= k < |ch| ==> ch[k].source == e.id && ch[k].lamportTime <= e.clock)
    && (forall k, l :: 0 <= k < l < |ch| ==> ch[k].lamportTime < ch[l].lamportTime)
  }

  ghost predicate EndpointOk(n: nat, i: ProcessId, p: Proc) {
    && i < n && p.net.id == i && |p.net.out| == n
    && (forall j :: 0 <= j < n ==> ChannelOk(p.net, p.net.out[j]))
    && (p.pending.Some? ==>
          && p.pending.value.lamportTime < p.net.clock
          && p.pending.value.source < n && p.pending.value.source != i)
  }

  ghost predicate KeysOk(n: nat, i: ProcessId, t: MessageType, m: Name, s: PacketSet) {
    forall k :: k in s ==> k.messageType == t && k.message == m && k.source < n && k.source != i
  }

  ghost predicate Solo(n: nat, m: Name, i: ProcessId, p: Proc) {
    && EndpointOk(n, i, p)
    && (m in p.queued <==> Waiting(p, m) || Inside(p, m) || Unlocking(p, m))
    && (Inside(p, m) ==> !Waiting(p, m) && !Unlocking(p, m) && p.main != Subscribed(m))
    && (m in p.queued ==> p.queued[m] <= p.net.clock)
    && (m !in p.queued ==> DeferredOf(p, m) == map[])
    && KeysOk(n, i, MutexRequest, m, DeferredOf(p, m))
    && (Waiting(p, m) ==> KeysOk(n, i, MutexAgreement, m, p.main.agreements))
  }

  /** Requests of i under way to j carry the time i is queued with. */
  ghost predicate RequestTimes(m: Name, pi: Proc, j: ProcessId) {
    j < |pi.net.out| ==>
      forall k :: 0 <= k < |pi.net.out[j]| && pi.net.out[j][k].Is(MutexRequest, m) ==>
                    m in pi.queued && pi.net.out[j][k].lamportTime == pi.queued[m]
  }

  ghost predicate Link(m: Name, i: ProcessId, pi: Proc, j: ProcessId, pj: Proc) {
    && Asked(m, i, pi, j, pj) + Granted(m, i, pi, j, pj) == (if m in pi.queued then 1 else 0)
    && RequestTimes(m, pi, j)
    && (Pending(pj, i, MutexRequest, m) == 1 ==> m in pi.queued && pj.pending.value.lamportTime == pi.queued[m])
    && (DeferredBit(pj, m, i) == 1 ==>
          && m in pi.queued && m in pj.queued
          && DeferredOf(pj, m)[RequestKey(i, m)] == pi.queued[m]
          && Before(pj.queued[m], j, pi.queued[m], i)
          && pi.queued[m] <= pj.net.clock)
    && (Granted(m, i, pi, j, pj) == 1 ==>
          && m in pi.queued
          && pi.queued[m] <= pj.net.clock
          && (m !in pj.queued || Unlocking(pj, m) || Before(pi.queued[m], i, pj.queued[m], j)))
  }

  ghost predicate Inv(cfg: Config, m: Name, s: State) {
    && |s| == cfg.n
    && (forall i :: 0 <= i < |s| ==> Solo(cfg.n, m, i, s[i]))
    && (forall i, j :: 0 <= i < |s| && 0 <= j < |s| && i != j ==> Link(m, i, s[i], j, s[j]))
  }

  // ---- Sending and receiving -------------------------------------------------

  lemma SendCount(e: Endpoint, t: MessageType, x: Bytes, to: set<ProcessId>, j: ProcessId, u: MessageType, y: Bytes)
    requires j < |e.out|
    ensures Count(Send(e, t, x, to).out[j], u, y)
            == Count(e.out[j], u, y) + (if j in to && t == u && x == y then 1 else 0)
  {
    CountAppend(e.out[j], Stamped(e, t, x), u, y);
  }

  lemma SendChannel(e: Endpoint, t: MessageType, x: Bytes, to: set<ProcessId>, j: ProcessId)
    requires j < |e.out| && ChannelOk(e, e.out[j])
    ensures ChannelOk(Send(e, t, x, to), Send(e, t, x, to).out[j])
  {
  }

  lemma SendEndpoint(n: nat, i: ProcessId, p: Proc, p': Proc, t: MessageType, x: Bytes, to: set<ProcessId>)
    requires EndpointOk(n, i, p) && p'.net == Send(p.net, t, x, to)
    requires p'.pending == p.pending || p'.pending == None
    ensures EndpointOk(n, i, p')
  {
    forall j | 0 <= j < n ensures ChannelOk(p'.net, p'.net.out[j]) {
      SendChannel(p.net, t, x, to, j);
    }
  }

  // ---- Steps that have nothing to do with m ----------------------------------

  predicate About(m: Name, k: Packet) {
    k.Is(MutexRequest, m) || k.Is(MutexAgreement, m)
  }

  /** Everything the invariant for m reads of one process is the same, except that the clock may have
      moved and packets that are not about m may have been sent or dispatched. */
  ghost predicate Quiet(m: Name, p: Proc, p': Proc) {
    && (m in p.queued <==> m in p'.queued)
    && (m in p.queued ==> p.queued[m] == p'.queued[m])
    && DeferredOf(p, m) == DeferredOf(p', m)
    && (Inside(p, m) <==> Inside(p', m))
    && (Unlocking(p, m) <==> Unlocking(p', m))
    && (Waiting(p, m) <==> Waiting(p', m))
    && (Waiting(p, m) ==> p.main == p'.main)
    && (p'.main == Subscribed(m) ==> p.main == Subscribed(m) || !Inside(p, m))
    && p.net.clock <= p'.net.clock
    && (p'.pending == p.pending || (p'.pending == None && p.pending.Some? && !About(m, p.pending.value)))
  }

  lemma QuietPair(n: nat, m: Name, a: ProcessId, pa: Proc, pa': Proc, b: ProcessId, pb: Proc,
                  t: MessageType, x: Bytes, to: set<ProcessId>)
    requires Solo(n, m, a, pa) && Solo(n, m, b, pb) && a != b
    requires Link(m, a, pa, b, pb) && Link(m, b, pb, a, pa)
    requires Quiet(m, pa, pa')
    requires pa'.net == pa.net || (pa'.net == Send(pa.net, t, x, to)
                                   && !(t == MutexRequest && x == m) && !(t == MutexAgreement && x == m))
    ensures Link(m, a, pa', b, pb) && Link(m, b, pb, a, pa')
  {
    SendCount(pa.net, t, x, to, b, MutexRequest, m);
    SendCount(pa.net, t, x, to, b, MutexAgreement, m);
  }

  lemma QuietSolo(n: nat, m: Name, a: ProcessId, pa: Proc, pa': Proc, t: MessageType, x: Bytes, to: set<ProcessId>)
    requires Solo(n, m, a, pa) && Quiet(m, pa, pa')
    requires pa'.net == pa.net || pa'.net == Send(pa.net, t, x, to)
    ensures Solo(n, m, a, pa')
  {
    if pa'.net != pa.net {
      SendEndpoint(n, a, pa, pa', t, x, to);
    }
  }

  // ---- Steps about m -----------------------------------------------------------

  /** A set of packets of one kind is complete exactly when it has one from every other process. */
  lemma {:induction false} AllFrom(n: nat, t: MessageType, m: Name, i: ProcessId, s: PacketSet)
    requires i < n && KeysOk(n, i, t, m, s)
    ensures |s| == n - 1 <==> forall j :: j in Others(n, i) ==> PacketKey(j, t, m) in s
  {
    var from := set k | k in s.Keys :: k.source;
    KeysAsSources(t, m, s.Keys, from);
    assert |s| == |s.Keys|;
    OthersSize(n, i);
    assert from <= Others(n, i);
    if |s| == n - 1 {
      SubsetSize(from, Others(n, i));
    }
    if forall j :: j in Others(n, i) ==> PacketKey(j, t, m) in s {
      forall j | j in Others(n, i) ensures j in from {
        assert PacketKey(j, t, m) in s.Keys;
      }
      assert from == Others(n, i);
    }
  }

  lemma AllReceived(n: nat, m: Name, i: ProcessId, agreements: PacketSet)
    requires i < n && KeysOk(n, i, MutexAgreement, m, agreements)
    ensures |agreements| == n - 1 <==> forall j :: j in Others(n, i) ==> AgreementKey(j, m) in agreements
  {
    AllFrom(n, MutexAgreement, m, i, agreements);
    assert forall j :: AgreementKey(j, m) == PacketKey(j, MutexAgreement, m);
  }

  lemma {:induction false} KeysAsSources(t: MessageType, m: Name, keys: set<PacketKey>, from: set<ProcessId>)
    requires forall k :: k in keys ==> k.messageType == t && k.message == m
    requires from == set k | k in keys :: k.source
    ensures |from| == |keys|
    ensures forall j :: j in from <==> PacketKey(j, t, m) in keys
  {
    forall j | j in from ensures PacketKey(j, t, m) in keys {
      var k :| k in keys && k.source == j;
      assert k == PacketKey(j, t, m);
    }
    if keys != {} {
      var k :| k in keys;
      var rest := set l | l in keys - {k} :: l.source;
      forall l | l in keys - {k} ensures l.source != k.source {
        assert l == PacketKey(l.source, t, m) && k == PacketKey(k.source, t, m);
      }
      assert from == rest + {k.source};
      KeysAsSources(t, m, keys - {k}, rest);
    }
  }

  lemma {:induction false} OthersSize(n: nat, i: ProcessId)
    requires i < n
    ensures |Others(n, i)| == n - 1
  {
    if n > 1 {
      var l := if i == n - 1 then n - 2 else i;
      OthersSize(n - 1, l);
      assert Others(n, i) == Others(n - 1, l) + {if i == n - 1 then n - 2 else n - 1};
    } else {
      assert Others(n, i) == {};
    }
  }

  lemma {:induction false} SubsetSize<T>(a: set<T>, b: set<T>)
    requires a <= b
    ensures |a| <= |b|
    ensures |a| == |b| ==> a == b
  {
    if a != {} {
      var x :| x in a;
      SubsetSize(a - {x}, b - {x});
    }
  }

  lemma QueuePair(n: nat, m: Name, a: ProcessId, pa: Proc, b: ProcessId, pb: Proc)
    requires Solo(n, m, a, pa) && Solo(n, m, b, pb) && a != b
    requires Link(m, a, pa, b, pb) && Link(m, b, pb, a, pa)
    requires pa.main == Subscribed(m) && !Inside(pa, m)
    ensures Link(m, a, QueueFor(pa, m), b, pb) && Link(m, b, pb, a, QueueFor(pa, m))
  {
    var pa' := QueueFor(pa, m);
    assert m !in pa.queued;
    assert b in Others(n, a);
    SendCount(pa.net, MutexRequest, m, Others(n, a), b, MutexRequest, m);
    SendCount(pa.net, MutexRequest, m, Others(n, a), b, MutexAgreement, m);
    NoneInFlight(pa.net.out[b], MutexRequest, m);
    assert RequestTimes(m, pa', b);
  }

  lemma NoneInFlight(ch: seq<Packet>, t: MessageType, x: Bytes)
    requires Count(ch, t, x) == 0
    ensures forall k :: 0 <= k < |ch| ==> !ch[k].Is(t, x)
  {
    forall k | 0 <= k < |ch| ensures !ch[k].Is(t, x) {
      if ch[k].Is(t, x) {
        CountMember(ch, k, t, x);
      }
    }
  }

  /** Dispatching a request for m at pa: it is granted at once, or deferred. */
  lemma GrantedRequestPair(m: Name, a: ProcessId, pa: Proc, b: ProcessId, pb: Proc, pa': Proc)
    requires a != b && a < |pb.net.out| && b < |pa.net.out| && pa.net.id == a
    requires Link(m, a, pa, b, pb) && Link(m, b, pb, a, pa)
    requires pa.pending.Some? && pa.pending.value.Is(MutexRequest, m) && !Unlocking(pa, m)
    requires pa.pending.value.lamportTime < pa.net.clock && CanSendAgreement(pa, pa.pending.value)
    requires pa' == SendAgreement(pa, m, pa.pending.value.source).(pending := None)
    ensures Link(m, a, pa', b, pb) && Link(m, b, pb, a, pa')
  {
    var k := pa.pending.value;
    SendCount(pa.net, MutexAgreement, m, {k.source}, b, MutexRequest, m);
    SendCount(pa.net, MutexAgreement, m, {k.source}, b, MutexAgreement, m);
    assert Asked(m, a, pa', b, pb) == Asked(m, a, pa, b, pb) && Granted(m, a, pa', b, pb) == Granted(m, a, pa, b, pb);
    var moved := if k.source == b then 1 else 0;
    assert Asked(m, b, pb, a, pa') == Asked(m, b, pb, a, pa) - moved;
    assert Granted(m, b, pb, a, pa') == Granted(m, b, pb, a, pa) + moved;
  }

  lemma DeferredRequestPair(m: Name, n: nat, a: ProcessId, pa: Proc, b: ProcessId, pb: Proc, pa': Proc)
    requires Solo(n, m, a, pa) && Solo(n, m, b, pb) && a != b
    requires Link(m, a, pa, b, pb) && Link(m, b, pb, a, pa)
    requires pa.pending.Some? && pa.pending.value.Is(MutexRequest, m) && !Unlocking(pa, m)
    requires !CanSendAgreement(pa, pa.pending.value)
    requires pa' == pa.(deferred := pa.deferred[m := Insert(DeferredOf(pa, m), pa.pending.value)], pending := None)
    ensures Link(m, a, pa', b, pb) && Link(m, b, pb, a, pa')
  {
    var k := pa.pending.value;
    assert DeferredOf(pa', m) == Insert(DeferredOf(pa, m), k);
    assert k.Key() == RequestKey(k.source, m);
    assert DeferredBit(pa', m, b) == if k.source == b then 1 else DeferredBit(pa, m, b);
    assert pa'.net == pa.net;
  }

  lemma RequestPair(cfg: Config, m: Name, a: ProcessId, pa: Proc, b: ProcessId, pb: Proc)
    requires Solo(cfg.n, m, a, pa) && Solo(cfg.n, m, b, pb) && a != b
    requires Link(m, a, pa, b, pb) && Link(m, b, pb, a, pa)
    requires pa.pending.Some? && pa.pending.value.Is(MutexRequest, m) && !Unlocking(pa, m)
    ensures var pa' := Deliver(cfg, pa, pa.pending.value).(pending := None);
            Link(m, a, pa', b, pb) && Link(m, b, pb, a, pa')
  {
    var pa' := Deliver(cfg, pa, pa.pending.value).(pending := None);
    if CanSendAgreement(pa, pa.pending.value) {
      GrantedRequestPair(m, a, pa, b, pb, pa');
    } else {
      DeferredRequestPair(m, cfg.n, a, pa, b, pb, pa');
    }
  }

  lemma RequestSolo(cfg: Config, m: Name, a: ProcessId, pa: Proc)
    requires Solo(cfg.n, m, a, pa)
    requires pa.pending.Some? && pa.pending.value.Is(MutexRequest, m)
    ensures Solo(cfg.n, m, a, Deliver(cfg, pa, pa.pending.value).(pending := None))
  {
    var k := pa.pending.value;
    var pa' := Deliver(cfg, pa, k).(pending := None);
    if CanSendAgreement(pa, k) {
      SendEndpoint(cfg.n, a, pa, pa', MutexAgreement, m, {k.source});
    }
  }

  /** Dispatching an agreement on m at pa, which waits for it. */
  lemma AgreementPair(cfg: Config, m: Name, a: ProcessId, pa: Proc, b: ProcessId, pb: Proc)
    requires Solo(cfg.n, m, a, pa) && Solo(cfg.n, m, b, pb) && a != b
    requires Link(m, a, pa, b, pb) && Link(m, b, pb, a, pa)
    requires pa.pending.Some? && pa.pending.value.Is(MutexAgreement, m) && Waiting(pa, m)
    ensures var pa' := Deliver(cfg, pa, pa.pending.value).(pending := None);
            Link(m, a, pa', b, pb) && Link(m, b, pb, a, pa')
  {
  }

  lemma EnterPair(n: nat, m: Name, a: ProcessId, pa: Proc, b: ProcessId, pb: Proc)
    requires Solo(n, m, a, pa) && Solo(n, m, b, pb) && a != b
    requires Link(m, a, pa, b, pb) && Link(m, b, pb, a, pa)
    requires Waiting(pa, m) && |pa.main.agreements| == n - 1
    ensures var pa' := pa.(main := Free, held := pa.held + {m});
            Link(m, a, pa', b, pb) && Link(m, b, pb, a, pa')
  {
    AllReceived(n, m, a, pa.main.agreements);
    assert b in Others(n, a);
  }

  lemma BeginReleasePair(n: nat, m: Name, a: ProcessId, pa: Proc, b: ProcessId, pb: Proc)
    requires Solo(n, m, a, pa) && Solo(n, m, b, pb) && a != b
    requires Link(m, a, pa, b, pb) && Link(m, b, pb, a, pa)
    requires Inside(pa, m)
    ensures var pa' := pa.(main := Releasing(m), held := pa.held - {m}, changed := pa.changed - {m});
            Link(m, a, pa', b, pb) && Link(m, b, pb, a, pa')
  {
  }

  lemma GrantPair(n: nat, m: Name, a: ProcessId, pa: Proc, to: ProcessId, b: ProcessId, pb: Proc)
    requires Solo(n, m, a, pa) && Solo(n, m, b, pb) && a != b
    requires Link(m, a, pa, b, pb) && Link(m, b, pb, a, pa)
    requires Unlocking(pa, m) && RequestKey(to, m) in DeferredOf(pa, m)
    ensures Link(m, a, GrantDeferred(pa, m, to), b, pb) && Link(m, b, pb, a, GrantDeferred(pa, m, to))
  {
    SendCount(pa.net, MutexAgreement, m, {to}, b, MutexRequest, m);
    SendCount(pa.net, MutexAgreement, m, {to}, b, MutexAgreement, m);
  }

  lemma EndReleasePair(n: nat, m: Name, a: ProcessId, pa: Proc, b: ProcessId, pb: Proc)
    requires Solo(n, m, a, pa) && Solo(n, m, b, pb) && a != b
    requires Link(m, a, pa, b, pb) && Link(m, b, pb, a, pa)
    requires Unlocking(pa, m) && DeferredOf(pa, m) == map[]
    ensures var pa' := FinishRelease(pa, m);
            Link(m, a, pa', b, pb) && Link(m, b, pb, a, pa')
  {
    NoneInFlight(pa.net.out[b], MutexRequest, m);
  }

  /** Which local steps concern m. */
  predicate StepAbout(m: Name, p: Proc, step: Step) {
    match step
    case Queue(x) => x == m
    case Enter(x) => x == m
    case BeginRelease(x) => x == m
    case Grant(x, _) => x == m
    case EndRelease(x) => x == m
    case Dispatch => p.pending.Some? && About(m, p.pending.value)
    case _ => false
  }

  /** What a step sends. */
  datatype Sending = Silent | Sends(t: MessageType, x: Bytes, to: set<ProcessId>)

  ghost function SentBy(cfg: Config, p: Proc, step: Step): Sending
    requires LocalEnabled(cfg, p, step)
  {
    var others := Others(|p.net.out|, p.net.id);
    match step
    case Queue(m) => Sends(MutexRequest, m, others)
    case Grant(m, to) => Sends(MutexAgreement, m, {to})
    case BeginWait(c) => Sends(CondWait, c, others)
    case StopWait(c) => Sends(CondWaitEnd, c, others)
    case NotifyOne(c) =>
      if WaitersOf(p, c) == map[] then Silent
      else Sends(CondNotify, c, {WaitersOf(p, c)[Earliest(WaitersOf(p, c))].source})
    case NotifyAll(c) => if p.waiters == map[] then Silent else Sends(CondNotify, c, Sources(WaitersOf(p, c)))
    case SyncOut(m) => Sends(MessageType.Sync, PackSync(m, p.replica[m]), others)
    case Dispatch =>
      var k := p.pending.value;
      if k.messageType.MutexRequest? && CanSendAgreement(p, k) then Sends(MutexAgreement, k.message, {k.source})
      else if k.messageType.CondWaitEnd? then Sends(CondWaitEndConfirm, k.message, {k.source})
      else Silent
    case _ => Silent
  }

  lemma DispatchSends(cfg: Config, p: Proc)
    requires LocalEnabled(cfg, p, Dispatch)
    ensures Deliver(cfg, p, p.pending.value).net
            == match SentBy(cfg, p, Dispatch)
               case Silent => p.net
               case Sends(t, x, to) => Send(p.net, t, x, to)
  {
  }

  lemma SentByIsSent(cfg: Config, p: Proc, step: Step)
    requires LocalEnabled(cfg, p, step)
    ensures LocalNext(cfg, p, step).net
            == match SentBy(cfg, p, step)
               case Silent => p.net
               case Sends(t, x, to) => Send(p.net, t, x, to)
    ensures LocalNext(cfg, p, step).pending == if step.Dispatch? then None else p.pending
  {
    if step.Dispatch? {
      DispatchSends(cfg, p);
    }
  }

  lemma MutexDispatchIsQuiet(cfg: Config, m: Name, p: Proc)
    requires LocalEnabled(cfg, p, Dispatch) && !About(m, p.pending.value)
    requires p.pending.value.messageType.MutexRequest? || p.pending.value.messageType.MutexAgreement?
    ensures Quiet(m, p, LocalNext(cfg, p, Dispatch))
  {
    var k := p.pending.value;
    assert k.message != m;
  }

  lemma DispatchIsQuiet(cfg: Config, m: Name, p: Proc)
    requires LocalEnabled(cfg, p, Dispatch) && !About(m, p.pending.value)
    ensures Quiet(m, p, LocalNext(cfg, p, Dispatch))
  {
    var k := p.pending.value;
    if k.messageType.MutexRequest? || k.messageType.MutexAgreement? {
      MutexDispatchIsQuiet(cfg, m, p);
    } else {
      var p' := Deliver(cfg, p, k);
      assert p'.queued == p.queued && p'.deferred == p.deferred && p'.held == p.held && p'.main == p.main;
    }
  }

  predicate IsLockStep(step: Step) {
    step.Subscribe? || step.Queue? || step.Enter? || step.BeginRelease? || step.Grant? || step.EndRelease?
  }

  lemma LockStepIsQuiet(cfg: Config, m: Name, n: nat, i: ProcessId, p: Proc, step: Step)
    requires LocalEnabled(cfg, p, step) && IsLockStep(step) && !StepAbout(m, p, step)
    requires Solo(n, m, i, p)
    ensures Quiet(m, p, LocalNext(cfg, p, step))
  {
    var p' := LocalNext(cfg, p, step);
    assert p'.pending == p.pending && p.net.clock <= p'.net.clock;
    assert DeferredOf(p', m) == DeferredOf(p, m);
  }

  lemma ClientStepIsQuiet(cfg: Config, m: Name, p: Proc, step: Step)
    requires LocalEnabled(cfg, p, step) && !IsLockStep(step) && !step.Dispatch?
    ensures Quiet(m, p, LocalNext(cfg, p, step))
  {
    var p' := LocalNext(cfg, p, step);
    SentByIsSent(cfg, p, step);
    assert p'.queued == p.queued && p'.deferred == p.deferred && p'.held == p.held;
    assert p'.main == if step.SyncOut? then Leaving(step.m) else p.main;
  }

  lemma OtherStepIsQuiet(cfg: Config, m: Name, n: nat, i: ProcessId, p: Proc, step: Step)
    requires LocalEnabled(cfg, p, step) && !StepAbout(m, p, step)
    requires Solo(n, m, i, p)
    ensures Quiet(m, p, LocalNext(cfg, p, step))
  {
    if step.Dispatch? {
      DispatchIsQuiet(cfg, m, p);
    } else if IsLockStep(step) {
      LockStepIsQuiet(cfg, m, n, i, p, step);
    } else {
      ClientStepIsQuiet(cfg, m, p, step);
    }
  }

  lemma OtherStepSendsOther(cfg: Config, m: Name, p: Proc, step: Step)
    requires LocalEnabled(cfg, p, step) && !StepAbout(m, p, step)
    ensures SentBy(cfg, p, step).Sends? ==>
              var sent := SentBy(cfg, p, step);
              !(sent.x == m && (sent.t.MutexRequest? || sent.t.MutexAgreement?))
  {
  }

  // ---- Every step keeps the invariant ------------------------------------------

  lemma StepSolo(cfg: Config, m: Name, a: ProcessId, pa: Proc, step: Step)
    requires LocalEnabled(cfg, pa, step) && Solo(cfg.n, m, a, pa)
    ensures Solo(cfg.n, m, a, LocalNext(cfg, pa, step))
  {
    var pa' := LocalNext(cfg, pa, step);
    SentByIsSent(cfg, pa, step);
    if StepAbout(m, pa, step) {
      StepAboutSolo(cfg, m, a, pa, step);
    } else {
      OtherStepIsQuiet(cfg, m, cfg.n, a, pa, step);
      match SentBy(cfg, pa, step)
      case Silent => QuietSolo(cfg.n, m, a, pa, pa', MutexRequest, m, {});
      case Sends(t, x, to) => QuietSolo(cfg.n, m, a, pa, pa', t, x, to);
    }
  }

  lemma StepAboutSolo(cfg: Config, m: Name, a: ProcessId, pa: Proc, step: Step)
    requires LocalEnabled(cfg, pa, step) && Solo(cfg.n, m, a, pa) && StepAbout(m, pa, step)
    ensures Solo(cfg.n, m, a, LocalNext(cfg, pa, step))
  {
    var pa' := LocalNext(cfg, pa, step);
    match step
    case Queue(_) => SendEndpoint(cfg.n, a, pa, pa', MutexRequest, m, Others(|pa.net.out|, pa.net.id));
    case Grant(_, to) => SendEndpoint(cfg.n, a, pa, pa', MutexAgreement, m, {to});
    case Dispatch =>
      if pa.pending.value.messageType.MutexRequest? {
        RequestSolo(cfg, m, a, pa);
      }
    case _ =>
  }

  lemma OtherStepPair(cfg: Config, m: Name, a: ProcessId, pa: Proc, step: Step, b: ProcessId, pb: Proc)
    requires LocalEnabled(cfg, pa, step) && !StepAbout(m, pa, step)
    requires Solo(cfg.n, m, a, pa) && Solo(cfg.n, m, b, pb) && a != b
    requires Link(m, a, pa, b, pb) && Link(m, b, pb, a, pa)
    ensures Link(m, a, LocalNext(cfg, pa, step), b, pb) && Link(m, b, pb, a, LocalNext(cfg, pa, step))
  {
    var pa' := LocalNext(cfg, pa, step);
    SentByIsSent(cfg, pa, step);
    OtherStepIsQuiet(cfg, m, cfg.n, a, pa, step);
    OtherStepSendsOther(cfg, m, pa, step);
    match SentBy(cfg, pa, step)
    case Silent => QuietPair(cfg.n, m, a, pa, pa', b, pb, MutexRequest, m, {});
    case Sends(t, x, to) => QuietPair(cfg.n, m, a, pa, pa', b, pb, t, x, to);
  }

  lemma StepPair(cfg: Config, m: Name, a: ProcessId, pa: Proc, step: Step, b: ProcessId, pb: Proc)
    requires LocalEnabled(cfg, pa, step)
    requires Solo(cfg.n, m, a, pa) && Solo(cfg.n, m, b, pb) && a != b
    requires Link(m, a, pa, b, pb) && Link(m, b, pb, a, pa)
    ensures Link(m, a, LocalNext(cfg, pa, step), b, pb) && Link(m, b, pb, a, LocalNext(cfg, pa, step))
  {
    if StepAbout(m, pa, step) {
      StepAboutPair(cfg, m, a, pa, step, b, pb);
    } else {
      OtherStepPair(cfg, m, a, pa, step, b, pb);
    }
  }

  lemma StepAboutPair(cfg: Config, m: Name, a: ProcessId, pa: Proc, step: Step, b: ProcessId, pb: Proc)
    requires LocalEnabled(cfg, pa, step) && StepAbout(m, pa, step)
    requires Solo(cfg.n, m, a, pa) && Solo(cfg.n, m, b, pb) && a != b
    requires Link(m, a, pa, b, pb) && Link(m, b, pb, a, pa)
    ensures Link(m, a, LocalNext(cfg, pa, step), b, pb) && Link(m, b, pb, a, LocalNext(cfg, pa, step))
  {
    match step
    case Queue(_) => QueuePair(cfg.n, m, a, pa, b, pb);
    case Enter(_) => EnterPair(cfg.n, m, a, pa, b, pb);
    case BeginRelease(_) => BeginReleasePair(cfg.n, m, a, pa, b, pb);
    case Grant(_, to) => GrantPair(cfg.n, m, a, pa, to, b, pb);
    case EndRelease(_) => EndReleasePair(cfg.n, m, a, pa, b, pb);
    case Dispatch =>
      if pa.pending.value.messageType.MutexRequest? {
        RequestPair(cfg, m, a, pa, b, pb);
      } else {
        AgreementPair(cfg, m, a, pa, b, pb);
      }
  }

  /** Taking a packet: the head of the channel becomes the pending packet. */
  lemma DropHeadCount(ch: seq<Packet>, t: MessageType, x: Bytes)
    requires ch != []
    ensures Count(ch, t, x) == Count(ch[1..], t, x) + (if ch[0].Is(t, x) then 1 else 0)
  {
  }

  ghost predicate CanTake(n: nat, a: ProcessId, pa: Proc, b: ProcessId, pb: Proc) {
    && EndpointOk(n, a, pa) && EndpointOk(n, b, pb) && a != b
    && pa.pending.None? && pb.net.out[a] != []
  }

  lemma TakeSolo(n: nat, m: Name, a: ProcessId, pa: Proc, b: ProcessId, pb: Proc)
    requires Solo(n, m, a, pa) && Solo(n, m, b, pb) && CanTake(n, a, pa, b, pb)
    ensures Solo(n, m, a, Take(pa, pb.net.out[a][0])) && Solo(n, m, b, DropHead(pb, a))
  {
  }

  /** The sender's request moves on to the receiver. */
  lemma TakeFromRequester(m: Name, a: ProcessId, pa: Proc, b: ProcessId, pb: Proc)
    requires a != b && pa.pending.None? && a < |pb.net.out| && pb.net.out[a] != [] && pb.net.out[a][0].source == b
    requires Link(m, b, pb, a, pa)
    requires b < |pa.net.out|
    ensures Link(m, b, DropHead(pb, a), a, Take(pa, pb.net.out[a][0]))
  {
    DropHeadCount(pb.net.out[a], MutexRequest, m);
    DropHeadCount(pb.net.out[a], MutexAgreement, m);
    var k := pb.net.out[a][0];
    var pa', pb' := Take(pa, k), DropHead(pb, a);
    assert pb'.net.out[a] == pb.net.out[a][1..];
    assert RequestTimes(m, pb', a);
    assert Asked(m, b, pb', a, pa') == Asked(m, b, pb, a, pa);
    assert Granted(m, b, pb', a, pa') == Granted(m, b, pb, a, pa);
  }

  /** The sender's agreement moves on to the receiver. */
  lemma TakeFromGranter(m: Name, a: ProcessId, pa: Proc, b: ProcessId, pb: Proc)
    requires a != b && pa.pending.None? && a < |pb.net.out| && pb.net.out[a] != [] && pb.net.out[a][0].source == b
    requires Link(m, a, pa, b, pb)
    ensures Link(m, a, Take(pa, pb.net.out[a][0]), b, DropHead(pb, a))
  {
    DropHeadCount(pb.net.out[a], MutexAgreement, m);
    var pa', pb' := Take(pa, pb.net.out[a][0]), DropHead(pb, a);
    assert Asked(m, a, pa', b, pb') == Asked(m, a, pa, b, pb);
    assert Granted(m, a, pa', b, pb') == Granted(m, a, pa, b, pb);
  }

  lemma TakePair(n: nat, m: Name, a: ProcessId, pa: Proc, b: ProcessId, pb: Proc)
    requires Solo(n, m, a, pa) && Solo(n, m, b, pb) && CanTake(n, a, pa, b, pb)
    requires Link(m, a, pa, b, pb) && Link(m, b, pb, a, pa)
    ensures var pa', pb' := Take(pa, pb.net.out[a][0]), DropHead(pb, a);
            Link(m, a, pa', b, pb') && Link(m, b, pb', a, pa')
  {
    TakeFromRequester(m, a, pa, b, pb);
    TakeFromGranter(m, a, pa, b, pb);
  }

  /** The other processes see nothing of it. */
  lemma TakeOther(n: nat, m: Name, a: ProcessId, pa: Proc, k: Packet, c: ProcessId, pc: Proc)
    requires Solo(n, m, a, pa) && Solo(n, m, c, pc) && c != a
    requires pa.pending.None? && k.source != c
    requires Link(m, a, pa, c, pc) && Link(m, c, pc, a, pa)
    ensures Link(m, a, Take(pa, k), c, pc) && Link(m, c, pc, a, Take(pa, k))
  {
  }

  lemma DropHeadOther(n: nat, m: Name, a: ProcessId, b: ProcessId, pb: Proc, c: ProcessId, pc: Proc)
    requires Solo(n, m, b, pb) && Solo(n, m, c, pc) && c != b && c != a
    requires a < n && pb.net.out[a] != []
    requires Link(m, b, pb, c, pc) && Link(m, c, pc, b, pb)
    ensures Link(m, b, DropHead(pb, a), c, pc) && Link(m, c, pc, b, DropHead(pb, a))
  {
    assert DropHead(pb, a).net.out[c] == pb.net.out[c];
  }

  lemma InitLink(cfg: Config, m: Name, i: ProcessId, j: ProcessId)
    requires i < cfg.n && j < cfg.n && i != j
    ensures Solo(cfg.n, m, i, InitProc(cfg, i)) && Link(m, i, InitProc(cfg, i), j, InitProc(cfg, j))
  {
  }

  lemma InitInv(cfg: Config, m: Name)
    ensures Inv(cfg, m, Init(cfg))
  {
    var s := Init(cfg);
    forall i | 0 <= i < |s| ensures Solo(cfg.n, m, i, s[i]) {
      assert s[i] == InitProc(cfg, i);
    }
    forall i, j | 0 <= i < |s| && 0 <= j < |s| && i != j ensures Link(m, i, s[i], j, s[j]) {
      InitLink(cfg, m, i, j);
    }
  }

  lemma ReceiveLink(cfg: Config, m: Name, s: State, a: ProcessId, b: ProcessId, i: ProcessId, j: ProcessId)
    requires Inv(cfg, m, s) && CanReceive(s, a, b)
    requires i < |s| && j < |s| && i != j
    ensures Link(m, i, ReceiveNext(s, a, b)[i], j, ReceiveNext(s, a, b)[j])
  {
    var k := s[b].net.out[a][0];
    assert Solo(cfg.n, m, i, s[i]) && Solo(cfg.n, m, j, s[j]) && Link(m, i, s[i], j, s[j]) && Link(m, j, s[j], i, s[i]);
    assert Solo(cfg.n, m, b, s[b]);
    if (i == a && j == b) || (i == b && j == a) {
      TakePair(cfg.n, m, a, s[a], b, s[b]);
    } else if i == a {
      TakeOther(cfg.n, m, a, s[a], k, j, s[j]);
    } else if j == a {
      TakeOther(cfg.n, m, a, s[a], k, i, s[i]);
    } else if i == b {
      DropHeadOther(cfg.n, m, a, b, s[b], j, s[j]);
    } else if j == b {
      DropHeadOther(cfg.n, m, a, b, s[b], i, s[i]);
    }
  }

  lemma LocalLink(cfg: Config, m: Name, s: State, l: Label, i: ProcessId, j: ProcessId)
    requires Inv(cfg, m, s) && Enabled(cfg, s, l) && !l.step.Receive?
    requires i < |s| && j < |s| && i != j
    ensures Link(m, i, Next(cfg, s, l)[i], j, Next(cfg, s, l)[j])
  {
    var a := l.proc;
    assert Solo(cfg.n, m, i, s[i]) && Solo(cfg.n, m, j, s[j]) && Link(m, i, s[i], j, s[j]) && Link(m, j, s[j], i, s[i]);
    if i == a {
      StepPair(cfg, m, a, s[a], l.step, j, s[j]);
    } else if j == a {
      StepPair(cfg, m, a, s[a], l.step, i, s[i]);
    }
  }

  lemma NextSolo(cfg: Config, m: Name, s: State, l: Label, i: ProcessId)
    requires Inv(cfg, m, s) && Enabled(cfg, s, l) && i < |s|
    ensures Solo(cfg.n, m, i, Next(cfg, s, l)[i])
  {
    var a := l.proc;
    assert Solo(cfg.n, m, a, s[a]) && Solo(cfg.n, m, i, s[i]);
    if l.step.Receive? {
      var b := l.step.from;
      assert Solo(cfg.n, m, b, s[b]);
      TakeSolo(cfg.n, m, a, s[a], b, s[b]);
    } else {
      StepSolo(cfg, m, a, s[a], l.step);
    }
  }

  lemma NextInv(cfg: Config, m: Name, s: State, l: Label)
    requires Inv(cfg, m, s) && Enabled(cfg, s, l)
    ensures Inv(cfg, m, Next(cfg, s, l))
  {
    var s' := Next(cfg, s, l);
    forall i | 0 <= i < |s| ensures Solo(cfg.n, m, i, s'[i]) {
      NextSolo(cfg, m, s, l, i);
    }
    forall i, j | 0 <= i < |s| && 0 <= j < |s| && i != j ensures Link(m, i, s'[i], j, s'[j]) {
      if l.step.Receive? {
        ReceiveLink(cfg, m, s, l.proc, l.step.from, i, j);
      } else {
        LocalLink(cfg, m, s, l, i, j);
      }
    }
  }

  /** The invariant holds in every state a run can end in. */
  lemma {:induction false} RunInv(cfg: Config, m: Name, run: seq<Label>)
    requires Exec(cfg, run).Some?
    ensures Inv(cfg, m, Exec(cfg, run).value)
  {
    if run == [] {
      InitInv(cfg, m);
    } else {
      var before, s, l := ExecLast(cfg, run);
      RunInv(cfg, m, before);
      NextInv(cfg, m, s, l);
    }
  }
}
