/**
  The invariant of the condition variable handshake for one variable c, guarded
  by a mutex, for any number of processes.

  It rests on the mutual exclusion protocol twice: a notification is under way
  only to a process that is outside its critical section, and flushing at entry
  delivers it before that process can stop waiting; and Lamport times of waits
  grow from one critical section to the next, so no two waits share a time.
*/
module ConditionInvariant {
  import opened Packets
  import opened Network
  import opened Protocol
  import opened MutexInvariant
  import opened Flush

  predicate Listens(p: Proc, c: Name) { p.wait == Listening(c) }
  predicate Ends(p: Proc, c: Name) { p.wait.Ending? && p.wait.cond == c }
  predicate InWait(p: Proc, c: Name) { Listens(p, c) || Ends(p, c) }

  function ConfirmKey(k: ProcessId, c: Name): PacketKey { PacketKey(k, CondWaitEndConfirm, c) }

  ghost function ConfirmBit(p: Proc, c: Name, k: ProcessId): nat {
    if Ends(p, c) && ConfirmKey(k, c) in p.wait.confirmations then 1 else 0
  }

  /** The waiter table of p records the wait that j started at time t. */
  predicate Recorded(p: Proc, c: Name, j: ProcessId, t: LamportTime) {
    t in WaitersOf(p, c) && WaitersOf(p, c)[t].source == j
  }

  ghost function RecordBit(p: Proc, c: Name, j: ProcessId, t: LamportTime): nat {
    if Recorded(p, c, j, t) then 1 else 0
  }

  /** j's announcement at k that it waits. */
  ghost function Announced(c: Name, j: ProcessId, pj: Proc, t: LamportTime, k: ProcessId, pk: Proc): nat {
    Flight(pj, k, CondWait, c) + Pending(pk, j, CondWait, c) + RecordBit(pk, c, j, t)
  }

  /** j's announcement at k that it stops waiting, before k has dispatched it, ... */
  ghost function EndAsked(c: Name, j: ProcessId, pj: Proc, k: ProcessId, pk: Proc): nat {
    Flight(pj, k, CondWaitEnd, c) + Pending(pk, j, CondWaitEnd, c)
  }

  /** ... and after it has. */
  ghost function EndConfirmed(c: Name, j: ProcessId, pj: Proc, k: ProcessId, pk: Proc): nat {
    Flight(pk, j, CondWaitEndConfirm, c) + Pending(pj, k, CondWaitEndConfirm, c) + ConfirmBit(pj, c, k)
  }

  /** Everything k has of j's waits on c is about the wait j started at time t. */
  ghost predicate WaitTimesAre(c: Name, j: ProcessId, pj: Proc, t: LamportTime, k: ProcessId, pk: Proc) {
    && (k < |pj.net.out| ==>
          forall x :: 0 <= x < |pj.net.out[k]| && pj.net.out[k][x].Is(CondWait, c) ==>
            pj.net.out[k][x].lamportTime == t)
    && (Pending(pk, j, CondWait, c) == 1 ==> pk.pending.value.lamportTime == t)
    && (forall u :: u in WaitersOf(pk, c) && WaitersOf(pk, c)[u].source == j ==> u == t)
  }

  ghost predicate WaitLink(c: Name, j: ProcessId, pj: Proc, t: LamportTime, k: ProcessId, pk: Proc) {
    && Announced(c, j, pj, t, k, pk) <= (if InWait(pj, c) then 1 else 0)
    && WaitTimesAre(c, j, pj, t, k, pk)
  }

  /** In the channel, the start of a wait comes before its end. */
  ghost predicate StartBeforeEnd(c: Name, pj: Proc, k: ProcessId) {
    k < |pj.net.out| ==>
      forall x, y ::
        0 <= x < |pj.net.out[k]| && 0 <= y < |pj.net.out[k]|
        && pj.net.out[k][x].Is(CondWait, c) && pj.net.out[k][y].Is(CondWaitEnd, c)
        ==> x < y
  }

  ghost predicate EndLink(c: Name, j: ProcessId, pj: Proc, t: LamportTime, k: ProcessId, pk: Proc) {
    && EndAsked(c, j, pj, k, pk) + EndConfirmed(c, j, pj, k, pk) == (if Ends(pj, c) then 1 else 0)
    && (EndConfirmed(c, j, pj, k, pk) == 1 ==> Announced(c, j, pj, t, k, pk) == 0)
    && StartBeforeEnd(c, pj, k)
    && (Pending(pk, j, CondWaitEnd, c) == 1 ==> Flight(pj, k, CondWait, c) == 0)
  }

  /** k's notifications to j. */
  ghost function Notified(c: Name, k: ProcessId, pk: Proc, j: ProcessId, pj: Proc): nat {
    Flight(pk, j, CondNotify, c) + Pending(pj, k, CondNotify, c)
  }

  ghost predicate NotifyTimes(c: Name, g: Name, k: ProcessId, pk: Proc, e: LamportTime, j: ProcessId, pj: Proc) {
    && (Pending(pj, k, CondNotify, c) == 1 ==> pj.pending.value.lamportTime <= pk.net.clock)
    && (!Inside(pk, g) ==>
          && (j < |pk.net.out| ==>
                forall x :: 0 <= x < |pk.net.out[j]| && pk.net.out[j][x].Is(CondNotify, c) ==>
                  pk.net.out[j][x].lamportTime <= e)
          && (Pending(pj, k, CondNotify, c) == 1 ==> pj.pending.value.lamportTime <= e))
  }

  /** e is k's clock at its last exit from the guard. */
  ghost predicate NotifyLink(c: Name, g: Name, k: ProcessId, pk: Proc, e: LamportTime, j: ProcessId, pj: Proc) {
    && (Notified(c, k, pk, j, pj) >= 1 ==> Listens(pj, c) && !Inside(pj, g))
    && NotifyTimes(c, g, k, pk, e, j, pj)
  }

  ghost predicate CondSolo(cfg: Config, c: Name, i: ProcessId, p: Proc, t: LamportTime, e: LamportTime)
    requires c in cfg.guard
  {
    && (p.main.Leaving? ==> p.wait.NoWait?)
    && (p.wait.Ending? ==> p.main.Free?)
    && (Ends(p, c) ==> Inside(p, cfg.guard[c]) && KeysOk(cfg.n, i, CondWaitEndConfirm, c, p.wait.confirmations))
    && (InWait(p, c) ==> t > 0)
    && t <= p.net.clock
    && (t <= e || Inside(p, cfg.guard[c]))
    && (forall u :: u in WaitersOf(p, c) ==>
                      WaitersOf(p, c)[u].messageType == CondWait && WaitersOf(p, c)[u].message == c
                      && WaitersOf(p, c)[u].source < cfg.n && WaitersOf(p, c)[u].source != i)
  }

  // ---- What one step can change ----------------------------------------------------

  predicate HasPending(p: Proc, t: MessageType, c: Name) {
    p.pending.Some? && p.pending.value.Is(t, c)
  }

  ghost predicate CondFramed(c: Name, p: Proc, p': Proc, step: Step) {
    && (step != BeginWait(c) && step != StopWait(c) ==> (Listens(p', c) <==> Listens(p, c)))
    && (step != StopWait(c) && step != FinishWait(c) ==> (Ends(p', c) <==> Ends(p, c)))
    && (step != StopWait(c) && Ends(p', c) && !(step.Dispatch? && HasPending(p, CondWaitEndConfirm, c)) ==>
        p'.wait == p.wait)
    && (step == BeginWait(c) ==> !InWait(p, c) && Listens(p', c))
    && (step == StopWait(c) ==> Listens(p, c) && p'.wait == Ending(c, map[]))
    && (step == FinishWait(c) ==> Ends(p, c) && !InWait(p', c))
    && (!(step.Dispatch? && (HasPending(p, CondWait, c) || HasPending(p, CondWaitEnd, c))) ==>
        WaitersOf(p', c) == WaitersOf(p, c))
    && p'.pending == if step.Dispatch? then None else p.pending
  }

  lemma DispatchCondFramed(cfg: Config, c: Name, p: Proc)
    requires LocalEnabled(cfg, p, Dispatch)
    ensures CondFramed(c, p, LocalNext(cfg, p, Dispatch), Dispatch)
  {
  }

  lemma LocalCondFramed(cfg: Config, c: Name, p: Proc, step: Step)
    requires LocalEnabled(cfg, p, step)
    ensures CondFramed(c, p, LocalNext(cfg, p, step), step)
  {
    if step.Dispatch? {
      DispatchCondFramed(cfg, c, p);
    }
  }

  /** Which steps send packets about c. */
  lemma SendsAbout(cfg: Config, c: Name, p: Proc, step: Step)
    requires LocalEnabled(cfg, p, step)
    ensures var sent := SentBy(cfg, p, step);
            sent.Sends? && sent.x == c ==>
              && (sent.t.CondWait? ==> step == BeginWait(c))
              && (sent.t.CondWaitEnd? ==> step == StopWait(c))
              && (sent.t.CondWaitEndConfirm? ==>
                  step.Dispatch? && HasPending(p, CondWaitEnd, c) && sent.to == {p.pending.value.source})
              && (sent.t.CondNotify? ==> step == NotifyOne(c) || step == NotifyAll(c))
    ensures step.Dispatch? && HasPending(p, CondWaitEnd, c) ==>
              SentBy(cfg, p, step) == Sends(CondWaitEndConfirm, c, {p.pending.value.source})
    ensures step == BeginWait(c) ==> SentBy(cfg, p, step) == Sends(CondWait, c, Others(|p.net.out|, p.net.id))
    ensures step == StopWait(c) ==> SentBy(cfg, p, step) == Sends(CondWaitEnd, c, Others(|p.net.out|, p.net.id))
  {
  }

  /** How a step changes the number of packets of one kind under way to one process. */
  ghost function SentTo(sent: Sending, j: ProcessId, t: MessageType, x: Bytes): nat {
    if sent.Sends? && sent.t == t && sent.x == x && j in sent.to then 1 else 0
  }

  lemma FlightAfter(cfg: Config, p: Proc, step: Step, j: ProcessId, t: MessageType, x: Bytes)
    requires LocalEnabled(cfg, p, step) && j < |p.net.out|
    ensures |LocalNext(cfg, p, step).net.out| == |p.net.out|
    ensures Flight(LocalNext(cfg, p, step), j, t, x) == Flight(p, j, t, x) + SentTo(SentBy(cfg, p, step), j, t, x)
  {
    SentByIsSent(cfg, p, step);
    match SentBy(cfg, p, step)
    case Silent =>
    case Sends(u, y, to) => SendCount(p.net, u, y, to, j, t, x);
  }

  /** A channel after a step: the same, or longer by one packet. */
  lemma ChannelAfter(cfg: Config, p: Proc, step: Step, j: ProcessId)
    requires LocalEnabled(cfg, p, step) && j < |p.net.out|
    ensures |LocalNext(cfg, p, step).net.out| == |p.net.out|
    ensures var sent := SentBy(cfg, p, step);
            LocalNext(cfg, p, step).net.out[j]
            == if sent.Sends? && j in sent.to then p.net.out[j] + [Stamped(p.net, sent.t, sent.x)] else p.net.out[j]
  {
    SentByIsSent(cfg, p, step);
  }

  // ---- Waits announced to a peer -----------------------------------------------------

  ghost predicate Net2(n: nat, j: ProcessId, pj: Proc, k: ProcessId, pk: Proc) {
    j != k && EndpointOk(n, j, pj) && EndpointOk(n, k, pk)
  }

  ghost function WaitTimeAfter(c: Name, p: Proc, step: Step, t: LamportTime): LamportTime {
    if step == BeginWait(c) then p.net.clock + 1 else t
  }

  /** j's own step. */
  lemma WaitLinkOwnStep(cfg: Config, c: Name, j: ProcessId, pj: Proc, step: Step, t: LamportTime, k: ProcessId,
                        pk: Proc)
    requires Net2(cfg.n, j, pj, k, pk) && LocalEnabled(cfg, pj, step)
    requires WaitLink(c, j, pj, t, k, pk)
    requires step == FinishWait(c) ==> Announced(c, j, pj, t, k, pk) == 0
    ensures WaitLink(c, j, LocalNext(cfg, pj, step), WaitTimeAfter(c, pj, step, t), k, pk)
  {
    var pj' := LocalNext(cfg, pj, step);
    LocalCondFramed(cfg, c, pj, step);
    SendsAbout(cfg, c, pj, step);
    FlightAfter(cfg, pj, step, k, CondWait, c);
    ChannelAfter(cfg, pj, step, k);
    if step == BeginWait(c) {
      NoneInFlight(pj.net.out[k], CondWait, c);
    }
  }

  /** A step of the peer's: dispatching the announcement records it, unless its time is taken. */
  lemma WaitLinkPeerStep(cfg: Config, c: Name, j: ProcessId, pj: Proc, t: LamportTime, k: ProcessId, pk: Proc,
                         step: Step)
    requires Net2(cfg.n, j, pj, k, pk) && LocalEnabled(cfg, pk, step)
    requires WaitLink(c, j, pj, t, k, pk)
    requires HasPending(pk, CondWait, c) && pk.pending.value.source != j ==> pk.pending.value.lamportTime != t
    ensures WaitLink(c, j, pj, t, k, LocalNext(cfg, pk, step))
  {
    var pk' := LocalNext(cfg, pk, step);
    LocalCondFramed(cfg, c, pk, step);
    if step.Dispatch? && HasPending(pk, CondWait, c) {
      assert WaitersOf(pk', c) == InsertByTime(WaitersOf(pk, c), pk.pending.value);
    } else if step.Dispatch? && HasPending(pk, CondWaitEnd, c) {
      assert WaitersOf(pk', c) == map[];
    }
  }

  /** The announcement, or its end, is taken by the peer. */
  lemma WaitLinkTake(n: nat, c: Name, j: ProcessId, pj: Proc, t: LamportTime, k: ProcessId, pk: Proc)
    requires Net2(n, j, pj, k, pk) && CanTake(n, k, pk, j, pj)
    requires WaitLink(c, j, pj, t, k, pk)
    ensures WaitLink(c, j, DropHead(pj, k), t, k, Take(pk, pj.net.out[k][0]))
    ensures Announced(c, j, DropHead(pj, k), t, k, Take(pk, pj.net.out[k][0])) == Announced(c, j, pj, t, k, pk)
  {
    DropHeadCount(pj.net.out[k], CondWait, c);
    assert DropHead(pj, k).net.out[k] == pj.net.out[k][1..];
  }

  // ---- Ends of waits and their confirmations --------------------------------------------

  lemma EndLinkBeginWait(cfg: Config, c: Name, j: ProcessId, pj: Proc, t: LamportTime, k: ProcessId, pk: Proc)
    requires Net2(cfg.n, j, pj, k, pk) && LocalEnabled(cfg, pj, BeginWait(c))
    requires WaitLink(c, j, pj, t, k, pk) && EndLink(c, j, pj, t, k, pk)
    ensures EndLink(c, j, LocalNext(cfg, pj, BeginWait(c)), pj.net.clock + 1, k, pk)
  {
    var pj' := LocalNext(cfg, pj, BeginWait(c));
    SendsAbout(cfg, c, pj, BeginWait(c));
    FlightAfter(cfg, pj, BeginWait(c), k, CondWaitEnd, c);
    ChannelAfter(cfg, pj, BeginWait(c), k);
    NoneInFlight(pj.net.out[k], CondWaitEnd, c);
    NoneInFlight(pj'.net.out[k], CondWaitEnd, c);
  }

  lemma EndLinkStopWait(cfg: Config, c: Name, j: ProcessId, pj: Proc, t: LamportTime, k: ProcessId, pk: Proc)
    requires Net2(cfg.n, j, pj, k, pk) && LocalEnabled(cfg, pj, StopWait(c))
    requires WaitLink(c, j, pj, t, k, pk) && EndLink(c, j, pj, t, k, pk)
    ensures EndLink(c, j, LocalNext(cfg, pj, StopWait(c)), t, k, pk)
  {
    SendsAbout(cfg, c, pj, StopWait(c));
    FlightAfter(cfg, pj, StopWait(c), k, CondWait, c);
    FlightAfter(cfg, pj, StopWait(c), k, CondWaitEnd, c);
    ChannelAfter(cfg, pj, StopWait(c), k);
    assert k in Others(cfg.n, j);
    NoneInFlight(pj.net.out[k], CondWaitEnd, c);
  }

  lemma EndLinkFinishWait(cfg: Config, c: Name, j: ProcessId, pj: Proc, t: LamportTime, k: ProcessId, pk: Proc)
    requires Net2(cfg.n, j, pj, k, pk) && LocalEnabled(cfg, pj, FinishWait(c))
    requires WaitLink(c, j, pj, t, k, pk) && EndLink(c, j, pj, t, k, pk)
    requires Ends(pj, c) ==> KeysOk(cfg.n, j, CondWaitEndConfirm, c, pj.wait.confirmations)
    ensures Announced(c, j, pj, t, k, pk) == 0
    ensures EndLink(c, j, LocalNext(cfg, pj, FinishWait(c)), t, k, pk)
  {
    AllConfirmed(cfg.n, c, j, pj.wait.confirmations);
    assert k in Others(cfg.n, j);
    assert ConfirmBit(pj, c, k) == 1;
  }

  /** What EndLink looks at in the channel from j to k stays. */
  lemma OwnChannelKept(cfg: Config, c: Name, j: ProcessId, pj: Proc, step: Step, k: ProcessId, pk: Proc)
    requires Net2(cfg.n, j, pj, k, pk) && LocalEnabled(cfg, pj, step)
    requires step != BeginWait(c) && step != StopWait(c) && step != FinishWait(c) && StartBeforeEnd(c, pj, k)
    ensures var pj' := LocalNext(cfg, pj, step);
            && (Ends(pj', c) <==> Ends(pj, c))
            && Flight(pj', k, CondWait, c) == Flight(pj, k, CondWait, c)
            && Flight(pj', k, CondWaitEnd, c) == Flight(pj, k, CondWaitEnd, c)
            && StartBeforeEnd(c, pj', k)
  {
    LocalCondFramed(cfg, c, pj, step);
    SendsAbout(cfg, c, pj, step);
    FlightAfter(cfg, pj, step, k, CondWait, c);
    FlightAfter(cfg, pj, step, k, CondWaitEnd, c);
    ChannelAfter(cfg, pj, step, k);
  }

  lemma EndLinkOtherOwnStep(cfg: Config, c: Name, j: ProcessId, pj: Proc, step: Step, t: LamportTime, k: ProcessId,
                            pk: Proc)
    requires Net2(cfg.n, j, pj, k, pk) && LocalEnabled(cfg, pj, step)
    requires step != BeginWait(c) && step != StopWait(c) && step != FinishWait(c)
    requires WaitLink(c, j, pj, t, k, pk) && EndLink(c, j, pj, t, k, pk)
    ensures EndLink(c, j, LocalNext(cfg, pj, step), t, k, pk)
  {
    OwnChannelKept(cfg, c, j, pj, step, k, pk);
    if Ends(pj, c) {
      ConfirmDispatch(cfg, c, j, pj, step, k);
    } else {
      NoConfirmPending(cfg, c, j, pj, step, k);
    }
  }

  lemma NoConfirmPending(cfg: Config, c: Name, j: ProcessId, pj: Proc, step: Step, k: ProcessId)
    requires LocalEnabled(cfg, pj, step) && !Ends(LocalNext(cfg, pj, step), c)
    requires Pending(pj, k, CondWaitEndConfirm, c) == 0
    ensures Pending(LocalNext(cfg, pj, step), k, CondWaitEndConfirm, c) == 0
    ensures ConfirmBit(LocalNext(cfg, pj, step), c, k) == 0
  {
  }

  lemma EndLinkOwnStep(cfg: Config, c: Name, j: ProcessId, pj: Proc, step: Step, t: LamportTime, k: ProcessId, pk: Proc)
    requires Net2(cfg.n, j, pj, k, pk) && LocalEnabled(cfg, pj, step)
    requires WaitLink(c, j, pj, t, k, pk) && EndLink(c, j, pj, t, k, pk)
    requires Ends(pj, c) ==> KeysOk(cfg.n, j, CondWaitEndConfirm, c, pj.wait.confirmations)
    ensures EndLink(c, j, LocalNext(cfg, pj, step), WaitTimeAfter(c, pj, step, t), k, pk)
  {
    if step == BeginWait(c) {
      EndLinkBeginWait(cfg, c, j, pj, t, k, pk);
    } else if step == StopWait(c) {
      EndLinkStopWait(cfg, c, j, pj, t, k, pk);
    } else if step == FinishWait(c) {
      EndLinkFinishWait(cfg, c, j, pj, t, k, pk);
    } else {
      EndLinkOtherOwnStep(cfg, c, j, pj, step, t, k, pk);
    }
  }

  /** All confirmations are in exactly when there is one from every other process. */
  lemma {:induction false} AllConfirmed(n: nat, c: Name, i: ProcessId, confirmations: PacketSet)
    requires i < n && KeysOk(n, i, CondWaitEndConfirm, c, confirmations)
    ensures |confirmations| == n - 1 <==> forall k :: k in Others(n, i) ==> ConfirmKey(k, c) in confirmations
  {
    AllFrom(n, CondWaitEndConfirm, c, i, confirmations);
    assert forall k :: ConfirmKey(k, c) == PacketKey(k, CondWaitEndConfirm, c);
  }

  lemma ConfirmDispatch(cfg: Config, c: Name, j: ProcessId, pj: Proc, step: Step, k: ProcessId)
    requires EndpointOk(cfg.n, j, pj) && LocalEnabled(cfg, pj, step) && Ends(pj, c) && step != FinishWait(c)
    requires Pending(pj, k, CondWaitEndConfirm, c) + ConfirmBit(pj, c, k) <= 1
    ensures var pj' := LocalNext(cfg, pj, step);
            Ends(pj', c) && Pending(pj', k, CondWaitEndConfirm, c) + ConfirmBit(pj', c, k)
                            == Pending(pj, k, CondWaitEndConfirm, c) + ConfirmBit(pj, c, k)
  {
    LocalCondFramed(cfg, c, pj, step);
    if step.Dispatch? && HasPending(pj, CondWaitEndConfirm, c) {
      assert LocalNext(cfg, pj, step).wait.confirmations == Insert(pj.wait.confirmations, pj.pending.value);
    }
  }

  /** Dispatching the end of a wait erases the waiters of c and sends the confirmation. */
  lemma EndLinkPeerDispatch(cfg: Config, c: Name, j: ProcessId, pj: Proc, t: LamportTime, k: ProcessId, pk: Proc)
    requires Net2(cfg.n, j, pj, k, pk) && LocalEnabled(cfg, pk, Dispatch) && HasPending(pk, CondWaitEnd, c)
    requires WaitLink(c, j, pj, t, k, pk) && EndLink(c, j, pj, t, k, pk)
    requires WaitLink(c, j, pj, t, k, LocalNext(cfg, pk, Dispatch))
    ensures EndLink(c, j, pj, t, k, LocalNext(cfg, pk, Dispatch))
  {
    SendsAbout(cfg, c, pk, Dispatch);
    FlightAfter(cfg, pk, Dispatch, j, CondWaitEndConfirm, c);
    assert WaitersOf(LocalNext(cfg, pk, Dispatch), c) == map[];
  }

  lemma EndLinkPeerOther(cfg: Config, c: Name, j: ProcessId, pj: Proc, t: LamportTime, k: ProcessId, pk: Proc,
                         step: Step)
    requires Net2(cfg.n, j, pj, k, pk) && LocalEnabled(cfg, pk, step)
             && !(step.Dispatch? && HasPending(pk, CondWaitEnd, c))
    requires WaitLink(c, j, pj, t, k, pk) && EndLink(c, j, pj, t, k, pk)
    requires WaitLink(c, j, pj, t, k, LocalNext(cfg, pk, step))
    requires HasPending(pk, CondWait, c) && pk.pending.value.source != j ==> pk.pending.value.lamportTime != t
    ensures EndLink(c, j, pj, t, k, LocalNext(cfg, pk, step))
  {
    LocalCondFramed(cfg, c, pk, step);
    SendsAbout(cfg, c, pk, step);
    FlightAfter(cfg, pk, step, j, CondWaitEndConfirm, c);
    if step.Dispatch? && HasPending(pk, CondWait, c) {
      assert WaitersOf(LocalNext(cfg, pk, step), c) == InsertByTime(WaitersOf(pk, c), pk.pending.value);
    }
  }

  lemma EndLinkPeerStep(cfg: Config, c: Name, j: ProcessId, pj: Proc, t: LamportTime, k: ProcessId, pk: Proc,
                        step: Step)
    requires Net2(cfg.n, j, pj, k, pk) && LocalEnabled(cfg, pk, step)
    requires WaitLink(c, j, pj, t, k, pk) && EndLink(c, j, pj, t, k, pk)
    requires WaitLink(c, j, pj, t, k, LocalNext(cfg, pk, step))
    requires HasPending(pk, CondWait, c) && pk.pending.value.source != j ==> pk.pending.value.lamportTime != t
    ensures EndLink(c, j, pj, t, k, LocalNext(cfg, pk, step))
  {
    if step.Dispatch? && HasPending(pk, CondWaitEnd, c) {
      EndLinkPeerDispatch(cfg, c, j, pj, t, k, pk);
    } else {
      EndLinkPeerOther(cfg, c, j, pj, t, k, pk, step);
    }
  }

  /** When the end of a wait is at the head of the channel, its start is gone. */
  lemma EndComesLast(c: Name, pj: Proc, k: ProcessId)
    requires k < |pj.net.out| && pj.net.out[k] != [] && StartBeforeEnd(c, pj, k)
    ensures pj.net.out[k][0].Is(CondWaitEnd, c) ==> Flight(pj, k, CondWait, c) == 0
  {
    if Flight(pj, k, CondWait, c) >= 1 {
      var x := CountWitness(pj.net.out[k], CondWait, c);
    }
  }

  lemma EndLinkTakeByPeer(n: nat, c: Name, j: ProcessId, pj: Proc, t: LamportTime, k: ProcessId, pk: Proc)
    requires Net2(n, j, pj, k, pk) && CanTake(n, k, pk, j, pj)
    requires WaitLink(c, j, pj, t, k, pk) && EndLink(c, j, pj, t, k, pk)
    ensures EndLink(c, j, DropHead(pj, k), t, k, Take(pk, pj.net.out[k][0]))
  {
    var ch := pj.net.out[k];
    WaitLinkTake(n, c, j, pj, t, k, pk);
    DropHeadCount(ch, CondWait, c);
    DropHeadCount(ch, CondWaitEnd, c);
    var pj', pk' := DropHead(pj, k), Take(pk, ch[0]);
    assert pj'.net.out[k] == ch[1..];
    assert StartBeforeEnd(c, pj', k) by {
      forall x, y | 0 <= x < |ch[1..]| && 0 <= y < |ch[1..]| && ch[1..][x].Is(CondWait, c)
        && ch[1..][y].Is(CondWaitEnd, c)
        ensures x < y
      {
        assert ch[x + 1].Is(CondWait, c) && ch[y + 1].Is(CondWaitEnd, c);
      }
    }
    EndComesLast(c, pj, k);
    assert EndAsked(c, j, pj', k, pk') == EndAsked(c, j, pj, k, pk);
    assert EndConfirmed(c, j, pj', k, pk') == EndConfirmed(c, j, pj, k, pk);
  }

  lemma EndLinkTakeByWaiter(n: nat, c: Name, j: ProcessId, pj: Proc, t: LamportTime, k: ProcessId, pk: Proc)
    requires Net2(n, j, pj, k, pk) && CanTake(n, j, pj, k, pk)
    requires EndLink(c, j, pj, t, k, pk)
    ensures EndLink(c, j, Take(pj, pk.net.out[j][0]), t, k, DropHead(pk, j))
  {
    DropHeadCount(pk.net.out[j], CondWaitEndConfirm, c);
  }

  // ---- Notifications ---------------------------------------------------------------------

  /** A notification goes to a recorded waiter, which is waiting and outside the guard. */
  lemma NotifyTargets(cfg: Config, c: Name, k: ProcessId, pk: Proc, step: Step, j: ProcessId, pj: Proc, t: LamportTime)
    requires LocalEnabled(cfg, pk, step) && WaitLink(c, j, pj, t, k, pk)
    requires SentTo(SentBy(cfg, pk, step), j, CondNotify, c) == 1
    ensures Recorded(pk, c, j, t) && c in cfg.guard && Inside(pk, cfg.guard[c])
    ensures InWait(pj, c)
  {
    SendsAbout(cfg, c, pk, step);
    if step == NotifyOne(c) {
      var u := Earliest(WaitersOf(pk, c));
      assert WaitersOf(pk, c)[u].source == j;
    } else {
      var u :| u in WaitersOf(pk, c) && WaitersOf(pk, c)[u].source == j;
    }
  }

  lemma NotifyLinkNotifierStep(cfg: Config, c: Name, k: ProcessId, pk: Proc, step: Step, e: LamportTime,
                               j: ProcessId, pj: Proc, t: LamportTime)
    requires c in cfg.guard && Net2(cfg.n, j, pj, k, pk) && LocalEnabled(cfg, pk, step)
    requires WaitLink(c, j, pj, t, k, pk) && NotifyLink(c, cfg.guard[c], k, pk, e, j, pj)
    requires Inside(pk, cfg.guard[c]) ==> !Inside(pj, cfg.guard[c])
    requires Ends(pj, c) ==> Inside(pj, cfg.guard[c])
    requires Inside(pk, cfg.guard[c]) && !Inside(LocalNext(cfg, pk, step), cfg.guard[c]) ==>
               step == BeginRelease(cfg.guard[c])
    ensures NotifyLink(c, cfg.guard[c], k, LocalNext(cfg, pk, step), ExitAfter(cfg.guard[c], pk, step, e), j, pj)
  {
    FlightAfter(cfg, pk, step, j, CondNotify, c);
    ChannelAfter(cfg, pk, step, j);
    SentByIsSent(cfg, pk, step);
    if SentTo(SentBy(cfg, pk, step), j, CondNotify, c) == 1 {
      NotifyTargets(cfg, c, k, pk, step, j, pj, t);
    }
    SendsAbout(cfg, c, pk, step);
  }

  /** Nobody enters the guard with a notification still on its way. */
  lemma NotifyFlushed(c: Name, g: Name, k: ProcessId, pk: Proc, e: LamportTime, j: ProcessId, pj: Proc)
    requires NotifyTimes(c, g, k, pk, e, j, pj) && !Inside(pk, g) && Flushed(j, pj, k, pk, e)
    requires j < |pk.net.out|
    ensures Notified(c, k, pk, j, pj) == 0
  {
    if Flight(pk, j, CondNotify, c) >= 1 {
      var x := CountWitness(pk.net.out[j], CondNotify, c);
    }
  }

  lemma NotifyLinkWaiterStep(cfg: Config, c: Name, k: ProcessId, pk: Proc, e: LamportTime, j: ProcessId, pj: Proc,
                             step: Step)
    requires c in cfg.guard && Net2(cfg.n, j, pj, k, pk) && LocalEnabled(cfg, pj, step)
    requires NotifyLink(c, cfg.guard[c], k, pk, e, j, pj)
    requires Inside(LocalNext(cfg, pj, step), cfg.guard[c]) ==>
               Inside(pj, cfg.guard[c]) || (!Inside(pk, cfg.guard[c]) && Flushed(j, pj, k, pk, e))
    ensures NotifyLink(c, cfg.guard[c], k, pk, e, j, LocalNext(cfg, pj, step))
  {
    LocalCondFramed(cfg, c, pj, step);
    var pj' := LocalNext(cfg, pj, step);
    if Inside(pj', cfg.guard[c]) && !Inside(pj, cfg.guard[c]) {
      NotifyFlushed(c, cfg.guard[c], k, pk, e, j, pj);
    }
  }

  lemma NotifyLinkTake(c: Name, g: Name, k: ProcessId, pk: Proc, e: LamportTime, j: ProcessId, pj: Proc)
    requires j < |pk.net.out| && pk.net.out[j] != [] && pj.pending.None?
    requires pk.net.out[j][0].source == k && pk.net.out[j][0].lamportTime <= pk.net.clock
    requires NotifyLink(c, g, k, pk, e, j, pj)
    ensures NotifyLink(c, g, k, DropHead(pk, j), e, j, Take(pj, pk.net.out[j][0]))
  {
    var pk', pj' := DropHead(pk, j), Take(pj, pk.net.out[j][0]);
    DropHeadCount(pk.net.out[j], CondNotify, c);
    assert pk'.net.out[j] == pk.net.out[j][1..];
    assert Notified(c, k, pk', j, pj') == Notified(c, k, pk, j, pj);
  }

  // ---- Packets taken elsewhere ---------------------------------------------------------------

  /** Nothing the links between j and k read has changed. */
  ghost predicate Alike(i: ProcessId, p: Proc, p': Proc, other: ProcessId) {
    && p'.wait == p.wait && p'.waiters == p.waiters && p'.held == p.held && p'.main == p.main
    && |p'.net.out| == |p.net.out| && p.net.clock <= p'.net.clock
    && (other < |p.net.out| ==> p'.net.out[other] == p.net.out[other])
    && (p'.pending == p.pending || (p.pending.None? && p'.pending.Some? && p'.pending.value.source != other))
  }

  lemma AlikeCounts(i: ProcessId, p: Proc, p': Proc, other: ProcessId, t: MessageType, x: Bytes)
    requires Alike(i, p, p', other)
    ensures Flight(p', other, t, x) == Flight(p, other, t, x)
    ensures Pending(p', other, t, x) == Pending(p, other, t, x)
  {
  }

  lemma AlikeWaitLink(c: Name, j: ProcessId, pj: Proc, pj': Proc, t: LamportTime, k: ProcessId, pk: Proc, pk': Proc)
    requires Alike(j, pj, pj', k) && Alike(k, pk, pk', j) && WaitLink(c, j, pj, t, k, pk)
    ensures WaitLink(c, j, pj', t, k, pk') && Announced(c, j, pj', t, k, pk') == Announced(c, j, pj, t, k, pk)
  {
  }

  lemma AlikeEndLink(c: Name, j: ProcessId, pj: Proc, pj': Proc, t: LamportTime, k: ProcessId, pk: Proc, pk': Proc)
    requires Alike(j, pj, pj', k) && Alike(k, pk, pk', j) && EndLink(c, j, pj, t, k, pk)
    ensures EndLink(c, j, pj', t, k, pk')
  {
    AlikeCounts(j, pj, pj', k, CondWait, c);
    AlikeCounts(j, pj, pj', k, CondWaitEnd, c);
    AlikeCounts(j, pj, pj', k, CondWaitEndConfirm, c);
    AlikeCounts(k, pk, pk', j, CondWait, c);
    AlikeCounts(k, pk, pk', j, CondWaitEnd, c);
    AlikeCounts(k, pk, pk', j, CondWaitEndConfirm, c);
    assert StartBeforeEnd(c, pj', k);
  }

  lemma AlikeNotifyLink(c: Name, g: Name, j: ProcessId, pj: Proc, pj': Proc, k: ProcessId, pk: Proc, pk': Proc,
                        e: LamportTime)
    requires Alike(j, pj, pj', k) && Alike(k, pk, pk', j) && NotifyLink(c, g, k, pk, e, j, pj)
    ensures NotifyLink(c, g, k, pk', e, j, pj')
  {
    assert Notified(c, k, pk', j, pj') == Notified(c, k, pk, j, pj);
  }

  lemma ReceiveAlike(n: nat, s: State, a: ProcessId, b: ProcessId, j: ProcessId, k: ProcessId)
    requires CanReceive(s, a, b) && |s| == n && j < n && k < n && j != k && EndpointOk(n, b, s[b])
    requires EndpointOk(n, j, s[j]) && EndpointOk(n, k, s[k])
    requires !(a == j && b == k) && !(a == k && b == j)
    ensures Alike(j, s[j], ReceiveNext(s, a, b)[j], k)
  {
    assert s[b].net.out[a][0].source == b;
  }

  /** j takes a packet of k: what j announced to k is not touched. */
  lemma WaitLinkTakeByWaiter(n: nat, c: Name, j: ProcessId, pj: Proc, t: LamportTime, k: ProcessId, pk: Proc)
    requires Net2(n, j, pj, k, pk) && CanTake(n, j, pj, k, pk) && WaitLink(c, j, pj, t, k, pk)
    ensures WaitLink(c, j, Take(pj, pk.net.out[j][0]), t, k, DropHead(pk, j))
    ensures Announced(c, j, Take(pj, pk.net.out[j][0]), t, k, DropHead(pk, j)) == Announced(c, j, pj, t, k, pk)
  {
  }

  /** k takes a packet of j: its own notifications to j are not touched. */
  lemma NotifyLinkTakeByNotifier(n: nat, c: Name, g: Name, k: ProcessId, pk: Proc, e: LamportTime, j: ProcessId,
                                 pj: Proc)
    requires Net2(n, j, pj, k, pk) && CanTake(n, k, pk, j, pj) && NotifyLink(c, g, k, pk, e, j, pj)
    ensures NotifyLink(c, g, k, Take(pk, pj.net.out[k][0]), e, j, DropHead(pj, k))
  {
  }
}
