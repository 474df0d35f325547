/**
  The condition variable invariant holds over every run.
*/
module ConditionRuns {
  import opened Packets
  import opened Network
  import opened Protocol
  import opened MutexInvariant
  import opened MutexTheorems
  import opened MutexFairness
  import opened Flush
  import opened ConditionInvariant

  /** For each process the time of its last wait on c; zero before that. */
  ghost function WaitTimes(cfg: Config, c: Name, run: seq<Label>): (times: seq<LamportTime>)
    requires Exec(cfg, run).Some?
    ensures |times| == cfg.n
  {
    if run == [] then seq(cfg.n, _ => 0)
    else
      var last := |run| - 1;
      WaitTimesAfter(cfg, c, Exec(cfg, run[..last]).value, run[last], WaitTimes(cfg, c, run[..last]))
  }

  ghost function WaitTimesAfter(cfg: Config, c: Name, s: State, l: Label,
                                times: seq<LamportTime>): (times': seq<LamportTime>)
    requires |times| == |s| && l.proc < |s|
    ensures |times'| == |times|
  {
    times[l.proc := WaitTimeAfter(c, s[l.proc], l.step, times[l.proc])]
  }

  ghost predicate CondPair(cfg: Config, c: Name, j: ProcessId, pj: Proc, t: LamportTime, k: ProcessId, pk: Proc,
                           e: LamportTime)
    requires c in cfg.guard
  {
    WaitLink(c, j, pj, t, k, pk) && EndLink(c, j, pj, t, k, pk) && NotifyLink(c, cfg.guard[c], k, pk, e, j, pj)
  }

  ghost predicate Distinct(times: seq<LamportTime>) {
    forall j, k :: 0 <= j < |times| && 0 <= k < |times| && j != k && times[j] == times[k] ==> times[j] == 0
  }

  ghost predicate CondInv(cfg: Config, c: Name, s: State, times: seq<LamportTime>, exits: seq<LamportTime>)
    requires c in cfg.guard
  {
    && |s| == cfg.n == |times| == |exits|
    && (forall i :: 0 <= i < |s| ==> CondSolo(cfg, c, i, s[i], times[i], exits[i]))
    && (forall j, k :: 0 <= j < |s| && 0 <= k < |s| && j != k ==>
        CondPair(cfg, c, j, s[j], times[j], k, s[k], exits[k]))
    && Distinct(times)
  }

  /** What the mutual exclusion protocol gives for the guard. */
  ghost predicate Guarded(cfg: Config, g: Name, s: State, exits: seq<LamportTime>) {
    Inv(cfg, g, s) && FlushInv(cfg, g, s, exits)
  }

  // ---- One process ---------------------------------------------------------------------

  lemma CondSoloStep(cfg: Config, c: Name, i: ProcessId, p: Proc, step: Step, t: LamportTime, e: LamportTime)
    requires c in cfg.guard && LocalEnabled(cfg, p, step) && Solo(cfg.n, cfg.guard[c], i, p)
    requires CondSolo(cfg, c, i, p, t, e)
    ensures CondSolo(cfg, c, i, LocalNext(cfg, p, step), WaitTimeAfter(c, p, step, t),
                     ExitAfter(cfg.guard[c], p, step, e))
  {
    LocalFramed(cfg, cfg.guard[c], i, p, step);
    LocalCondFramed(cfg, c, p, step);
    CondSoloMain(cfg, p, step);
    CondSoloTable(cfg, c, i, p, step);
    CondSoloConfirmations(cfg, c, i, p, step);
  }

  lemma CondSoloMain(cfg: Config, p: Proc, step: Step)
    requires LocalEnabled(cfg, p, step)
    requires (p.main.Leaving? ==> p.wait.NoWait?) && (p.wait.Ending? ==> p.main.Free?)
    ensures var p' := LocalNext(cfg, p, step);
            (p'.main.Leaving? ==> p'.wait.NoWait?) && (p'.wait.Ending? ==> p'.main.Free?)
  {
  }

  lemma CondSoloTable(cfg: Config, c: Name, i: ProcessId, p: Proc, step: Step)
    requires LocalEnabled(cfg, p, step) && EndpointOk(cfg.n, i, p)
    requires forall u :: u in WaitersOf(p, c) ==>
                           WaitersOf(p, c)[u].messageType == CondWait && WaitersOf(p, c)[u].message == c
                           && WaitersOf(p, c)[u].source < cfg.n && WaitersOf(p, c)[u].source != i
    ensures var p' := LocalNext(cfg, p, step);
            forall u :: u in WaitersOf(p', c) ==>
                          WaitersOf(p', c)[u].messageType == CondWait && WaitersOf(p', c)[u].message == c
                          && WaitersOf(p', c)[u].source < cfg.n && WaitersOf(p', c)[u].source != i
  {
    LocalCondFramed(cfg, c, p, step);
    if step.Dispatch? && HasPending(p, CondWait, c) {
      assert WaitersOf(LocalNext(cfg, p, step), c) == InsertByTime(WaitersOf(p, c), p.pending.value);
    } else if step.Dispatch? && HasPending(p, CondWaitEnd, c) {
      assert WaitersOf(LocalNext(cfg, p, step), c) == map[];
    }
  }

  lemma CondSoloConfirmations(cfg: Config, c: Name, i: ProcessId, p: Proc, step: Step)
    requires LocalEnabled(cfg, p, step) && EndpointOk(cfg.n, i, p)
    requires Ends(p, c) ==> KeysOk(cfg.n, i, CondWaitEndConfirm, c, p.wait.confirmations)
    ensures var p' := LocalNext(cfg, p, step);
            Ends(p', c) ==> KeysOk(cfg.n, i, CondWaitEndConfirm, c, p'.wait.confirmations)
  {
    LocalCondFramed(cfg, c, p, step);
    if step.Dispatch? && HasPending(p, CondWaitEndConfirm, c) && Ends(p, c) {
      assert LocalNext(cfg, p, step).wait.confirmations == Insert(p.wait.confirmations, p.pending.value);
    }
  }

  // ---- Two processes --------------------------------------------------------------------

  /** A pending announcement of somebody else does not carry j's time. */
  lemma OtherTime(cfg: Config, c: Name, s: State, times: seq<LamportTime>, exits: seq<LamportTime>, j: ProcessId,
                  k: ProcessId)
    requires c in cfg.guard && CondInv(cfg, c, s, times, exits) && Inv(cfg, cfg.guard[c], s)
    requires j < cfg.n && k < cfg.n && j != k
    ensures HasPending(s[k], CondWait, c) && s[k].pending.value.source != j ==>
              s[k].pending.value.lamportTime != times[j]
  {
    assert Solo(cfg.n, cfg.guard[c], k, s[k]);
    if HasPending(s[k], CondWait, c) && s[k].pending.value.source != j {
      var o := s[k].pending.value.source;
      assert CondPair(cfg, c, o, s[o], times[o], k, s[k], exits[k]);
      assert Pending(s[k], o, CondWait, c) == 1;
      assert CondSolo(cfg, c, o, s[o], times[o], exits[o]);
    }
  }

  /** What the pair lemmas need of the rest of the state. */
  ghost predicate PairContext(cfg: Config, c: Name, s: State, times: seq<LamportTime>, exits: seq<LamportTime>,
                              j: ProcessId, k: ProcessId)
    requires c in cfg.guard
  {
    && |s| == cfg.n == |times| == |exits| && j < cfg.n && k < cfg.n && j != k
    && Pair(cfg.n, cfg.guard[c], j, s[j], k, s[k])
    && CondSolo(cfg, c, j, s[j], times[j], exits[j]) && CondSolo(cfg, c, k, s[k], times[k], exits[k])
    && CondPair(cfg, c, j, s[j], times[j], k, s[k], exits[k])
    && !(Inside(s[j], cfg.guard[c]) && Inside(s[k], cfg.guard[c]))
    && (HasPending(s[k], CondWait, c) && s[k].pending.value.source != j ==> s[k].pending.value.lamportTime != times[j])
  }

  lemma MakeContext(cfg: Config, c: Name, s: State, times: seq<LamportTime>, exits: seq<LamportTime>, j: ProcessId,
                    k: ProcessId)
    requires c in cfg.guard && CondInv(cfg, c, s, times, exits) && Inv(cfg, cfg.guard[c], s)
    requires j < cfg.n && k < cfg.n && j != k
    ensures PairContext(cfg, c, s, times, exits, j, k)
  {
    InvPair(cfg, cfg.guard[c], s, j, k);
    PairExclusion(cfg, cfg.guard[c], s, j, k);
    OtherTime(cfg, c, s, times, exits, j, k);
  }

  /** j takes a step of its own. */
  lemma CondWaiterStep(cfg: Config, c: Name, s: State, times: seq<LamportTime>, exits: seq<LamportTime>,
                       j: ProcessId, step: Step, k: ProcessId)
    requires c in cfg.guard && PairContext(cfg, c, s, times, exits, j, k) && LocalEnabled(cfg, s[j], step)
    requires var pj' := LocalNext(cfg, s[j], step);
             Inside(pj', cfg.guard[c]) && !Inside(s[j], cfg.guard[c]) ==>
               !Inside(s[k], cfg.guard[c]) && Flushed(j, s[j], k, s[k], exits[k])
    ensures CondPair(cfg, c, j, LocalNext(cfg, s[j], step), WaitTimeAfter(c, s[j], step, times[j]), k, s[k], exits[k])
  {
    if step == FinishWait(c) {
      EndLinkFinishWait(cfg, c, j, s[j], times[j], k, s[k]);
    }
    WaitLinkOwnStep(cfg, c, j, s[j], step, times[j], k, s[k]);
    EndLinkOwnStep(cfg, c, j, s[j], step, times[j], k, s[k]);
    NotifyLinkWaiterStep(cfg, c, k, s[k], exits[k], j, s[j], step);
  }

  /** k takes a step of its own. */
  lemma CondPeerStep(cfg: Config, c: Name, s: State, times: seq<LamportTime>, exits: seq<LamportTime>,
                     j: ProcessId, k: ProcessId, step: Step)
    requires c in cfg.guard && PairContext(cfg, c, s, times, exits, j, k) && LocalEnabled(cfg, s[k], step)
    ensures CondPair(cfg, c, j, s[j], times[j], k, LocalNext(cfg, s[k], step),
                     ExitAfter(cfg.guard[c], s[k], step, exits[k]))
  {
    LocalFramed(cfg, cfg.guard[c], k, s[k], step);
    WaitLinkPeerStep(cfg, c, j, s[j], times[j], k, s[k], step);
    EndLinkPeerStep(cfg, c, j, s[j], times[j], k, s[k], step);
    NotifyLinkNotifierStep(cfg, c, k, s[k], step, exits[k], j, s[j], times[j]);
  }

  lemma CondPairReceive(cfg: Config, c: Name, s: State, times: seq<LamportTime>, exits: seq<LamportTime>,
                        a: ProcessId, b: ProcessId, j: ProcessId, k: ProcessId)
    requires c in cfg.guard && PairContext(cfg, c, s, times, exits, j, k)
    requires CanReceive(s, a, b) && EndpointOk(cfg.n, a, s[a]) && EndpointOk(cfg.n, b, s[b])
    ensures var s' := ReceiveNext(s, a, b); CondPair(cfg, c, j, s'[j], times[j], k, s'[k], exits[k])
  {
    var s' := ReceiveNext(s, a, b);
    if a == j && b == k {
      WaitLinkTakeByWaiter(cfg.n, c, j, s[j], times[j], k, s[k]);
      EndLinkTakeByWaiter(cfg.n, c, j, s[j], times[j], k, s[k]);
      NotifyLinkTake(c, cfg.guard[c], k, s[k], exits[k], j, s[j]);
    } else if a == k && b == j {
      WaitLinkTake(cfg.n, c, j, s[j], times[j], k, s[k]);
      EndLinkTakeByPeer(cfg.n, c, j, s[j], times[j], k, s[k]);
      NotifyLinkTakeByNotifier(cfg.n, c, cfg.guard[c], k, s[k], exits[k], j, s[j]);
    } else {
      ReceiveAlike(cfg.n, s, a, b, j, k);
      ReceiveAlike(cfg.n, s, a, b, k, j);
      AlikeWaitLink(c, j, s[j], s'[j], times[j], k, s[k], s'[k]);
      AlikeEndLink(c, j, s[j], s'[j], times[j], k, s[k], s'[k]);
      AlikeNotifyLink(c, cfg.guard[c], j, s[j], s'[j], k, s[k], s'[k], exits[k]);
    }
  }

  // ---- The whole state --------------------------------------------------------------------

  /** Whoever enters the guard finds nobody inside and everything flushed. */
  lemma EnterGuard(cfg: Config, g: Name, s: State, exits: seq<LamportTime>, j: ProcessId, step: Step, k: ProcessId)
    requires Guarded(cfg, g, s, exits) && j < cfg.n && k < cfg.n && j != k && LocalEnabled(cfg, s[j], step)
    ensures Inside(LocalNext(cfg, s[j], step), g) && !Inside(s[j], g) ==>
              !Inside(s[k], g) && Flushed(j, s[j], k, s[k], exits[k])
  {
    InvPair(cfg, g, s, j, k);
    LocalFramed(cfg, g, j, s[j], step);
    if Inside(LocalNext(cfg, s[j], step), g) && !Inside(s[j], g) {
      AllReceived(cfg.n, g, j, s[j].main.agreements);
      assert k in Others(cfg.n, j);
      assert HasAgreement(s[j], k, g);
      assert FlushLink(g, j, s[j], k, s[k], exits[k]);
    }
  }

  /** A new wait is later than every wait before it. */
  lemma NewWaitIsLater(cfg: Config, c: Name, s: State, times: seq<LamportTime>, exits: seq<LamportTime>, j: ProcessId,
                       k: ProcessId)
    requires c in cfg.guard && CondInv(cfg, c, s, times, exits) && Guarded(cfg, cfg.guard[c], s, exits)
    requires j < cfg.n && k < cfg.n && Inside(s[j], cfg.guard[c])
    ensures times[k] <= s[j].net.clock
  {
    assert CondSolo(cfg, c, k, s[k], times[k], exits[k]);
    if j != k {
      PairExclusion(cfg, cfg.guard[c], s, j, k);
      assert FlushLink(cfg.guard[c], j, s[j], k, s[k], exits[k]);
    }
  }

  lemma DistinctStep(cfg: Config, c: Name, s: State, l: Label, times: seq<LamportTime>, exits: seq<LamportTime>)
    requires c in cfg.guard && CondInv(cfg, c, s, times, exits) && Guarded(cfg, cfg.guard[c], s, exits)
    requires Enabled(cfg, s, l)
    ensures Distinct(WaitTimesAfter(cfg, c, s, l, times))
  {
    if l.step == BeginWait(c) {
      assert LocalEnabled(cfg, s[l.proc], BeginWait(c));
      forall k | 0 <= k < |times| ensures times[k] <= s[l.proc].net.clock {
        NewWaitIsLater(cfg, c, s, times, exits, l.proc, k);
      }
    }
  }

  lemma CondSoloNext(cfg: Config, c: Name, s: State, l: Label, times: seq<LamportTime>, exits: seq<LamportTime>,
                     i: ProcessId)
    requires c in cfg.guard && CondInv(cfg, c, s, times, exits) && Inv(cfg, cfg.guard[c], s)
    requires Enabled(cfg, s, l) && i < cfg.n
    ensures CondSolo(cfg, c, i, Next(cfg, s, l)[i], WaitTimesAfter(cfg, c, s, l, times)[i],
                     ExitsAfter(cfg.guard[c], s, l, exits)[i])
  {
    assert Solo(cfg.n, cfg.guard[c], i, s[i]) && CondSolo(cfg, c, i, s[i], times[i], exits[i]);
    if !l.step.Receive? && l.proc == i {
      CondSoloStep(cfg, c, i, s[i], l.step, times[i], exits[i]);
    }
  }

  lemma CondPairLocal(cfg: Config, c: Name, s: State, l: Label, times: seq<LamportTime>, exits: seq<LamportTime>,
                      j: ProcessId, k: ProcessId)
    requires c in cfg.guard && PairContext(cfg, c, s, times, exits, j, k)
    requires Enabled(cfg, s, l) && !l.step.Receive?
    requires l.proc == j && Inside(LocalNext(cfg, s[j], l.step), cfg.guard[c]) && !Inside(s[j], cfg.guard[c]) ==>
               !Inside(s[k], cfg.guard[c]) && Flushed(j, s[j], k, s[k], exits[k])
    ensures CondPair(cfg, c, j, Next(cfg, s, l)[j], WaitTimesAfter(cfg, c, s, l, times)[j],
                     k, Next(cfg, s, l)[k], ExitsAfter(cfg.guard[c], s, l, exits)[k])
  {
    if l.proc == j {
      CondWaiterStep(cfg, c, s, times, exits, j, l.step, k);
    } else if l.proc == k {
      CondPeerStep(cfg, c, s, times, exits, j, k, l.step);
    }
  }

  lemma CondPairNext(cfg: Config, c: Name, s: State, l: Label, times: seq<LamportTime>, exits: seq<LamportTime>,
                     j: ProcessId, k: ProcessId)
    requires c in cfg.guard && PairContext(cfg, c, s, times, exits, j, k)
    requires Enabled(cfg, s, l)
    requires l.step.Receive? ==> EndpointOk(cfg.n, l.proc, s[l.proc]) && EndpointOk(cfg.n, l.step.from, s[l.step.from])
    requires !l.step.Receive? && l.proc == j
             && Inside(LocalNext(cfg, s[j], l.step), cfg.guard[c]) && !Inside(s[j], cfg.guard[c]) ==>
               !Inside(s[k], cfg.guard[c]) && Flushed(j, s[j], k, s[k], exits[k])
    ensures CondPair(cfg, c, j, Next(cfg, s, l)[j], WaitTimesAfter(cfg, c, s, l, times)[j],
                     k, Next(cfg, s, l)[k], ExitsAfter(cfg.guard[c], s, l, exits)[k])
  {
    if l.step.Receive? {
      CondPairReceive(cfg, c, s, times, exits, l.proc, l.step.from, j, k);
    } else {
      CondPairLocal(cfg, c, s, l, times, exits, j, k);
    }
  }

  lemma Endpoints(cfg: Config, m: Name, s: State)
    requires Inv(cfg, m, s)
    ensures forall i :: 0 <= i < |s| ==> EndpointOk(cfg.n, i, s[i])
  {
  }

  lemma CondNext(cfg: Config, c: Name, s: State, l: Label, times: seq<LamportTime>, exits: seq<LamportTime>)
    requires c in cfg.guard && CondInv(cfg, c, s, times, exits) && Guarded(cfg, cfg.guard[c], s, exits)
    requires Enabled(cfg, s, l)
    ensures CondInv(cfg, c, Next(cfg, s, l), WaitTimesAfter(cfg, c, s, l, times), ExitsAfter(cfg.guard[c], s, l, exits))
  {
    Endpoints(cfg, cfg.guard[c], s);
    var s', times', exits' := Next(cfg, s, l), WaitTimesAfter(cfg, c, s, l, times),
        ExitsAfter(cfg.guard[c], s, l, exits);
    forall i | 0 <= i < |s'| ensures CondSolo(cfg, c, i, s'[i], times'[i], exits'[i]) {
      CondSoloNext(cfg, c, s, l, times, exits, i);
    }
    forall j, k | 0 <= j < |s'| && 0 <= k < |s'| && j != k
      ensures CondPair(cfg, c, j, s'[j], times'[j], k, s'[k], exits'[k])
    {
      MakeContext(cfg, c, s, times, exits, j, k);
      if !l.step.Receive? && l.proc == j {
        EnterGuard(cfg, cfg.guard[c], s, exits, j, l.step, k);
      }
      CondPairNext(cfg, c, s, l, times, exits, j, k);
    }
    DistinctStep(cfg, c, s, l, times, exits);
  }

  lemma InitCond(cfg: Config, c: Name)
    requires c in cfg.guard
    ensures CondInv(cfg, c, Init(cfg), seq(cfg.n, _ => 0), seq(cfg.n, _ => 0))
  {
  }

  lemma {:induction false} RunCond(cfg: Config, c: Name, run: seq<Label>)
    requires Exec(cfg, run).Some? && c in cfg.guard
    ensures Guarded(cfg, cfg.guard[c], Exec(cfg, run).value, Exits(cfg, cfg.guard[c], run))
    ensures CondInv(cfg, c, Exec(cfg, run).value, WaitTimes(cfg, c, run), Exits(cfg, cfg.guard[c], run))
  {
    RunInv(cfg, cfg.guard[c], run);
    RunFlush(cfg, cfg.guard[c], run);
    if run == [] {
      InitCond(cfg, c);
    } else {
      var before, s, l := ExecLast(cfg, run);
      RunCond(cfg, c, before);
      CondNext(cfg, c, s, l, WaitTimes(cfg, c, before), Exits(cfg, cfg.guard[c], before));
      assert Exits(cfg, cfg.guard[c], run) == ExitsAfter(cfg.guard[c], s, l, Exits(cfg, cfg.guard[c], before));
    }
  }
}
