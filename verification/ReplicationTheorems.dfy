/**
  When replicas are fresh.

  A process enters a monitor with every earlier broadcast dispatched, but the
  replica holds the one dispatched last, which need not be the latest one.  So
  the replica is fresh exactly when broadcasts did not overtake each other on
  the way to this process; with two processes they cannot.
*/
module ReplicationTheorems {
  import opened Packets
  import opened Protocol
  import opened MutexInvariant
  import opened MutexTheorems
  import opened Flush
  import opened ConditionInvariant
  import opened Dispatchable
  import opened Replication

  /** No SYNC message of m is on its way to, or undispatched at, the process inside m. */
  lemma NoUpdateUnderHolder(cfg: Config, m: Name, run: seq<Label>, i: ProcessId)
    requires cfg.Valid() && m in cfg.monitors && Exec(cfg, run).Some? && i < cfg.n
    requires Inside(Exec(cfg, run).value[i], m)
    ensures var s := Exec(cfg, run).value;
            && (s[i].pending.Some? ==> !IsSync(s[i].pending.value, m))
            && (forall j: ProcessId, t :: j < cfg.n && j != i ==> !OnItsWay(m, i, s[i], j, s[j], t))
  {
    RunSync(cfg, m, run);
    var s, w, exits := Exec(cfg, run).value, Watched(cfg, m, run), Exits(cfg, m, run);
    assert Solo(cfg.n, m, i, s[i]);
    forall j: ProcessId, t | j < cfg.n && j != i ensures !OnItsWay(m, i, s[i], j, s[j], t) {
      HolderHasNoSync(cfg, m, s, w, exits, i, j);
    }
    if s[i].pending.Some? {
      HolderHasNoSync(cfg, m, s, w, exits, i, s[i].pending.value.source);
    }
  }

  /** The replica of i is the state that was broadcast last. */
  ghost predicate Fresh(cfg: Config, m: Name, run: seq<Label>, i: ProcessId)
    requires m in cfg.initial && Exec(cfg, run).Some? && i < cfg.n
  {
    var p, w := Exec(cfg, run).value[i], Watched(cfg, m, run);
    m in p.replica && w.last in w.saved && p.replica[m] == w.saved[w.last]
  }

  /** Of the broadcasts that have reached i, the one it restored or sent last holds the same state as
      the latest one. */
  ghost predicate UpToDate(w: Watch, i: ProcessId)
    requires i < |w.origin| == |w.seen|
  {
    w.origin[i] in w.saved && w.seen[i] in w.saved && w.saved[w.origin[i]] == w.saved[w.seen[i]]
  }

  /** For any number of processes: a process inside m with no change of its own to broadcast has the
      state that was broadcast last if and only if it is up to date with what has reached it. */
  lemma FreshExactly(cfg: Config, m: Name, run: seq<Label>, i: ProcessId)
    requires cfg.Valid() && m in cfg.monitors && Exec(cfg, run).Some? && i < cfg.n
    requires Inside(Exec(cfg, run).value[i], m) && !Unsaved(Exec(cfg, run).value[i], m)
    ensures Fresh(cfg, m, run, i) <==> UpToDate(Watched(cfg, m, run), i)
  {
    RunSync(cfg, m, run);
    var s, w, exits := Exec(cfg, run).value, Watched(cfg, m, run), Exits(cfg, m, run);
    HolderHasSeenLast(cfg, m, s, w, exits, i);
    assert SyncSolo(cfg, m, s[i], w.saved, w.last, w.sent[i], w.origin[i], w.seen[i], exits[i]);
  }

  // ---- Broadcasts dispatched in the order of critical sections ------------------------------

  /** Every SYNC message of m was dispatched after all earlier ones that reached the same process. */
  ghost predicate InOrder(cfg: Config, m: Name, run: seq<Label>)
    requires m in cfg.initial && Exec(cfg, run).Some?
  {
    if run == [] then true
    else
      var last := |run| - 1;
      var s, l := Exec(cfg, run[..last]).value, run[last];
      && InOrder(cfg, m, run[..last])
      && (DispatchesSync(s[l.proc], l.step, m) ==>
            s[l.proc].pending.value.lamportTime > Watched(cfg, m, run[..last]).seen[l.proc])
  }

  lemma InOrderArrives(cfg: Config, m: Name, run: seq<Label>, i: ProcessId)
    requires cfg.Valid() && m in cfg.monitors && Exec(cfg, run).Some? && i < cfg.n && InOrder(cfg, m, run)
    ensures UpToDate(Watched(cfg, m, run), i)
  {
    RunSync(cfg, m, run);
    var s, w, exits := Exec(cfg, run).value, Watched(cfg, m, run), Exits(cfg, m, run);
    assert SyncSolo(cfg, m, s[i], w.saved, w.last, w.sent[i], w.origin[i], w.seen[i], exits[i]);
    SameBroadcast(cfg, m, run, i);
  }

  lemma {:induction false} SameBroadcast(cfg: Config, m: Name, run: seq<Label>, i: ProcessId)
    requires cfg.Valid() && m in cfg.monitors && Exec(cfg, run).Some? && i < cfg.n && InOrder(cfg, m, run)
    ensures Watched(cfg, m, run).origin[i] == Watched(cfg, m, run).seen[i]
  {
    if run != [] {
      var before, s, l := ExecLast(cfg, run);
      SameBroadcast(cfg, m, before, i);
    }
  }

  /** For any number of processes: if SYNC messages reach every process in critical-section order,
      the replica is fresh at every entry, and until the first change. */
  lemma FreshInOrder(cfg: Config, m: Name, run: seq<Label>, i: ProcessId)
    requires cfg.Valid() && m in cfg.monitors && Exec(cfg, run).Some? && i < cfg.n && InOrder(cfg, m, run)
    requires Inside(Exec(cfg, run).value[i], m) && !Unsaved(Exec(cfg, run).value[i], m)
    ensures Fresh(cfg, m, run, i)
  {
    InOrderArrives(cfg, m, run, i);
    FreshExactly(cfg, m, run, i);
  }

  // ---- Two processes that enter -----------------------------------------------------------------

  /** Nobody but a and b enters m. */
  predicate OnlyEnteredBy(run: seq<Label>, m: Name, a: ProcessId, b: ProcessId) {
    forall x :: 0 <= x < |run| && run[x].step == Enter(m) ==> run[x].proc == a || run[x].proc == b
  }

  /** k is outside m and has sent i no SYNC message of it. */
  ghost predicate Silent(m: Name, i: ProcessId, pi: Proc, k: ProcessId, pk: Proc) {
    && !Inside(pk, m)
    && (i < |pk.net.out| ==> forall x :: 0 <= x < |pk.net.out[i]| ==> !IsSync(pk.net.out[i][x], m))
    && (pi.pending.Some? && pi.pending.value.source == k ==> !IsSync(pi.pending.value, m))
  }

  lemma SilentOwnStep(cfg: Config, m: Name, i: ProcessId, pi: Proc, k: ProcessId, pk: Proc, step: Step)
    requires cfg.Valid() && m in cfg.monitors && LocalEnabled(cfg, pk, step) && Tidy(cfg, pk)
    requires Solo(cfg.n, m, k, pk) && i < |pk.net.out| && step != Enter(m) && Silent(m, i, pi, k, pk)
    ensures Silent(m, i, pi, k, LocalNext(cfg, pk, step))
  {
    LocalFramed(cfg, m, k, pk, step);
    SyncIsOwn(cfg, m, pk, step);
    ChannelAfter(cfg, pk, step, i);
  }

  lemma SilentPeerStep(cfg: Config, m: Name, i: ProcessId, pi: Proc, step: Step, k: ProcessId, pk: Proc)
    requires LocalEnabled(cfg, pi, step) && Silent(m, i, pi, k, pk)
    ensures Silent(m, i, LocalNext(cfg, pi, step), k, pk)
  {
    SentByIsSent(cfg, pi, step);
  }

  lemma SilentReceive(n: nat, m: Name, s: State, a: ProcessId, b: ProcessId, i: ProcessId, k: ProcessId)
    requires CanReceive(s, a, b) && |s| == n && i < n && k < n && i != k
    requires EndpointOk(n, b, s[b]) && EndpointOk(n, k, s[k]) && Silent(m, i, s[i], k, s[k])
    ensures Silent(m, i, ReceiveNext(s, a, b)[i], k, ReceiveNext(s, a, b)[k])
  {
    if a == i && b == k {
      assert DropHead(s[k], i).net.out[i] == s[k].net.out[i][1..];
    } else {
      ReceiveElsewhere(n, s, a, b, i, k);
    }
  }

  lemma SilentNext(cfg: Config, m: Name, s: State, l: Label, i: ProcessId, k: ProcessId)
    requires cfg.Valid() && m in cfg.monitors && Inv(cfg, m, s) && Enabled(cfg, s, l) && l != Label(k, Enter(m))
    requires i < cfg.n && k < cfg.n && i != k && Tidy(cfg, s[k]) && Silent(m, i, s[i], k, s[k])
    ensures Silent(m, i, Next(cfg, s, l)[i], k, Next(cfg, s, l)[k])
  {
    assert Solo(cfg.n, m, k, s[k]);
    if l.step.Receive? {
      assert Solo(cfg.n, m, l.step.from, s[l.step.from]);
      SilentReceive(cfg.n, m, s, l.proc, l.step.from, i, k);
    } else if l.proc == k {
      SilentOwnStep(cfg, m, i, s[i], k, s[k], l.step);
    } else if l.proc == i {
      SilentPeerStep(cfg, m, i, s[i], l.step, k, s[k]);
    }
  }

  /** A process that never enters m is silent about it. */
  lemma {:induction false} RunSilent(cfg: Config, m: Name, run: seq<Label>, a: ProcessId, b: ProcessId, i: ProcessId,
                                     k: ProcessId)
    requires cfg.Valid() && m in cfg.monitors && Exec(cfg, run).Some? && OnlyEnteredBy(run, m, a, b)
    requires i < cfg.n && k < cfg.n && i != k && k != a && k != b
    ensures Silent(m, i, Exec(cfg, run).value[i], k, Exec(cfg, run).value[k])
  {
    if run != [] {
      var before, s, l := ExecLast(cfg, run);
      assert forall x :: 0 <= x < |before| ==> before[x] == run[x];
      RunSilent(cfg, m, before, a, b, i, k);
      RunInv(cfg, m, before);
      RunTidy(cfg, before);
      SilentNext(cfg, m, s, l, i, k);
    }
  }

  /** What i dispatches about m comes from j, the other process that enters. */
  lemma SyncFromOther(cfg: Config, m: Name, run: seq<Label>, i: ProcessId, j: ProcessId)
    requires cfg.Valid() && m in cfg.monitors && Exec(cfg, run).Some? && OnlyEnteredBy(run, m, i, j)
    requires i < cfg.n && j < cfg.n && i != j
    ensures var p := Exec(cfg, run).value[i];
            p.pending.Some? && IsSync(p.pending.value, m) ==> p.pending.value.source == j
  {
    RunInv(cfg, m, run);
    var p := Exec(cfg, run).value[i];
    assert Solo(cfg.n, m, i, p);
    if p.pending.Some? && p.pending.value.source != j {
      RunSilent(cfg, m, run, i, j, i, p.pending.value.source);
    }
  }

  /** j's broadcasts on their way to i are later than all that i has seen. */
  ghost predicate OrderLink(m: Name, i: ProcessId, pi: Proc, seen: LamportTime, j: ProcessId, pj: Proc) {
    && (i < |pj.net.out| ==>
          forall x :: 0 <= x < |pj.net.out[i]| && IsSync(pj.net.out[i][x], m) ==> pj.net.out[i][x].lamportTime > seen)
    && (pi.pending.Some? && pi.pending.value.source == j ==>
          && (IsSync(pi.pending.value, m) ==> pi.pending.value.lamportTime > seen)
          && pi.pending.value.lamportTime <= pj.net.clock
          && (i < |pj.net.out| ==>
                forall x :: 0 <= x < |pj.net.out[i]| ==> pj.net.out[i][x].lamportTime > pi.pending.value.lamportTime))
  }

  lemma OrderLinkReceiverStep(cfg: Config, m: Name, i: ProcessId, pi: Proc, step: Step, seen: LamportTime,
                              seen': LamportTime,
                              j: ProcessId, pj: Proc)
    requires LocalEnabled(cfg, pi, step) && i < |pj.net.out| && OrderLink(m, i, pi, seen, j, pj)
    requires DispatchesSync(pi, step, m) ==> pi.pending.value.source == j && seen' == pi.pending.value.lamportTime
    requires step == SyncOut(m) ==>
               && (forall x :: 0 <= x < |pj.net.out[i]| ==> !IsSync(pj.net.out[i][x], m))
               && (pi.pending.Some? && pi.pending.value.source == j ==> !IsSync(pi.pending.value, m))
    requires step != SyncOut(m) && !DispatchesSync(pi, step, m) ==> seen' == seen
    ensures OrderLink(m, i, LocalNext(cfg, pi, step), seen', j, pj)
  {
    SentByIsSent(cfg, pi, step);
  }

  lemma OrderLinkSenderStep(cfg: Config, m: Name, i: ProcessId, pi: Proc, seen: LamportTime, j: ProcessId, pj: Proc,
                            step: Step)
    requires cfg.Valid() && m in cfg.monitors && LocalEnabled(cfg, pj, step) && Tidy(cfg, pj)
    requires i < |pj.net.out| && OrderLink(m, i, pi, seen, j, pj)
    requires step == SyncOut(m) ==> seen <= pj.net.clock
    ensures OrderLink(m, i, pi, seen, j, LocalNext(cfg, pj, step))
  {
    SyncIsOwn(cfg, m, pj, step);
    ChannelAfter(cfg, pj, step, i);
    SentByIsSent(cfg, pj, step);
  }

  lemma OrderLinkTake(m: Name, i: ProcessId, pi: Proc, seen: LamportTime, j: ProcessId, pj: Proc)
    requires i < |pj.net.out| && pj.net.out[i] != [] && pi.pending.None? && ChannelOk(pj.net, pj.net.out[i])
    requires OrderLink(m, i, pi, seen, j, pj)
    ensures OrderLink(m, i, Take(pi, pj.net.out[i][0]), seen, j, DropHead(pj, i))
  {
    assert DropHead(pj, i).net.out[i] == pj.net.out[i][1..];
  }

  lemma OrderLinkReceive(n: nat, m: Name, s: State, a: ProcessId, b: ProcessId, seen: LamportTime, i: ProcessId,
                         j: ProcessId)
    requires CanReceive(s, a, b) && |s| == n && i < n && j < n && i != j
    requires EndpointOk(n, b, s[b]) && EndpointOk(n, j, s[j])
    requires OrderLink(m, i, s[i], seen, j, s[j])
    ensures OrderLink(m, i, ReceiveNext(s, a, b)[i], seen, j, ReceiveNext(s, a, b)[j])
  {
    if a == i && b == j {
      OrderLinkTake(m, i, s[i], seen, j, s[j]);
    } else {
      ReceiveElsewhere(n, s, a, b, i, j);
    }
  }

  /** Whoever broadcasts is inside m: nothing is on its way to it, and its clock is past everything seen. */
  lemma BroadcastPremises(cfg: Config, m: Name, s: State, w: Watch, exits: seq<LamportTime>, a: ProcessId, b: ProcessId)
    requires Sound(cfg, m, s, exits) && SyncInv(cfg, m, s, w, exits) && a < cfg.n && b < cfg.n && a != b
    requires Inside(s[a], m)
    ensures |s[b].net.out| == cfg.n && forall x :: 0 <= x < |s[b].net.out[a]| ==> !IsSync(s[b].net.out[a][x], m)
    ensures s[a].pending.Some? && s[a].pending.value.source == b ==> !IsSync(s[a].pending.value, m)
    ensures w.seen[b] <= s[a].net.clock
  {
    HolderHasSeenLast(cfg, m, s, w, exits, a);
    HolderHasNoSync(cfg, m, s, w, exits, a, b);
    assert SyncSolo(cfg, m, s[b], w.saved, w.last, w.sent[b], w.origin[b], w.seen[b], exits[b]);
  }

  /** A broadcast of either finds nothing of the other's under way, and a clock past what the other has seen. */
  ghost predicate BroadcastsAlone(m: Name, s: State, l: Label, w: Watch, i: ProcessId, j: ProcessId)
    requires i < |s| == |w.seen| && j < |s| && i < |s[j].net.out|
  {
    && (l == Label(i, SyncOut(m)) ==>
          && (forall x :: 0 <= x < |s[j].net.out[i]| ==> !IsSync(s[j].net.out[i][x], m))
          && (s[i].pending.Some? && s[i].pending.value.source == j ==> !IsSync(s[i].pending.value, m)))
    && (l == Label(j, SyncOut(m)) ==> w.seen[i] <= s[j].net.clock)
  }

  lemma OrderLinkOwn(cfg: Config, m: Name, s: State, i: ProcessId, step: Step, w: Watch, j: ProcessId)
    requires |s| == |w.sent| == |w.origin| == |w.seen| && i < |s| && j < |s| && i != j
    requires OrderLink(m, i, s[i], w.seen[i], j, s[j]) && LocalEnabled(cfg, s[i], step)
    requires i < |s[j].net.out| && BroadcastsAlone(m, s, Label(i, step), w, i, j)
    requires DispatchesSync(s[i], step, m) ==> s[i].pending.value.source == j
    ensures OrderLink(m, i, LocalNext(cfg, s[i], step), WatchAfter(m, s, Label(i, step), w).seen[i], j, s[j])
  {
    OrderLinkReceiverStep(cfg, m, i, s[i], step, w.seen[i], WatchAfter(m, s, Label(i, step), w).seen[i], j, s[j]);
  }

  lemma OrderLinkOthers(cfg: Config, m: Name, s: State, l: Label, w: Watch, i: ProcessId, j: ProcessId)
    requires |s| == |w.sent| == |w.origin| == |w.seen| && i < |s| && j < |s| && i != j && Enabled(cfg, s, l)
    requires OrderLink(m, i, s[i], w.seen[i], j, s[j]) && !l.step.Receive? && l.proc != i && l.proc != j
    ensures OrderLink(m, i, Next(cfg, s, l)[i], WatchAfter(m, s, l, w).seen[i], j, Next(cfg, s, l)[j])
  {
  }

  lemma OrderLinkNext(cfg: Config, m: Name, s: State, l: Label, w: Watch, i: ProcessId, j: ProcessId)
    requires cfg.n == |s| == |w.sent| == |w.origin| == |w.seen| && cfg.Valid() && m in cfg.monitors
    requires i < cfg.n && j < cfg.n && i != j && OrderLink(m, i, s[i], w.seen[i], j, s[j]) && Enabled(cfg, s, l)
    requires (forall k :: 0 <= k < |s| ==> EndpointOk(cfg.n, k, s[k])) && Tidy(cfg, s[j])
    requires i < |s[j].net.out| && BroadcastsAlone(m, s, l, w, i, j)
    requires DispatchesSync(s[i], l.step, m) && l.proc == i ==> s[i].pending.value.source == j
    ensures OrderLink(m, i, Next(cfg, s, l)[i], WatchAfter(m, s, l, w).seen[i], j, Next(cfg, s, l)[j])
  {
    if l.step.Receive? {
      OrderLinkReceive(cfg.n, m, s, l.proc, l.step.from, w.seen[i], i, j);
    } else if l.proc == i {
      assert l == Label(i, l.step);
      OrderLinkOwn(cfg, m, s, i, l.step, w, j);
    } else if l.proc == j {
      assert l == Label(j, l.step);
      OrderLinkSenderStep(cfg, m, i, s[i], w.seen[i], j, s[j], l.step);
    } else {
      OrderLinkOthers(cfg, m, s, l, w, i, j);
    }
  }

  lemma BroadcasterIsInside(cfg: Config, m: Name, s: State, l: Label)
    requires Enabled(cfg, s, l)
    ensures l.step == SyncOut(m) ==> Inside(s[l.proc], m)
  {
  }

  lemma AlonePremises(cfg: Config, m: Name, s: State, l: Label, w: Watch, exits: seq<LamportTime>, i: ProcessId,
                      j: ProcessId)
    requires Sound(cfg, m, s, exits) && SyncInv(cfg, m, s, w, exits) && i < cfg.n && j < cfg.n && i != j
    requires l.step == SyncOut(m) ==> l.proc < |s| && Inside(s[l.proc], m)
    ensures |s[j].net.out| == cfg.n && BroadcastsAlone(m, s, l, w, i, j)
  {
    assert Solo(cfg.n, m, j, s[j]);
    if l == Label(i, SyncOut(m)) {
      BroadcastPremises(cfg, m, s, w, exits, i, j);
    } else if l == Label(j, SyncOut(m)) {
      BroadcastPremises(cfg, m, s, w, exits, j, i);
    }
  }

  lemma {:induction false} RunOrdered(cfg: Config, m: Name, run: seq<Label>, i: ProcessId, j: ProcessId)
    requires cfg.Valid() && m in cfg.monitors && Exec(cfg, run).Some? && OnlyEnteredBy(run, m, i, j)
    requires i < cfg.n && j < cfg.n && i != j
    ensures OrderLink(m, i, Exec(cfg, run).value[i], Watched(cfg, m, run).seen[i], j, Exec(cfg, run).value[j])
  {
    if run != [] {
      var before, s, l := ExecLast(cfg, run);
      assert forall x :: 0 <= x < |before| ==> before[x] == run[x];
      RunOrdered(cfg, m, before, i, j);
      RunSync(cfg, m, before);
      var w, exits := Watched(cfg, m, before), Exits(cfg, m, before);
      SyncPremises(cfg, m, s, w, exits);
      BroadcasterIsInside(cfg, m, s, l);
      AlonePremises(cfg, m, s, l, w, exits, i, j);
      SyncFromOther(cfg, m, before, i, j);
      OrderLinkNext(cfg, m, s, l, w, i, j);
    }
  }

  /** The next SYNC message that i dispatches is later than all before it. */
  lemma NextIsLater(cfg: Config, m: Name, run: seq<Label>, s: State, w: Watch, i: ProcessId, j: ProcessId)
    requires cfg.Valid() && m in cfg.monitors && Exec(cfg, run) == Some(s) && Watched(cfg, m, run) == w
    requires i < cfg.n && j < cfg.n && i != j && OnlyEnteredBy(run, m, i, j)
    ensures s[i].pending.Some? && IsSync(s[i].pending.value, m) ==> s[i].pending.value.lamportTime > w.seen[i]
  {
    SyncFromOther(cfg, m, run, i, j);
    RunOrdered(cfg, m, run, i, j);
  }

  /** So the broadcast i restored or sent last is the latest that has reached it. */
  lemma {:induction false} LatestAmongTwo(cfg: Config, m: Name, run: seq<Label>, i: ProcessId, j: ProcessId)
    requires cfg.Valid() && m in cfg.monitors && Exec(cfg, run).Some? && OnlyEnteredBy(run, m, i, j)
    requires i < cfg.n && j < cfg.n && i != j
    ensures Watched(cfg, m, run).origin[i] == Watched(cfg, m, run).seen[i]
  {
    if run != [] {
      var before, s, l := ExecLast(cfg, run);
      assert forall x :: 0 <= x < |before| ==> before[x] == run[x];
      LatestAmongTwo(cfg, m, before, i, j);
      NextIsLater(cfg, m, before, s, Watched(cfg, m, before), i, j);
    }
  }

  // ---- Two processes ----------------------------------------------------------------------------

  lemma {:induction false} ProcsBounded(cfg: Config, run: seq<Label>)
    requires Exec(cfg, run).Some?
    ensures forall x :: 0 <= x < |run| ==> run[x].proc < cfg.n
  {
    if run != [] {
      var before, s, l := ExecLast(cfg, run);
      ProcsBounded(cfg, before);
      assert forall x :: 0 <= x < |before| ==> before[x] == run[x];
    }
  }

  lemma EnteredByTwo(cfg: Config, m: Name, run: seq<Label>, i: ProcessId, j: ProcessId)
    requires cfg.n == 2 && Exec(cfg, run).Some? && i < 2 && j < 2 && i != j
    ensures OnlyEnteredBy(run, m, i, j)
  {
    ProcsBounded(cfg, run);
  }

  /** Between two processes SYNC messages always arrive in critical-section order. */
  lemma {:induction false} TwoInOrder(cfg: Config, m: Name, run: seq<Label>)
    requires cfg.n == 2 && cfg.Valid() && m in cfg.monitors && Exec(cfg, run).Some?
    ensures InOrder(cfg, m, run)
  {
    if run != [] {
      var before, s, l := ExecLast(cfg, run);
      TwoInOrder(cfg, m, before);
      var j: ProcessId := if l.proc == 0 then 1 else 0;
      EnteredByTwo(cfg, m, before, l.proc, j);
      NextIsLater(cfg, m, before, s, Watched(cfg, m, before), l.proc, j);
      assert before == run[..|run| - 1] && l == run[|run| - 1];
    }
  }

  /** With two processes the replica is fresh at every entry, and until the first change. */
  lemma FreshForTwo(cfg: Config, m: Name, run: seq<Label>, i: ProcessId)
    requires cfg.n == 2 && cfg.Valid() && m in cfg.monitors && Exec(cfg, run).Some? && i < 2
    requires Inside(Exec(cfg, run).value[i], m) && !Unsaved(Exec(cfg, run).value[i], m)
    ensures Fresh(cfg, m, run, i)
  {
    TwoInOrder(cfg, m, run);
    FreshInOrder(cfg, m, run, i);
  }
}
