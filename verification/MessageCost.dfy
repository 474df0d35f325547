/**
  The cost of an entry: exactly one request to, and one agreement from, each of
  the other processes.
*/
module MessageCost {
  import opened Packets
  import opened Network
  import opened Protocol
  import opened MutexInvariant
  import opened MutexTheorems
  import opened MutexFairness
  import opened ConditionInvariant

  /** How many packets of one kind, about m, process a has sent to process b over a run. */
  ghost function Sent(cfg: Config, run: seq<Label>, a: ProcessId, b: ProcessId, t: MessageType, m: Name): nat
    requires Exec(cfg, run).Some?
  {
    if run == [] then 0
    else
      var last := |run| - 1;
      var s, l := Exec(cfg, run[..last]).value, run[last];
      Sent(cfg, run[..last], a, b, t, m)
      + if l.proc == a && !l.step.Receive? then SentTo(SentBy(cfg, s[a], l.step), b, t, m) else 0
  }

  /** How often a process has taken one step over a run. */
  function Times(run: seq<Label>, l: Label): nat {
    if run == [] then 0 else Times(run[..|run| - 1], l) + if run[|run| - 1] == l then 1 else 0
  }

  /** Which steps send packets of the mutex protocol. */
  lemma SendsMutex(cfg: Config, m: Name, i: ProcessId, p: Proc, step: Step, j: ProcessId)
    requires LocalEnabled(cfg, p, step) && EndpointOk(cfg.n, i, p) && j < cfg.n && j != i
    ensures SentTo(SentBy(cfg, p, step), j, MutexRequest, m) == if step == Queue(m) then 1 else 0
  {
    assert j in Others(cfg.n, i);
  }

  lemma AskedRequesterStep(cfg: Config, m: Name, i: ProcessId, pi: Proc, step: Step, j: ProcessId, pj: Proc)
    requires Pair(cfg.n, m, i, pi, j, pj) && LocalEnabled(cfg, pi, step)
    ensures Asked(m, i, LocalNext(cfg, pi, step), j, pj) == Asked(m, i, pi, j, pj) + if step == Queue(m) then 1 else 0
  {
    SendsMutex(cfg, m, i, pi, step, j);
    FlightAfter(cfg, pi, step, j, MutexRequest, m);
  }

  lemma AskedGranterStep(cfg: Config, m: Name, i: ProcessId, pi: Proc, j: ProcessId, pj: Proc, step: Step)
    requires Pair(cfg.n, m, i, pi, j, pj) && LocalEnabled(cfg, pj, step)
    requires Link(m, i, pi, j, LocalNext(cfg, pj, step))
    ensures Asked(m, i, pi, j, LocalNext(cfg, pj, step)) + SentTo(SentBy(cfg, pj, step), i, MutexAgreement, m)
            == Asked(m, i, pi, j, pj)
  {
    FlightAfter(cfg, pj, step, i, MutexAgreement, m);
  }

  lemma AskedReceive(n: nat, m: Name, s: State, a: ProcessId, b: ProcessId, i: ProcessId, j: ProcessId)
    requires CanReceive(s, a, b) && |s| == n && i < n && j < n && i != j
    requires EndpointOk(n, b, s[b]) && EndpointOk(n, i, s[i]) && EndpointOk(n, j, s[j])
    ensures var s' := ReceiveNext(s, a, b); Asked(m, i, s'[i], j, s'[j]) == Asked(m, i, s[i], j, s[j])
  {
    if a == j && b == i {
      DropHeadCount(s[i].net.out[j], MutexRequest, m);
    } else {
      ReceiveElsewhere(n, s, a, b, j, i);
      assert s[b].net.out[a][0].source == b;
      assert ReceiveNext(s, a, b)[j].deferred == s[j].deferred;
    }
  }

  lemma AskedNext(cfg: Config, m: Name, s: State, l: Label, i: ProcessId, j: ProcessId)
    requires Inv(cfg, m, s) && Enabled(cfg, s, l) && i < cfg.n && j < cfg.n && i != j
    ensures var s' := Next(cfg, s, l);
            Asked(m, i, s'[i], j, s'[j])
            + (if l.proc == j && !l.step.Receive? then SentTo(SentBy(cfg, s[j], l.step), i, MutexAgreement, m) else 0)
            == Asked(m, i, s[i], j, s[j]) + if l == Label(i, Queue(m)) then 1 else 0
  {
    InvPair(cfg, m, s, i, j);
    if l.step.Receive? {
      assert Solo(cfg.n, m, l.step.from, s[l.step.from]);
      AskedReceive(cfg.n, m, s, l.proc, l.step.from, i, j);
    } else if l.proc == i {
      AskedRequesterStep(cfg, m, i, s[i], l.step, j, s[j]);
    } else if l.proc == j {
      StepPair(cfg, m, j, s[j], l.step, i, s[i]);
      AskedGranterStep(cfg, m, i, s[i], j, s[j], l.step);
    }
  }

  /** At any moment, j has answered all of i's requests except the one it still has, if any. */
  lemma {:induction false} AnsweredRequests(cfg: Config, m: Name, run: seq<Label>, i: ProcessId, j: ProcessId)
    requires Exec(cfg, run).Some? && i < cfg.n && j < cfg.n && i != j
    ensures Sent(cfg, run, j, i, MutexAgreement, m) + Asked(m, i, Exec(cfg, run).value[i], j, Exec(cfg, run).value[j])
            == Times(run, Label(i, Queue(m)))
  {
    if run != [] {
      var before, s, l := ExecLast(cfg, run);
      AnsweredRequests(cfg, m, before, i, j);
      RunInv(cfg, m, before);
      AskedNext(cfg, m, s, l, i, j);
    }
  }

  lemma {:induction false} SentRequests(cfg: Config, m: Name, run: seq<Label>, i: ProcessId, j: ProcessId)
    requires Exec(cfg, run).Some? && i < cfg.n && j < cfg.n && i != j
    ensures Sent(cfg, run, i, j, MutexRequest, m) == Times(run, Label(i, Queue(m)))
    ensures Times(run, Label(i, Enter(m))) + (if Waiting(Exec(cfg, run).value[i], m) then 1 else 0)
            == Times(run, Label(i, Queue(m)))
  {
    if run != [] {
      var before, s, l := ExecLast(cfg, run);
      SentRequests(cfg, m, before, i, j);
      RunInv(cfg, m, before);
      assert Solo(cfg.n, m, i, s[i]);
      NextFramed(cfg, m, s, l);
      if l.proc == i && !l.step.Receive? {
        SendsMutex(cfg, m, i, s[i], l.step, j);
      }
    }
  }

  /** Whenever i is not queued, it has exchanged exactly one request and one agreement with each other
      process for every entry: 2(N - 1) messages an entry. */
  lemma TwoMessagesPerPeer(cfg: Config, m: Name, run: seq<Label>, i: ProcessId, j: ProcessId)
    requires Exec(cfg, run).Some? && i < cfg.n && j < cfg.n && i != j
    requires m !in Exec(cfg, run).value[i].queued
    ensures Sent(cfg, run, i, j, MutexRequest, m) == Times(run, Label(i, Enter(m)))
    ensures Sent(cfg, run, j, i, MutexAgreement, m) == Times(run, Label(i, Enter(m)))
  {
    AnsweredRequests(cfg, m, run, i, j);
    SentRequests(cfg, m, run, i, j);
    RunInv(cfg, m, run);
    InvPair(cfg, m, Exec(cfg, run).value, i, j);
  }
}
