/**
  What the mutual exclusion protocol promises, over every run of the whole
  system, for any number of processes and any mutex.
*/
module MutexTheorems {
  import opened Packets
  import opened Network
  import opened Protocol
  import opened MutexInvariant

  // ---- Mutual exclusion --------------------------------------------------------

  lemma PairExclusion(cfg: Config, m: Name, s: State, i: ProcessId, j: ProcessId)
    requires Inv(cfg, m, s) && i < |s| && j < |s| && i != j
    ensures !(Inside(s[i], m) && Inside(s[j], m))
  {
    assert Link(m, i, s[i], j, s[j]) && Link(m, j, s[j], i, s[i]);
    assert Solo(cfg.n, m, i, s[i]) && Solo(cfg.n, m, j, s[j]);
  }

  /** At most one process is between the end of acquireMutex and the start of releaseMutex. */
  lemma MutualExclusion(cfg: Config, m: Name, run: seq<Label>, i: ProcessId, j: ProcessId)
    requires Exec(cfg, run).Some? && i < cfg.n && j < cfg.n
    ensures var s := Exec(cfg, run).value;
            Inside(s[i], m) && Inside(s[j], m) ==> i == j
  {
    RunInv(cfg, m, run);
    if i != j {
      PairExclusion(cfg, m, Exec(cfg, run).value, i, j);
    }
  }

  /** While a process holds the mutex, no step of it sends an agreement on it. */
  lemma HolderNeverGrants(cfg: Config, m: Name, run: seq<Label>, i: ProcessId, step: Step)
    requires Exec(cfg, run).Some? && i < cfg.n
    requires !step.Receive? && Enabled(cfg, Exec(cfg, run).value, Label(i, step))
    ensures var s := Exec(cfg, run).value;
            (Inside(s[i], m) ==>
               SentBy(cfg, s[i], step).Silent? || !SentBy(cfg, s[i], step).t.MutexAgreement?
               || SentBy(cfg, s[i], step).x != m)
  {
    RunInv(cfg, m, run);
    var s := Exec(cfg, run).value;
    assert Solo(cfg.n, m, i, s[i]);
    if Inside(s[i], m) && step.Dispatch? && s[i].pending.value.Is(MutexRequest, m) {
      var j := s[i].pending.value.source;
      assert Link(m, i, s[i], j, s[j]) && Link(m, j, s[j], i, s[i]);
    }
  }

  // ---- Conservation --------------------------------------------------------------

  /** A request is a token: while i is queued, its request to j is in exactly one of six places;
      while i is not queued, it is in none. */
  lemma RequestConservation(cfg: Config, m: Name, run: seq<Label>, i: ProcessId, j: ProcessId)
    requires Exec(cfg, run).Some? && i < cfg.n && j < cfg.n && i != j
    ensures var s := Exec(cfg, run).value;
            Flight(s[i], j, MutexRequest, m) + Pending(s[j], i, MutexRequest, m) + DeferredBit(s[j], m, i)
            + Flight(s[j], i, MutexAgreement, m) + Pending(s[i], j, MutexAgreement, m) + ReceivedBit(s[i], m, j)
            == if m in s[i].queued then 1 else 0
  {
    RunInv(cfg, m, run);
    var s := Exec(cfg, run).value;
    assert Link(m, i, s[i], j, s[j]);
  }

  /** A deferred request is never dropped as a duplicate of one that is kept already,
      and a received agreement never is either. */
  lemma NothingDropped(cfg: Config, m: Name, run: seq<Label>, i: ProcessId)
    requires Exec(cfg, run).Some? && i < cfg.n
    ensures var s := Exec(cfg, run).value;
            (s[i].pending.Some? ==>
               var k := s[i].pending.value;
               && (k.Is(MutexRequest, m) ==> k.Key() !in DeferredOf(s[i], m))
               && (k.Is(MutexAgreement, m) ==> Waiting(s[i], m) && k.Key() !in s[i].main.agreements))
  {
    RunInv(cfg, m, run);
    var s := Exec(cfg, run).value;
    assert Solo(cfg.n, m, i, s[i]);
    if s[i].pending.Some? {
      var j := s[i].pending.value.source;
      assert Solo(cfg.n, m, j, s[j]);
      assert Link(m, j, s[j], i, s[i]) && Link(m, i, s[i], j, s[j]);
    }
  }

  // ---- What one step can change ----------------------------------------------------

  /** The part of a process the theorems below look at, and which steps change it. */
  ghost predicate Framed(m: Name, p: Proc, p': Proc, step: Step) {
    && p.net.clock <= p'.net.clock
    && (step != Queue(m) && step != EndRelease(m) ==>
          (m in p.queued <==> m in p'.queued) && (m in p.queued ==> p.queued[m] == p'.queued[m]))
    && (step != Queue(m) && step != Enter(m) ==> (Waiting(p, m) <==> Waiting(p', m)))
    && (step != Enter(m) && step != BeginRelease(m) ==> (Inside(p, m) <==> Inside(p', m)))
    && (step != BeginRelease(m) && step != EndRelease(m) ==> (Unlocking(p, m) <==> Unlocking(p', m)))
    && (step == Queue(m) ==> m in p'.queued && p'.queued[m] == p.net.clock + 1 && p'.net.clock == p.net.clock + 1
                             && Waiting(p', m) && !Waiting(p, m))
    && (step == Enter(m) ==> Waiting(p, m) && !Waiting(p', m) && Inside(p', m) && p'.queued == p.queued)
    && (step == BeginRelease(m) ==> Inside(p, m) && !Inside(p', m) && Unlocking(p', m))
    && (step == EndRelease(m) ==> !Waiting(p', m) && !Unlocking(p', m) && p'.queued == p.queued - {m})
  }

  lemma DispatchFramed(cfg: Config, m: Name, p: Proc)
    requires LocalEnabled(cfg, p, Dispatch)
    ensures Framed(m, p, LocalNext(cfg, p, Dispatch), Dispatch)
  {
  }

  lemma LocalFramed(cfg: Config, m: Name, i: ProcessId, p: Proc, step: Step)
    requires LocalEnabled(cfg, p, step) && Solo(cfg.n, m, i, p)
    ensures Framed(m, p, LocalNext(cfg, p, step), step)
  {
    if step.Dispatch? {
      DispatchFramed(cfg, m, p);
    } else if !StepAbout(m, p, step) {
      OtherStepIsQuiet(cfg, m, cfg.n, i, p, step);
    }
  }

  /** Every process as seen by one step: the acting one is framed, a sender of a taken packet only
      loses that packet, the rest are untouched. */
  ghost predicate StepFramed(m: Name, s: State, s': State, l: Label) {
    && |s'| == |s| && l.proc < |s|
    && Framed(m, s[l.proc], s'[l.proc], l.step)
    && (forall k :: 0 <= k < |s| && k != l.proc ==> SameCore(s[k], s'[k]))
  }

  ghost predicate SameCore(p: Proc, p': Proc) {
    && p'.queued == p.queued && p'.held == p.held && p'.main == p.main
    && p'.net.clock == p.net.clock
  }

  lemma NextFramed(cfg: Config, m: Name, s: State, l: Label)
    requires Inv(cfg, m, s) && Enabled(cfg, s, l)
    ensures StepFramed(m, s, Next(cfg, s, l), l)
  {
    assert Solo(cfg.n, m, l.proc, s[l.proc]);
    if !l.step.Receive? {
      LocalFramed(cfg, m, l.proc, s[l.proc], l.step);
    }
  }

  ghost predicate SameCoreExceptClock(p: Proc, p': Proc) {
    p'.queued == p.queued && p'.held == p.held && p'.main == p.main && |p'.net.out| == |p.net.out|
    && p.net.clock <= p'.net.clock
  }

  /** When a packet is taken, but not by i from j, the channel from j to i and what i has from j stay. */
  lemma ReceiveElsewhere(n: nat, s: State, a: ProcessId, b: ProcessId, i: ProcessId, j: ProcessId)
    requires CanReceive(s, a, b) && i < |s| && j < |s| && i != j && !(a == i && b == j)
    requires EndpointOk(n, b, s[b]) && EndpointOk(n, j, s[j]) && |s| == n
    ensures var s' := ReceiveNext(s, a, b);
            && SameCoreExceptClock(s[i], s'[i]) && SameCoreExceptClock(s[j], s'[j])
            && s'[j].net.out[i] == s[j].net.out[i]
            && (s'[i].pending == s[i].pending
                || (s[i].pending.None? && s'[i].pending.Some? && s'[i].pending.value.source != j))
  {
    assert s[b].net.out[a][0].source == b;
  }

  // ---- The order of entries ---------------------------------------------------------

  /** The request stamps with which m was entered over a run. */
  ghost function Entries(cfg: Config, m: Name, run: seq<Label>): seq<(LamportTime, ProcessId)>
    requires Exec(cfg, run).Some?
  {
    if run == [] then []
    else
      var last := |run| - 1;
      var s := Exec(cfg, run[..last]).value;
      var l := run[last];
      if l.step == Enter(m) && m in s[l.proc].queued
      then Entries(cfg, m, run[..last]) + [(s[l.proc].queued[m], l.proc)]
      else Entries(cfg, m, run[..last])
  }

  ghost predicate Increasing(log: seq<(LamportTime, ProcessId)>) {
    forall k, l :: 0 <= k < l < |log| ==> Before(log[k].0, log[k].1, log[l].0, log[l].1)
  }

  /** Nobody can still enter with a stamp before the last entry. */
  ghost predicate Overdue(m: Name, s: State, t: LamportTime, e: ProcessId) {
    forall k :: 0 <= k < |s| ==>
                  s[k].net.clock >= t && (Waiting(s[k], m) && m in s[k].queued ==> Before(t, e, s[k].queued[m], k))
  }

  lemma OverdueKept(cfg: Config, m: Name, s: State, l: Label, t: LamportTime, e: ProcessId)
    requires Inv(cfg, m, s) && Enabled(cfg, s, l) && Overdue(m, s, t, e)
    ensures Overdue(m, Next(cfg, s, l), t, e)
  {
    NextFramed(cfg, m, s, l);
  }

  lemma EnterOverdue(cfg: Config, m: Name, s: State, i: ProcessId)
    requires Inv(cfg, m, s) && Enabled(cfg, s, Label(i, Enter(m)))
    ensures m in s[i].queued
    ensures Overdue(m, Next(cfg, s, Label(i, Enter(m))), s[i].queued[m], i)
  {
    assert Solo(cfg.n, m, i, s[i]);
    AllReceived(cfg.n, m, i, s[i].main.agreements);
    NextFramed(cfg, m, s, Label(i, Enter(m)));
    forall k | 0 <= k < |s| && k != i
      ensures s[k].net.clock >= s[i].queued[m]
      ensures Waiting(s[k], m) && m in s[k].queued ==> Before(s[i].queued[m], i, s[k].queued[m], k)
    {
      assert Link(m, i, s[i], k, s[k]) && Solo(cfg.n, m, k, s[k]);
      assert k in Others(cfg.n, i);
    }
  }

  ghost predicate LogOk(m: Name, s: State, log: seq<(LamportTime, ProcessId)>) {
    && Increasing(log)
    && (log != [] ==> Overdue(m, s, log[|log| - 1].0, log[|log| - 1].1))
  }

  lemma LogStep(cfg: Config, m: Name, s: State, l: Label, log: seq<(LamportTime, ProcessId)>)
    requires Inv(cfg, m, s) && Enabled(cfg, s, l) && LogOk(m, s, log)
    ensures l.step != Enter(m) ==> LogOk(m, Next(cfg, s, l), log)
    ensures l.step == Enter(m) ==>
              m in s[l.proc].queued && LogOk(m, Next(cfg, s, l), log + [(s[l.proc].queued[m], l.proc)])
  {
    if l.step == Enter(m) {
      assert l == Label(l.proc, Enter(m));
      EnterOverdue(cfg, m, s, l.proc);
      assert Waiting(s[l.proc], m);
    } else if log != [] {
      OverdueKept(cfg, m, s, l, log[|log| - 1].0, log[|log| - 1].1);
    }
  }

  /** Critical sections are entered in strictly increasing (request time, process) order. */
  lemma {:induction false} EntryOrder(cfg: Config, m: Name, run: seq<Label>)
    requires Exec(cfg, run).Some?
    ensures Increasing(Entries(cfg, m, run))
    ensures LogOk(m, Exec(cfg, run).value, Entries(cfg, m, run))
  {
    if run != [] {
      var before, s, l := ExecLast(cfg, run);
      EntryOrder(cfg, m, before);
      RunInv(cfg, m, before);
      LogStep(cfg, m, s, l, Entries(cfg, m, before));
    }
  }
}
