/**
  Entering a critical section flushes the network: whatever another process
  sent before the end of its last section of the same mutex has been received
  and dispatched by then.  An agreement is sent after that section, or answers
  a request that the section had to wait for; either way FIFO order delivers
  the section's packets first.
*/
module Flush {
  import opened Packets
  import opened Network
  import opened Protocol
  import opened MutexInvariant
  import opened MutexTheorems
  import opened MutexFairness

  ghost function ExitAfter(g: Name, p: Proc, step: Step, e: LamportTime): LamportTime {
    if step == BeginRelease(g) then p.net.clock else e
  }

  ghost function ExitsAfter(m: Name, s: State, l: Label, exits: seq<LamportTime>): (exits': seq<LamportTime>)
    requires |exits| == |s| && l.proc < |s|
    ensures |exits'| == |exits|
  {
    exits[l.proc := ExitAfter(m, s[l.proc], l.step, exits[l.proc])]
  }

  /** For each process its clock when it last started to release m; zero before that. */
  ghost function Exits(cfg: Config, m: Name, run: seq<Label>): (exits: seq<LamportTime>)
    requires Exec(cfg, run).Some?
    ensures |exits| == cfg.n
  {
    if run == [] then seq(cfg.n, _ => 0)
    else
      var last := |run| - 1;
      ExitsAfter(m, Exec(cfg, run[..last]).value, run[last], Exits(cfg, m, run[..last]))
  }

  /** Nothing that j sent up to time e is still on its way to i. */
  ghost predicate Flushed(i: ProcessId, pi: Proc, j: ProcessId, pj: Proc, e: LamportTime) {
    && (i < |pj.net.out| ==> forall k :: 0 <= k < |pj.net.out[i]| ==> pj.net.out[i][k].lamportTime > e)
    && (pi.pending.Some? && pi.pending.value.source == j ==> pi.pending.value.lamportTime > e)
    && pi.net.clock > e
  }

  ghost predicate FlushLink(m: Name, i: ProcessId, pi: Proc, j: ProcessId, pj: Proc, e: LamportTime) {
    && e <= pj.net.clock
    && (i < |pj.net.out| ==>
          forall k :: 0 <= k < |pj.net.out[i]| && pj.net.out[i][k].Is(MutexAgreement, m) ==>
            pj.net.out[i][k].lamportTime > e)
    && (Pending(pi, j, MutexAgreement, m) == 1 || Inside(pi, m) || HasAgreement(pi, j, m) ==>
          Flushed(i, pi, j, pj, e))
  }

  ghost predicate FlushInv(cfg: Config, m: Name, s: State, exits: seq<LamportTime>) {
    && |s| == cfg.n == |exits|
    && (forall i, j :: 0 <= i < |s| && 0 <= j < |s| && i != j ==> FlushLink(m, i, s[i], j, s[j], exits[j]))
  }

  lemma FlushGranterStep(cfg: Config, m: Name, i: ProcessId, pi: Proc, j: ProcessId, pj: Proc, step: Step,
                         e: LamportTime)
    requires Pair(cfg.n, m, i, pi, j, pj) && LocalEnabled(cfg, pj, step)
    requires FlushLink(m, i, pi, j, pj, e)
    ensures FlushLink(m, i, pi, j, LocalNext(cfg, pj, step), if step == BeginRelease(m) then pj.net.clock else e)
  {
    var pj' := LocalNext(cfg, pj, step);
    SentByIsSent(cfg, pj, step);
    if step == BeginRelease(m) {
      if Flight(pj, i, MutexAgreement, m) == 0 {
        NoneInFlight(pj.net.out[i], MutexAgreement, m);
      }
    }
  }

  /** Entering: an agreement from j was in, and it flushed j's channel. */
  lemma FlushEntry(cfg: Config, m: Name, i: ProcessId, pi: Proc, j: ProcessId, pj: Proc, e: LamportTime)
    requires Pair(cfg.n, m, i, pi, j, pj) && LocalEnabled(cfg, pi, Enter(m)) && j < cfg.n
    requires FlushLink(m, i, pi, j, pj, e)
    ensures FlushLink(m, i, LocalNext(cfg, pi, Enter(m)), j, pj, e)
  {
    AllReceived(cfg.n, m, i, pi.main.agreements);
    assert j in Others(cfg.n, i);
    assert HasAgreement(pi, j, m);
  }

  lemma FlushRequesterOther(cfg: Config, m: Name, i: ProcessId, pi: Proc, step: Step, j: ProcessId, pj: Proc,
                            e: LamportTime)
    requires Pair(cfg.n, m, i, pi, j, pj) && LocalEnabled(cfg, pi, step) && step != Enter(m) && step != Queue(m)
    requires FlushLink(m, i, pi, j, pj, e)
    ensures FlushLink(m, i, LocalNext(cfg, pi, step), j, pj, e)
  {
    SentByIsSent(cfg, pi, step);
    LocalFramed(cfg, m, i, pi, step);
    HasAgreementComesFromPending(cfg, m, j, i, pi, step);
  }

  lemma FlushRequesterStep(cfg: Config, m: Name, i: ProcessId, pi: Proc, step: Step, j: ProcessId, pj: Proc,
                           e: LamportTime)
    requires Pair(cfg.n, m, i, pi, j, pj) && LocalEnabled(cfg, pi, step)
    requires FlushLink(m, i, pi, j, pj, e)
    ensures FlushLink(m, i, LocalNext(cfg, pi, step), j, pj, e)
  {
    if step == Enter(m) {
      FlushEntry(cfg, m, i, pi, j, pj, e);
    } else if step == Queue(m) {
      assert Pending(pi, j, MutexAgreement, m) == Pending(LocalNext(cfg, pi, Queue(m)), j, MutexAgreement, m);
    } else {
      FlushRequesterOther(cfg, m, i, pi, step, j, pj, e);
    }
  }

  lemma FlushTake(n: nat, m: Name, i: ProcessId, pi: Proc, j: ProcessId, pj: Proc, e: LamportTime)
    requires Pair(n, m, i, pi, j, pj) && CanTake(n, i, pi, j, pj)
    requires FlushLink(m, i, pi, j, pj, e)
    ensures FlushLink(m, i, Take(pi, pj.net.out[i][0]), j, DropHead(pj, i), e)
  {
    var ch := pj.net.out[i];
    var pj' := DropHead(pj, i);
    assert pj'.net.out[i] == ch[1..];
    assert forall k :: 0 <= k < |ch[1..]| ==> ch[1..][k] == ch[k + 1] && ch[k + 1].lamportTime > ch[0].lamportTime;
  }

  lemma FlushElsewhere(m: Name, i: ProcessId, pi: Proc, pi': Proc, j: ProcessId, pj: Proc, pj': Proc, e: LamportTime)
    requires SameCoreExceptClock(pi, pi') && SameCoreExceptClock(pj, pj') && i < |pj.net.out|
             && pj'.net.out[i] == pj.net.out[i]
    requires pi'.pending == pi.pending || (pi'.pending.Some? && pi'.pending.value.source != j)
    requires FlushLink(m, i, pi, j, pj, e)
    ensures FlushLink(m, i, pi', j, pj', e)
  {
  }

  lemma FlushReceive(cfg: Config, m: Name, s: State, a: ProcessId, b: ProcessId, i: ProcessId, j: ProcessId,
                     e: LamportTime)
    requires Inv(cfg, m, s) && CanReceive(s, a, b) && i < |s| && j < |s| && i != j
    requires FlushLink(m, i, s[i], j, s[j], e)
    ensures FlushLink(m, i, ReceiveNext(s, a, b)[i], j, ReceiveNext(s, a, b)[j], e)
  {
    InvPair(cfg, m, s, i, j);
    assert Solo(cfg.n, m, a, s[a]) && Solo(cfg.n, m, b, s[b]);
    if a == i && b == j {
      FlushTake(cfg.n, m, i, s[i], j, s[j], e);
    } else {
      ReceiveElsewhere(cfg.n, s, a, b, i, j);
      FlushElsewhere(m, i, s[i], ReceiveNext(s, a, b)[i], j, s[j], ReceiveNext(s, a, b)[j], e);
    }
  }

  lemma FlushStep(cfg: Config, m: Name, s: State, l: Label, i: ProcessId, j: ProcessId, e: LamportTime)
    requires Inv(cfg, m, s) && Enabled(cfg, s, l) && i < |s| && j < |s| && i != j
    requires FlushLink(m, i, s[i], j, s[j], e)
    ensures FlushLink(m, i, Next(cfg, s, l)[i], j, Next(cfg, s, l)[j],
                      if l == Label(j, BeginRelease(m)) then s[j].net.clock else e)
  {
    InvPair(cfg, m, s, i, j);
    if l.step.Receive? {
      FlushReceive(cfg, m, s, l.proc, l.step.from, i, j, e);
    } else if l.proc == i {
      FlushRequesterStep(cfg, m, i, s[i], l.step, j, s[j], e);
    } else if l.proc == j {
      FlushGranterStep(cfg, m, i, s[i], j, s[j], l.step, e);
    }
  }

  lemma FlushNext(cfg: Config, m: Name, s: State, l: Label, exits: seq<LamportTime>, exits': seq<LamportTime>)
    requires Inv(cfg, m, s) && FlushInv(cfg, m, s, exits) && Enabled(cfg, s, l) && |exits'| == |s|
    requires forall j :: 0 <= j < |s| ==>
                           exits'[j] == if l == Label(j, BeginRelease(m)) then s[j].net.clock else exits[j]
    ensures FlushInv(cfg, m, Next(cfg, s, l), exits')
  {
    forall i, j | 0 <= i < |s| && 0 <= j < |s| && i != j
      ensures FlushLink(m, i, Next(cfg, s, l)[i], j, Next(cfg, s, l)[j], exits'[j])
    {
      FlushStep(cfg, m, s, l, i, j, exits[j]);
    }
  }

  lemma {:induction false} RunFlush(cfg: Config, m: Name, run: seq<Label>)
    requires Exec(cfg, run).Some?
    ensures FlushInv(cfg, m, Exec(cfg, run).value, Exits(cfg, m, run))
  {
    if run != [] {
      var before, s, l := ExecLast(cfg, run);
      RunInv(cfg, m, before);
      RunFlush(cfg, m, before);
      FlushNext(cfg, m, s, l, Exits(cfg, m, before), Exits(cfg, m, run));
    }
  }

  // ---- Over runs ------------------------------------------------------------------

  lemma {:induction false} ExecPrefix(cfg: Config, run: seq<Label>, a: nat)
    requires Exec(cfg, run).Some? && a <= |run|
    ensures Exec(cfg, run[..a]).Some?
  {
    if a < |run| {
      var before, _, _ := ExecLast(cfg, run);
      ExecPrefix(cfg, before, a);
      assert before[..a] == run[..a];
    } else {
      assert run[..a] == run;
    }
  }

  lemma {:induction false} ClockGrows(cfg: Config, run: seq<Label>, a: nat, j: ProcessId)
    requires Exec(cfg, run).Some? && a <= |run| && j < cfg.n
    ensures Exec(cfg, run[..a]).Some?
    ensures Exec(cfg, run[..a]).value[j].net.clock <= Exec(cfg, run).value[j].net.clock
  {
    ExecPrefix(cfg, run, a);
    RunInv(cfg, [], run);
    RunInv(cfg, [], run[..a]);
    if a < |run| {
      var before, s, l := ExecLast(cfg, run);
      ClockGrows(cfg, before, a, j);
      assert before[..a] == run[..a];
      RunInv(cfg, [], before);
      NextFramed(cfg, [], s, l);
    } else {
      assert run[..a] == run;
    }
  }

  lemma {:induction false} ExitBound(cfg: Config, m: Name, run: seq<Label>, b: nat, j: ProcessId)
    requires Exec(cfg, run).Some? && b < |run| && j < cfg.n && run[b] == Label(j, BeginRelease(m))
    ensures Exec(cfg, run[..b]).Some?
    ensures Exec(cfg, run[..b]).value[j].net.clock <= Exits(cfg, m, run)[j]
  {
    ExecPrefix(cfg, run, b);
    RunInv(cfg, m, run[..b]);
    var before, s, l := ExecLast(cfg, run);
    if b < |run| - 1 {
      assert before[..b] == run[..b] && before[b] == run[b];
      ExitBound(cfg, m, before, b, j);
      if l == Label(j, BeginRelease(m)) {
        ClockGrows(cfg, before, b, j);
      }
    }
  }

  /** What j sends before it starts to release m has a time that its last exit bounds. */
  lemma SectionStamp(cfg: Config, m: Name, run: seq<Label>, a: nat, b: nat, j: ProcessId)
    requires Exec(cfg, run).Some? && j < cfg.n
    requires a < b < |run| && run[b] == Label(j, BeginRelease(m))
    ensures Exec(cfg, run[..a + 1]).Some?
    ensures Exec(cfg, run[..a + 1]).value[j].net.clock <= Exits(cfg, m, run)[j]
  {
    ExitBound(cfg, m, run, b, j);
    ClockGrows(cfg, run[..b], a + 1, j);
    assert run[..b][..a + 1] == run[..a + 1];
  }

  lemma HolderIsFlushed(cfg: Config, m: Name, run: seq<Label>, i: ProcessId, j: ProcessId)
    requires Exec(cfg, run).Some? && i < cfg.n && j < cfg.n && i != j && Inside(Exec(cfg, run).value[i], m)
    ensures var s := Exec(cfg, run).value;
            |s[j].net.out| == cfg.n && Flushed(i, s[i], j, s[j], Exits(cfg, m, run)[j])
  {
    var s := Exec(cfg, run).value;
    RunInv(cfg, m, run);
    RunFlush(cfg, m, run);
    assert FlushLink(m, i, s[i], j, s[j], Exits(cfg, m, run)[j]);
    assert Solo(cfg.n, m, j, s[j]);
  }

  /** Flush at entry.  Process j sent something at step a of the run and then, at step b, left a
      critical section of m; whenever i is inside m afterwards, the packet is neither in the channel
      nor waiting to be dispatched, and i's clock is past its time. */
  lemma FlushAtEntry(cfg: Config, m: Name, run: seq<Label>, a: nat, b: nat, i: ProcessId, j: ProcessId)
    requires Exec(cfg, run).Some? && i < cfg.n && j < cfg.n && i != j
    requires a < b < |run| && run[a].proc == j && run[b] == Label(j, BeginRelease(m))
    requires Exec(cfg, run[..a + 1]).Some?
    requires Inside(Exec(cfg, run).value[i], m)
    ensures var s, stamp := Exec(cfg, run).value, Exec(cfg, run[..a + 1]).value[j].net.clock;
            && |s[j].net.out| == cfg.n
            && (forall k :: k in s[j].net.out[i] ==> k.lamportTime > stamp)
            && (s[i].pending.Some? && s[i].pending.value.source == j ==> s[i].pending.value.lamportTime > stamp)
            && s[i].net.clock > stamp
  {
    SectionStamp(cfg, m, run, a, b, j);
    HolderIsFlushed(cfg, m, run, i, j);
  }
}
