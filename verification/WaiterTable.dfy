/**
  How complete the waiter table is.  The end of any wait erases every waiter of
  the variable, so with three or more processes a process that is still waiting
  can be missing from the table.  It is missing exactly when some end of a wait
  was dispatched after its own announcement.  In terms of calls: whoever holds
  the guard has it in the table unless some third process has stopped waiting
  since the waiting process began; with two processes there is none.
*/
module WaiterTable {
  import opened Packets
  import opened Network
  import opened Protocol
  import opened MutexInvariant
  import opened MutexTheorems
  import opened Flush
  import opened ConditionInvariant
  import opened ConditionRuns
  import opened ConditionTheorems

  /** Whether k has dispatched the end of somebody's wait on c since it dispatched j's announcement. */
  ghost predicate ErasedSince(cfg: Config, c: Name, run: seq<Label>, k: ProcessId, j: ProcessId)
    requires Exec(cfg, run).Some? && k < cfg.n
  {
    if run == [] then false
    else
      var last := |run| - 1;
      ErasedAfter(c, Exec(cfg, run[..last]).value[k], run[last] == Label(k, Dispatch), j,
                  ErasedSince(cfg, c, run[..last], k, j))
  }

  predicate ErasedAfter(c: Name, pk: Proc, dispatches: bool, j: ProcessId, erased: bool) {
    if dispatches && HasPending(pk, CondWait, c) && pk.pending.value.source == j then false
    else if dispatches && HasPending(pk, CondWaitEnd, c) then true
    else erased
  }

  /** j's announcement has not been dispatched by k yet. */
  ghost function Unseen(c: Name, j: ProcessId, pj: Proc, k: ProcessId, pk: Proc): nat {
    Flight(pj, k, CondWait, c) + Pending(pk, j, CondWait, c)
  }

  ghost predicate RecordLink(c: Name, j: ProcessId, pj: Proc, t: LamportTime, k: ProcessId, pk: Proc, erased: bool) {
    Listens(pj, c) && Unseen(c, j, pj, k, pk) == 0 ==>
      (Recorded(pk, c, j, t) <==> !erased)
  }

  lemma RecordOwnStep(cfg: Config, c: Name, j: ProcessId, pj: Proc, step: Step, t: LamportTime, k: ProcessId, pk: Proc,
                      erased: bool)
    requires Net2(cfg.n, j, pj, k, pk) && LocalEnabled(cfg, pj, step)
    requires RecordLink(c, j, pj, t, k, pk, erased)
    ensures RecordLink(c, j, LocalNext(cfg, pj, step), WaitTimeAfter(c, pj, step, t), k, pk, erased)
  {
    LocalCondFramed(cfg, c, pj, step);
    SendsAbout(cfg, c, pj, step);
    FlightAfter(cfg, pj, step, k, CondWait, c);
    assert k in Others(cfg.n, j);
  }

  lemma RecordPeerStep(cfg: Config, c: Name, j: ProcessId, pj: Proc, t: LamportTime, k: ProcessId, pk: Proc,
                       step: Step, erased: bool)
    requires Net2(cfg.n, j, pj, k, pk) && LocalEnabled(cfg, pk, step)
    requires RecordLink(c, j, pj, t, k, pk, erased)
    requires WaitLink(c, j, pj, t, k, pk) && EndLink(c, j, pj, t, k, pk)
    requires HasPending(pk, CondWait, c) ==> pk.pending.value.lamportTime !in WaitersOf(pk, c)
    requires HasPending(pk, CondWait, c) && pk.pending.value.source != j ==> pk.pending.value.lamportTime != t
    ensures RecordLink(c, j, pj, t, k, LocalNext(cfg, pk, step), ErasedAfter(c, pk, step.Dispatch?, j, erased))
  {
    var pk' := LocalNext(cfg, pk, step);
    LocalCondFramed(cfg, c, pk, step);
    if step.Dispatch? && HasPending(pk, CondWait, c) {
      assert WaitersOf(pk', c) == InsertByTime(WaitersOf(pk, c), pk.pending.value);
    } else if step.Dispatch? && HasPending(pk, CondWaitEnd, c) {
      assert WaitersOf(pk', c) == map[];
    }
  }

  lemma RecordTake(n: nat, c: Name, j: ProcessId, pj: Proc, t: LamportTime, k: ProcessId, pk: Proc, erased: bool)
    requires k < |pj.net.out| && pj.net.out[k] != [] && pk.pending.None? && pj.net.out[k][0].source == j
    requires RecordLink(c, j, pj, t, k, pk, erased)
    ensures RecordLink(c, j, DropHead(pj, k), t, k, Take(pk, pj.net.out[k][0]), erased)
  {
    DropHeadCount(pj.net.out[k], CondWait, c);
  }

  lemma RecordAlike(n: nat, c: Name, j: ProcessId, pj: Proc, pj': Proc, t: LamportTime, k: ProcessId, pk: Proc,
                    pk': Proc, erased: bool)
    requires Alike(j, pj, pj', k) && Alike(k, pk, pk', j) && RecordLink(c, j, pj, t, k, pk, erased)
    ensures RecordLink(c, j, pj', t, k, pk', erased)
  {
    AlikeCounts(j, pj, pj', k, CondWait, c);
    AlikeCounts(k, pk, pk', j, CondWait, c);
  }

  lemma RecordReceive(n: nat, c: Name, s: State, a: ProcessId, b: ProcessId, j: ProcessId, t: LamportTime,
                      k: ProcessId, erased: bool)
    requires CanReceive(s, a, b) && |s| == n && j < n && k < n && j != k
    requires EndpointOk(n, b, s[b]) && EndpointOk(n, j, s[j]) && EndpointOk(n, k, s[k])
    requires RecordLink(c, j, s[j], t, k, s[k], erased)
    ensures RecordLink(c, j, ReceiveNext(s, a, b)[j], t, k, ReceiveNext(s, a, b)[k], erased)
  {
    var s' := ReceiveNext(s, a, b);
    if a == k && b == j {
      RecordTake(n, c, j, s[j], t, k, s[k], erased);
    } else if a == j && b == k {
      assert s'[k] == DropHead(s[k], j) && s'[j].net.out == s[j].net.out;
    } else {
      ReceiveAlike(n, s, a, b, j, k);
      ReceiveAlike(n, s, a, b, k, j);
      RecordAlike(n, c, j, s[j], s'[j], t, k, s[k], s'[k], erased);
    }
  }

  lemma {:induction false} RunRecords(cfg: Config, c: Name, run: seq<Label>, j: ProcessId, k: ProcessId)
    requires Exec(cfg, run).Some? && c in cfg.guard && j < cfg.n && k < cfg.n && j != k
    ensures var s := Exec(cfg, run).value;
            RecordLink(c, j, s[j], WaitTimes(cfg, c, run)[j], k, s[k], ErasedSince(cfg, c, run, k, j))
  {
    if run != [] {
      var before, s, l := ExecLast(cfg, run);
      RunRecords(cfg, c, before, j, k);
      RunCond(cfg, c, before);
      var times, exits := WaitTimes(cfg, c, before), Exits(cfg, cfg.guard[c], before);
      MakeContext(cfg, c, s, times, exits, j, k);
      NoWaiterDropped(cfg, c, before, k);
      Endpoints(cfg, cfg.guard[c], s);
      RecordNext(cfg, c, s, l, times, exits, j, k, ErasedSince(cfg, c, before, k, j));
    }
  }

  lemma RecordNext(cfg: Config, c: Name, s: State, l: Label, times: seq<LamportTime>, exits: seq<LamportTime>,
                   j: ProcessId, k: ProcessId, erased: bool)
    requires c in cfg.guard && PairContext(cfg, c, s, times, exits, j, k) && Enabled(cfg, s, l)
    requires forall i :: 0 <= i < |s| ==> EndpointOk(cfg.n, i, s[i])
    requires HasPending(s[k], CondWait, c) ==> s[k].pending.value.lamportTime !in WaitersOf(s[k], c)
    requires RecordLink(c, j, s[j], times[j], k, s[k], erased)
    ensures RecordLink(c, j, Next(cfg, s, l)[j], WaitTimesAfter(cfg, c, s, l, times)[j], k, Next(cfg, s, l)[k],
                       ErasedAfter(c, s[k], l == Label(k, Dispatch), j, erased))
  {
    if l.step.Receive? {
      RecordReceive(cfg.n, c, s, l.proc, l.step.from, j, times[j], k, erased);
    } else if l.proc == j {
      RecordOwnStep(cfg, c, j, s[j], l.step, times[j], k, s[k], erased);
    } else if l.proc == k {
      RecordPeerStep(cfg, c, j, s[j], times[j], k, s[k], l.step, erased);
    }
  }

  /** Whoever holds the guard has dispatched every announcement of a wait. */
  lemma HolderHasSeen(cfg: Config, c: Name, run: seq<Label>, i: ProcessId, j: ProcessId)
    requires Exec(cfg, run).Some? && c in cfg.guard && i < cfg.n && j < cfg.n && i != j
    requires Inside(Exec(cfg, run).value[i], cfg.guard[c])
    ensures var s := Exec(cfg, run).value; Unseen(c, j, s[j], i, s[i]) == 0 && !Ends(s[j], c)
  {
    RunCond(cfg, c, run);
    var s, times, exits := Exec(cfg, run).value, WaitTimes(cfg, c, run), Exits(cfg, cfg.guard[c], run);
    PairExclusion(cfg, cfg.guard[c], s, i, j);
    assert FlushLink(cfg.guard[c], i, s[i], j, s[j], exits[j]);
    assert CondSolo(cfg, c, j, s[j], times[j], exits[j]);
    assert CondPair(cfg, c, j, s[j], times[j], i, s[i], exits[i]);
    if Flight(s[j], i, CondWait, c) >= 1 {
      var x := CountWitness(s[j].net.out[i], CondWait, c);
    }
  }

  /** For any number of processes: under the guard, a waiting process is in the holder's table
      if and only if no end of a wait was dispatched there since its announcement was. */
  lemma WaiterRecordedExactly(cfg: Config, c: Name, run: seq<Label>, i: ProcessId, j: ProcessId)
    requires Exec(cfg, run).Some? && c in cfg.guard && i < cfg.n && j < cfg.n && i != j
    requires Inside(Exec(cfg, run).value[i], cfg.guard[c]) && InWait(Exec(cfg, run).value[j], c)
    ensures Recorded(Exec(cfg, run).value[i], c, j, WaitTimes(cfg, c, run)[j]) <==> !ErasedSince(cfg, c, run, i, j)
  {
    HolderHasSeen(cfg, c, run, i, j);
    RunRecords(cfg, c, run, j, i);
  }

  // ---- In terms of the calls on c -------------------------------------------------------------

  /** Nobody but i is ending a wait, so i has nothing to erase; j listens. */
  ghost predicate Undisturbed(cfg: Config, c: Name, s: State, i: ProcessId, j: ProcessId, erased: bool)
    requires i < |s| && j < |s|
  {
    && Listens(s[j], c)
    && (forall k: ProcessId :: k < |s| && k != i ==> !Ends(s[k], c))
    && (Unseen(c, j, s[j], i, s[i]) == 0 ==> !erased)
  }

  /** j begins to wait: it holds the guard, so nobody is ending a wait. */
  lemma WaitUndisturbed(cfg: Config, c: Name, run: seq<Label>, s: State, i: ProcessId, j: ProcessId, erased: bool)
    requires c in cfg.guard && Exec(cfg, run) == Some(s) && i < cfg.n && j < cfg.n && i != j
    requires Enabled(cfg, s, Label(j, BeginWait(c)))
    ensures Undisturbed(cfg, c, Next(cfg, s, Label(j, BeginWait(c))), i, j, erased)
  {
    assert LocalEnabled(cfg, s[j], BeginWait(c));
    RunInv(cfg, cfg.guard[c], run);
    Endpoints(cfg, cfg.guard[c], s);
    var s' := Next(cfg, s, Label(j, BeginWait(c)));
    forall k: ProcessId | k < |s| && k != i ensures !Ends(s'[k], c) {
      if k != j && Ends(s[k], c) {
        ConfirmationConservation(cfg, c, run, k, j);
      }
    }
    FlightAfter(cfg, s[j], BeginWait(c), i, CondWait, c);
    assert i in Others(cfg.n, j);
  }

  /** What a step of k's own does to the end of its wait. */
  lemma EndsAfter(cfg: Config, c: Name, p: Proc, step: Step)
    requires LocalEnabled(cfg, p, step) && step != StopWait(c)
    ensures Ends(LocalNext(cfg, p, step), c) ==> Ends(p, c)
    ensures Listens(p, c) ==> Listens(LocalNext(cfg, p, step), c)
  {
    LocalCondFramed(cfg, c, p, step);
  }

  lemma UnseenReceive(n: nat, c: Name, s: State, a: ProcessId, b: ProcessId, i: ProcessId, j: ProcessId)
    requires CanReceive(s, a, b) && |s| == n && i < n && j < n && i != j
    requires EndpointOk(n, b, s[b]) && EndpointOk(n, i, s[i]) && EndpointOk(n, j, s[j])
    ensures var s' := ReceiveNext(s, a, b); Unseen(c, j, s'[j], i, s'[i]) == Unseen(c, j, s[j], i, s[i])
  {
    if a == i && b == j {
      DropHeadCount(s[j].net.out[i], CondWait, c);
    } else {
      ReceiveElsewhere(n, s, a, b, i, j);
      assert s[b].net.out[a][0].source == b;
    }
  }

  lemma UnseenPeerStep(cfg: Config, c: Name, j: ProcessId, pj: Proc, i: ProcessId, pi: Proc, step: Step)
    requires LocalEnabled(cfg, pi, step)
    requires !(step.Dispatch? && HasPending(pi, CondWait, c) && pi.pending.value.source == j)
    ensures Unseen(c, j, pj, i, LocalNext(cfg, pi, step)) == Unseen(c, j, pj, i, pi)
  {
  }

  lemma UnseenOwnStep(cfg: Config, c: Name, j: ProcessId, pj: Proc, step: Step, i: ProcessId, pi: Proc)
    requires LocalEnabled(cfg, pj, step) && i < |pj.net.out|
    ensures Unseen(c, j, LocalNext(cfg, pj, step), i, pi) >= Unseen(c, j, pj, i, pi)
  {
    FlightAfter(cfg, pj, step, i, CondWait, c);
  }

  /** Taking packets moves j's announcement along; only dispatching it makes it seen. */
  lemma UnseenNext(cfg: Config, c: Name, s: State, l: Label, i: ProcessId, j: ProcessId)
    requires |s| == cfg.n && Enabled(cfg, s, l) && i < cfg.n && j < cfg.n && i != j
    requires forall k :: 0 <= k < |s| ==> EndpointOk(cfg.n, k, s[k])
    requires !(l == Label(i, Dispatch) && HasPending(s[i], CondWait, c) && s[i].pending.value.source == j)
    ensures var s' := Next(cfg, s, l); Unseen(c, j, s'[j], i, s'[i]) >= Unseen(c, j, s[j], i, s[i])
  {
    if l.step.Receive? {
      UnseenReceive(cfg.n, c, s, l.proc, l.step.from, i, j);
    } else if l.proc == j {
      UnseenOwnStep(cfg, c, j, s[j], l.step, i, s[i]);
    } else if l.proc == i {
      UnseenPeerStep(cfg, c, j, s[j], i, s[i], l.step);
    }
  }

  /** An end that i could dispatch means that somebody else is ending a wait. */
  lemma NothingToErase(cfg: Config, c: Name, run: seq<Label>, s: State, i: ProcessId)
    requires c in cfg.guard && Exec(cfg, run) == Some(s) && i < cfg.n
    requires forall k: ProcessId :: k < |s| && k != i ==> !Ends(s[k], c)
    ensures !HasPending(s[i], CondWaitEnd, c)
  {
    RunInv(cfg, cfg.guard[c], run);
    assert Solo(cfg.n, cfg.guard[c], i, s[i]);
    if HasPending(s[i], CondWaitEnd, c) {
      ConfirmationConservation(cfg, c, run, s[i].pending.value.source, i);
    }
  }

  lemma NobodyEnds(cfg: Config, c: Name, s: State, l: Label, i: ProcessId, j: ProcessId)
    requires Enabled(cfg, s, l) && i < |s| && j < |s| && i != j && (l.step == StopWait(c) ==> l.proc == i)
    requires Listens(s[j], c) && forall k: ProcessId :: k < |s| && k != i ==> !Ends(s[k], c)
    ensures Listens(Next(cfg, s, l)[j], c)
    ensures forall k: ProcessId :: k < |s| && k != i ==> !Ends(Next(cfg, s, l)[k], c)
  {
    if !l.step.Receive? && l.step != StopWait(c) {
      EndsAfter(cfg, c, s[l.proc], l.step);
    }
  }

  lemma UndisturbedNext(cfg: Config, c: Name, run: seq<Label>, s: State, l: Label, i: ProcessId, j: ProcessId,
                        erased: bool)
    requires c in cfg.guard && Exec(cfg, run) == Some(s) && i < cfg.n && j < cfg.n && i != j
    requires Enabled(cfg, s, l) && Undisturbed(cfg, c, s, i, j, erased) && (l.step == StopWait(c) ==> l.proc == i)
    ensures Undisturbed(cfg, c, Next(cfg, s, l), i, j, ErasedAfter(c, s[i], l == Label(i, Dispatch), j, erased))
  {
    RunInv(cfg, cfg.guard[c], run);
    Endpoints(cfg, cfg.guard[c], s);
    NobodyEnds(cfg, c, s, l, i, j);
    NothingToErase(cfg, c, run, s, i);
    if !(l == Label(i, Dispatch) && HasPending(s[i], CondWait, c) && s[i].pending.value.source == j) {
      UnseenNext(cfg, c, s, l, i, j);
    }
  }

  lemma {:induction false} RunUndisturbed(cfg: Config, c: Name, run: seq<Label>, a: nat, i: ProcessId, j: ProcessId)
    requires Exec(cfg, run).Some? && c in cfg.guard && i < cfg.n && j < cfg.n && i != j
    requires a < |run| && run[a] == Label(j, BeginWait(c))
    requires forall b :: a < b < |run| && run[b].step == StopWait(c) ==> run[b].proc == i
    ensures Undisturbed(cfg, c, Exec(cfg, run).value, i, j, ErasedSince(cfg, c, run, i, j))
  {
    var before, s, l := ExecLast(cfg, run);
    if a == |run| - 1 {
      WaitUndisturbed(cfg, c, before, s, i, j, ErasedSince(cfg, c, run, i, j));
    } else {
      assert before[a] == run[a] && forall b :: a < b < |before| ==> before[b] == run[b];
      RunUndisturbed(cfg, c, before, a, i, j);
      UndisturbedNext(cfg, c, before, s, l, i, j, ErasedSince(cfg, c, before, i, j));
    }
  }

  /** For any number of processes: if since j began to wait on c nobody but i has stopped waiting on c,
      then whenever i is inside the guard it has j's wait in its table, and j is waiting. */
  lemma RecordedWhileOthersWait(cfg: Config, c: Name, run: seq<Label>, a: nat, i: ProcessId, j: ProcessId)
    requires Exec(cfg, run).Some? && c in cfg.guard && i < cfg.n && j < cfg.n && i != j
    requires a < |run| && run[a] == Label(j, BeginWait(c))
    requires forall b :: a < b < |run| && run[b].step == StopWait(c) ==> run[b].proc == i
    requires Inside(Exec(cfg, run).value[i], cfg.guard[c])
    ensures var s := Exec(cfg, run).value;
            Listens(s[j], c) && Recorded(s[i], c, j, WaitTimes(cfg, c, run)[j])
  {
    RunUndisturbed(cfg, c, run, a, i, j);
    HolderHasSeen(cfg, c, run, i, j);
    RunRecords(cfg, c, run, j, i);
  }

  /** Where a listening process began to wait; it has not stopped since. */
  lemma {:induction false} LastWait(cfg: Config, c: Name, run: seq<Label>, j: ProcessId) returns (a: nat)
    requires Exec(cfg, run).Some? && j < cfg.n && Listens(Exec(cfg, run).value[j], c)
    ensures a < |run| && run[a] == Label(j, BeginWait(c))
    ensures forall b :: a < b < |run| && run[b].step == StopWait(c) ==> run[b].proc < cfg.n && run[b].proc != j
  {
    var before, s, l := ExecLast(cfg, run);
    if l == Label(j, BeginWait(c)) {
      a := |run| - 1;
    } else {
      if l.proc == j && !l.step.Receive? {
        LocalCondFramed(cfg, c, s[j], l.step);
      }
      a := LastWait(cfg, c, before, j);
      assert forall b :: 0 <= b < |before| ==> before[b] == run[b];
    }
  }

  /** With two processes nobody but the holder can have stopped: it has the other's wait in its table. */
  lemma OtherIsRecorded(cfg: Config, c: Name, run: seq<Label>, i: ProcessId, j: ProcessId)
    requires Exec(cfg, run).Some? && c in cfg.guard && cfg.n == 2 && i < 2 && j < 2 && i != j
    requires Inside(Exec(cfg, run).value[i], cfg.guard[c]) && InWait(Exec(cfg, run).value[j], c)
    ensures Recorded(Exec(cfg, run).value[i], c, j, WaitTimes(cfg, c, run)[j])
  {
    HolderHasSeen(cfg, c, run, i, j);
    var a := LastWait(cfg, c, run, j);
    RecordedWhileOthersWait(cfg, c, run, a, i, j);
  }

  /** With two processes the holder's table can only hold the other's wait. */
  lemma OnlyOtherIsRecorded(cfg: Config, c: Name, run: seq<Label>, i: ProcessId, j: ProcessId, u: LamportTime)
    requires Exec(cfg, run).Some? && c in cfg.guard && cfg.n == 2 && i < 2 && j < 2 && i != j
    requires u in WaitersOf(Exec(cfg, run).value[i], c)
    ensures u == WaitTimes(cfg, c, run)[j] && InWait(Exec(cfg, run).value[j], c)
    ensures WaitersOf(Exec(cfg, run).value[i], c)[u] == PacketKey(j, CondWait, c)
  {
    RunCond(cfg, c, run);
    var s, times, exits := Exec(cfg, run).value, WaitTimes(cfg, c, run), Exits(cfg, cfg.guard[c], run);
    RecordedTimes(cfg, c, s, times, exits, i);
    assert CondSolo(cfg, c, i, s[i], times[i], exits[i]);
    assert WaitersOf(s[i], c)[u].source == j;
    NotificationSoundness(cfg, c, run, i, j);
  }

  /** For two processes the holder's table is never missing the other: it holds the other's wait,
      and nothing else, exactly while the other is inside wait. */
  lemma NoLostWaiter(cfg: Config, c: Name, run: seq<Label>, i: ProcessId, j: ProcessId)
    requires Exec(cfg, run).Some? && c in cfg.guard && cfg.n == 2 && i < 2 && j < 2 && i != j
    requires Inside(Exec(cfg, run).value[i], cfg.guard[c])
    ensures WaitersOf(Exec(cfg, run).value[i], c)
            == if InWait(Exec(cfg, run).value[j], c)
               then map[WaitTimes(cfg, c, run)[j] := PacketKey(j, CondWait, c)]
               else map[]
  {
    var table := WaitersOf(Exec(cfg, run).value[i], c);
    forall u | u in table
      ensures u == WaitTimes(cfg, c, run)[j] && InWait(Exec(cfg, run).value[j], c)
              && table[u] == PacketKey(j, CondWait, c)
    {
      OnlyOtherIsRecorded(cfg, c, run, i, j, u);
    }
    if InWait(Exec(cfg, run).value[j], c) {
      OtherIsRecorded(cfg, c, run, i, j);
    }
  }
}
