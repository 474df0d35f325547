/**
  What the condition variable handshake promises, over every run, when waits
  and notifications happen under the guard of the variable.
*/
module ConditionTheorems {
  import opened Packets
  import opened Protocol
  import opened MutexInvariant
  import opened MutexTheorems
  import opened Flush
  import opened ConditionInvariant
  import opened ConditionRuns

  /** Every recorded waiter is still inside wait, since the time it is recorded with;
      every notification under way reaches a process that is waiting for it. */
  lemma NotificationSoundness(cfg: Config, c: Name, run: seq<Label>, i: ProcessId, j: ProcessId)
    requires Exec(cfg, run).Some? && c in cfg.guard && i < cfg.n && j < cfg.n && i != j
    ensures var s := Exec(cfg, run).value;
            && (forall u :: u in WaitersOf(s[i], c) && WaitersOf(s[i], c)[u].source == j ==>
                              InWait(s[j], c) && u == WaitTimes(cfg, c, run)[j])
            && (Notified(c, i, s[i], j, s[j]) >= 1 ==> Listens(s[j], c) && !Inside(s[j], cfg.guard[c]))
  {
    RunCond(cfg, c, run);
    var s, times, exits := Exec(cfg, run).value, WaitTimes(cfg, c, run), Exits(cfg, cfg.guard[c], run);
    assert CondPair(cfg, c, j, s[j], times[j], i, s[i], exits[i]);
    assert CondPair(cfg, c, i, s[i], times[i], j, s[j], exits[j]);
    forall u | u in WaitersOf(s[i], c) && WaitersOf(s[i], c)[u].source == j
      ensures InWait(s[j], c) && u == times[j]
    {
      assert Recorded(s[i], c, j, u);
    }
  }

  /** notifyOne picks the recorded process that has waited longest; it is waiting, outside the guard. */
  lemma NotifyOnePicksLongest(cfg: Config, c: Name, run: seq<Label>, i: ProcessId)
    returns (j: ProcessId)
    requires Exec(cfg, run).Some? && Enabled(cfg, Exec(cfg, run).value, Label(i, NotifyOne(c)))
    requires WaitersOf(Exec(cfg, run).value[i], c) != map[]
    ensures c in cfg.guard && j < cfg.n && j != i
    ensures var s := Exec(cfg, run).value;
            && SentBy(cfg, s[i], NotifyOne(c)) == Sends(CondNotify, c, {j})
            && Recorded(s[i], c, j, WaitTimes(cfg, c, run)[j])
            && Listens(s[j], c) && !Inside(s[j], cfg.guard[c])
            && (forall k: ProcessId :: k < cfg.n && Recorded(s[i], c, k, WaitTimes(cfg, c, run)[k]) ==>
                              WaitTimes(cfg, c, run)[j] <= WaitTimes(cfg, c, run)[k])
  {
    RunCond(cfg, c, run);
    var s, times, exits := Exec(cfg, run).value, WaitTimes(cfg, c, run), Exits(cfg, cfg.guard[c], run);
    assert LocalEnabled(cfg, s[i], NotifyOne(c));
    var u := Earliest(WaitersOf(s[i], c));
    assert CondSolo(cfg, c, i, s[i], times[i], exits[i]);
    j := WaitersOf(s[i], c)[u].source;
    NotificationSoundness(cfg, c, run, i, j);
    PairExclusion(cfg, cfg.guard[c], s, i, j);
    assert CondSolo(cfg, c, j, s[j], times[j], exits[j]);
  }

  // ---- Times of waits ------------------------------------------------------------------

  /** The times and processes of all waits on c over a run. */
  ghost function WaitLog(cfg: Config, c: Name, run: seq<Label>): seq<(LamportTime, ProcessId)>
    requires Exec(cfg, run).Some?
  {
    if run == [] then []
    else
      var last := |run| - 1;
      var s, l := Exec(cfg, run[..last]).value, run[last];
      if l.step == BeginWait(c) then WaitLog(cfg, c, run[..last]) + [(s[l.proc].net.clock + 1, l.proc)]
      else WaitLog(cfg, c, run[..last])
  }

  ghost predicate StrictlyLater(log: seq<(LamportTime, ProcessId)>) {
    forall k, l :: 0 <= k < l < |log| ==> log[k].0 < log[l].0
  }

  /** Every logged wait is at most as late as its process's last one. */
  ghost predicate LogBound(log: seq<(LamportTime, ProcessId)>, times: seq<LamportTime>) {
    forall k :: 0 <= k < |log| ==> log[k].1 < |times| && log[k].0 <= times[log[k].1]
  }

  lemma WaitLogStep(cfg: Config, c: Name, s: State, l: Label, times: seq<LamportTime>, exits: seq<LamportTime>,
                    log: seq<(LamportTime, ProcessId)>)
    requires c in cfg.guard && CondInv(cfg, c, s, times, exits) && Guarded(cfg, cfg.guard[c], s, exits)
    requires Enabled(cfg, s, l) && l.step == BeginWait(c) && LogBound(log, times) && StrictlyLater(log)
    ensures StrictlyLater(log + [(s[l.proc].net.clock + 1, l.proc)])
    ensures LogBound(log + [(s[l.proc].net.clock + 1, l.proc)], WaitTimesAfter(cfg, c, s, l, times))
  {
    assert LocalEnabled(cfg, s[l.proc], BeginWait(c));
    forall k | 0 <= k < |log| ensures log[k].0 < s[l.proc].net.clock + 1 {
      NewWaitIsLater(cfg, c, s, times, exits, l.proc, log[k].1);
    }
  }

  /** Over a whole run, each wait on c carries a greater Lamport time than every wait before it,
      whichever processes they belong to. */
  lemma {:induction false} WaitTimesIncrease(cfg: Config, c: Name, run: seq<Label>)
    requires Exec(cfg, run).Some? && c in cfg.guard
    ensures StrictlyLater(WaitLog(cfg, c, run))
    ensures LogBound(WaitLog(cfg, c, run), WaitTimes(cfg, c, run))
  {
    if run != [] {
      var before, s, l := ExecLast(cfg, run);
      WaitTimesIncrease(cfg, c, before);
      if l.step == BeginWait(c) {
        RunCond(cfg, c, before);
        WaitLogStep(cfg, c, s, l, WaitTimes(cfg, c, before), Exits(cfg, cfg.guard[c], before), WaitLog(cfg, c, before));
      } else {
        assert WaitTimes(cfg, c, run) == WaitTimes(cfg, c, before);
      }
    }
  }

  lemma RecordedTimes(cfg: Config, c: Name, s: State, times: seq<LamportTime>, exits: seq<LamportTime>, i: ProcessId)
    requires c in cfg.guard && CondInv(cfg, c, s, times, exits) && i < cfg.n
    ensures forall u :: u in WaitersOf(s[i], c) ==>
                          var k := WaitersOf(s[i], c)[u].source;
                          k < cfg.n && k != i && u == times[k] && Recorded(s[i], c, k, times[k])
  {
    assert CondSolo(cfg, c, i, s[i], times[i], exits[i]);
    forall u | u in WaitersOf(s[i], c)
      ensures var k := WaitersOf(s[i], c)[u].source; k < cfg.n && k != i && u == times[k]
    {
      var k := WaitersOf(s[i], c)[u].source;
      assert CondPair(cfg, c, k, s[k], times[k], i, s[i], exits[i]);
    }
  }

  /** The ordered set of waiters compares times only, yet never drops a waiter. */
  lemma NoWaiterDropped(cfg: Config, c: Name, run: seq<Label>, i: ProcessId)
    requires Exec(cfg, run).Some? && c in cfg.guard && i < cfg.n
    ensures var p := Exec(cfg, run).value[i];
            HasPending(p, CondWait, c) ==> p.pending.value.lamportTime !in WaitersOf(p, c)
  {
    RunCond(cfg, c, run);
    var s, times, exits := Exec(cfg, run).value, WaitTimes(cfg, c, run), Exits(cfg, cfg.guard[c], run);
    if HasPending(s[i], CondWait, c) {
      assert Solo(cfg.n, cfg.guard[c], i, s[i]) && CondSolo(cfg, c, i, s[i], times[i], exits[i]);
      var j := s[i].pending.value.source;
      assert CondPair(cfg, c, j, s[j], times[j], i, s[i], exits[i]) && CondSolo(cfg, c, j, s[j], times[j], exits[j]);
      assert Pending(s[i], j, CondWait, c) == 1 && times[j] > 0;
      RecordedTimes(cfg, c, s, times, exits, i);
    }
  }

  /** notifyAll sends one notification to each recorded process, all of which are waiting outside the guard,
      and none to anybody else. */
  lemma NotifyAllReachesRecorded(cfg: Config, c: Name, run: seq<Label>, i: ProcessId, j: ProcessId)
    requires Exec(cfg, run).Some? && Enabled(cfg, Exec(cfg, run).value, Label(i, NotifyAll(c)))
    requires j < cfg.n && j != i
    ensures var s := Exec(cfg, run).value;
            var recorded := Recorded(s[i], c, j, WaitTimes(cfg, c, run)[j]);
            && SentTo(SentBy(cfg, s[i], NotifyAll(c)), j, CondNotify, c) == (if recorded then 1 else 0)
            && (recorded ==> Listens(s[j], c) && !Inside(s[j], cfg.guard[c]))
  {
    var s, times, exits := Exec(cfg, run).value, WaitTimes(cfg, c, run), Exits(cfg, cfg.guard[c], run);
    assert LocalEnabled(cfg, s[i], NotifyAll(c));
    RunCond(cfg, c, run);
    RecordedTimes(cfg, c, s, times, exits, i);
    var table := WaitersOf(s[i], c);
    assert j in Sources(table) <==> Recorded(s[i], c, j, times[j]);
    if Recorded(s[i], c, j, times[j]) {
      NotificationSoundness(cfg, c, run, i, j);
      PairExclusion(cfg, cfg.guard[c], s, i, j);
      assert CondSolo(cfg, c, j, s[j], times[j], exits[j]);
    }
  }

  // ---- Ending a wait -----------------------------------------------------------------------

  /** While j ends its wait, its announcement at k is in exactly one of five places; otherwise it is in
      none, and any such traffic means that j, and nobody else, holds the guard. */
  lemma ConfirmationConservation(cfg: Config, c: Name, run: seq<Label>, j: ProcessId, k: ProcessId)
    requires Exec(cfg, run).Some? && c in cfg.guard && j < cfg.n && k < cfg.n && j != k
    ensures var s := Exec(cfg, run).value;
            && Flight(s[j], k, CondWaitEnd, c) + Pending(s[k], j, CondWaitEnd, c)
               + Flight(s[k], j, CondWaitEndConfirm, c) + Pending(s[j], k, CondWaitEndConfirm, c)
               + ConfirmBit(s[j], c, k)
               == (if Ends(s[j], c) then 1 else 0)
            && (Ends(s[j], c) ==> OnlyHolder(s, cfg.guard[c], j))
  {
    RunCond(cfg, c, run);
    var s, times, exits := Exec(cfg, run).value, WaitTimes(cfg, c, run), Exits(cfg, cfg.guard[c], run);
    assert CondPair(cfg, c, j, s[j], times[j], k, s[k], exits[k]);
    assert CondSolo(cfg, c, j, s[j], times[j], exits[j]);
    if Ends(s[j], c) {
      HolderIsOnly(cfg, cfg.guard[c], s, j);
    }
  }

  ghost predicate OnlyHolder(s: State, g: Name, j: ProcessId) {
    j < |s| && Inside(s[j], g) && forall i: ProcessId :: i < |s| && i != j ==> !Inside(s[i], g)
  }

  lemma HolderIsOnly(cfg: Config, g: Name, s: State, j: ProcessId)
    requires Inv(cfg, g, s) && j < |s| && Inside(s[j], g)
    ensures OnlyHolder(s, g, j)
  {
    forall i: ProcessId | i < |s| && i != j ensures !Inside(s[i], g) {
      PairExclusion(cfg, g, s, i, j);
    }
  }
}
