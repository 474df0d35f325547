/**
  The calls a program may make, as runs: what each of them needs, and what it
  has done to the process, to its channels and to nobody else when it blocks or
  returns.  The other theorems are about every run there is; these say which
  runs there are.
*/
module Calls {
  import opened Packets
  import opened Network
  import opened SyncFormat
  import opened Protocol
  import opened MutexInvariant
  import opened Flush
  import opened ConditionInvariant
  import opened ConditionRuns
  import opened Dispatchable
  import opened ConditionAlgorithm
  import opened ExclusionAlgorithm
  import opened Monitor

  /** One packet, stamped with the clock plus one, to every other process. */
  ghost predicate Broadcasts(p: Proc, t: MessageType, x: Bytes, p': Proc) {
    && p'.net.id == p.net.id && p'.net.clock == p.net.clock + 1
    && SentToOthers(p.net.out, p.net.id, Packet(p.net.clock + 1, p.net.id, t, x), p'.net.out)
  }

  /** A step of one process, as the next of a run. */
  lemma StepIsRun(cfg: Config, run: seq<Label>, s: State, i: ProcessId, step: Step)
    requires Exec(cfg, run) == Some(s) && i < cfg.n && LocalEnabled(cfg, s[i], step)
    ensures Exec(cfg, run + [Label(i, step)]) == Some(s[i := LocalNext(cfg, s[i], step)])
  {
    ExecSnoc(cfg, run, s, Label(i, step));
  }

  lemma SendingOthers(p: Proc, t: MessageType, x: Bytes, p': Proc)
    requires p'.net == SendOthers(p.net, t, x)
    ensures Broadcasts(p, t, x, p')
  {
  }

  // ---- The receiving thread ---------------------------------------------------------------------

  /** The head of any channel can be taken when nothing is undispatched; the clock is then above both its
      old value and the stamp, by one above the larger. */
  lemma ReceiveIsRun(cfg: Config, run: seq<Label>, s: State, i: ProcessId, j: ProcessId)
    requires Exec(cfg, run) == Some(s) && i < cfg.n && j < cfg.n && i != j
    requires s[i].pending == None && i < |s[j].net.out| && s[j].net.out[i] != []
    ensures var end, k := Exec(cfg, run + [Label(i, Receive(j))]), s[j].net.out[i][0];
            && end.Some? && |end.value| == |s|
            && (forall x :: 0 <= x < |s| && x != i && x != j ==> end.value[x] == s[x])
            && end.value[i] == s[i].(pending := Some(k), net := s[i].net.(clock := end.value[i].net.clock))
            && end.value[i].net.clock > s[i].net.clock && end.value[i].net.clock > k.lamportTime
            && (end.value[i].net.clock == s[i].net.clock + 1 || end.value[i].net.clock == k.lamportTime + 1)
            && end.value[j] == s[j].(net := s[j].net.(out := s[j].net.out[i := s[j].net.out[i][1..]]))
  {
    ExecSnoc(cfg, run, s, Label(i, Receive(j)));
    MergeIsLeast(s[i].net.clock, s[j].net.out[i][0].lamportTime);
  }

  /** The receiving thread of i takes its next packet from j, or dispatches the one it has. */
  lemma NextOf(cfg: Config, run: seq<Label>, s: State, i: ProcessId, j: ProcessId) returns (l: Label, s': State)
    requires cfg.Valid() && Exec(cfg, run) == Some(s) && i < cfg.n && j < cfg.n && i != j && !s[i].main.Releasing?
    requires i < |s[j].net.out| && (s[i].pending.Some? || s[j].net.out[i] != [])
    ensures l == Label(i, Receive(j)) || l == Label(i, Dispatch)
    ensures Exec(cfg, run + [l]) == Some(s') && !s'[i].main.Releasing? && i < |s'[j].net.out|
    ensures if s[i].pending.Some? then s'[i].pending.None? && s'[j] == s[j]
            else |s'[j].net.out[i]| < |s[j].net.out[i]|
  {
    if s[i].pending.Some? {
      NoPacketUndispatchable(cfg, run, i);
      l := Label(i, Dispatch);
      StepIsRun(cfg, run, s, i, Dispatch);
    } else {
      l := Label(i, Receive(j));
      ReceiveIsRun(cfg, run, s, i, j);
    }
    s' := Exec(cfg, run + [l]).value;
  }

  lemma Regroup(run: seq<Label>, l: Label, rest: seq<Label>)
    ensures run + [l] + rest == run + ([l] + rest)
  {
  }

  /** A process that is not inside releaseMutex can empty any channel to it by its own receiving steps. */
  lemma {:induction false} Arrives(cfg: Config, run: seq<Label>, s: State, i: ProcessId, j: ProcessId)
    returns (more: seq<Label>, s': State)
    requires cfg.Valid() && Exec(cfg, run) == Some(s) && i < cfg.n && j < cfg.n && i != j && !s[i].main.Releasing?
    requires i < |s[j].net.out|
    ensures Exec(cfg, run + more) == Some(s') && s'[i].pending == None
    ensures i < |s'[j].net.out| && s'[j].net.out[i] == []
    ensures forall l :: l in more ==> l == Label(i, Receive(j)) || l == Label(i, Dispatch)
    decreases |s[j].net.out[i]|, if s[i].pending.Some? then 1 else 0
  {
    if s[i].pending.None? && s[j].net.out[i] == [] {
      more, s' := [], s;
      assert run + [] == run;
    } else {
      var l, next := NextOf(cfg, run, s, i, j);
      var rest;
      rest, s' := Arrives(cfg, run + [l], next, i, j);
      more := [l] + rest;
      Regroup(run, l, rest);
    }
  }

  // ---- Locking and unlocking ---------------------------------------------------------------------

  /** Where the main thread may lock m: between statements, or inside a wait under it. */
  ghost predicate AtLock(cfg: Config, p: Proc, m: Name) {
    && p.main == Free
    && (p.wait == NoWait || (p.wait.Listening? && p.wait.cond in cfg.guard && cfg.guard[p.wait.cond] == m))
  }

  lemma LockSteps(cfg: Config, p: Proc, m: Name)
    requires m in cfg.mutexes && m !in p.held && AtLock(cfg, p, m)
    ensures LocalEnabled(cfg, p, Step.Subscribe(m))
    ensures LocalNext(cfg, p, Step.Subscribe(m)) == p.(main := Subscribed(m))
    ensures LocalEnabled(cfg, p.(main := Subscribed(m)), Queue(m))
    ensures var p' := LocalNext(cfg, p.(main := Subscribed(m)), Queue(m));
            && p'.net == SendOthers(p.net, MutexRequest, m)
            && p' == p.(net := p'.net, queued := p.queued[m := p.net.clock + 1], main := Requesting(m, map[]))
  {
  }

  /** lock, until it blocks. */
  lemma LockIsRun(cfg: Config, run: seq<Label>, s: State, i: ProcessId, m: Name) returns (p': Proc)
    requires Exec(cfg, run) == Some(s) && i < cfg.n && m in cfg.mutexes && m !in s[i].held && AtLock(cfg, s[i], m)
    ensures Exec(cfg, run + [Label(i, Step.Subscribe(m))] + [Label(i, Queue(m))]) == Some(s[i := p'])
    ensures p' == s[i].(net := p'.net, queued := s[i].queued[m := s[i].net.clock + 1], main := Requesting(m, map[]))
    ensures Broadcasts(s[i], MutexRequest, m, p')
  {
    LockSteps(cfg, s[i], m);
    var p := s[i].(main := Subscribed(m));
    p' := LocalNext(cfg, p, Queue(m));
    StepIsRun(cfg, run, s, i, Step.Subscribe(m));
    StepIsRun(cfg, run + [Label(i, Step.Subscribe(m))], s[i := p], i, Queue(m));
    assert s[i := p][i := p'] == s[i := p'];
    SendingOthers(s[i], MutexRequest, m, p');
  }

  /** lock returns exactly when everybody has agreed. */
  lemma EntersExactly(cfg: Config, run: seq<Label>, s: State, i: ProcessId, m: Name)
    requires Exec(cfg, run) == Some(s) && i < cfg.n && s[i].main.Requesting? && s[i].main.name == m
    ensures var end := Exec(cfg, run + [Label(i, Enter(m))]);
            && (end.Some? <==> forall k: nat :: k < cfg.n && k != i ==>
                                                  PacketKey(k, MutexAgreement, m) in s[i].main.agreements)
            && (end.Some? ==> end.value == s[i := s[i].(main := Free, held := s[i].held + {m})])
  {
    RunInv(cfg, m, run);
    assert Solo(cfg.n, m, i, s[i]);
    AllReceived(cfg.n, m, i, s[i].main.agreements);
    assert forall k: nat :: k in Others(cfg.n, i) ==> AgreementKey(k, m) == PacketKey(k, MutexAgreement, m);
    var l := Label(i, Enter(m));
    assert (run + [l])[..|run|] == run;
  }

  lemma LeaveStep(cfg: Config, p: Proc, m: Name)
    requires m in p.held && AtLock(cfg, p, m) && (p.wait == NoWait ==> m !in cfg.monitors)
    ensures LocalEnabled(cfg, p, BeginRelease(m))
    ensures LocalNext(cfg, p, BeginRelease(m)) == LeaveSection(p, m)
    ensures LeaveSection(p, m).main == Releasing(m) && DeferredOf(LeaveSection(p, m), m) == DeferredOf(p, m)
  {
  }

  lemma ReleaseAt(cfg: Config, run: seq<Label>, s: State, i: ProcessId, p: Proc, m: Name, order: seq<ProcessId>)
    requires i < |s| && Exec(cfg, run) == Some(s[i := p]) && p.main == Releasing(m)
    requires IsOrder(m, DeferredOf(p, m), order)
    ensures Exec(cfg, run + ReleaseSteps(i, m, order)) == Some(s[i := FinishRelease(GrantAll(p, m, order), m)])
  {
    var p' := FinishRelease(GrantAll(p, m, order), m);
    ReleaseIsRun(cfg, run, s[i := p], i, m, order);
    assert s[i := p][i := p'] == s[i := p'];
  }

  /** unlock: of a mutex that belongs to no monitor, or inside a wait. */
  lemma UnlockIsRun(cfg: Config, run: seq<Label>, s: State, i: ProcessId, m: Name, order: seq<ProcessId>)
    requires Exec(cfg, run) == Some(s) && i < cfg.n && m in s[i].held && AtLock(cfg, s[i], m)
    requires s[i].wait == NoWait ==> m !in cfg.monitors
    requires IsOrder(m, DeferredOf(s[i], m), order)
    ensures Exec(cfg, run + [Label(i, BeginRelease(m))] + ReleaseSteps(i, m, order))
            == Some(s[i := FinishRelease(GrantAll(LeaveSection(s[i], m), m, order), m)])
  {
    LeaveStep(cfg, s[i], m);
    StepIsRun(cfg, run, s, i, BeginRelease(m));
    ReleaseAt(cfg, run + [Label(i, BeginRelease(m))], s, i, LeaveSection(s[i], m), m, order);
  }

  /** What unlocking leaves: nothing held or queued, everybody deferred answered. */
  lemma Unlocked(p: Proc, m: Name, order: seq<ProcessId>)
    requires IsOrder(m, DeferredOf(p, m), order)
    ensures var p' := FinishRelease(GrantAll(LeaveSection(p, m), m, order), m);
            && p'.main == Free && p'.held == p.held - {m} && p'.queued == p.queued - {m}
            && p'.deferred == p.deferred[m := map[]] && p'.changed == p.changed - {m}
            && p'.wait == p.wait && p'.waiters == p.waiters && p'.replica == p.replica && p'.pending == p.pending
            && p'.net.clock == p.net.clock + |order|
            && Agreed(p.net.out, p.net.clock, p.net.id, m, order, p'.net.out)
  {
    GrantAllFrame(LeaveSection(p, m), m, order);
    GrantAllSends(LeaveSection(p, m), m, order);
  }

  lemma PublishStep(cfg: Config, p: Proc, m: Name)
    requires m in cfg.monitors && m in p.held && p.main == Free && p.wait == NoWait && m in p.replica
    ensures LocalEnabled(cfg, p, SyncOut(m))
    ensures Broadcasts(p, MessageType.Sync, [|m| % 256] + m + p.replica[m], LocalNext(cfg, p, SyncOut(m)))
  {
    SendingOthers(p, MessageType.Sync, PackSync(m, p.replica[m]), LocalNext(cfg, p, SyncOut(m)));
  }

  /** The end of a monitor entry: it can begin as soon as the entry's own statements are over. */
  lemma EntryEnds(cfg: Config, run: seq<Label>, s: State, i: ProcessId, m: Name, order: seq<ProcessId>)
    returns (p': Proc)
    requires cfg.Valid() && Exec(cfg, run) == Some(s) && i < cfg.n && m in cfg.monitors && m in s[i].held
    requires s[i].main == Free && s[i].wait == NoWait && IsOrder(m, DeferredOf(s[i], m), order)
    ensures m in s[i].replica && Exec(cfg, run + [Label(i, SyncOut(m))]) == Some(s[i := p'])
    ensures Broadcasts(s[i], MessageType.Sync, [|m| % 256] + m + s[i].replica[m], p')
    ensures Exec(cfg, run + EndEntrySteps(i, m, order))
            == Some(s[i := FinishRelease(GrantAll(LeaveSection(p', m), m, order), m)])
  {
    RunTidy(cfg, run);
    assert Tidy(cfg, s[i]);
    PublishStep(cfg, s[i], m);
    p' := LocalNext(cfg, s[i], SyncOut(m));
    StepIsRun(cfg, run, s, i, SyncOut(m));
    EndEntryIsRun(cfg, run, s, i, m, order);
  }

  /** Inside a monitor, between statements, its state can be changed. */
  lemma UpdateIsRun(cfg: Config, run: seq<Label>, s: State, i: ProcessId, m: Name, state: Bytes)
    requires Exec(cfg, run) == Some(s) && i < cfg.n && m in cfg.monitors && m in s[i].held
    requires s[i].main == Free && s[i].wait == NoWait && 1 + |m| + |state| <= 0x7FFF_FFFF_FFFF_FFFF
    ensures Exec(cfg, run + [Label(i, Update(m, state))])
            == Some(s[i := s[i].(replica := s[i].replica[m := state], changed := s[i].changed + {m})])
  {
    StepIsRun(cfg, run, s, i, Update(m, state));
  }

  // ---- Waiting and notifying -----------------------------------------------------------------------

  /** wait, until it gives up its mutex; UnlockIsRun and LockIsRun are what follows. */
  lemma WaitBegins(cfg: Config, run: seq<Label>, s: State, i: ProcessId, c: Name)
    returns (p': Proc)
    requires Exec(cfg, run) == Some(s) && i < cfg.n && c in cfg.guard && s[i].main == Free && s[i].wait == NoWait
    requires cfg.guard[c] in s[i].held && cfg.guard[c] !in s[i].changed
    ensures Exec(cfg, run + [Label(i, BeginWait(c))]) == Some(s[i := p'])
    ensures p' == s[i].(net := p'.net, wait := Listening(c)) && Broadcasts(s[i], CondWait, c, p')
  {
    StepIsRun(cfg, run, s, i, BeginWait(c));
    p' := LocalNext(cfg, s[i], BeginWait(c));
    SendingOthers(s[i], CondWait, c, p');
  }

  /** Once it holds the mutex again it may announce its end. */
  lemma WaitEnds(cfg: Config, run: seq<Label>, s: State, i: ProcessId, c: Name)
    returns (p': Proc)
    requires Exec(cfg, run) == Some(s) && i < cfg.n && c in cfg.guard && s[i].main == Free && s[i].wait == Listening(c)
    requires cfg.guard[c] in s[i].held
    ensures Exec(cfg, run + [Label(i, StopWait(c))]) == Some(s[i := p'])
    ensures p' == s[i].(net := p'.net, wait := Ending(c, map[])) && Broadcasts(s[i], CondWaitEnd, c, p')
  {
    StepIsRun(cfg, run, s, i, StopWait(c));
    p' := LocalNext(cfg, s[i], StopWait(c));
    SendingOthers(s[i], CondWaitEnd, c, p');
  }

  /** wait returns exactly when everybody has confirmed. */
  lemma WaitReturnsExactly(cfg: Config, run: seq<Label>, s: State, i: ProcessId, c: Name)
    requires Exec(cfg, run) == Some(s) && i < cfg.n && c in cfg.guard && s[i].wait.Ending? && s[i].wait.cond == c
    ensures var end := Exec(cfg, run + [Label(i, FinishWait(c))]);
            && (end.Some? <==> forall k: nat :: k < cfg.n && k != i ==>
                                                  PacketKey(k, CondWaitEndConfirm, c) in s[i].wait.confirmations)
            && (end.Some? ==> end.value == s[i := s[i].(wait := NoWait)])
  {
    ReachableWaiters(cfg, c, run, i);
    AllFrom(cfg.n, CondWaitEndConfirm, c, i, s[i].wait.confirmations);
    var l := Label(i, FinishWait(c));
    assert (run + [l])[..|run|] == run;
  }

  /** Under the guard anybody may be notified at any time. */
  lemma NotifyIsRun(cfg: Config, run: seq<Label>, s: State, i: ProcessId, c: Name)
    requires Exec(cfg, run) == Some(s) && i < cfg.n && c in cfg.guard && s[i].main == Free && s[i].wait == NoWait
    requires cfg.guard[c] in s[i].held
    ensures Exec(cfg, run + [Label(i, NotifyOne(c))]) == Some(s[i := NotifyOneNext(s[i], c)])
    ensures Exec(cfg, run + [Label(i, NotifyAll(c))]) == Some(s[i := NotifyAllNext(s[i], c)])
  {
    StepIsRun(cfg, run, s, i, NotifyOne(c));
    StepIsRun(cfg, run, s, i, NotifyAll(c));
  }
}
