/**
  What produce and consume can do: when their waits may return, and what they
  then produce and consume, in terms of the characters produced and consumed in
  the whole run.
*/
module Entries {
  import opened Packets
  import opened SyncFormat
  import opened Protocol
  import opened ExclusionAlgorithm
  import opened ReplicationTheorems
  import opened EndToEnd
  import opened RingBuffer
  import opened Calls
  import opened ProducerConsumer

  /** A run of the program, so far. */
  ghost predicate ProgramRun(cfg: Config, m: Name, run: seq<Label>, ops: seq<Op>, s: State, cl: Client) {
    && cfg.Valid() && m in cfg.monitors && cfg.initial[m] == SaveState(EMPTY)
    && Exec(cfg, run) == Some(s) && (cfg.n == 2 || AlwaysUpToDate(cfg, m, run))
    && |ops| == |run| && ClientRun(cfg, m, run, ops) == Some(cl)
  }

  /** What the program's next step may be, and what it makes of the client. */
  lemma ClientSnoc(cfg: Config, m: Name, run: seq<Label>, ops: seq<Op>, s: State, cl: Client, l: Label, op: Op)
    requires ProgramRun(cfg, m, run, ops, s, cl) && Exec(cfg, run + [l]).Some?
    ensures l.proc < |s| == |cl.pc|
    ensures ClientRun(cfg, m, run + [l], ops + [op])
            == if ClientOk(cfg, m, s[l.proc], cl.pc[l.proc], l.step) then Some(ClientAfter(cfg, m, s, l, op, cl))
               else None
  {
    assert (run + [l])[..|run|] == run && (ops + [op])[..|run|] == ops;
    ProcsBounded(cfg, run + [l]);
    assert (run + [l])[|run|] == l;
  }

  /** The process inside the monitor has the whole queue. */
  lemma HolderHasQueue(cfg: Config, m: Name, run: seq<Label>, ops: seq<Op>, s: State, cl: Client, i: ProcessId)
    requires ProgramRun(cfg, m, run, ops, s, cl) && i < cfg.n && m in s[i].held
    ensures m in s[i].replica && RingOk(s[i].replica[m]) && PcOk(cfg, m, s[i], cl.pc[i])
    ensures cl.produced == cl.consumed + RestoreState(s[i].replica[m]).Contents()
  {
    if cfg.n == 2 {
      EnteredByTwo(cfg, m, run, 0, 1);
      UpToDateAmongTwo(cfg, m, run, 0, 1);
    }
    MonitorIsSequential(cfg, m, run, i);
    RunQueue(cfg, m, run, ops);
  }

  /** An entry starts with its wait. */
  lemma EntryBegins(cfg: Config, m: Name, run: seq<Label>, ops: seq<Op>, s: State, cl: Client, i: ProcessId, c: Name,
                    op: Op)
    requires ProgramRun(cfg, m, run, ops, s, cl) && i < cfg.n && Under(cfg, m, c) && cl.pc[i] == Idle
    requires m in s[i].held && m !in s[i].changed && s[i].main == Free && s[i].wait == NoWait
    ensures var run' := run + [Label(i, BeginWait(c))];
            && Exec(cfg, run').Some?
            && ClientRun(cfg, m, run', ops + [op]) == Some(cl.(pc := cl.pc[i := Wanting(op)]))
  {
    var p' := WaitBegins(cfg, run, s, i, c);
    ClientSnoc(cfg, m, run, ops, s, cl, Label(i, BeginWait(c)), op);
  }

  /** Inside the monitor again, a wait of produce may return exactly when fewer than MAX_QUEUE_SIZE characters
      are outstanding, and one of consume exactly when there is one. */
  lemma WaitOverExactly(cfg: Config, m: Name, run: seq<Label>, ops: seq<Op>, s: State, cl: Client, i: ProcessId,
                        c: Name, op: Op)
    requires ProgramRun(cfg, m, run, ops, s, cl) && i < cfg.n && Under(cfg, m, c)
    requires m in s[i].held && s[i].main == Free && s[i].wait == Listening(c)
    ensures var run' := run + [Label(i, StopWait(c))];
            && Exec(cfg, run').Some? && cl.pc[i].Wanting?
            && (ClientRun(cfg, m, run', ops + [op]).Some? <==>
                  if cl.pc[i].op.Produce? then |cl.produced| < |cl.consumed| + MAX_QUEUE_SIZE
                  else |cl.consumed| < |cl.produced|)
            && (ClientRun(cfg, m, run', ops + [op]).Some? ==>
                  ClientRun(cfg, m, run', ops + [op]) == Some(cl.(pc := cl.pc[i := Ready(cl.pc[i].op)])))
  {
    HolderHasQueue(cfg, m, run, ops, s, cl, i);
    FullExactly(RestoreState(s[i].replica[m]));
    var p' := WaitEnds(cfg, run, s, i, c);
    ClientSnoc(cfg, m, run, ops, s, cl, Label(i, StopWait(c)), op);
  }

  lemma OldestIsNext(produced: Bytes, consumed: Bytes, rest: Bytes)
    requires produced == consumed + rest && rest != []
    ensures |consumed| < |produced| && produced[|consumed|] == rest[0]
  {
  }

  /** Once its wait has returned, produce can append its character, and consume can take the oldest that has
      not been consumed. */
  lemma ChangeIsRun(cfg: Config, m: Name, run: seq<Label>, ops: seq<Op>, s: State, cl: Client, i: ProcessId, op: Op)
    returns (state: Bytes)
    requires ProgramRun(cfg, m, run, ops, s, cl) && i < cfg.n && cl.pc[i].Ready?
    requires m in s[i].held && s[i].main == Free && s[i].wait == NoWait
    ensures var run' := run + [Label(i, Update(m, state))];
            && Exec(cfg, run').Some?
            && (cl.pc[i].op.Consume? ==> |cl.consumed| < |cl.produced|)
            && ClientRun(cfg, m, run', ops + [op])
               == Some(match cl.pc[i].op
                       case Produce(x) => Client(cl.pc[i := Done], cl.produced + [x], cl.consumed)
                       case Consume =>
                         Client(cl.pc[i := Done], cl.produced, cl.consumed + [cl.produced[|cl.consumed|]]))
  {
    HolderHasQueue(cfg, m, run, ops, s, cl, i);
    var r := RestoreState(s[i].replica[m]);
    FullExactly(r);
    state := Apply(cl.pc[i].op, s[i].replica[m]);
    if cl.pc[i].op.Consume? {
      GetRemoves(r);
      OldestIsNext(cl.produced, cl.consumed, r.Contents());
    }
    UpdateIsRun(cfg, run, s, i, m, state);
    ClientSnoc(cfg, m, run, ops, s, cl, Label(i, Update(m, state)), op);
  }

  /** An entry that has made its change can end. */
  lemma EntryLeaves(cfg: Config, m: Name, run: seq<Label>, ops: seq<Op>, s: State, cl: Client, i: ProcessId, op: Op)
    requires ProgramRun(cfg, m, run, ops, s, cl) && i < cfg.n && cl.pc[i] == Done
    requires m in s[i].held && s[i].main == Free && s[i].wait == NoWait
    ensures var run' := run + [Label(i, SyncOut(m))];
            && Exec(cfg, run').Some?
            && ClientRun(cfg, m, run', ops + [op]) == Some(cl.(pc := cl.pc[i := Idle]))
  {
    HolderHasQueue(cfg, m, run, ops, s, cl, i);
    PublishStep(cfg, s[i], m);
    StepIsRun(cfg, run, s, i, SyncOut(m));
    ClientSnoc(cfg, m, run, ops, s, cl, Label(i, SyncOut(m)), op);
  }
}
