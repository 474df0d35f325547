/**
  The producer-consumer program on top of the monitor.  Every process may
  produce and consume; each entry waits for its predicate, changes the ring
  once, and leaves.  Over any run of two processes (or of any number whose
  holders are always up to date) the distributed buffer is one bounded FIFO
  queue.  Over any run at all, every replica is a ring with its indices in range.
*/
module ProducerConsumer {
  import opened Packets
  import opened SyncFormat
  import opened Protocol
  import opened MutexInvariant
  import opened MutexTheorems
  import opened Flush
  import opened Replication
  import opened ReplicationTheorems
  import opened RingBuffer
  import opened EndToEnd

  datatype Op = Produce(x: Byte) | Consume

  /** Where an entry procedure of the monitor is. */
  datatype Pc =
    | Idle
    | Wanting(op: Op)   // inside wait
    | Ready(op: Op)     // the predicate held when wait decided to return
    | Done              // the ring is changed, about to leave

  datatype Client = Client(pc: seq<Pc>, produced: Bytes, consumed: Bytes)

  predicate RingOk(state: Bytes) {
    |state| == 3 + MAX_QUEUE_SIZE && RestoreState(state).Valid()
  }

  /** The predicate an operation waits for. */
  predicate Holds(op: Op, state: Bytes) {
    |state| >= 3 && if op.Produce? then !RestoreState(state).IsFull() else !RestoreState(state).IsEmpty()
  }

  function Apply(op: Op, state: Bytes): Bytes
    requires RingOk(state) && Holds(op, state)
  {
    match op
    case Produce(x) => SaveState(Put(RestoreState(state), x))
    case Consume => SaveState(Get(RestoreState(state)).0)
  }

  predicate Under(cfg: Config, m: Name, c: Name) {
    c in cfg.guard && cfg.guard[c] == m
  }

  /** What the entry procedures allow a process to do next.  The predicate is tested once, when the
      wait returns, and not again; a change on a ring that is not in order would be arbitrary. */
  ghost predicate ClientOk(cfg: Config, m: Name, p: Proc, pc: Pc, step: Step) {
    match step
    case BeginWait(c) => Under(cfg, m, c) ==> pc == Idle
    case StopWait(c) => Under(cfg, m, c) ==> pc.Wanting? && m in p.replica && Holds(pc.op, p.replica[m])
    case Update(x, state) =>
      x == m ==>
        pc.Ready? && m in p.replica
        && (RingOk(p.replica[m]) && Holds(pc.op, p.replica[m]) ==> state == Apply(pc.op, p.replica[m]))
    case SyncOut(x) => x == m ==> pc == Done
    case _ => true
  }

  ghost function PcAfter(cfg: Config, m: Name, pc: Pc, step: Step, op: Op): Pc {
    match step
    case BeginWait(c) => if Under(cfg, m, c) then Wanting(op) else pc
    case StopWait(c) => if Under(cfg, m, c) && pc.Wanting? then Ready(pc.op) else pc
    case Update(x, _) => if x == m then Done else pc
    case SyncOut(x) => if x == m then Idle else pc
    case _ => pc
  }

  ghost function ClientAfter(cfg: Config, m: Name, s: State, l: Label, op: Op, cl: Client): (cl': Client)
    requires l.proc < |s| == |cl.pc|
    ensures |cl'.pc| == |cl.pc|
  {
    var i := l.proc;
    var pc := cl.pc[i];
    var pcs := cl.pc[i := PcAfter(cfg, m, pc, l.step, op)];
    if l.step.Update? && l.step.m == m && pc.Ready? then
      match pc.op
      case Produce(x) => Client(pcs, cl.produced + [x], cl.consumed)
      case Consume =>
        var taken := if m in s[i].replica && RingOk(s[i].replica[m]) && Holds(Consume, s[i].replica[m])
                     then Get(RestoreState(s[i].replica[m])).1 else 0;
        Client(pcs, cl.produced, cl.consumed + [taken])
    else Client(pcs, cl.produced, cl.consumed)
  }

  /** The client's view of a run; None when the run is not one of the entry procedures.
      `ops` gives, for each position, the operation an entry that starts there would perform. */
  ghost function ClientRun(cfg: Config, m: Name, run: seq<Label>, ops: seq<Op>): (r: Option<Client>)
    requires Exec(cfg, run).Some? && |ops| == |run|
    ensures r.Some? ==> |r.value.pc| == cfg.n
  {
    if run == [] then Some(Client(seq(cfg.n, _ => Idle), [], []))
    else
      var last := |run| - 1;
      var s, l := Exec(cfg, run[..last]).value, run[last];
      match ClientRun(cfg, m, run[..last], ops[..last])
      case None => None
      case Some(cl) =>
        if ClientOk(cfg, m, s[l.proc], cl.pc[l.proc], l.step) then Some(ClientAfter(cfg, m, s, l, ops[last], cl))
          else None
  }

  // ---- The invariant ---------------------------------------------------------------------

  ghost predicate PcOk(cfg: Config, m: Name, p: Proc, pc: Pc) {
    && (pc.Ready? ==> Inside(p, m) && m in p.replica && Holds(pc.op, p.replica[m]))
    && (p.wait.Listening? && Under(cfg, m, p.wait.cond) ==> pc.Wanting?)
    && (p.main == Leaving(m) ==> pc == Idle)
  }

  ghost predicate QueueOk(latest: Bytes, cl: Client) {
    RingOk(latest) && cl.produced == cl.consumed + RestoreState(latest).Contents()
  }

  /** Once the wait has returned, the predicate keeps holding until the change. */
  lemma PcStep(cfg: Config, m: Name, i: ProcessId, p: Proc, pc: Pc, step: Step, op: Op)
    requires m in cfg.monitors && Solo(cfg.n, m, i, p) && LocalEnabled(cfg, p, step)
    requires PcOk(cfg, m, p, pc) && ClientOk(cfg, m, p, pc, step)
    requires DispatchesSync(p, step, m) ==> !Inside(p, m)
    ensures PcOk(cfg, m, LocalNext(cfg, p, step), PcAfter(cfg, m, pc, step, op))
  {
    LocalFramed(cfg, m, i, p, step);
    LocalSyncFramed(cfg, m, p, step);
    if step.Dispatch? {
      assert LocalNext(cfg, p, step).wait.Listening? ==> LocalNext(cfg, p, step).wait == p.wait;
    }
  }

  lemma QueueStep(m: Name, p: Proc, op: Op, cl: Client, cl': Client, latest: Bytes)
    requires QueueOk(latest, cl) && m in p.replica && p.replica[m] == latest && Holds(op, latest)
    requires match op
             case Produce(x) => cl'.produced == cl.produced + [x] && cl'.consumed == cl.consumed
             case Consume => cl'.produced == cl.produced && cl'.consumed == cl.consumed + [Get(RestoreState(latest)).1]
    ensures QueueOk(Apply(op, latest), cl')
  {
    var r := RestoreState(latest);
    match op
    case Produce(x) =>
      PutAppends(r, x);
      SaveRestore(Put(r, x));
    case Consume =>
      GetRemoves(r);
      SaveRestore(Get(r).0);
  }

  lemma {:induction false} RunQueue(cfg: Config, m: Name, run: seq<Label>, ops: seq<Op>)
    requires cfg.Valid() && m in cfg.monitors && cfg.initial[m] == SaveState(EMPTY)
    requires Exec(cfg, run).Some? && AlwaysUpToDate(cfg, m, run)
    requires |ops| == |run| && ClientRun(cfg, m, run, ops).Some?
    ensures var cl := ClientRun(cfg, m, run, ops).value;
            && QueueOk(Latest(cfg, m, run), cl)
            && (forall i :: 0 <= i < cfg.n ==> PcOk(cfg, m, Exec(cfg, run).value[i], cl.pc[i]))
  {
    if run == [] {
      SaveRestore(EMPTY);
    } else {
      var before, s, l := ExecLast(cfg, run);
      var opsBefore := ops[..|run| - 1];
      RunQueue(cfg, m, before, opsBefore);
      RunSync(cfg, m, before);
      var cl := ClientRun(cfg, m, before, opsBefore).value;
      assert Solo(cfg.n, m, l.proc, s[l.proc]);
      if DispatchesSync(s[l.proc], l.step, m) && Inside(s[l.proc], m) {
        NoUpdateUnderHolder(cfg, m, before, l.proc);
      }
      QueueNext(cfg, m, before, s, l, ops[|run| - 1], cl);
    }
  }

  lemma QueueNext(cfg: Config, m: Name, before: seq<Label>, s: State, l: Label, op: Op, cl: Client)
    requires cfg.Valid() && m in cfg.monitors && Exec(cfg, before) == Some(s) && AlwaysUpToDate(cfg, m, before)
    requires Enabled(cfg, s, l) && |cl.pc| == cfg.n && Solo(cfg.n, m, l.proc, s[l.proc])
    requires ClientOk(cfg, m, s[l.proc], cl.pc[l.proc], l.step)
    requires QueueOk(Latest(cfg, m, before), cl)
    requires forall i :: 0 <= i < cfg.n ==> PcOk(cfg, m, s[i], cl.pc[i])
    requires DispatchesSync(s[l.proc], l.step, m) ==> !Inside(s[l.proc], m)
    ensures var cl' := ClientAfter(cfg, m, s, l, op, cl);
            && QueueOk(LatestAfter(m, l.step, Latest(cfg, m, before)), cl')
            && (forall i :: 0 <= i < cfg.n ==> PcOk(cfg, m, Next(cfg, s, l)[i], cl'.pc[i]))
  {
    if l.step.Receive? {
    } else {
      PcStep(cfg, m, l.proc, s[l.proc], cl.pc[l.proc], l.step, op);
      if l.step.Update? && l.step.m == m {
        MonitorIsSequential(cfg, m, before, l.proc);
        QueueStep(m, s[l.proc], cl.pc[l.proc].op, cl, ClientAfter(cfg, m, s, l, op, cl), Latest(cfg, m, before));
      }
    }
  }

  // ---- Every replica is a ring ---------------------------------------------------------------

  /** Everything written, broadcast or restored is a serialized ring. */
  ghost predicate RingsOk(cfg: Config, m: Name, s: State, w: Watch, cl: Client) {
    && |s| == |cl.pc| == cfg.n
    && (forall t :: t in w.saved ==> RingOk(w.saved[t]))
    && (forall i :: 0 <= i < cfg.n ==> m in s[i].replica && RingOk(s[i].replica[m]) && PcOk(cfg, m, s[i], cl.pc[i]))
  }

  lemma ApplyIsRing(op: Op, state: Bytes)
    requires RingOk(state) && Holds(op, state)
    ensures RingOk(Apply(op, state))
  {
    var r := RestoreState(state);
    match op
    case Produce(x) =>
      PutAppends(r, x);
      SaveRestore(Put(r, x));
    case Consume =>
      GetRemoves(r);
      SaveRestore(Get(r).0);
  }

  /** What a process's own step makes of its replica. */
  lemma ReplicaIsRing(cfg: Config, m: Name, p: Proc, pc: Pc, step: Step, w: Watch)
    requires m in cfg.monitors && LocalEnabled(cfg, p, step) && ClientOk(cfg, m, p, pc, step) && PcOk(cfg, m, p, pc)
    requires m in p.replica && RingOk(p.replica[m])
    requires DispatchesSync(p, step, m) ==> Faithful(p.pending.value, w.saved, w.last)
    requires forall t :: t in w.saved ==> RingOk(w.saved[t])
    ensures var p' := LocalNext(cfg, p, step); m in p'.replica && RingOk(p'.replica[m])
  {
    if step.Update? && step.m == m {
      ApplyIsRing(pc.op, p.replica[m]);
    } else if !DispatchesSync(p, step, m) {
      LocalSyncFramed(cfg, m, p, step);
    }
  }

  lemma RingsNext(cfg: Config, m: Name, s: State, l: Label, w: Watch, op: Op, cl: Client)
    requires m in cfg.monitors && Enabled(cfg, s, l) && RingsOk(cfg, m, s, w, cl) && Solo(cfg.n, m, l.proc, s[l.proc])
    requires |w.sent| == |w.origin| == |w.seen| == cfg.n
    requires ClientOk(cfg, m, s[l.proc], cl.pc[l.proc], l.step)
    requires DispatchesSync(s[l.proc], l.step, m) ==>
               Faithful(s[l.proc].pending.value, w.saved, w.last) && !Inside(s[l.proc], m)
    ensures RingsOk(cfg, m, Next(cfg, s, l), WatchAfter(m, s, l, w), ClientAfter(cfg, m, s, l, op, cl))
  {
    var i := l.proc;
    if !l.step.Receive? {
      PcStep(cfg, m, i, s[i], cl.pc[i], l.step, op);
      ReplicaIsRing(cfg, m, s[i], cl.pc[i], l.step, w);
    }
  }

  lemma {:induction false} RunRings(cfg: Config, m: Name, run: seq<Label>, ops: seq<Op>)
    requires cfg.Valid() && m in cfg.monitors && cfg.initial[m] == SaveState(EMPTY)
    requires Exec(cfg, run).Some? && |ops| == |run| && ClientRun(cfg, m, run, ops).Some?
    ensures RingsOk(cfg, m, Exec(cfg, run).value, Watched(cfg, m, run), ClientRun(cfg, m, run, ops).value)
  {
    if run == [] {
      SaveRestore(EMPTY);
    } else {
      var before, s, l := ExecLast(cfg, run);
      var opsBefore := ops[..|run| - 1];
      RunRings(cfg, m, before, opsBefore);
      RunSync(cfg, m, before);
      assert Solo(cfg.n, m, l.proc, s[l.proc]);
      if DispatchesSync(s[l.proc], l.step, m) {
        PendingIsFaithful(cfg, m, s, Watched(cfg, m, before), Exits(cfg, m, before), l.proc);
        if Inside(s[l.proc], m) {
          NoUpdateUnderHolder(cfg, m, before, l.proc);
        }
      }
      RingsNext(cfg, m, s, l, Watched(cfg, m, before), ops[|run| - 1], ClientRun(cfg, m, before, opsBefore).value);
    }
  }

  /** For any number of processes and any order of delivery: every replica is a ring whose indices and
      count are in range, and every SYNC message about to be restored holds one. */
  lemma ReplicasAreRings(cfg: Config, m: Name, run: seq<Label>, ops: seq<Op>, i: ProcessId)
    requires cfg.Valid() && m in cfg.monitors && cfg.initial[m] == SaveState(EMPTY)
    requires Exec(cfg, run).Some? && i < cfg.n && |ops| == |run| && ClientRun(cfg, m, run, ops).Some?
    ensures var p := Exec(cfg, run).value[i];
            && m in p.replica && RingOk(p.replica[m])
            && (p.pending.Some? && IsSync(p.pending.value, m) ==>
                  ExtractData(p.pending.value.message).Some? && RingOk(ExtractData(p.pending.value.message).value))
  {
    RunRings(cfg, m, run, ops);
    RunSync(cfg, m, run);
    var s := Exec(cfg, run).value;
    if s[i].pending.Some? && IsSync(s[i].pending.value, m) {
      PendingIsFaithful(cfg, m, s, Watched(cfg, m, run), Exits(cfg, m, run), i);
    }
  }

  // ---- One queue -----------------------------------------------------------------------------

  /** The distributed buffer is one bounded FIFO queue: what was produced is what was consumed, followed
      by what the latest state holds; at most MAX_QUEUE_SIZE characters are outstanding. */
  lemma BoundedFifoQueue(cfg: Config, m: Name, run: seq<Label>, ops: seq<Op>)
    requires cfg.Valid() && m in cfg.monitors && cfg.initial[m] == SaveState(EMPTY)
    requires Exec(cfg, run).Some? && (cfg.n == 2 || AlwaysUpToDate(cfg, m, run))
    requires |ops| == |run| && ClientRun(cfg, m, run, ops).Some?
    ensures var cl := ClientRun(cfg, m, run, ops).value;
            && RingOk(Latest(cfg, m, run))
            && cl.produced == cl.consumed + RestoreState(Latest(cfg, m, run)).Contents()
            && cl.consumed <= cl.produced && |cl.produced| <= |cl.consumed| + MAX_QUEUE_SIZE
  {
    if cfg.n == 2 {
      EnteredByTwo(cfg, m, run, 0, 1);
      UpToDateAmongTwo(cfg, m, run, 0, 1);
    }
    RunQueue(cfg, m, run, ops);
  }
}
