/**
  What goes wrong with three processes.  Two runs of the step system, for every
  configuration of three processes: one in which a process enters a monitor
  with a state that is not the latest, and one in which a holder's waiter table
  is empty although a process is waiting.

  The runs are played on views, which keep of each process only what matters
  here; every move on views is carried out by steps of the system.  The lemmas
  about scripts of moves compute with given lists, so automatic induction is off.
*/
module ThreeProcesses {
  import opened Packets
  import opened Network
  import opened SyncFormat
  import opened Protocol
  import opened MutexInvariant
  import opened ConditionInvariant
  import opened Replication
  import opened ReplicationTheorems
  import opened EndToEnd

  datatype Lock = Outside | Asking(got: set<ProcessId>) | Within
  datatype Stage = NotWaiting | Waits | Stopped(confirmed: set<ProcessId>)

  /** `waiters` bounds the processes in the waiter table. */
  datatype View = View(lock: Lock, stage: Stage, waiters: set<ProcessId>, replica: Bytes, out: seq<seq<PacketKey>>)

  function KeysOf(ch: seq<Packet>): seq<PacketKey> {
    seq(|ch|, k requires 0 <= k < |ch| => ch[k].Key())
  }

  ghost predicate LockSeen(m: Name, p: Proc, lock: Lock) {
    match lock
    case Outside => p.main == Free && m !in p.held && m !in p.queued
    case Asking(got) =>
      && Waiting(p, m) && m !in p.held && m in p.queued
      && p.main.agreements.Keys == set j | j in got :: AgreementKey(j, m)
    case Within => p.main == Free && m in p.held && m in p.queued
  }

  ghost predicate StageSeen(c: Name, p: Proc, stage: Stage) {
    match stage
    case NotWaiting => p.wait == NoWait
    case Waits => p.wait == Listening(c)
    case Stopped(confirmed) => Ends(p, c) && p.wait.confirmations.Keys == set j | j in confirmed :: ConfirmKey(j, c)
  }

  ghost predicate OutSeen(p: Proc, out: seq<seq<PacketKey>>) {
    |p.net.out| == |out| == 3 && forall j :: 0 <= j < 3 ==> KeysOf(p.net.out[j]) == out[j]
  }

  ghost predicate Seen(m: Name, c: Name, i: ProcessId, p: Proc, v: View) {
    && p.net.id == i && OutSeen(p, v.out) && p.pending == None
    && LockSeen(m, p, v.lock) && StageSeen(c, p, v.stage)
    && DeferredOf(p, m) == map[] && m !in p.changed
    && m in p.replica && p.replica[m] == v.replica
    && Sources(WaitersOf(p, c)) <= v.waiters
  }

  ghost predicate Setup(cfg: Config, m: Name) {
    cfg.Valid() && cfg.n == 3 && m in cfg.monitors
  }

  predicate Guards(cfg: Config, m: Name, c: Name) {
    c in cfg.guard && cfg.guard[c] == m
  }

  // ---- One process, one packet ----------------------------------------------------------

  function Append(out: seq<seq<PacketKey>>, to: set<ProcessId>, k: PacketKey): seq<seq<PacketKey>> {
    seq(|out|, j requires 0 <= j < |out| => if j in to then out[j] + [k] else out[j])
  }

  lemma SendSeen(p: Proc, p': Proc, out: seq<seq<PacketKey>>, t: MessageType, x: Bytes, to: set<ProcessId>)
    requires OutSeen(p, out) && p'.net == Send(p.net, t, x, to)
    ensures OutSeen(p', Append(out, to, PacketKey(p.net.id, t, x)))
  {
    forall j | 0 <= j < 3 ensures KeysOf(p'.net.out[j]) == Append(out, to, PacketKey(p.net.id, t, x))[j] {
      if j in to {
        assert KeysOf(p.net.out[j] + [Stamped(p.net, t, x)]) == KeysOf(p.net.out[j]) + [PacketKey(p.net.id, t, x)];
      }
    }
  }

  /** A packet the process, as viewed, can dispatch, and the view afterwards. */
  predicate CanHandle(cfg: Config, m: Name, c: Name, v: View, k: PacketKey) {
    k.source < 3 &&
    match k.messageType
    case MutexRequest => k.message == m && v.lock.Outside?
    case MutexAgreement => k.message == m && v.lock.Asking?
    case CondWait => k.message == c && c in cfg.guard
    case CondWaitEnd => k.message == c && c in cfg.guard
    case CondWaitEndConfirm => k.message == c && v.stage.Stopped?
    case CondNotify => false
    case Sync => ExtractName(k.message) == Some(m) && ExtractData(k.message).Some?
  }

  function AfterHandling(cfg: Config, m: Name, c: Name, i: ProcessId, v: View, k: PacketKey): View
    requires CanHandle(cfg, m, c, v, k)
  {
    match k.messageType
    case MutexRequest => v.(out := Append(v.out, {k.source}, AgreementKey(i, m)))
    case MutexAgreement => v.(lock := Asking(v.lock.got + {k.source}))
    case CondWait => v.(waiters := v.waiters + {k.source})
    case CondWaitEnd => v.(waiters := {}, out := Append(v.out, {k.source}, ConfirmKey(i, c)))
    case CondWaitEndConfirm => v.(stage := Stopped(v.stage.confirmed + {k.source}))
    case Sync => v.(replica := ExtractData(k.message).value)
  }

  lemma HandleRequest(cfg: Config, m: Name, c: Name, i: ProcessId, p: Proc, v: View, k: Packet)
    requires Setup(cfg, m) && Seen(m, c, i, p, v) && CanHandle(cfg, m, c, v, k.Key()) && k.messageType.MutexRequest?
    ensures LocalEnabled(cfg, Take(p, k), Dispatch)
    ensures Seen(m, c, i, LocalNext(cfg, Take(p, k), Dispatch), AfterHandling(cfg, m, c, i, v, k.Key()))
  {
    SendSeen(Take(p, k), LocalNext(cfg, Take(p, k), Dispatch), v.out, MutexAgreement, m, {k.source});
  }

  lemma HandleAgreement(cfg: Config, m: Name, c: Name, i: ProcessId, p: Proc, v: View, k: Packet)
    requires Setup(cfg, m) && Seen(m, c, i, p, v) && CanHandle(cfg, m, c, v, k.Key()) && k.messageType.MutexAgreement?
    ensures LocalEnabled(cfg, Take(p, k), Dispatch)
    ensures Seen(m, c, i, LocalNext(cfg, Take(p, k), Dispatch), AfterHandling(cfg, m, c, i, v, k.Key()))
  {
  }

  lemma HandleWait(cfg: Config, m: Name, c: Name, i: ProcessId, p: Proc, v: View, k: Packet)
    requires Setup(cfg, m) && Seen(m, c, i, p, v) && CanHandle(cfg, m, c, v, k.Key()) && k.messageType.CondWait?
    ensures LocalEnabled(cfg, Take(p, k), Dispatch)
    ensures Seen(m, c, i, LocalNext(cfg, Take(p, k), Dispatch), AfterHandling(cfg, m, c, i, v, k.Key()))
  {
    var p' := LocalNext(cfg, Take(p, k), Dispatch);
    assert WaitersOf(p', c) == InsertByTime(WaitersOf(p, c), k);
  }

  lemma HandleWaitEnd(cfg: Config, m: Name, c: Name, i: ProcessId, p: Proc, v: View, k: Packet)
    requires Setup(cfg, m) && Seen(m, c, i, p, v) && CanHandle(cfg, m, c, v, k.Key()) && k.messageType.CondWaitEnd?
    ensures LocalEnabled(cfg, Take(p, k), Dispatch)
    ensures Seen(m, c, i, LocalNext(cfg, Take(p, k), Dispatch), AfterHandling(cfg, m, c, i, v, k.Key()))
  {
    var p' := LocalNext(cfg, Take(p, k), Dispatch);
    assert WaitersOf(p', c) == map[];
    SendSeen(Take(p, k), p', v.out, CondWaitEndConfirm, c, {k.source});
  }

  lemma HandleConfirm(cfg: Config, m: Name, c: Name, i: ProcessId, p: Proc, v: View, k: Packet)
    requires Setup(cfg, m) && Seen(m, c, i, p, v) && CanHandle(cfg, m, c, v, k.Key())
             && k.messageType.CondWaitEndConfirm?
    ensures LocalEnabled(cfg, Take(p, k), Dispatch)
    ensures Seen(m, c, i, LocalNext(cfg, Take(p, k), Dispatch), AfterHandling(cfg, m, c, i, v, k.Key()))
  {
  }

  lemma HandleSync(cfg: Config, m: Name, c: Name, i: ProcessId, p: Proc, v: View, k: Packet)
    requires Setup(cfg, m) && Seen(m, c, i, p, v) && CanHandle(cfg, m, c, v, k.Key()) && k.messageType.Sync?
    ensures LocalEnabled(cfg, Take(p, k), Dispatch)
    ensures Seen(m, c, i, LocalNext(cfg, Take(p, k), Dispatch), AfterHandling(cfg, m, c, i, v, k.Key()))
  {
  }

  lemma HandleSeen(cfg: Config, m: Name, c: Name, i: ProcessId, p: Proc, v: View, k: Packet)
    requires Setup(cfg, m) && Seen(m, c, i, p, v) && CanHandle(cfg, m, c, v, k.Key())
    ensures LocalEnabled(cfg, Take(p, k), Dispatch)
    ensures Seen(m, c, i, LocalNext(cfg, Take(p, k), Dispatch), AfterHandling(cfg, m, c, i, v, k.Key()))
  {
    match k.messageType
    case MutexRequest => HandleRequest(cfg, m, c, i, p, v, k);
    case MutexAgreement => HandleAgreement(cfg, m, c, i, p, v, k);
    case CondWait => HandleWait(cfg, m, c, i, p, v, k);
    case CondWaitEnd => HandleWaitEnd(cfg, m, c, i, p, v, k);
    case CondWaitEndConfirm => HandleConfirm(cfg, m, c, i, p, v, k);
    case Sync => HandleSync(cfg, m, c, i, p, v, k);
  }

  lemma DropSeen(m: Name, c: Name, i: ProcessId, p: Proc, v: View, j: ProcessId)
    requires Seen(m, c, i, p, v) && j < 3 && p.net.out[j] != []
    ensures Seen(m, c, i, DropHead(p, j), v.(out := v.out[j := v.out[j][1..]]))
  {
    assert KeysOf(p.net.out[j][1..]) == KeysOf(p.net.out[j])[1..];
  }

  // ---- One process, steps of its own ---------------------------------------------------------

  function Broadcast(i: ProcessId, m: Name, state: Bytes): PacketKey {
    PacketKey(i, MessageType.Sync, PackSync(m, state))
  }

  function Peers(i: ProcessId): set<ProcessId> { {0, 1, 2} - {i} }

  datatype Move =
    | Ask(i: ProcessId)                        // lock, up to the request
    | Get(i: ProcessId)                        // lock, once the agreements are there
    | Publish(i: ProcessId, state: Bytes)      // write, broadcast, unlock
    | Pause(i: ProcessId)                      // announce a wait, unlock
    | Stop(i: ProcessId)                       // announce the end of the wait
    | Finish(i: ProcessId)                     // once the confirmations are there
    | Fetch(i: ProcessId, from: ProcessId)     // take a packet and dispatch it

  predicate CanMove(cfg: Config, m: Name, c: Name, vs: seq<View>, mv: Move) {
    |vs| == 3 && mv.i < 3 &&
    var v := vs[mv.i];
    match mv
    case Ask(i) => v.lock.Outside? && (v.stage.NotWaiting? || (v.stage.Waits? && Guards(cfg, m, c)))
    case Get(i) => v.lock == Asking(Peers(i))
    case Publish(_, state) => v.lock.Within? && v.stage.NotWaiting? && 1 + |m| + |state| <= MAX_STRING
    case Pause(_) => v.lock.Within? && v.stage.NotWaiting? && Guards(cfg, m, c)
    case Stop(_) => v.lock.Within? && v.stage.Waits? && Guards(cfg, m, c)
    case Finish(i) => v.stage == Stopped(Peers(i))
    case Fetch(i, from) =>
      from < 3 && from != i && |vs[from].out| == 3 && vs[from].out[i] != []
      && vs[from].out[i][0].source == from && CanHandle(cfg, m, c, v, vs[from].out[i][0])
  }

  function Moved(cfg: Config, m: Name, c: Name, vs: seq<View>, mv: Move): (vs': seq<View>)
    requires CanMove(cfg, m, c, vs, mv)
    ensures |vs'| == 3
  {
    var v := vs[mv.i];
    match mv
    case Ask(i) => vs[i := v.(lock := Asking({}), out := Append(v.out, Peers(i), RequestKey(i, m)))]
    case Get(i) => vs[i := v.(lock := Within)]
    case Publish(i, state) =>
      vs[i := v.(lock := Outside, replica := state,
                 out := Append(v.out, Peers(i), Broadcast(i, m, state)))]
    case Pause(i) => vs[i := v.(lock := Outside, stage := Waits,
                                out := Append(v.out, Peers(i), PacketKey(i, CondWait, c)))]
    case Stop(i) => vs[i := v.(stage := Stopped({}), out := Append(v.out, Peers(i), PacketKey(i, CondWaitEnd, c)))]
    case Finish(i) => vs[i := v.(stage := NotWaiting)]
    case Fetch(i, from) =>
      vs[from := vs[from].(out := vs[from].out[i := vs[from].out[i][1..]])]
        [i := AfterHandling(cfg, m, c, i, v, vs[from].out[i][0])]
  }

  lemma OthersOfThree(p: Proc, i: ProcessId)
    requires |p.net.out| == 3 && p.net.id == i && i < 3
    ensures Others(|p.net.out|, p.net.id) == Peers(i)
  {
  }

  lemma AskSeen(cfg: Config, m: Name, c: Name, i: ProcessId, p: Proc, v: View)
    requires Setup(cfg, m) && i < 3 && Seen(m, c, i, p, v)
    requires v.lock.Outside? && (v.stage.NotWaiting? || (v.stage.Waits? && Guards(cfg, m, c)))
    ensures LocalEnabled(cfg, p, Subscribe(m)) && LocalEnabled(cfg, LocalNext(cfg, p, Subscribe(m)), Queue(m))
    ensures Seen(m, c, i, LocalNext(cfg, LocalNext(cfg, p, Subscribe(m)), Queue(m)),
                 v.(lock := Asking({}), out := Append(v.out, Peers(i), RequestKey(i, m))))
  {
    OthersOfThree(p, i);
    var p' := LocalNext(cfg, p, Subscribe(m));
    SendSeen(p', LocalNext(cfg, p', Queue(m)), v.out, MutexRequest, m, Peers(i));
  }

  lemma {:induction false} KeysCount(t: MessageType, x: Bytes, from: set<ProcessId>, keys: set<PacketKey>)
    requires keys == set j | j in from :: PacketKey(j, t, x)
    ensures |keys| == |from|
  {
    if from != {} {
      var j :| j in from;
      var fewer := keys - {PacketKey(j, t, x)};
      assert fewer == set k | k in from - {j} :: PacketKey(k, t, x);
      KeysCount(t, x, from - {j}, fewer);
    }
  }

  lemma LockSeenAfter(cfg: Config, m: Name, c: Name, i: ProcessId, p: Proc, v: View)
    requires Setup(cfg, m) && i < 3 && Seen(m, c, i, p, v) && v.lock == Asking(Peers(i))
    ensures LocalEnabled(cfg, p, Enter(m)) && Seen(m, c, i, LocalNext(cfg, p, Enter(m)), v.(lock := Within))
  {
    KeysCount(MutexAgreement, m, Peers(i), p.main.agreements.Keys);
    assert |Peers(i)| == 2;
  }

  /** Unlocking with no deferred request. */
  lemma UnlockSeen(cfg: Config, m: Name, c: Name, i: ProcessId, p: Proc, v: View)
    requires Setup(cfg, m) && m in p.held && (p.main == Leaving(m) || WaitingUnder(cfg, p, m))
    requires Seen(m, c, i, p.(main := Free, changed := p.changed - {m}), v.(lock := Within))
    ensures LocalEnabled(cfg, p, BeginRelease(m))
            && LocalEnabled(cfg, LocalNext(cfg, p, BeginRelease(m)), EndRelease(m))
    ensures Seen(m, c, i, LocalNext(cfg, LocalNext(cfg, p, BeginRelease(m)), EndRelease(m)), v.(lock := Outside))
  {
  }

  lemma BroadcastSeen(cfg: Config, m: Name, c: Name, i: ProcessId, p: Proc, v: View, state: Bytes)
    requires Setup(cfg, m) && i < 3 && Seen(m, c, i, p, v)
    requires v.lock.Within? && v.stage.NotWaiting? && 1 + |m| + |state| <= MAX_STRING
    ensures LocalEnabled(cfg, p, Update(m, state)) && LocalEnabled(cfg, LocalNext(cfg, p, Update(m, state)), SyncOut(m))
    ensures var p' := LocalNext(cfg, LocalNext(cfg, p, Update(m, state)), SyncOut(m));
            && m in p'.held && p'.main == Leaving(m)
            && Seen(m, c, i, p'.(main := Free, changed := p'.changed - {m}),
                    v.(replica := state, out := Append(v.out, Peers(i),
                                                       Broadcast(i, m, state))))
  {
    OthersOfThree(p, i);
    var p1 := LocalNext(cfg, p, Update(m, state));
    SendSeen(p1, LocalNext(cfg, p1, SyncOut(m)), v.out, MessageType.Sync, PackSync(m, state), Peers(i));
  }

  lemma PauseSeen(cfg: Config, m: Name, c: Name, i: ProcessId, p: Proc, v: View)
    requires Setup(cfg, m) && i < 3 && Seen(m, c, i, p, v) && v.lock.Within? && v.stage.NotWaiting? && Guards(cfg, m, c)
    ensures LocalEnabled(cfg, p, BeginWait(c))
    ensures var p' := LocalNext(cfg, p, BeginWait(c));
            && m in p'.held && WaitingUnder(cfg, p', m)
            && Seen(m, c, i, p', v.(stage := Waits, out := Append(v.out, Peers(i), PacketKey(i, CondWait, c))))
  {
    OthersOfThree(p, i);
    SendSeen(p, LocalNext(cfg, p, BeginWait(c)), v.out, CondWait, c, Peers(i));
  }

  lemma StopSeen(cfg: Config, m: Name, c: Name, i: ProcessId, p: Proc, v: View)
    requires Setup(cfg, m) && i < 3 && Seen(m, c, i, p, v) && v.lock.Within? && v.stage.Waits? && Guards(cfg, m, c)
    ensures LocalEnabled(cfg, p, StopWait(c))
    ensures Seen(m, c, i, LocalNext(cfg, p, StopWait(c)),
                 v.(stage := Stopped({}), out := Append(v.out, Peers(i), PacketKey(i, CondWaitEnd, c))))
  {
    OthersOfThree(p, i);
    SendSeen(p, LocalNext(cfg, p, StopWait(c)), v.out, CondWaitEnd, c, Peers(i));
  }

  lemma FinishSeen(cfg: Config, m: Name, c: Name, i: ProcessId, p: Proc, v: View)
    requires Setup(cfg, m) && i < 3 && Seen(m, c, i, p, v) && v.stage == Stopped(Peers(i))
    ensures LocalEnabled(cfg, p, FinishWait(c))
            && Seen(m, c, i, LocalNext(cfg, p, FinishWait(c)), v.(stage := NotWaiting))
  {
    KeysCount(CondWaitEndConfirm, c, Peers(i), p.wait.confirmations.Keys);
    assert |Peers(i)| == 2;
  }

  // ---- Moves are runs -----------------------------------------------------------------------

  /** A point of a run: its steps, its state, the value written last, and the views. */
  datatype Point = Point(run: seq<Label>, state: State, latest: Bytes, views: seq<View>)

  /** The state written last and the state broadcast last. */
  datatype Values = Values(written: Bytes, broadcast: Bytes)

  function ValuesAfter(m: Name, p: Proc, step: Step, vals: Values): Values {
    Values(LatestAfter(m, step, vals.written),
           if step == SyncOut(m) && m in p.replica then p.replica[m] else vals.broadcast)
  }

  ghost predicate At(cfg: Config, m: Name, run: seq<Label>, s: State, vals: Values)
    requires m in cfg.initial
  {
    && Exec(cfg, run) == Some(s) && |s| == 3 && Latest(cfg, m, run) == vals.written
    && var w := Watched(cfg, m, run); w.last in w.saved && w.saved[w.last] == vals.broadcast
  }

  ghost predicate Good(cfg: Config, m: Name, c: Name, pt: Point)
    requires m in cfg.initial
  {
    && At(cfg, m, pt.run, pt.state, Values(pt.latest, pt.latest)) && |pt.views| == 3
    && forall i: ProcessId :: i < 3 ==> Seen(m, c, i, pt.state[i], pt.views[i])
  }

  /** What a step makes of the state broadcast last. */
  lemma BroadcastAfter(m: Name, s: State, l: Label, w: Watch)
    requires l.proc < |s| == |w.sent| == |w.origin| == |w.seen| && w.last in w.saved
    ensures var w' := WatchAfter(m, s, l, w);
            && w'.last in w'.saved
            && w'.saved[w'.last]
               == if l.step == SyncOut(m) && m in s[l.proc].replica then s[l.proc].replica[m] else w.saved[w.last]
  {
  }

  lemma {:induction false} Extend(cfg: Config, m: Name, run: seq<Label>, s: State, vals: Values, l: Label)
    returns (run': seq<Label>)
    requires m in cfg.initial && At(cfg, m, run, s, vals) && Enabled(cfg, s, l)
    ensures At(cfg, m, run', Next(cfg, s, l), ValuesAfter(m, s[l.proc], l.step, vals))
  {
    run' := run + [l];
    assert run'[..|run'| - 1] == run;
    assert Exec(cfg, run') == Some(Next(cfg, s, l));
    assert Latest(cfg, m, run') == LatestAfter(m, l.step, Latest(cfg, m, run));
    assert Watched(cfg, m, run') == WatchAfter(m, s, l, Watched(cfg, m, run));
    BroadcastAfter(m, s, l, Watched(cfg, m, run));
  }

  /** One step of a process's own, */
  lemma {:induction false} Own(cfg: Config, m: Name, run: seq<Label>, s: State, vals: Values, i: ProcessId, p: Proc,
                               step: Step)
    returns (run': seq<Label>)
    requires m in cfg.initial && i < |s| && At(cfg, m, run, s[i := p], vals) && LocalEnabled(cfg, p, step)
    ensures At(cfg, m, run', s[i := LocalNext(cfg, p, step)], ValuesAfter(m, p, step, vals))
  {
    run' := Extend(cfg, m, run, s[i := p], vals, Label(i, step));
    assert s[i := p][i := LocalNext(cfg, p, step)] == s[i := LocalNext(cfg, p, step)];
  }

  /** and two of them. */
  lemma {:induction false} OwnTwo(cfg: Config, m: Name, run: seq<Label>, s: State, vals: Values, i: ProcessId, p: Proc,
                                  a: Step, b: Step)
    returns (run': seq<Label>)
    requires m in cfg.initial && i < |s| && At(cfg, m, run, s[i := p], vals)
    requires LocalEnabled(cfg, p, a) && LocalEnabled(cfg, LocalNext(cfg, p, a), b)
    ensures At(cfg, m, run', s[i := LocalNext(cfg, LocalNext(cfg, p, a), b)],
               ValuesAfter(m, LocalNext(cfg, p, a), b, ValuesAfter(m, p, a, vals)))
  {
    run' := Own(cfg, m, run, s, vals, i, p, a);
    run' := Own(cfg, m, run', s, ValuesAfter(m, p, a, vals), i, LocalNext(cfg, p, a), b);
  }

  /** The other processes keep their views. */
  lemma {:induction false} Advance(cfg: Config, m: Name, c: Name, pt: Point, i: ProcessId, run: seq<Label>, p: Proc,
                                   v: View, latest: Bytes)
    returns (pt': Point)
    requires m in cfg.initial && Good(cfg, m, c, pt) && i < 3
             && At(cfg, m, run, pt.state[i := p], Values(latest, latest)) && Seen(m, c, i, p, v)
    ensures Good(cfg, m, c, pt') && pt'.views == pt.views[i := v] && pt'.latest == latest
  {
    pt' := Point(run, pt.state[i := p], latest, pt.views[i := v]);
  }

  lemma {:induction false} OneStep(cfg: Config, m: Name, c: Name, pt: Point, i: ProcessId, step: Step, v: View)
    returns (pt': Point)
    requires m in cfg.initial && Good(cfg, m, c, pt) && i < 3 && LocalEnabled(cfg, pt.state[i], step) && !step.Update?
             && !step.SyncOut?
    requires Seen(m, c, i, LocalNext(cfg, pt.state[i], step), v)
    ensures Good(cfg, m, c, pt') && pt'.views == pt.views[i := v] && pt'.latest == pt.latest
  {
    var p := pt.state[i];
    assert pt.state[i := p] == pt.state;
    var run := Own(cfg, m, pt.run, pt.state, Values(pt.latest, pt.latest), i, p, step);
    pt' := Advance(cfg, m, c, pt, i, run, LocalNext(cfg, p, step), v, pt.latest);
  }

  lemma {:induction false} PlayAsk(cfg: Config, m: Name, c: Name, pt: Point, i: ProcessId) returns (pt': Point)
    requires Setup(cfg, m) && Good(cfg, m, c, pt) && CanMove(cfg, m, c, pt.views, Ask(i))
    ensures Good(cfg, m, c, pt') && pt'.views == Moved(cfg, m, c, pt.views, Ask(i)) && pt'.latest == pt.latest
  {
    var p, v := pt.state[i], pt.views[i];
    AskSeen(cfg, m, c, i, p, v);
    assert pt.state[i := p] == pt.state;
    var run := OwnTwo(cfg, m, pt.run, pt.state, Values(pt.latest, pt.latest), i, p, Subscribe(m), Queue(m));
    pt' := Advance(cfg, m, c, pt, i, run, LocalNext(cfg, LocalNext(cfg, p, Subscribe(m)), Queue(m)),
                   v.(lock := Asking({}), out := Append(v.out, Peers(i), RequestKey(i, m))), pt.latest);
  }

  lemma {:induction false} Unlock(cfg: Config, m: Name, c: Name, run: seq<Label>, s: State, vals: Values, i: ProcessId,
                                  p: Proc, v: View)
    returns (run': seq<Label>, p': Proc)
    requires Setup(cfg, m) && i < |s| && At(cfg, m, run, s[i := p], vals)
    requires m in p.held && (p.main == Leaving(m) || WaitingUnder(cfg, p, m))
    requires Seen(m, c, i, p.(main := Free, changed := p.changed - {m}), v.(lock := Within))
    ensures At(cfg, m, run', s[i := p'], vals) && Seen(m, c, i, p', v.(lock := Outside))
  {
    UnlockSeen(cfg, m, c, i, p, v);
    run' := OwnTwo(cfg, m, run, s, vals, i, p, BeginRelease(m), EndRelease(m));
    p' := LocalNext(cfg, LocalNext(cfg, p, BeginRelease(m)), EndRelease(m));
  }

  lemma {:induction false} PublishRun(cfg: Config, m: Name, c: Name, run: seq<Label>, s: State, vals: Values,
                                      i: ProcessId, p: Proc, v: View, state: Bytes)
    returns (run': seq<Label>, p': Proc)
    requires Setup(cfg, m) && i < 3 == |s| && At(cfg, m, run, s[i := p], vals) && Seen(m, c, i, p, v)
    requires v.lock.Within? && v.stage.NotWaiting? && 1 + |m| + |state| <= MAX_STRING
    ensures At(cfg, m, run', s[i := p'], Values(state, state))
    ensures Seen(m, c, i, p', v.(lock := Outside, replica := state,
                                 out := Append(v.out, Peers(i), Broadcast(i, m, state))))
  {
    BroadcastSeen(cfg, m, c, i, p, v, state);
    var sent := OwnTwo(cfg, m, run, s, vals, i, p, Update(m, state), SyncOut(m));
    run', p' := Unlock(cfg, m, c, sent, s, Values(state, state), i,
                       LocalNext(cfg, LocalNext(cfg, p, Update(m, state)), SyncOut(m)),
                       v.(replica := state, out := Append(v.out, Peers(i), Broadcast(i, m, state))));
  }

  lemma {:induction false} PlayPublish(cfg: Config, m: Name, c: Name, pt: Point, i: ProcessId, state: Bytes)
    returns (pt': Point)
    requires Setup(cfg, m) && Good(cfg, m, c, pt) && CanMove(cfg, m, c, pt.views, Publish(i, state))
    ensures Good(cfg, m, c, pt') && pt'.views == Moved(cfg, m, c, pt.views, Publish(i, state)) && pt'.latest == state
  {
    assert pt.state[i := pt.state[i]] == pt.state;
    var run, p := PublishRun(cfg, m, c, pt.run, pt.state, Values(pt.latest, pt.latest), i, pt.state[i], pt.views[i],
                             state);
    pt' := Advance(cfg, m, c, pt, i, run, p, Moved(cfg, m, c, pt.views, Publish(i, state))[i], state);
  }

  lemma {:induction false} PauseRun(cfg: Config, m: Name, c: Name, run: seq<Label>, s: State, vals: Values,
                                    i: ProcessId, p: Proc, v: View)
    returns (run': seq<Label>, p': Proc)
    requires Setup(cfg, m) && i < 3 == |s| && At(cfg, m, run, s[i := p], vals) && Seen(m, c, i, p, v)
    requires v.lock.Within? && v.stage.NotWaiting? && Guards(cfg, m, c)
    ensures At(cfg, m, run', s[i := p'], vals)
    ensures Seen(m, c, i, p', v.(lock := Outside, stage := Waits,
                                 out := Append(v.out, Peers(i), PacketKey(i, CondWait, c))))
  {
    PauseSeen(cfg, m, c, i, p, v);
    var said := Own(cfg, m, run, s, vals, i, p, BeginWait(c));
    var p1 := LocalNext(cfg, p, BeginWait(c));
    assert p1.(main := Free, changed := p1.changed - {m}) == p1;
    run', p' := Unlock(cfg, m, c, said, s, vals, i, p1,
                       v.(stage := Waits, out := Append(v.out, Peers(i), PacketKey(i, CondWait, c))));
  }

  lemma {:induction false} PlayPause(cfg: Config, m: Name, c: Name, pt: Point, i: ProcessId) returns (pt': Point)
    requires Setup(cfg, m) && Good(cfg, m, c, pt) && CanMove(cfg, m, c, pt.views, Pause(i))
    ensures Good(cfg, m, c, pt') && pt'.views == Moved(cfg, m, c, pt.views, Pause(i)) && pt'.latest == pt.latest
  {
    assert pt.state[i := pt.state[i]] == pt.state;
    var run, p := PauseRun(cfg, m, c, pt.run, pt.state, Values(pt.latest, pt.latest), i, pt.state[i], pt.views[i]);
    pt' := Advance(cfg, m, c, pt, i, run, p, Moved(cfg, m, c, pt.views, Pause(i))[i], pt.latest);
  }

  lemma {:induction false} FetchRun(cfg: Config, m: Name, c: Name, run: seq<Label>, s: State, vals: Values,
                                    i: ProcessId, v: View, from: ProcessId, w: View)
    returns (run': seq<Label>, p': Proc, q': Proc)
    requires Setup(cfg, m) && i < 3 == |s| && from < 3 && from != i && At(cfg, m, run, s, vals)
    requires Seen(m, c, i, s[i], v) && Seen(m, c, from, s[from], w)
    requires w.out[i] != [] && CanHandle(cfg, m, c, v, w.out[i][0])
    ensures At(cfg, m, run', s[from := q'][i := p'], vals)
    ensures Seen(m, c, i, p', AfterHandling(cfg, m, c, i, v, w.out[i][0]))
    ensures Seen(m, c, from, q', w.(out := w.out[i := w.out[i][1..]]))
  {
    assert KeysOf(s[from].net.out[i]) == w.out[i];
    var k := s[from].net.out[i][0];
    assert k.Key() == w.out[i][0];
    HandleSeen(cfg, m, c, i, s[i], v, k);
    DropSeen(m, c, from, s[from], w, i);
    run' := Fetching(cfg, m, run, s, vals, i, from);
    p', q' := LocalNext(cfg, Take(s[i], k), Dispatch), DropHead(s[from], i);
  }

  lemma {:induction false} PlayFetch(cfg: Config, m: Name, c: Name, pt: Point, i: ProcessId, from: ProcessId)
    returns (pt': Point)
    requires Setup(cfg, m) && Good(cfg, m, c, pt) && CanMove(cfg, m, c, pt.views, Fetch(i, from))
    ensures Good(cfg, m, c, pt') && pt'.views == Moved(cfg, m, c, pt.views, Fetch(i, from)) && pt'.latest == pt.latest
  {
    var run, p, q := FetchRun(cfg, m, c, pt.run, pt.state, Values(pt.latest, pt.latest), i, pt.views[i], from,
                              pt.views[from]);
    pt' := Point(run, pt.state[from := q][i := p], pt.latest, Moved(cfg, m, c, pt.views, Fetch(i, from)));
  }

  lemma {:induction false} Fetching(cfg: Config, m: Name, run: seq<Label>, s: State, vals: Values, i: ProcessId,
                                    from: ProcessId)
    returns (run': seq<Label>)
    requires m in cfg.initial && At(cfg, m, run, s, vals) && CanReceive(s, i, from)
    requires LocalEnabled(cfg, Take(s[i], s[from].net.out[i][0]), Dispatch)
    ensures At(cfg, m, run', s[from := DropHead(s[from], i)]
                              [i := LocalNext(cfg, Take(s[i], s[from].net.out[i][0]), Dispatch)], vals)
  {
    var p := Take(s[i], s[from].net.out[i][0]);
    var s' := s[from := DropHead(s[from], i)];
    run' := Extend(cfg, m, run, s, vals, Label(i, Receive(from)));
    assert ReceiveNext(s, i, from) == s'[i := p];
    run' := Own(cfg, m, run', s', vals, i, p, Dispatch);
  }

  /** Every move is a run of the system. */
  lemma Play(cfg: Config, m: Name, c: Name, pt: Point, mv: Move) returns (pt': Point)
    requires Setup(cfg, m) && Good(cfg, m, c, pt) && CanMove(cfg, m, c, pt.views, mv)
    ensures Good(cfg, m, c, pt') && pt'.views == Moved(cfg, m, c, pt.views, mv)
    ensures pt'.latest == if mv.Publish? then mv.state else pt.latest
  {
    var i := mv.i;
    match mv
    case Ask(_) => pt' := PlayAsk(cfg, m, c, pt, i);
    case Get(_) =>
      LockSeenAfter(cfg, m, c, i, pt.state[i], pt.views[i]);
      pt' := OneStep(cfg, m, c, pt, i, Enter(m), pt.views[i].(lock := Within));
    case Publish(_, state) => pt' := PlayPublish(cfg, m, c, pt, i, state);
    case Pause(_) => pt' := PlayPause(cfg, m, c, pt, i);
    case Stop(_) =>
      StopSeen(cfg, m, c, i, pt.state[i], pt.views[i]);
      pt' := OneStep(cfg, m, c, pt, i, StopWait(c), Moved(cfg, m, c, pt.views, mv)[i]);
    case Finish(_) =>
      FinishSeen(cfg, m, c, i, pt.state[i], pt.views[i]);
      pt' := OneStep(cfg, m, c, pt, i, FinishWait(c), pt.views[i].(stage := NotWaiting));
    case Fetch(_, from) => pt' := PlayFetch(cfg, m, c, pt, i, from);
  }

  // ---- Runs ---------------------------------------------------------------------------------

  function Resting(replica: Bytes, out: seq<seq<PacketKey>>): View { View(Outside, NotWaiting, {}, replica, out) }

  lemma {:induction false} Start(cfg: Config, m: Name, c: Name) returns (pt: Point)
    requires Setup(cfg, m)
    ensures Good(cfg, m, c, pt) && pt.latest == cfg.initial[m]
    ensures pt.views == [Resting(cfg.initial[m], [[], [], []]), Resting(cfg.initial[m], [[], [], []]),
                         Resting(cfg.initial[m], [[], [], []])]
  {
    pt := Point([], Init(cfg), cfg.initial[m],
                [Resting(cfg.initial[m], [[], [], []]), Resting(cfg.initial[m], [[], [], []]),
                 Resting(cfg.initial[m], [[], [], []])]);
    forall i: ProcessId | i < 3 ensures Seen(m, c, i, pt.state[i], pt.views[i]) {
      assert pt.state[i] == InitProc(cfg, i);
    }
  }

  ghost predicate Shaped(vs: seq<View>) {
    |vs| == 3 && forall j: ProcessId :: j < 3 ==> |vs[j].out| == 3
  }

  /** The views after some moves; None when one of them is not possible. */
  ghost function Script(cfg: Config, m: Name, c: Name, vs: seq<View>, moves: seq<Move>): Option<seq<View>>
    decreases |moves|
  {
    if moves == [] then Some(vs)
    else if CanMove(cfg, m, c, vs, moves[0]) then Script(cfg, m, c, Moved(cfg, m, c, vs, moves[0]), moves[1..])
    else None
  }

  /** The value written last by some moves. */
  function Written(moves: seq<Move>, latest: Bytes): Bytes {
    if moves == [] then latest else Written(moves[1..], if moves[0].Publish? then moves[0].state else latest)
  }

  /** A script that can be played on the views of a run is played by a longer run. */
  lemma {:induction false} PlayAll(cfg: Config, m: Name, c: Name, pt: Point, moves: seq<Move>) returns (pt': Point)
    requires Setup(cfg, m) && Good(cfg, m, c, pt) && Script(cfg, m, c, pt.views, moves).Some?
    ensures Good(cfg, m, c, pt') && Some(pt'.views) == Script(cfg, m, c, pt.views, moves)
    ensures pt'.latest == Written(moves, pt.latest)
    decreases |moves|
  {
    if moves == [] {
      pt' := pt;
    } else {
      var once := Play(cfg, m, c, pt, moves[0]);
      pt' := PlayAll(cfg, m, c, once, moves[1..]);
    }
  }

  lemma {:induction false} Then(cfg: Config, m: Name, c: Name, vs: seq<View>, first: seq<Move>, vs': seq<View>,
                                rest: seq<Move>)
    requires Script(cfg, m, c, vs, first) == Some(vs')
    ensures Script(cfg, m, c, vs, first + rest) == Script(cfg, m, c, vs', rest)
    ensures forall latest :: Written(first + rest, latest) == Written(rest, Written(first, latest))
    decreases |first|
  {
    if first == [] {
      assert first + rest == rest;
    } else {
      assert (first + rest)[1..] == first[1..] + rest;
      Then(cfg, m, c, Moved(cfg, m, c, vs, first[0]), first[1..], vs', rest);
    }
  }

  lemma {:induction false} AppendToEmpty(out: seq<seq<PacketKey>>, to: set<ProcessId>, k: PacketKey)
    requires forall j :: 0 <= j < |out| && j in to ==> out[j] == []
    ensures forall j :: 0 <= j < |out| ==> Append(out, to, k)[j] == if j in to then [k] else out[j]
  {
    assert [] + [k] == [k];
  }

  /** j answers the request of i. */
  lemma {:induction false} ExchangeViews(cfg: Config, m: Name, c: Name, vs: seq<View>, i: ProcessId, j: ProcessId)
    requires Shaped(vs) && i < 3 && j < 3 && i != j && vs[i].lock.Asking? && vs[j].lock.Outside?
    requires vs[i].out[j] == [RequestKey(i, m)] && vs[j].out[i] == []
    ensures CanMove(cfg, m, c, vs, Fetch(j, i)) && CanMove(cfg, m, c, Moved(cfg, m, c, vs, Fetch(j, i)), Fetch(i, j))
    ensures Moved(cfg, m, c, Moved(cfg, m, c, vs, Fetch(j, i)), Fetch(i, j))
            == vs[i := vs[i].(lock := Asking(vs[i].lock.got + {j}), out := vs[i].out[j := []])]
  {
    var half := Moved(cfg, m, c, vs, Fetch(j, i));
    AppendToEmpty(vs[j].out, {i}, AgreementKey(j, m));
    assert half[j] == vs[j].(out := vs[j].out[i := [AgreementKey(j, m)]]);
    assert vs[i].out[j][1..] == [];
    assert half[i] == vs[i].(out := vs[i].out[j := []]);
    assert half[j].out[i][1..] == [] && half[j].out[i := []] == vs[j].out;
    var whole := Moved(cfg, m, c, half, Fetch(i, j));
    assert whole[j] == vs[j];
  }

  predicate Trio(i: ProcessId, j: ProcessId, k: ProcessId) {
    i < 3 && j < 3 && k < 3 && i != j && i != k && j != k
  }

  function AcquireMoves(i: ProcessId, j: ProcessId, k: ProcessId): seq<Move> {
    [Ask(i)] + ([Fetch(j, i), Fetch(i, j)] + ([Fetch(k, i), Fetch(i, k)] + [Get(i)]))
  }

  lemma {:induction false} ScriptStep(cfg: Config, m: Name, c: Name, vs: seq<View>, mv: Move, rest: seq<Move>)
    requires CanMove(cfg, m, c, vs, mv)
    ensures Script(cfg, m, c, vs, [mv] + rest) == Script(cfg, m, c, Moved(cfg, m, c, vs, mv), rest)
  {
    assert ([mv] + rest)[1..] == rest;
  }

  lemma {:induction false} ExchangeScript(cfg: Config, m: Name, c: Name, vs: seq<View>, i: ProcessId, j: ProcessId,
                                          rest: seq<Move>)
    requires Shaped(vs) && i < 3 && j < 3 && i != j && vs[i].lock.Asking? && vs[j].lock.Outside?
    requires vs[i].out[j] == [RequestKey(i, m)] && vs[j].out[i] == []
    ensures Script(cfg, m, c, vs, [Fetch(j, i), Fetch(i, j)] + rest)
            == Script(cfg, m, c, vs[i := vs[i].(lock := Asking(vs[i].lock.got + {j}), out := vs[i].out[j := []])], rest)
  {
    ExchangeViews(cfg, m, c, vs, i, j);
    assert [Fetch(j, i), Fetch(i, j)] + rest == [Fetch(j, i)] + ([Fetch(i, j)] + rest);
    ScriptStep(cfg, m, c, vs, Fetch(j, i), [Fetch(i, j)] + rest);
    ScriptStep(cfg, m, c, Moved(cfg, m, c, vs, Fetch(j, i)), Fetch(i, j), rest);
  }

  function AskedView(v: View, i: ProcessId, j: ProcessId, k: ProcessId, m: Name): View
    requires |v.out| == 3 && Trio(i, j, k)
  {
    v.(lock := Asking({}), out := v.out[j := [RequestKey(i, m)]][k := [RequestKey(i, m)]])
  }

  lemma {:induction false} AskedViews(cfg: Config, m: Name, c: Name, vs: seq<View>, i: ProcessId, j: ProcessId,
                                      k: ProcessId)
    requires Shaped(vs) && Trio(i, j, k) && CanMove(cfg, m, c, vs, Ask(i)) && vs[i].out[j] == [] && vs[i].out[k] == []
    ensures Moved(cfg, m, c, vs, Ask(i)) == vs[i := AskedView(vs[i], i, j, k, m)]
  {
    AppendToEmpty(vs[i].out, Peers(i), RequestKey(i, m));
    assert Append(vs[i].out, Peers(i), RequestKey(i, m)) == vs[i].out[j := [RequestKey(i, m)]][k := [RequestKey(i, m)]];
  }

  lemma {:induction false} AnsweredViews(cfg: Config, m: Name, c: Name, vs: seq<View>, i: ProcessId, j: ProcessId,
                                         k: ProcessId)
    requires Shaped(vs) && Trio(i, j, k) && vs[i].lock == Asking({}) && vs[j].lock.Outside? && vs[k].lock.Outside?
    requires vs[i].out[j] == [RequestKey(i, m)] && vs[j].out[i] == []
    requires vs[i].out[k] == [RequestKey(i, m)] && vs[k].out[i] == []
    ensures Script(cfg, m, c, vs, [Fetch(j, i), Fetch(i, j)] + ([Fetch(k, i), Fetch(i, k)] + [Get(i)]))
            == Some(vs[i := vs[i].(lock := Within, out := vs[i].out[j := []][k := []])])
  {
    var once := vs[i := vs[i].(lock := Asking({j}), out := vs[i].out[j := []])];
    var twice := vs[i := vs[i].(lock := Asking({j, k}), out := vs[i].out[j := []][k := []])];
    assert {} + {j} == {j} && {j} + {k} == {j, k} == Peers(i);
    ExchangeScript(cfg, m, c, vs, i, j, [Fetch(k, i), Fetch(i, k)] + [Get(i)]);
    ExchangeScript(cfg, m, c, once, i, k, [Get(i)]);
    assert once[i := once[i].(lock := Asking({j, k}), out := once[i].out[k := []])] == twice;
    ScriptStep(cfg, m, c, twice, Get(i), []);
    assert [Get(i)] + [] == [Get(i)];
    assert Moved(cfg, m, c, twice, Get(i)) == vs[i := vs[i].(lock := Within, out := vs[i].out[j := []][k := []])];
  }

  /** Nobody else wants the mutex, and nothing is on its way between i and the others. */
  lemma {:induction false} AcquireViews(cfg: Config, m: Name, c: Name, vs: seq<View>, i: ProcessId, j: ProcessId,
                                        k: ProcessId)
    requires Shaped(vs) && Trio(i, j, k) && CanMove(cfg, m, c, vs, Ask(i)) && vs[j].lock.Outside? && vs[k].lock.Outside?
    requires vs[i].out[j] == [] && vs[i].out[k] == [] && vs[j].out[i] == [] && vs[k].out[i] == []
    ensures Script(cfg, m, c, vs, AcquireMoves(i, j, k)) == Some(vs[i := vs[i].(lock := Within)])
  {
    var asked := vs[i := AskedView(vs[i], i, j, k, m)];
    AskedViews(cfg, m, c, vs, i, j, k);
    ScriptStep(cfg, m, c, vs, Ask(i), [Fetch(j, i), Fetch(i, j)] + ([Fetch(k, i), Fetch(i, k)] + [Get(i)]));
    AnsweredViews(cfg, m, c, asked, i, j, k);
    assert asked[i].out[j := []][k := []] == vs[i].out;
    assert asked[i := vs[i].(lock := Within)] == vs[i := vs[i].(lock := Within)];
  }

  // ---- A stale state ------------------------------------------------------------------------

  function SectionMoves(i: ProcessId, j: ProcessId, k: ProcessId, state: Bytes): seq<Move> {
    AcquireMoves(i, j, k) + [Publish(i, state)]
  }

  lemma {:induction false} PublishViews(cfg: Config, m: Name, c: Name, vs: seq<View>, i: ProcessId, j: ProcessId,
                                        k: ProcessId, state: Bytes)
    requires Shaped(vs) && Trio(i, j, k) && CanMove(cfg, m, c, vs, Publish(i, state)) && vs[i].out[j] == []
             && vs[i].out[k] == []
    ensures Script(cfg, m, c, vs, [Publish(i, state)])
            == Some(vs[i := vs[i].(lock := Outside, replica := state,
                                   out := vs[i].out[j := [Broadcast(i, m, state)]][k := [Broadcast(i, m, state)]])])
  {
    var b := Broadcast(i, m, state);
    AppendToEmpty(vs[i].out, Peers(i), b);
    assert Append(vs[i].out, Peers(i), b) == vs[i].out[j := [b]][k := [b]];
    ScriptStep(cfg, m, c, vs, Publish(i, state), []);
    assert [Publish(i, state)] + [] == [Publish(i, state)];
  }

  /** A whole critical section of i, when nobody else wants the mutex. */
  lemma {:induction false} SectionViews(cfg: Config, m: Name, c: Name, vs: seq<View>, i: ProcessId, j: ProcessId,
                                        k: ProcessId, state: Bytes)
    requires Shaped(vs) && Trio(i, j, k) && 1 + |m| + |state| <= MAX_STRING
    requires vs[i].lock.Outside? && vs[i].stage.NotWaiting? && vs[j].lock.Outside? && vs[k].lock.Outside?
    requires vs[i].out[j] == [] && vs[i].out[k] == [] && vs[j].out[i] == [] && vs[k].out[i] == []
    ensures Script(cfg, m, c, vs, SectionMoves(i, j, k, state))
            == Some(vs[i := vs[i].(replica := state,
                                   out := vs[i].out[j := [Broadcast(i, m, state)]][k := [Broadcast(i, m, state)]])])
    ensures forall latest :: Written(SectionMoves(i, j, k, state), latest) == state
  {
    var inside := vs[i := vs[i].(lock := Within)];
    AcquireViews(cfg, m, c, vs, i, j, k);
    Then(cfg, m, c, vs, AcquireMoves(i, j, k), inside, [Publish(i, state)]);
    PublishViews(cfg, m, c, inside, i, j, k, state);
    var v := vs[i].(replica := state, out := vs[i].out[j := [Broadcast(i, m, state)]][k := [Broadcast(i, m, state)]]);
    assert v == inside[i].(lock := Outside, replica := v.replica, out := v.out);
    assert inside[i := v] == vs[i := v];
    forall latest ensures Written(SectionMoves(i, j, k, state), latest) == state {
      assert [Publish(i, state)][1..] == [];
      assert Written([Publish(i, state)], Written(AcquireMoves(i, j, k), latest)) == Written([], state);
    }
  }

  /** Fetching a broadcast that is alone in its channel. */
  lemma {:induction false} FetchViews(cfg: Config, m: Name, c: Name, vs: seq<View>, i: ProcessId, from: ProcessId,
                                      state: Bytes)
    requires Setup(cfg, m) && Shaped(vs) && i < 3 && from < 3 && i != from
    requires 1 + |m| + |state| <= MAX_STRING && vs[from].out[i] == [Broadcast(from, m, state)]
    ensures Script(cfg, m, c, vs, [Fetch(i, from)])
            == Some(vs[from := vs[from].(out := vs[from].out[i := []])][i := vs[i].(replica := state)])
    ensures forall latest :: Written([Fetch(i, from)], latest) == latest
  {
    SyncRoundTrip(m, state);
    ScriptStep(cfg, m, c, vs, Fetch(i, from), []);
    assert [Fetch(i, from)] + [] == [Fetch(i, from)];
    assert vs[from].out[i][1..] == [];
    assert [Fetch(i, from)][1..] == [];
  }

  /** Process 0's section comes first; its broadcast to process 2 is slow. */
  lemma {:induction false} SlowViews(cfg: Config, m: Name, c: Name, first: Bytes, older: Bytes)
    requires Setup(cfg, m) && 1 + |m| + |older| <= MAX_STRING
    ensures var vs := [Resting(first, [[], [], []]), Resting(first, [[], [], []]), Resting(first, [[], [], []])];
            Script(cfg, m, c, vs, SectionMoves(0, 1, 2, older) + [Fetch(1, 0)])
            == Some([Resting(older, [[], [], [Broadcast(0, m, older)]]), Resting(older, [[], [], []]),
                     Resting(first, [[], [], []])])
  {
    var vs := [Resting(first, [[], [], []]), Resting(first, [[], [], []]), Resting(first, [[], [], []])];
    var a := Broadcast(0, m, older);
    SectionViews(cfg, m, c, vs, 0, 1, 2, older);
    var v1 := [Resting(older, [[], [a], [a]]), Resting(first, [[], [], []]), Resting(first, [[], [], []])];
    assert vs[0].out[1 := [a]][2 := [a]] == [[], [a], [a]];
    assert vs[0].(replica := older, out := [[], [a], [a]]) == v1[0];
    assert vs[0 := v1[0]] == v1;
    Then(cfg, m, c, vs, SectionMoves(0, 1, 2, older), v1, [Fetch(1, 0)]);
    FetchViews(cfg, m, c, v1, 1, 0, older);
    assert v1[0].out[1 := []] == [[], [], [a]];
    var v2 := [Resting(older, [[], [], [a]]), Resting(older, [[], [], []]), Resting(first, [[], [], []])];
    assert v1[0].(out := [[], [], [a]]) == v2[0];
    assert v1[0 := v2[0]][1 := v2[1]] == v2;
  }

  /** Process 1's section comes next; its broadcast overtakes the other on the way to process 2. */
  lemma {:induction false} FastViews(cfg: Config, m: Name, c: Name, first: Bytes, older: Bytes, newer: Bytes)
    requires Setup(cfg, m) && 1 + |m| + |newer| <= MAX_STRING
    ensures var a, b := Broadcast(0, m, older), Broadcast(1, m, newer);
            var vs := [Resting(older, [[], [], [a]]), Resting(older, [[], [], []]), Resting(first, [[], [], []])];
            Script(cfg, m, c, vs, SectionMoves(1, 0, 2, newer) + [Fetch(2, 1)])
            == Some([Resting(older, [[], [], [a]]), Resting(newer, [[b], [], []]), Resting(newer, [[], [], []])])
    ensures forall latest :: Written(SectionMoves(1, 0, 2, newer) + [Fetch(2, 1)], latest) == newer
  {
    var a, b := Broadcast(0, m, older), Broadcast(1, m, newer);
    var vs := [Resting(older, [[], [], [a]]), Resting(older, [[], [], []]), Resting(first, [[], [], []])];
    SectionViews(cfg, m, c, vs, 1, 0, 2, newer);
    var v1 := [Resting(older, [[], [], [a]]), Resting(newer, [[b], [], [b]]), Resting(first, [[], [], []])];
    assert vs[1].out[0 := [b]][2 := [b]] == [[b], [], [b]];
    assert vs[1].(replica := newer, out := [[b], [], [b]]) == v1[1];
    assert vs[1 := v1[1]] == v1;
    Then(cfg, m, c, vs, SectionMoves(1, 0, 2, newer), v1, [Fetch(2, 1)]);
    FetchViews(cfg, m, c, v1, 2, 1, newer);
    assert v1[1].out[2 := []] == [[b], [], []];
    var v2 := [Resting(older, [[], [], [a]]), Resting(newer, [[b], [], []]), Resting(newer, [[], [], []])];
    assert v1[1].(out := [[b], [], []]) == v2[1];
    assert v1[1 := v2[1]][2 := v2[2]] == v2;
  }

  /** Process 2 restores the older state after the newer one, and enters. */
  lemma {:induction false} StaleViews(cfg: Config, m: Name, c: Name, older: Bytes, newer: Bytes)
    requires Setup(cfg, m) && 1 + |m| + |older| <= MAX_STRING
    ensures var a, b := Broadcast(0, m, older), Broadcast(1, m, newer);
            var vs := [Resting(older, [[], [], [a]]), Resting(newer, [[b], [], []]), Resting(newer, [[], [], []])];
            var end := Script(cfg, m, c, vs, [Fetch(2, 0)] + AcquireMoves(2, 0, 1));
            end.Some? && |end.value| == 3 && end.value[2].lock.Within? && end.value[2].replica == older
    ensures forall latest :: Written([Fetch(2, 0)] + AcquireMoves(2, 0, 1), latest) == latest
  {
    var a, b := Broadcast(0, m, older), Broadcast(1, m, newer);
    var vs := [Resting(older, [[], [], [a]]), Resting(newer, [[b], [], []]), Resting(newer, [[], [], []])];
    FetchViews(cfg, m, c, vs, 2, 0, older);
    var v1 := [Resting(older, [[], [], []]), Resting(newer, [[b], [], []]), Resting(older, [[], [], []])];
    assert vs[0].out[2 := []] == [[], [], []];
    assert vs[0].(out := [[], [], []]) == v1[0];
    assert vs[0 := v1[0]][2 := v1[2]] == v1;
    Then(cfg, m, c, vs, [Fetch(2, 0)], v1, AcquireMoves(2, 0, 1));
    AcquireViews(cfg, m, c, v1, 2, 0, 1);
    forall latest ensures Written(AcquireMoves(2, 0, 1), latest) == latest {
      AcquireWritesNothing(2, 0, 1, latest);
    }
  }

  lemma {:induction false} AcquireWritesNothing(i: ProcessId, j: ProcessId, k: ProcessId, latest: Bytes)
    ensures Written(AcquireMoves(i, j, k), latest) == latest
  {
    NothingWritten(AcquireMoves(i, j, k), latest);
  }

  lemma {:induction false} NothingWritten(moves: seq<Move>, latest: Bytes)
    requires forall x :: 0 <= x < |moves| ==> !moves[x].Publish?
    ensures Written(moves, latest) == latest
  {
    if moves != [] {
      NothingWritten(moves[1..], latest);
    }
  }

  /** With three processes, whatever states two sections leave, a third process can enter with the first
      of them after the second was written; its replica is then stale unless the two are the same. */
  lemma {:induction false} EntersWithStaleState(cfg: Config, m: Name, older: Bytes, newer: Bytes)
    returns (run: seq<Label>)
    requires cfg.Valid() && cfg.n == 3 && m in cfg.monitors
    requires 1 + |m| + |older| <= MAX_STRING && 1 + |m| + |newer| <= MAX_STRING
    ensures Exec(cfg, run).Some?
    ensures var p := Exec(cfg, run).value[2];
            Inside(p, m) && m !in p.changed && m in p.replica && p.replica[m] == older && Latest(cfg, m, run) == newer
    ensures older != newer ==> !Fresh(cfg, m, run, 2) && !UpToDate(Watched(cfg, m, run), 2)
  {
    var c := [];
    var pt := Start(cfg, m, c);
    SlowViews(cfg, m, c, cfg.initial[m], older);
    pt := PlayAll(cfg, m, c, pt, SectionMoves(0, 1, 2, older) + [Fetch(1, 0)]);
    FastViews(cfg, m, c, cfg.initial[m], older, newer);
    pt := PlayAll(cfg, m, c, pt, SectionMoves(1, 0, 2, newer) + [Fetch(2, 1)]);
    StaleViews(cfg, m, c, older, newer);
    pt := PlayAll(cfg, m, c, pt, [Fetch(2, 0)] + AcquireMoves(2, 0, 1));
    run := pt.run;
    assert Seen(m, c, 2, pt.state[2], pt.views[2]);
    FreshExactly(cfg, m, run, 2);
  }

  // ---- A lost waiter ------------------------------------------------------------------------

  const NOTHING: seq<seq<PacketKey>> := [[], [], []]

  ghost predicate Hushed(vs: seq<View>) {
    |vs| == 3 && forall j: ProcessId :: j < 3 ==> vs[j].out == NOTHING && vs[j].lock.Outside?
  }

  /** A broadcast that is alone in its channels reaches both other processes. */
  lemma {:induction false} TellViews(cfg: Config, m: Name, c: Name, vs: seq<View>, i: ProcessId, j: ProcessId,
                                     k: ProcessId, b: PacketKey)
    requires Shaped(vs) && Trio(i, j, k) && vs[i].out == NOTHING[j := [b]][k := [b]] && b.source == i
    requires CanHandle(cfg, m, c, vs[j], b) && CanHandle(cfg, m, c, vs[k], b)
    ensures Script(cfg, m, c, vs, [Fetch(j, i)] + [Fetch(k, i)])
            == Some(vs[i := vs[i].(out := NOTHING)]
                      [j := AfterHandling(cfg, m, c, j, vs[j], b)][k := AfterHandling(cfg, m, c, k, vs[k], b)])
  {
    assert [b][1..] == [];
    var v1 := vs[i := vs[i].(out := NOTHING[k := [b]])][j := AfterHandling(cfg, m, c, j, vs[j], b)];
    assert vs[i].out[j := []] == NOTHING[k := [b]] && NOTHING[k := [b]][k := []] == NOTHING;
    assert Moved(cfg, m, c, vs, Fetch(j, i)) == v1;
    ScriptStep(cfg, m, c, vs, Fetch(j, i), [Fetch(k, i)]);
    ScriptStep(cfg, m, c, v1, Fetch(k, i), []);
    assert [Fetch(k, i)] + [] == [Fetch(k, i)];
    assert Moved(cfg, m, c, v1, Fetch(k, i))
        == vs[i := vs[i].(out := NOTHING)]
             [j := AfterHandling(cfg, m, c, j, vs[j], b)][k := AfterHandling(cfg, m, c, k, vs[k], b)];
  }

  lemma {:induction false} ToldOut(i: ProcessId, j: ProcessId, k: ProcessId, b: PacketKey)
    requires Trio(i, j, k)
    ensures Append(NOTHING, Peers(i), b) == NOTHING[j := [b]][k := [b]]
  {
    AppendToEmpty(NOTHING, Peers(i), b);
  }

  function WaitMoves(i: ProcessId, j: ProcessId, k: ProcessId): seq<Move> {
    AcquireMoves(i, j, k) + ([Pause(i)] + ([Fetch(j, i)] + [Fetch(k, i)]))
  }

  /** i waits, and both others record it. */
  lemma {:induction false} WaitViews(cfg: Config, m: Name, c: Name, vs: seq<View>, i: ProcessId, j: ProcessId,
                                     k: ProcessId)
    requires Guards(cfg, m, c) && Hushed(vs) && Trio(i, j, k) && vs[i].stage.NotWaiting?
    ensures Script(cfg, m, c, vs, WaitMoves(i, j, k))
            == Some(vs[i := vs[i].(stage := Waits)]
                      [j := vs[j].(waiters := vs[j].waiters + {i})][k := vs[k].(waiters := vs[k].waiters + {i})])
  {
    var b := PacketKey(i, CondWait, c);
    var inside := vs[i := vs[i].(lock := Within)];
    var paused := vs[i := vs[i].(stage := Waits, out := NOTHING[j := [b]][k := [b]])];
    AcquireViews(cfg, m, c, vs, i, j, k);
    Then(cfg, m, c, vs, AcquireMoves(i, j, k), inside, [Pause(i)] + ([Fetch(j, i)] + [Fetch(k, i)]));
    ToldOut(i, j, k, b);
    assert Moved(cfg, m, c, inside, Pause(i)) == paused;
    ScriptStep(cfg, m, c, inside, Pause(i), [Fetch(j, i)] + [Fetch(k, i)]);
    TellViews(cfg, m, c, paused, i, j, k, b);
    assert paused[i := paused[i].(out := NOTHING)] == vs[i := vs[i].(stage := Waits)];
  }

  function EndMoves(i: ProcessId, j: ProcessId, k: ProcessId): seq<Move> {
    ([Stop(i)] + ([Fetch(j, i)] + [Fetch(k, i)])) + ([Fetch(i, j)] + ([Fetch(i, k)] + [Finish(i)]))
  }

  /** j confirms. */
  lemma {:induction false} ConfirmViews(cfg: Config, m: Name, c: Name, vs: seq<View>, i: ProcessId, j: ProcessId,
                                        rest: seq<Move>)
    requires Shaped(vs) && i < 3 && j < 3 && i != j && vs[i].stage.Stopped?
    requires vs[j].out == NOTHING[i := [ConfirmKey(j, c)]]
    ensures Script(cfg, m, c, vs, [Fetch(i, j)] + rest)
            == Script(cfg, m, c,
                      vs[j := vs[j].(out := NOTHING)]
                        [i := vs[i].(stage := Stopped(vs[i].stage.confirmed + {j}))],
                      rest)
  {
    assert [ConfirmKey(j, c)][1..] == [];
    assert vs[j].out[i := []] == NOTHING;
    ScriptStep(cfg, m, c, vs, Fetch(i, j), rest);
  }

  /** Both others confirm, and i returns from its wait. */
  lemma {:induction false} FinishViews(cfg: Config, m: Name, c: Name, vs: seq<View>, i: ProcessId, j: ProcessId,
                                       k: ProcessId)
    requires Shaped(vs) && Trio(i, j, k) && vs[i].stage == Stopped({})
    requires vs[j].out == NOTHING[i := [ConfirmKey(j, c)]] && vs[k].out == NOTHING[i := [ConfirmKey(k, c)]]
    ensures Script(cfg, m, c, vs, [Fetch(i, j)] + ([Fetch(i, k)] + [Finish(i)]))
            == Some(vs[i := vs[i].(stage := NotWaiting)][j := vs[j].(out := NOTHING)][k := vs[k].(out := NOTHING)])
  {
    var v1 := vs[j := vs[j].(out := NOTHING)][i := vs[i].(stage := Stopped({j}))];
    var v2 := v1[k := vs[k].(out := NOTHING)][i := vs[i].(stage := Stopped(Peers(i)))];
    assert {} + {j} == {j} && {j} + {k} == Peers(i);
    ConfirmViews(cfg, m, c, vs, i, j, [Fetch(i, k)] + [Finish(i)]);
    ConfirmViews(cfg, m, c, v1, i, k, [Finish(i)]);
    assert v1[i].(stage := Stopped(Peers(i))) == v2[i];
    ScriptStep(cfg, m, c, v2, Finish(i), []);
    assert [Finish(i)] + [] == [Finish(i)];
    assert v2[i := vs[i].(stage := NotWaiting)]
        == vs[i := vs[i].(stage := NotWaiting)][j := vs[j].(out := NOTHING)][k := vs[k].(out := NOTHING)];
  }

  /** Both others have heard of the end of i's wait, and answered. */
  function Confirming(vs: seq<View>, c: Name, i: ProcessId, j: ProcessId, k: ProcessId): seq<View>
    requires |vs| == 3 && Trio(i, j, k)
  {
    vs[i := vs[i].(stage := Stopped({}))]
      [j := vs[j].(waiters := {}, out := NOTHING[i := [ConfirmKey(j, c)]])]
      [k := vs[k].(waiters := {}, out := NOTHING[i := [ConfirmKey(k, c)]])]
  }

  lemma {:induction false} StopMove(cfg: Config, m: Name, c: Name, vs: seq<View>, i: ProcessId, j: ProcessId,
                                    k: ProcessId, rest: seq<Move>)
    requires Guards(cfg, m, c) && |vs| == 3 && Trio(i, j, k) && vs[i].lock.Within? && vs[i].stage.Waits?
             && vs[i].out == NOTHING
    ensures var b := PacketKey(i, CondWaitEnd, c);
            Script(cfg, m, c, vs, [Stop(i)] + rest)
            == Script(cfg, m, c, vs[i := vs[i].(stage := Stopped({}), out := NOTHING[j := [b]][k := [b]])], rest)
  {
    ToldOut(i, j, k, PacketKey(i, CondWaitEnd, c));
    ScriptStep(cfg, m, c, vs, Stop(i), rest);
  }

  /** The other's answer to the end of i's wait. */
  lemma {:induction false} AnswerView(cfg: Config, m: Name, c: Name, v: View, i: ProcessId, j: ProcessId)
    requires v.out == NOTHING && i < 3 && j < 3 && c in cfg.guard
    ensures AfterHandling(cfg, m, c, j, v, PacketKey(i, CondWaitEnd, c))
            == v.(waiters := {}, out := NOTHING[i := [ConfirmKey(j, c)]])
  {
    AppendToEmpty(NOTHING, {i}, ConfirmKey(j, c));
    assert Append(NOTHING, {i}, ConfirmKey(j, c)) == NOTHING[i := [ConfirmKey(j, c)]];
  }

  lemma {:induction false} StopViews(cfg: Config, m: Name, c: Name, vs: seq<View>, i: ProcessId, j: ProcessId,
                                     k: ProcessId)
    requires Guards(cfg, m, c) && |vs| == 3 && Trio(i, j, k) && vs[i].lock.Within? && vs[i].stage.Waits?
    requires vs[i].out == NOTHING && vs[j].out == NOTHING && vs[k].out == NOTHING
    ensures Script(cfg, m, c, vs, [Stop(i)] + ([Fetch(j, i)] + [Fetch(k, i)])) == Some(Confirming(vs, c, i, j, k))
  {
    var b := PacketKey(i, CondWaitEnd, c);
    var stopped := vs[i := vs[i].(stage := Stopped({}), out := NOTHING[j := [b]][k := [b]])];
    StopMove(cfg, m, c, vs, i, j, k, [Fetch(j, i)] + [Fetch(k, i)]);
    TellViews(cfg, m, c, stopped, i, j, k, b);
    AnswerView(cfg, m, c, vs[j], i, j);
    AnswerView(cfg, m, c, vs[k], i, k);
    var told := Confirming(vs, c, i, j, k);
    assert stopped[i].(out := NOTHING) == told[i];
    assert stopped[i := told[i]][j := told[j]][k := told[k]] == told;
  }

  /** The end of i's wait erases everybody's waiters. */
  lemma {:induction false} EndViews(cfg: Config, m: Name, c: Name, vs: seq<View>, i: ProcessId, j: ProcessId,
                                    k: ProcessId)
    requires Guards(cfg, m, c) && |vs| == 3 && Trio(i, j, k) && vs[i].lock.Within? && vs[i].stage.Waits?
    requires vs[i].out == NOTHING && vs[j].out == NOTHING && vs[k].out == NOTHING
    ensures Script(cfg, m, c, vs, EndMoves(i, j, k))
            == Some(vs[i := vs[i].(stage := NotWaiting)][j := vs[j].(waiters := {})][k := vs[k].(waiters := {})])
  {
    var told := Confirming(vs, c, i, j, k);
    StopViews(cfg, m, c, vs, i, j, k);
    Then(cfg, m, c, vs, [Stop(i)] + ([Fetch(j, i)] + [Fetch(k, i)]), told,
         [Fetch(i, j)] + ([Fetch(i, k)] + [Finish(i)]));
    FinishViews(cfg, m, c, told, i, j, k);
    var ended := vs[i := vs[i].(stage := NotWaiting)][j := vs[j].(waiters := {})][k := vs[k].(waiters := {})];
    assert told[i].(stage := NotWaiting) == ended[i];
    assert told[j].(out := NOTHING) == ended[j] && told[k].(out := NOTHING) == ended[k];
    assert told[i := ended[i]][j := ended[j]][k := ended[k]] == ended;
  }

  function Calm(stage: Stage, waiters: set<ProcessId>, replica: Bytes): View {
    View(Outside, stage, waiters, replica, NOTHING)
  }

  /** Process 0 waits, and then process 1. */
  lemma {:induction false} FirstWaitsViews(cfg: Config, m: Name, c: Name, x: Bytes)
    requires Guards(cfg, m, c)
    ensures Script(cfg, m, c, [Calm(NotWaiting, {}, x), Calm(NotWaiting, {}, x), Calm(NotWaiting, {}, x)],
                   WaitMoves(0, 1, 2))
            == Some([Calm(Waits, {}, x), Calm(NotWaiting, {0}, x), Calm(NotWaiting, {0}, x)])
  {
    var vs := [Calm(NotWaiting, {}, x), Calm(NotWaiting, {}, x), Calm(NotWaiting, {}, x)];
    var v1 := [Calm(Waits, {}, x), Calm(NotWaiting, {0}, x), Calm(NotWaiting, {0}, x)];
    WaitViews(cfg, m, c, vs, 0, 1, 2);
    assert vs[0].(stage := Waits) == v1[0] && vs[1].(waiters := {} + {0}) == v1[1]
           && vs[2].(waiters := {} + {0}) == v1[2];
    assert vs[0 := v1[0]][1 := v1[1]][2 := v1[2]] == v1;
  }

  lemma {:induction false} SecondWaitsViews(cfg: Config, m: Name, c: Name, x: Bytes)
    requires Guards(cfg, m, c)
    ensures Script(cfg, m, c, [Calm(Waits, {}, x), Calm(NotWaiting, {0}, x), Calm(NotWaiting, {0}, x)],
                   WaitMoves(1, 0, 2))
            == Some([Calm(Waits, {1}, x), Calm(Waits, {0}, x), Calm(NotWaiting, {0, 1}, x)])
  {
    var vs := [Calm(Waits, {}, x), Calm(NotWaiting, {0}, x), Calm(NotWaiting, {0}, x)];
    var v1 := [Calm(Waits, {1}, x), Calm(Waits, {0}, x), Calm(NotWaiting, {0, 1}, x)];
    WaitViews(cfg, m, c, vs, 1, 0, 2);
    assert vs[1].(stage := Waits) == v1[1] && vs[0].(waiters := {} + {1}) == v1[0]
           && vs[2].(waiters := {0} + {1}) == v1[2];
    assert vs[1 := v1[1]][0 := v1[0]][2 := v1[2]] == v1;
  }

  /** Process 0, in the section again, ends its wait, which erases process 1 from the table of process 2. */
  lemma {:induction false} FirstEndsViews(cfg: Config, m: Name, c: Name, x: Bytes)
    requires Guards(cfg, m, c)
    ensures Script(cfg, m, c, [Calm(Waits, {1}, x).(lock := Within), Calm(Waits, {0}, x), Calm(NotWaiting, {0, 1}, x)],
                   EndMoves(0, 1, 2))
            == Some([Calm(NotWaiting, {1}, x).(lock := Within), Calm(Waits, {}, x), Calm(NotWaiting, {}, x)])
  {
    var vs := [Calm(Waits, {1}, x).(lock := Within), Calm(Waits, {0}, x), Calm(NotWaiting, {0, 1}, x)];
    var v1 := [Calm(NotWaiting, {1}, x).(lock := Within), Calm(Waits, {}, x), Calm(NotWaiting, {}, x)];
    EndViews(cfg, m, c, vs, 0, 1, 2);
    assert vs[0].(stage := NotWaiting) == v1[0] && vs[1].(waiters := {}) == v1[1] && vs[2].(waiters := {}) == v1[2];
    assert vs[0 := v1[0]][1 := v1[1]][2 := v1[2]] == v1;
  }

  function TellMoves(state: Bytes): seq<Move> { [Publish(0, state)] + ([Fetch(1, 0)] + [Fetch(2, 0)]) }

  /** Process 0 leaves the section. */
  lemma {:induction false} LeaveViews(cfg: Config, m: Name, c: Name, x: Bytes)
    requires Setup(cfg, m) && 1 + |m| + |x| <= MAX_STRING
    ensures Script(cfg, m, c, [Calm(NotWaiting, {1}, x).(lock := Within), Calm(Waits, {}, x), Calm(NotWaiting, {}, x)],
                   TellMoves(x))
            == Some([Calm(NotWaiting, {1}, x), Calm(Waits, {}, x), Calm(NotWaiting, {}, x)])
  {
    var vs := [Calm(NotWaiting, {1}, x).(lock := Within), Calm(Waits, {}, x), Calm(NotWaiting, {}, x)];
    var b := Broadcast(0, m, x);
    var v1 := [Calm(NotWaiting, {1}, x).(out := NOTHING[1 := [b]][2 := [b]]), Calm(Waits, {}, x),
               Calm(NotWaiting, {}, x)];
    var v2 := [Calm(NotWaiting, {1}, x), Calm(Waits, {}, x), Calm(NotWaiting, {}, x)];
    PublishViews(cfg, m, c, vs, 0, 1, 2, x);
    assert vs[0 := v1[0]] == v1;
    Then(cfg, m, c, vs, [Publish(0, x)], v1, [Fetch(1, 0)] + [Fetch(2, 0)]);
    SyncRoundTrip(m, x);
    TellViews(cfg, m, c, v1, 0, 1, 2, b);
    assert v1[0].(out := NOTHING) == v2[0] && v1[1].(replica := x) == v2[1] && v1[2].(replica := x) == v2[2];
    assert v1[0 := v2[0]][1 := v2[1]][2 := v2[2]] == v2;
  }

  lemma NoSources(table: TimeSet)
    ensures Sources(table) == {} ==> table == map[]
  {
    if t :| t in table {
      assert table[t].source in Sources(table);
    }
  }

  lemma {:induction false} BothWait(cfg: Config, m: Name, c: Name) returns (pt: Point)
    requires Setup(cfg, m) && Guards(cfg, m, c)
    ensures Good(cfg, m, c, pt)
    ensures var x := cfg.initial[m]; pt.views == [Calm(Waits, {1}, x), Calm(Waits, {0}, x), Calm(NotWaiting, {0, 1}, x)]
  {
    var x := cfg.initial[m];
    pt := Start(cfg, m, c);
    FirstWaitsViews(cfg, m, c, x);
    pt := PlayAll(cfg, m, c, pt, WaitMoves(0, 1, 2));
    SecondWaitsViews(cfg, m, c, x);
    pt := PlayAll(cfg, m, c, pt, WaitMoves(1, 0, 2));
  }

  lemma {:induction false} FirstAcquires(cfg: Config, m: Name, c: Name) returns (pt: Point)
    requires Setup(cfg, m) && Guards(cfg, m, c)
    ensures Good(cfg, m, c, pt)
    ensures var x := cfg.initial[m];
            pt.views == [Calm(Waits, {1}, x).(lock := Within), Calm(Waits, {0}, x), Calm(NotWaiting, {0, 1}, x)]
  {
    pt := BothWait(cfg, m, c);
    AcquireViews(cfg, m, c, pt.views, 0, 1, 2);
    pt := PlayAll(cfg, m, c, pt, AcquireMoves(0, 1, 2));
  }

  lemma {:induction false} FirstLeaves(cfg: Config, m: Name, c: Name) returns (pt: Point)
    requires Setup(cfg, m) && Guards(cfg, m, c)
    ensures Good(cfg, m, c, pt)
    ensures var x := cfg.initial[m]; pt.views == [Calm(NotWaiting, {1}, x), Calm(Waits, {}, x), Calm(NotWaiting, {}, x)]
  {
    pt := FirstAcquires(cfg, m, c);
    FirstEndsViews(cfg, m, c, cfg.initial[m]);
    pt := PlayAll(cfg, m, c, pt, EndMoves(0, 1, 2));
    LeaveViews(cfg, m, c, cfg.initial[m]);
    pt := PlayAll(cfg, m, c, pt, TellMoves(cfg.initial[m]));
  }

  /** With three processes, a process can be inside a section with an empty waiter table although another
      process is waiting: notifyOne would then notify nobody. */
  lemma {:induction false} LosesWaiter(cfg: Config, m: Name, c: Name) returns (run: seq<Label>)
    requires cfg.Valid() && cfg.n == 3 && m in cfg.monitors && c in cfg.guard && cfg.guard[c] == m
    ensures Exec(cfg, run).Some?
    ensures var s := Exec(cfg, run).value;
            && LocalEnabled(cfg, s[2], NotifyOne(c)) && WaitersOf(s[2], c) == map[]
            && Listens(s[1], c) && NotifyOneNext(s[2], c).net == s[2].net
  {
    var pt := FirstLeaves(cfg, m, c);
    AcquireViews(cfg, m, c, pt.views, 2, 0, 1);
    pt := PlayAll(cfg, m, c, pt, AcquireMoves(2, 0, 1));
    run := pt.run;
    assert Seen(m, c, 1, pt.state[1], pt.views[1]) && Seen(m, c, 2, pt.state[2], pt.views[2]);
    NoSources(WaitersOf(pt.state[2], c));
  }
}
