/**
  Deadlock freedom.  While somebody waits for a mutex that nobody holds, some
  step that only completes pending work is enabled; every such step makes a
  natural number smaller; and when no such step is left, everybody has been
  served.
*/
module Progress {
  import opened Packets
  import opened Network
  import opened SyncFormat
  import opened Protocol
  import opened MutexInvariant
  import opened Flush
  import opened ConditionInvariant
  import opened ConditionRuns
  import opened ConditionTheorems
  import opened Dispatchable

  /** Steps that complete work under way: delivery, entering, leaving, ending a wait.  Requesting a
      mutex, starting a wait, notifying and changing state are not among them. */
  predicate Completes(step: Step) {
    || step.Receive? || step.Dispatch? || step.Enter?
    || step.SyncOut? || step.BeginRelease? || step.Grant? || step.EndRelease? || step.FinishWait?
  }

  // ---- Some step is enabled ------------------------------------------------------------------

  /** Nothing is on its way, and no process is unlocking. */
  ghost predicate Still(s: State) {
    && (forall i :: 0 <= i < |s| ==> s[i].pending.None? && !s[i].main.Releasing?)
    && (forall i, j :: 0 <= i < |s| && 0 <= j < |s| && i != j && i < |s[j].net.out| ==> s[j].net.out[i] == [])
  }

  lemma UnlockingMoves(cfg: Config, run: seq<Label>, i: ProcessId) returns (l: Label)
    requires Exec(cfg, run).Some? && i < cfg.n && Exec(cfg, run).value[i].main.Releasing?
    ensures Enabled(cfg, Exec(cfg, run).value, l) && Completes(l.step)
  {
    var s := Exec(cfg, run).value;
    var m := s[i].main.name;
    RunInv(cfg, m, run);
    assert Solo(cfg.n, m, i, s[i]);
    if DeferredOf(s[i], m) == map[] {
      l := Label(i, EndRelease(m));
    } else {
      var k :| k in DeferredOf(s[i], m);
      assert k == PacketKey(k.source, MutexRequest, m);
      l := Label(i, Grant(m, k.source));
    }
  }

  /** If the network is not still, it can move. */
  lemma NetworkMoves(cfg: Config, run: seq<Label>) returns (l: Label)
    requires cfg.Valid() && Exec(cfg, run).Some? && !Still(Exec(cfg, run).value)
    ensures Enabled(cfg, Exec(cfg, run).value, l) && Completes(l.step)
  {
    var s := Exec(cfg, run).value;
    if i :| 0 <= i < |s| && s[i].main.Releasing? {
      l := UnlockingMoves(cfg, run, i);
    } else if i :| 0 <= i < |s| && s[i].pending.Some? {
      NoPacketUndispatchable(cfg, run, i);
      l := Label(i, Dispatch);
    } else {
      var i, j :| 0 <= i < |s| && 0 <= j < |s| && i != j && i < |s[j].net.out| && s[j].net.out[i] != [];
      l := Label(i, Receive(j));
    }
  }

  /** The waiting process with the least request. */
  ghost predicate Foremost(m: Name, s: State, i: ProcessId) {
    && i < |s| && Waiting(s[i], m) && m in s[i].queued
    && forall j :: 0 <= j < |s| && j != i && Waiting(s[j], m) && m in s[j].queued ==>
         Before(s[i].queued[m], i, s[j].queued[m], j)
  }

  lemma {:induction false} FindForemost(m: Name, s: State, n: nat, i: ProcessId) returns (least: ProcessId)
    requires n <= |s| && i < n && Waiting(s[i], m) && m in s[i].queued
    ensures least < n && Waiting(s[least], m) && m in s[least].queued
    ensures forall j :: 0 <= j < n && j != least && Waiting(s[j], m) && m in s[j].queued ==>
                          Before(s[least].queued[m], least, s[j].queued[m], j)
  {
    var last := n - 1;
    var counts := Waiting(s[last], m) && m in s[last].queued;
    if i == last && !exists j :: 0 <= j < last && Waiting(s[j], m) && m in s[j].queued {
      least := last;
    } else {
      var k: ProcessId :| k < last && Waiting(s[k], m) && m in s[k].queued;
      least := FindForemost(m, s, last, k);
      if counts && Before(s[last].queued[m], last, s[least].queued[m], least) {
        least := last;
      }
    }
  }

  /** With no holder and nothing on its way, the foremost waiting process has all agreements. */
  lemma ForemostEnters(cfg: Config, m: Name, s: State, i: ProcessId)
    requires Inv(cfg, m, s) && Still(s) && Foremost(m, s, i)
    requires forall j :: 0 <= j < |s| ==> !Inside(s[j], m)
    ensures |s[i].main.agreements| == cfg.n - 1
  {
    assert Solo(cfg.n, m, i, s[i]);
    AllReceived(cfg.n, m, i, s[i].main.agreements);
    forall j | j in Others(cfg.n, i) ensures AgreementKey(j, m) in s[i].main.agreements {
      assert Link(m, i, s[i], j, s[j]) && Solo(cfg.n, m, j, s[j]);
    }
  }

  /** Somebody waits, nobody holds: a step that completes pending work is enabled, and once the
      network is still it is the entry of the foremost waiting process. */
  lemma NoDeadlock(cfg: Config, m: Name, run: seq<Label>, i: ProcessId) returns (l: Label)
    requires cfg.Valid() && Exec(cfg, run).Some? && i < cfg.n && Waiting(Exec(cfg, run).value[i], m)
    requires forall j :: 0 <= j < cfg.n ==> !Inside(Exec(cfg, run).value[j], m)
    ensures Enabled(cfg, Exec(cfg, run).value, l) && Completes(l.step)
    ensures Still(Exec(cfg, run).value) ==> l.step == Enter(m) && Foremost(m, Exec(cfg, run).value, l.proc)
  {
    var s := Exec(cfg, run).value;
    if !Still(s) {
      l := NetworkMoves(cfg, run);
    } else {
      RunInv(cfg, m, run);
      assert Solo(cfg.n, m, i, s[i]);
      var least := FindForemost(m, s, |s|, i);
      ForemostEnters(cfg, m, s, least);
      l := Label(least, Enter(m));
    }
  }

  /** A process that ends a wait has all confirmations once the network is still. */
  lemma EndingFinishes(cfg: Config, c: Name, run: seq<Label>, i: ProcessId)
    requires Exec(cfg, run).Some? && c in cfg.guard && i < cfg.n
    requires Still(Exec(cfg, run).value) && Ends(Exec(cfg, run).value[i], c)
    ensures Enabled(cfg, Exec(cfg, run).value, Label(i, FinishWait(c)))
  {
    RunCond(cfg, c, run);
    var s, times, exits := Exec(cfg, run).value, WaitTimes(cfg, c, run), Exits(cfg, cfg.guard[c], run);
    assert CondSolo(cfg, c, i, s[i], times[i], exits[i]);
    AllConfirmed(cfg.n, c, i, s[i].wait.confirmations);
    Endpoints(cfg, cfg.guard[c], s);
    forall k | k in Others(cfg.n, i) ensures ConfirmKey(k, c) in s[i].wait.confirmations {
      ConfirmationConservation(cfg, c, run, i, k);
    }
  }

  /** The main thread is not inside another lock, nor inside a wait under another guard. */
  predicate CanLeave(cfg: Config, p: Proc, m: Name) {
    || p.main == Leaving(m) || Running(p)
    || (p.main.Free? && !p.wait.NoWait? && p.wait.cond in cfg.guard && cfg.guard[p.wait.cond] == m)
  }

  /** Such a holder can move on, if nothing else can. */
  lemma HolderMoves(cfg: Config, m: Name, run: seq<Label>, i: ProcessId) returns (l: Label)
    requires cfg.Valid() && Exec(cfg, run).Some? && i < cfg.n && Inside(Exec(cfg, run).value[i], m)
    requires Still(Exec(cfg, run).value) && CanLeave(cfg, Exec(cfg, run).value[i], m)
    ensures Enabled(cfg, Exec(cfg, run).value, l) && Completes(l.step)
  {
    var p := Exec(cfg, run).value[i];
    RunTidy(cfg, run);
    assert Tidy(cfg, p);
    if p.main == Leaving(m) || WaitingUnder(cfg, p, m) || (Running(p) && m !in cfg.monitors) {
      l := Label(i, BeginRelease(m));
    } else if Running(p) {
      l := Label(i, SyncOut(m));
    } else {
      EndingFinishes(cfg, p.wait.cond, run, i);
      l := Label(i, FinishWait(p.wait.cond));
    }
  }

  /** Mutexes are locked in the order of a rank: a holder of one of at least m's rank can leave it, or waits
      for one of a greater rank. */
  ghost predicate LocksInOrder(cfg: Config, s: State, rank: map<Name, int>, m: Name)
    requires m in rank
  {
    forall i: ProcessId, x :: i < |s| && x in rank && rank[x] >= rank[m] && Inside(s[i], x) ==>
      || CanLeave(cfg, s[i], x)
      || (s[i].main.Requesting? && s[i].main.name in rank && rank[s[i].main.name] > rank[x])
  }

  function Above(rank: map<Name, int>, m: Name): set<Name>
    requires m in rank
  {
    set x | x in rank && rank[x] > rank[m]
  }

  /** When no completing step is left, nobody is inside m: not one who can leave it, and not one who waits
      for a mutex further up, which nobody is inside. */
  lemma {:induction false} NobodyInside(cfg: Config, rank: map<Name, int>, m: Name, run: seq<Label>, i: ProcessId)
    requires cfg.Valid() && Exec(cfg, run).Some? && i < cfg.n
    requires m in rank && LocksInOrder(cfg, Exec(cfg, run).value, rank, m)
    requires forall l :: Enabled(cfg, Exec(cfg, run).value, l) ==> !Completes(l.step)
    ensures !Inside(Exec(cfg, run).value[i], m)
    decreases Above(rank, m)
  {
    var s := Exec(cfg, run).value;
    if !Still(s) {
      var l := NetworkMoves(cfg, run);
    } else if Inside(s[i], m) {
      if CanLeave(cfg, s[i], m) {
        var l := HolderMoves(cfg, m, run, i);
      } else {
        var next := s[i].main.name;
        assert next in Above(rank, m) && next !in Above(rank, next);
        forall j: ProcessId | j < cfg.n ensures !Inside(s[j], next) {
          NobodyInside(cfg, rank, next, run, j);
        }
        var l := NoDeadlock(cfg, next, run, i);
      }
    }
  }

  /** When no step that completes work is left, nobody waits for m and nobody is inside it, as long as
      mutexes from m's rank upwards are locked in the order of their ranks. */
  lemma NothingLeftMeansServed(cfg: Config, rank: map<Name, int>, m: Name, run: seq<Label>, i: ProcessId)
    requires cfg.Valid() && Exec(cfg, run).Some? && i < cfg.n
    requires m in rank && LocksInOrder(cfg, Exec(cfg, run).value, rank, m)
    requires forall l :: Enabled(cfg, Exec(cfg, run).value, l) ==> !Completes(l.step)
    ensures !Waiting(Exec(cfg, run).value[i], m) && !Inside(Exec(cfg, run).value[i], m)
  {
    var s := Exec(cfg, run).value;
    forall j: ProcessId | j < cfg.n ensures !Inside(s[j], m) {
      NobodyInside(cfg, rank, m, run, j);
    }
    if Waiting(s[i], m) {
      var l := NoDeadlock(cfg, m, run, i);
    }
  }

  // ---- Every such step makes a number smaller ---------------------------------------------------

  /** The steps a packet can still cause: taking it, dispatching it, and those of its answer. */
  function Weight(k: Packet): nat {
    if k.messageType.MutexRequest? then 5 else if k.messageType.CondWaitEnd? then 4 else 2
  }

  ghost function ChannelWeight(ch: seq<Packet>): nat {
    if ch == [] then 0 else Weight(ch[0]) + ChannelWeight(ch[1..])
  }

  ghost function OutWeight(out: seq<seq<Packet>>): nat {
    if out == [] then 0 else ChannelWeight(out[0]) + OutWeight(out[1..])
  }

  ghost function AnyName(d: map<Name, PacketSet>): (m: Name)
    requires d != map[]
    ensures m in d
  {
    var m :| m in d;
    m
  }

  ghost function DeferredCount(d: map<Name, PacketSet>): nat {
    if d == map[] then 0 else |d[AnyName(d)]| + DeferredCount(d - {AnyName(d)})
  }

  function Repeated(k: nat, w: nat): nat {
    if k == 0 then 0 else w + Repeated(k - 1, w)
  }

  function MainWeight(n: nat, main: Main): nat {
    match main
    case Free => 2 * n
    case Subscribed(_) => 2 * n
    case Requesting(_, _) => 4 * n + 2
    case Leaving(_) => 1
    case Releasing(_) => 2 * n + 1
  }

  ghost function ProcWeight(n: nat, p: Proc): nat {
    MainWeight(n, p.main) + Repeated(|p.held|, 2 * n + 1) + (if p.wait.Ending? then 1 else 0)
      + 3 * DeferredCount(p.deferred)
    + (if p.pending.Some? then Weight(p.pending.value) - 1 else 0) + OutWeight(p.net.out)
  }

  ghost function Measure(n: nat, s: State): nat {
    if s == [] then 0 else ProcWeight(n, s[0]) + Measure(n, s[1..])
  }

  lemma {:induction false} MeasureUpdate(n: nat, s: State, i: nat, p: Proc)
    requires i < |s|
    ensures Measure(n, s[i := p]) + ProcWeight(n, s[i]) == Measure(n, s) + ProcWeight(n, p)
  {
    if i == 0 {
      assert s[i := p][1..] == s[1..];
    } else {
      assert s[i := p][1..] == s[1..][i - 1 := p];
      MeasureUpdate(n, s[1..], i - 1, p);
    }
  }

  lemma {:induction false} ChannelWeightAppend(ch: seq<Packet>, k: Packet)
    ensures ChannelWeight(ch + [k]) == ChannelWeight(ch) + Weight(k)
  {
    if ch == [] {
      assert ch + [k] == [k];
    } else {
      assert (ch + [k])[1..] == ch[1..] + [k];
      ChannelWeightAppend(ch[1..], k);
    }
  }

  lemma {:induction false} OutWeightUpdate(out: seq<seq<Packet>>, i: nat, ch: seq<Packet>)
    requires i < |out|
    ensures OutWeight(out[i := ch]) + ChannelWeight(out[i]) == OutWeight(out) + ChannelWeight(ch)
  {
    if i == 0 {
      assert out[i := ch][1..] == out[1..];
    } else {
      assert out[i := ch][1..] == out[1..][i - 1 := ch];
      OutWeightUpdate(out[1..], i - 1, ch);
    }
  }

  /** One packet to one process adds at most its weight. */
  lemma SendOneWeight(e: Endpoint, t: MessageType, x: Bytes, to: ProcessId)
    ensures OutWeight(Send(e, t, x, {to}).out) <= OutWeight(e.out) + Weight(Stamped(e, t, x))
  {
    if to < |e.out| {
      assert Send(e, t, x, {to}).out == e.out[to := e.out[to] + [Stamped(e, t, x)]];
      OutWeightUpdate(e.out, to, e.out[to] + [Stamped(e, t, x)]);
      ChannelWeightAppend(e.out[to], Stamped(e, t, x));
    } else {
      assert Send(e, t, x, {to}).out == e.out;
    }
  }

  /** A broadcast that leaves out one's own channel adds its weight n - 1 times. */
  lemma {:induction false} SendManyWeight(out: seq<seq<Packet>>, out': seq<seq<Packet>>, k: Packet, from: nat,
                                          id: ProcessId)
    requires |out'| == |out|
    requires forall j :: 0 <= j < |out| ==> out'[j] == if from + j != id then out[j] + [k] else out[j]
    ensures OutWeight(out') == OutWeight(out) + Weight(k) * (|out| - if from <= id < from + |out| then 1 else 0)
  {
    if out != [] {
      ChannelWeightAppend(out[0], k);
      SendManyWeight(out[1..], out'[1..], k, from + 1, id);
    }
  }

  lemma RemoveBoth(d: map<Name, PacketSet>, k: Name, m: Name)
    requires k in d && m in d && k != m
    ensures d - {k} - {m} == d - {m} - {k}
    ensures m in d - {k} && (d - {k})[m] == d[m] && k in d - {m} && (d - {m})[k] == d[k]
  {
  }

  lemma FirstPick(d: map<Name, PacketSet>)
    requires d != map[]
    ensures DeferredCount(d) == |d[AnyName(d)]| + DeferredCount(d - {AnyName(d)})
  {
  }

  lemma {:induction false} DeferredPick(d: map<Name, PacketSet>, m: Name)
    requires m in d
    ensures DeferredCount(d) == |d[m]| + DeferredCount(d - {m})
    decreases |d|
  {
    FirstPick(d);
    var k := AnyName(d);
    if k != m {
      RemoveBoth(d, k, m);
      DeferredPick(d - {k}, m);
      DeferredPick(d - {m}, k);
    }
  }

  lemma RemoveUpdated(d: map<Name, PacketSet>, m: Name, s: PacketSet)
    ensures d[m := s] - {m} == d - {m}
    ensures m !in d ==> d - {m} == d
  {
  }

  lemma DeferredUpdate(d: map<Name, PacketSet>, m: Name, s: PacketSet)
    ensures DeferredCount(d[m := s]) + (if m in d then |d[m]| else 0) == DeferredCount(d) + |s|
  {
    DeferredPick(d[m := s], m);
    RemoveUpdated(d, m, s);
    if m in d {
      DeferredPick(d, m);
    }
  }

  lemma OneRemoved(d: PacketSet, k: PacketKey)
    requires k in d
    ensures |d - {k}| == |d| - 1
  {
    assert (d - {k}).Keys == d.Keys - {k};
    assert |d - {k}| == |(d - {k}).Keys| && |d| == |d.Keys|;
  }

  lemma DeferredAndNet(n: nat, p: Proc, p': Proc)
    requires p' == p.(deferred := p'.deferred, net := p'.net)
    ensures ProcWeight(n, p') + 3 * DeferredCount(p.deferred) + OutWeight(p.net.out)
            == ProcWeight(n, p) + 3 * DeferredCount(p'.deferred) + OutWeight(p'.net.out)
  {
  }

  lemma GrantFalls(n: nat, p: Proc, m: Name, to: ProcessId)
    requires RequestKey(to, m) in DeferredOf(p, m)
    ensures ProcWeight(n, GrantDeferred(p, m, to)) < ProcWeight(n, p)
  {
    OneRemoved(DeferredOf(p, m), RequestKey(to, m));
    DeferredUpdate(p.deferred, m, DeferredOf(p, m) - {RequestKey(to, m)});
    SendOneWeight(p.net, MutexAgreement, m, to);
    DeferredAndNet(n, p, GrantDeferred(p, m, to));
  }

  lemma InsertSize(s: PacketSet, k: Packet)
    ensures |Insert(s, k)| <= |s| + 1
  {
    assert Insert(s, k).Keys == s.Keys + {k.Key()};
    assert |Insert(s, k)| == |Insert(s, k).Keys| && |s| == |s.Keys|;
  }

  lemma RequestFalls(n: nat, p: Proc)
    requires p.pending.Some? && p.pending.value.messageType.MutexRequest?
    ensures ProcWeight(n, ProcessRequest(p, p.pending.value).(pending := None)) < ProcWeight(n, p)
  {
    var k := p.pending.value;
    var m := k.message;
    if CanSendAgreement(p, k) {
      SendOneWeight(p.net, MutexAgreement, m, k.source);
    } else {
      InsertSize(DeferredOf(p, m), k);
      DeferredUpdate(p.deferred, m, Insert(DeferredOf(p, m), k));
    }
  }

  lemma DispatchFalls(cfg: Config, n: nat, p: Proc)
    requires LocalEnabled(cfg, p, Dispatch)
    ensures ProcWeight(n, LocalNext(cfg, p, Dispatch)) < ProcWeight(n, p)
  {
    var k := p.pending.value;
    if k.messageType.MutexRequest? {
      RequestFalls(n, p);
    } else if k.messageType.CondWaitEnd? {
      SendOneWeight(p.net, CondWaitEndConfirm, k.message, k.source);
    } else {
      assert Deliver(cfg, p, k).net == p.net && Deliver(cfg, p, k).deferred == p.deferred;
    }
  }

  lemma HeldFalls(n: nat, held: set<Name>, m: Name)
    ensures m in held ==> Repeated(|held|, 2 * n + 1) == Repeated(|held - {m}|, 2 * n + 1) + (2 * n + 1)
    ensures Repeated(|held + {m}|, 2 * n + 1) <= Repeated(|held|, 2 * n + 1) + (2 * n + 1)
  {
    if m in held {
      assert |held| == |held - {m}| + 1;
      assert held + {m} == held;
    } else {
      assert |held + {m}| == |held| + 1;
    }
  }

  lemma BroadcastWeight(n: nat, i: ProcessId, e: Endpoint, x: Bytes)
    requires i < n && e.id == i && |e.out| == n
    ensures OutWeight(SendOthers(e, MessageType.Sync, x).out) == OutWeight(e.out) + 2 * (n - 1)
  {
    SendManyWeight(e.out, SendOthers(e, MessageType.Sync, x).out, Stamped(e, MessageType.Sync, x), 0, i);
  }

  lemma MainAndNet(n: nat, p: Proc, p': Proc)
    requires p' == p.(main := p'.main, net := p'.net)
    ensures ProcWeight(n, p') + MainWeight(n, p.main) + OutWeight(p.net.out)
            == ProcWeight(n, p) + MainWeight(n, p'.main) + OutWeight(p'.net.out)
  {
  }

  lemma BroadcastNext(cfg: Config, p: Proc, m: Name)
    requires LocalEnabled(cfg, p, SyncOut(m))
    ensures p.main.Free?
    ensures LocalNext(cfg, p, SyncOut(m))
            == p.(main := Leaving(m), net := SendOthers(p.net, MessageType.Sync, PackSync(m, p.replica[m])))
  {
  }

  lemma BroadcastFalls(cfg: Config, i: ProcessId, p: Proc, m: Name)
    requires EndpointOk(cfg.n, i, p) && LocalEnabled(cfg, p, SyncOut(m))
    ensures ProcWeight(cfg.n, LocalNext(cfg, p, SyncOut(m))) < ProcWeight(cfg.n, p)
  {
    BroadcastWeight(cfg.n, i, p.net, PackSync(m, p.replica[m]));
    BroadcastNext(cfg, p, m);
    MainAndNet(cfg.n, p, LocalNext(cfg, p, SyncOut(m)));
  }

  lemma EntryFalls(cfg: Config, p: Proc, m: Name)
    requires LocalEnabled(cfg, p, Enter(m))
    ensures ProcWeight(cfg.n, LocalNext(cfg, p, Enter(m))) < ProcWeight(cfg.n, p)
  {
    HeldFalls(cfg.n, p.held, m);
  }

  lemma LeavingFalls(cfg: Config, p: Proc, m: Name)
    requires cfg.n >= 1 && LocalEnabled(cfg, p, BeginRelease(m))
    ensures ProcWeight(cfg.n, LocalNext(cfg, p, BeginRelease(m))) < ProcWeight(cfg.n, p)
  {
    HeldFalls(cfg.n, p.held, m);
  }

  lemma FinishingFalls(cfg: Config, p: Proc, c: Name)
    requires LocalEnabled(cfg, p, FinishWait(c))
    ensures ProcWeight(cfg.n, LocalNext(cfg, p, FinishWait(c))) < ProcWeight(cfg.n, p)
  {
  }

  lemma ReleasedFalls(cfg: Config, p: Proc, m: Name)
    requires LocalEnabled(cfg, p, EndRelease(m))
    ensures ProcWeight(cfg.n, LocalNext(cfg, p, EndRelease(m))) < ProcWeight(cfg.n, p)
  {
    DeferredUpdate(p.deferred, m, map[]);
  }

  lemma LocalFalls(cfg: Config, i: ProcessId, p: Proc, step: Step)
    requires EndpointOk(cfg.n, i, p) && LocalEnabled(cfg, p, step) && Completes(step)
    ensures ProcWeight(cfg.n, LocalNext(cfg, p, step)) < ProcWeight(cfg.n, p)
  {
    match step
    case Enter(m) => EntryFalls(cfg, p, m);
    case BeginRelease(m) => LeavingFalls(cfg, p, m);
    case Grant(m, to) => GrantFalls(cfg.n, p, m, to);
    case EndRelease(m) => ReleasedFalls(cfg, p, m);
    case SyncOut(m) => BroadcastFalls(cfg, i, p, m);
    case FinishWait(c) => FinishingFalls(cfg, p, c);
    case Dispatch => DispatchFalls(cfg, cfg.n, p);
  }

  lemma ReceiveFalls(n: nat, s: State, i: ProcessId, from: ProcessId)
    requires CanReceive(s, i, from)
    ensures Measure(n, ReceiveNext(s, i, from)) < Measure(n, s)
  {
    var k := s[from].net.out[i][0];
    var p', q' := Take(s[i], k), DropHead(s[from], i);
    MeasureUpdate(n, s, i, p');
    MeasureUpdate(n, s[i := p'], from, q');
    OutWeightUpdate(s[from].net.out, i, s[from].net.out[i][1..]);
  }

  /** Each step that completes work makes the measure smaller, so a run of such steps is no longer than
      the measure of the state it starts in. */
  lemma MeasureFalls(cfg: Config, run: seq<Label>, l: Label)
    requires Exec(cfg, run).Some? && Enabled(cfg, Exec(cfg, run).value, l) && Completes(l.step)
    ensures Measure(cfg.n, Next(cfg, Exec(cfg, run).value, l)) < Measure(cfg.n, Exec(cfg, run).value)
  {
    var s := Exec(cfg, run).value;
    if l.step.Receive? {
      ReceiveFalls(cfg.n, s, l.proc, l.step.from);
    } else {
      RunInv(cfg, [], run);
      Endpoints(cfg, [], s);
      LocalFalls(cfg, l.proc, s[l.proc], l.step);
      MeasureUpdate(cfg.n, s, l.proc, LocalNext(cfg, s[l.proc], l.step));
    }
  }

  lemma {:induction false} CompletionEnds(cfg: Config, run: seq<Label>, more: seq<Label>)
    requires Exec(cfg, run + more).Some? && Exec(cfg, run).Some?
    requires forall k :: 0 <= k < |more| ==> Completes(more[k].step)
    ensures |more| + Measure(cfg.n, Exec(cfg, run + more).value) <= Measure(cfg.n, Exec(cfg, run).value)
  {
    if more == [] {
      assert run + more == run;
    } else {
      var before, s, l := ExecLast(cfg, run + more);
      assert before == run + more[..|more| - 1] && l == more[|more| - 1];
      CompletionEnds(cfg, run, more[..|more| - 1]);
      MeasureFalls(cfg, before, l);
    }
  }
}
