/**
  Replication of monitor state.  Leaving a monitor broadcasts its state; every
  process overwrites its replica with whatever SYNC message it dispatches, in
  the order of arrival.

  The invariant follows one monitor m.  SYNC messages are told apart by their
  Lamport times, which grow from one critical section to the next.
*/
module Replication {
  import opened Packets
  import opened Network
  import opened SyncFormat
  import opened Protocol
  import opened MutexInvariant
  import opened MutexTheorems
  import opened MutexFairness
  import opened Flush
  import opened ConditionInvariant
  import opened Dispatchable

  /** What can be observed of the SYNC messages of m over a run. */
  datatype Watch = Watch(
    saved: map<LamportTime, Bytes>,   // the state broadcast at each time; at time 0 the initial state
    last: LamportTime,                // the latest broadcast
    sent: seq<LamportTime>,           // each process's own latest broadcast
    origin: seq<LamportTime>,         // the broadcast each replica comes from
    seen: seq<LamportTime>)           // the latest broadcast each process has sent or dispatched

  predicate IsSync(k: Packet, m: Name) {
    k.messageType.Sync? && ExtractName(k.message) == Some(m)
  }

  predicate DispatchesSync(p: Proc, step: Step, m: Name) {
    step.Dispatch? && p.pending.Some? && IsSync(p.pending.value, m)
  }

  ghost function WatchAfter(m: Name, s: State, l: Label, w: Watch): (w': Watch)
    requires l.proc < |s| == |w.sent| == |w.origin| == |w.seen|
    ensures |w'.sent| == |w'.origin| == |w'.seen| == |s|
  {
    var i, p := l.proc, s[l.proc];
    var t := p.net.clock + 1;
    if l.step == SyncOut(m) && m in p.replica then
      Watch(w.saved[t := p.replica[m]], t, w.sent[i := t], w.origin[i := t], w.seen[i := t])
    else if DispatchesSync(p, l.step, m) then
      var u := p.pending.value.lamportTime;
      w.(origin := w.origin[i := u], seen := w.seen[i := if u < w.seen[i] then w.seen[i] else u])
    else w
  }

  ghost function Watched(cfg: Config, m: Name, run: seq<Label>): (w: Watch)
    requires Exec(cfg, run).Some? && m in cfg.initial
    ensures |w.sent| == |w.origin| == |w.seen| == cfg.n
  {
    if run == [] then
      var zeros := seq(cfg.n, _ => 0);
      Watch(map[0 := cfg.initial[m]], 0, zeros, zeros, zeros)
    else
      var last := |run| - 1;
      WatchAfter(m, Exec(cfg, run[..last]).value, run[last], Watched(cfg, m, run[..last]))
  }

  // ---- The invariant -------------------------------------------------------------------

  ghost predicate WatchOk(n: nat, w: Watch) {
    && |w.sent| == |w.origin| == |w.seen| == n
    && 0 in w.saved && w.last in w.saved
    && (forall t :: t in w.saved ==> t <= w.last)
    && (w.last == 0 || exists j :: 0 <= j < n && w.sent[j] == w.last)
  }

  /** The main thread has changed its replica in this section and not broadcast it yet. */
  predicate Unsaved(p: Proc, m: Name) {
    m in p.changed && p.main != Leaving(m)
  }

  ghost predicate SyncSolo(cfg: Config, m: Name, p: Proc, saved: map<LamportTime, Bytes>, last: LamportTime,
                           sent: LamportTime, origin: LamportTime, seen: LamportTime, e: LamportTime) {
    && sent <= p.net.clock && (sent <= e || Inside(p, m))
    && sent <= seen && origin <= seen <= last && origin in saved
    && m in p.replica
    && (m in p.changed ==> Inside(p, m))
    && (!p.wait.NoWait? && p.wait.cond in cfg.guard && cfg.guard[p.wait.cond] == m ==> m !in p.changed)
    && (p.main == Leaving(m) ==> Inside(p, m))
    && (!Unsaved(p, m) ==> p.replica[m] == saved[origin])
  }

  ghost predicate Faithful(k: Packet, saved: map<LamportTime, Bytes>, sent: LamportTime) {
    k.lamportTime in saved && ExtractData(k.message) == Some(saved[k.lamportTime]) && k.lamportTime <= sent
  }

  /** A SYNC message of time t is on its way from j to i. */
  ghost predicate OnItsWay(m: Name, i: ProcessId, pi: Proc, j: ProcessId, pj: Proc, t: LamportTime) {
    || (i < |pj.net.out| &&
        exists x :: 0 <= x < |pj.net.out[i]| && IsSync(pj.net.out[i][x], m) && pj.net.out[i][x].lamportTime == t)
    || (pi.pending.Some? && pi.pending.value.source == j && IsSync(pi.pending.value, m)
        && pi.pending.value.lamportTime == t)
  }

  /** j's broadcasts on their way to i, and that none of them is lost. */
  ghost predicate SyncLink(m: Name, i: ProcessId, pi: Proc, seen: LamportTime, j: ProcessId, pj: Proc,
                           saved: map<LamportTime, Bytes>, sent: LamportTime) {
    && (i < |pj.net.out| ==>
          forall x :: 0 <= x < |pj.net.out[i]| && IsSync(pj.net.out[i][x], m) ==>
            Faithful(pj.net.out[i][x], saved, sent))
    && (pi.pending.Some? && pi.pending.value.source == j && IsSync(pi.pending.value, m) ==>
          Faithful(pi.pending.value, saved, sent))
    && (seen >= sent || OnItsWay(m, i, pi, j, pj, sent))
  }

  ghost predicate SyncInv(cfg: Config, m: Name, s: State, w: Watch, exits: seq<LamportTime>) {
    && |s| == cfg.n == |exits| && WatchOk(cfg.n, w)
    && (forall i :: 0 <= i < |s| ==>
        SyncSolo(cfg, m, s[i], w.saved, w.last, w.sent[i], w.origin[i], w.seen[i], exits[i]))
    && (forall i, j :: 0 <= i < |s| && 0 <= j < |s| && i != j ==>
                         SyncLink(m, i, s[i], w.seen[i], j, s[j], w.saved, w.sent[j]))
  }

  // ---- Consequences of the invariant in one state ------------------------------------------

  /** Nothing that was broadcast is on its way to the holder. */
  lemma HolderHasNoSync(cfg: Config, m: Name, s: State, w: Watch, exits: seq<LamportTime>, i: ProcessId, j: ProcessId)
    requires Inv(cfg, m, s) && FlushInv(cfg, m, s, exits) && SyncInv(cfg, m, s, w, exits)
    requires i < cfg.n && j < cfg.n && i != j && Inside(s[i], m)
    ensures !Inside(s[j], m) && w.sent[j] <= exits[j] < s[i].net.clock && w.sent[j] <= w.seen[i]
    ensures |s[j].net.out| == cfg.n && forall x :: 0 <= x < |s[j].net.out[i]| ==> !IsSync(s[j].net.out[i][x], m)
    ensures s[i].pending.Some? && s[i].pending.value.source == j ==> !IsSync(s[i].pending.value, m)
  {
    PairExclusion(cfg, m, s, i, j);
    InvPair(cfg, m, s, i, j);
    assert FlushLink(m, i, s[i], j, s[j], exits[j]);
    assert SyncLink(m, i, s[i], w.seen[i], j, s[j], w.saved, w.sent[j]);
    assert SyncSolo(cfg, m, s[j], w.saved, w.last, w.sent[j], w.origin[j], w.seen[j], exits[j]);
  }

  /** The holder has seen the latest broadcast, and its clock is past it. */
  lemma HolderHasSeenLast(cfg: Config, m: Name, s: State, w: Watch, exits: seq<LamportTime>, i: ProcessId)
    requires Inv(cfg, m, s) && FlushInv(cfg, m, s, exits) && SyncInv(cfg, m, s, w, exits)
    requires i < cfg.n && Inside(s[i], m)
    ensures w.seen[i] == w.last <= s[i].net.clock
  {
    assert SyncSolo(cfg, m, s[i], w.saved, w.last, w.sent[i], w.origin[i], w.seen[i], exits[i]);
    if w.last > 0 {
      var j :| 0 <= j < cfg.n && w.sent[j] == w.last;
      if j != i {
        HolderHasNoSync(cfg, m, s, w, exits, i, j);
      }
    }
  }

  // ---- What one step can change ------------------------------------------------------------

  ghost predicate SyncFramed(m: Name, p: Proc, p': Proc, step: Step) {
    && (m in p.replica ==> m in p'.replica)
    && (!(step.Update? && step.m == m) && !DispatchesSync(p, step, m) && m in p.replica ==>
        p'.replica[m] == p.replica[m])
    && (m in p'.changed <==> (m in p.changed && step != BeginRelease(m)) || (step.Update? && step.m == m))
    && (p'.main == Leaving(m) <==> step == SyncOut(m) || (p.main == Leaving(m) && step != BeginRelease(m)))
  }

  lemma DispatchSyncFramed(cfg: Config, m: Name, p: Proc)
    requires LocalEnabled(cfg, p, Dispatch)
    ensures SyncFramed(m, p, LocalNext(cfg, p, Dispatch), Dispatch)
  {
  }

  lemma LocalSyncFramed(cfg: Config, m: Name, p: Proc, step: Step)
    requires LocalEnabled(cfg, p, step)
    ensures SyncFramed(m, p, LocalNext(cfg, p, step), step)
  {
    if step.Dispatch? {
      DispatchSyncFramed(cfg, m, p);
    } else if !(step.Update? && step.m == m) {
      assert m in p.replica ==> LocalNext(cfg, p, step).replica[m] == p.replica[m];
    }
  }

  /** While the main thread is inside a wait, the guarded monitor is unchanged. */
  lemma WaitsUnchanged(cfg: Config, m: Name, p: Proc, step: Step)
    requires LocalEnabled(cfg, p, step)
    requires !p.wait.NoWait? && p.wait.cond in cfg.guard && cfg.guard[p.wait.cond] == m ==> m !in p.changed
    ensures var p' := LocalNext(cfg, p, step);
            !p'.wait.NoWait? && p'.wait.cond in cfg.guard && cfg.guard[p'.wait.cond] == m ==> m !in p'.changed
  {
    LocalSyncFramed(cfg, m, p, step);
    if step.Dispatch? {
      assert LocalNext(cfg, p, step).changed == p.changed;
    }
  }

  ghost predicate Extends(saved: map<LamportTime, Bytes>, saved': map<LamportTime, Bytes>) {
    forall t :: t in saved ==> t in saved' && saved'[t] == saved[t]
  }

  // ---- One process ---------------------------------------------------------------------------

  lemma SyncSoloBroadcast(cfg: Config, m: Name, i: ProcessId, p: Proc, w: Watch, e: LamportTime)
    requires Solo(cfg.n, m, i, p) && LocalEnabled(cfg, p, SyncOut(m))
    requires |w.sent| == |w.origin| == |w.seen| == cfg.n
    requires SyncSolo(cfg, m, p, w.saved, w.last, w.sent[i], w.origin[i], w.seen[i], e)
    ensures var t, p' := p.net.clock + 1, LocalNext(cfg, p, SyncOut(m));
            SyncSolo(cfg, m, p', w.saved[t := p.replica[m]], t, t, t, t, e)
  {
  }

  lemma SyncSoloDispatch(cfg: Config, m: Name, i: ProcessId, p: Proc, w: Watch, e: LamportTime)
    requires Solo(cfg.n, m, i, p) && LocalEnabled(cfg, p, Dispatch) && DispatchesSync(p, Dispatch, m)
    requires |w.sent| == |w.origin| == |w.seen| == cfg.n && (forall t :: t in w.saved ==> t <= w.last)
    requires SyncSolo(cfg, m, p, w.saved, w.last, w.sent[i], w.origin[i], w.seen[i], e)
    requires Faithful(p.pending.value, w.saved, w.last)
    ensures var u := p.pending.value.lamportTime;
            SyncSolo(cfg, m, LocalNext(cfg, p, Dispatch), w.saved, w.last, w.sent[i], u,
                     if u < w.seen[i] then w.seen[i] else u, e)
  {
    WaitsUnchanged(cfg, m, p, Dispatch);
    var p' := LocalNext(cfg, p, Dispatch);
    assert p'.main == p.main && p'.changed == p.changed && p'.held == p.held;
    assert p'.replica == p.replica[m := w.saved[p.pending.value.lamportTime]];
  }

  lemma SyncSoloOther(cfg: Config, m: Name, i: ProcessId, p: Proc, step: Step, w: Watch, e: LamportTime)
    requires Solo(cfg.n, m, i, p) && LocalEnabled(cfg, p, step) && m in cfg.monitors
    requires step != SyncOut(m) && !DispatchesSync(p, step, m)
    requires |w.sent| == |w.origin| == |w.seen| == cfg.n
    requires SyncSolo(cfg, m, p, w.saved, w.last, w.sent[i], w.origin[i], w.seen[i], e)
    ensures SyncSolo(cfg, m, LocalNext(cfg, p, step), w.saved, w.last, w.sent[i], w.origin[i], w.seen[i],
                     ExitAfter(m, p, step, e))
  {
    LocalSyncFramed(cfg, m, p, step);
    LocalFramed(cfg, m, i, p, step);
    WaitsUnchanged(cfg, m, p, step);
  }

  lemma SyncSoloIdle(cfg: Config, m: Name, p: Proc, p': Proc, saved: map<LamportTime, Bytes>,
                     saved': map<LamportTime, Bytes>,
                     last: LamportTime, last': LamportTime, sent: LamportTime, origin: LamportTime, seen: LamportTime,
                     e: LamportTime)
    requires SyncSolo(cfg, m, p, saved, last, sent, origin, seen, e)
    requires Extends(saved, saved') && last <= last'
    requires p' == p.(net := p'.net, pending := p'.pending) && p.net.clock <= p'.net.clock
    ensures SyncSolo(cfg, m, p', saved', last', sent, origin, seen, e)
  {
  }

  // ---- Two processes ----------------------------------------------------------------------------

  lemma SyncLinkReceiverStep(cfg: Config, m: Name, i: ProcessId, pi: Proc, step: Step, seen: LamportTime,
                             seen': LamportTime,
                             j: ProcessId, pj: Proc, saved: map<LamportTime, Bytes>, saved': map<LamportTime, Bytes>,
                             sent: LamportTime)
    requires LocalEnabled(cfg, pi, step) && i != j
    requires SyncLink(m, i, pi, seen, j, pj, saved, sent) && Extends(saved, saved') && seen <= seen'
    requires DispatchesSync(pi, step, m) ==> pi.pending.value.lamportTime <= seen'
    ensures SyncLink(m, i, LocalNext(cfg, pi, step), seen', j, pj, saved', sent)
  {
    SentByIsSent(cfg, pi, step);
  }

  lemma SyncLinkIdle(m: Name, i: ProcessId, pi: Proc, seen: LamportTime, j: ProcessId, pj: Proc,
                     saved: map<LamportTime, Bytes>, saved': map<LamportTime, Bytes>, sent: LamportTime)
    requires SyncLink(m, i, pi, seen, j, pj, saved, sent) && Extends(saved, saved')
    ensures SyncLink(m, i, pi, seen, j, pj, saved', sent)
  {
  }

  /** Only the broadcast of m's own state is a SYNC message of m. */
  lemma SyncIsOwn(cfg: Config, m: Name, p: Proc, step: Step)
    requires cfg.Valid() && LocalEnabled(cfg, p, step) && Tidy(cfg, p) && m in cfg.monitors
    ensures var sent := SentBy(cfg, p, step);
            sent.Sends? && sent.t.Sync? ==>
              (ExtractName(sent.x) == Some(m) <==> step == SyncOut(m))
              && (step == SyncOut(m) ==> ExtractData(sent.x) == Some(p.replica[m]))
  {
    if step.SyncOut? {
      SyncRouting(step.m, p.replica[step.m], m);
      SyncRoundTrip(step.m, p.replica[step.m]);
    }
  }

  lemma SyncLinkSenderOther(cfg: Config, m: Name, i: ProcessId, pi: Proc, seen: LamportTime, j: ProcessId, pj: Proc,
                            step: Step,
                            saved: map<LamportTime, Bytes>, sent: LamportTime)
    requires cfg.Valid() && m in cfg.monitors && LocalEnabled(cfg, pj, step) && Tidy(cfg, pj)
    requires step != SyncOut(m) && i < |pj.net.out|
    requires SyncLink(m, i, pi, seen, j, pj, saved, sent)
    ensures SyncLink(m, i, pi, seen, j, LocalNext(cfg, pj, step), saved, sent)
  {
    SyncIsOwn(cfg, m, pj, step);
    ChannelAfter(cfg, pj, step, i);
    OnItsWayAfter(cfg, m, i, pi, j, pj, step, sent);
  }

  lemma OnItsWayAfter(cfg: Config, m: Name, i: ProcessId, pi: Proc, j: ProcessId, pj: Proc, step: Step, t: LamportTime)
    requires LocalEnabled(cfg, pj, step) && i < |pj.net.out|
    ensures OnItsWay(m, i, pi, j, pj, t) ==> OnItsWay(m, i, pi, j, LocalNext(cfg, pj, step), t)
  {
    ChannelAfter(cfg, pj, step, i);
    var pj' := LocalNext(cfg, pj, step);
    if x :| 0 <= x < |pj.net.out[i]| && IsSync(pj.net.out[i][x], m) && pj.net.out[i][x].lamportTime == t {
      assert pj'.net.out[i][x] == pj.net.out[i][x];
    }
  }

  lemma SyncLinkAppend(m: Name, i: ProcessId, pi: Proc, seen: LamportTime, j: ProcessId, pj: Proc, pj': Proc, k: Packet,
                       saved: map<LamportTime, Bytes>, saved': map<LamportTime, Bytes>, sent: LamportTime)
    requires i < |pj.net.out| == |pj'.net.out| && pj'.net.out[i] == pj.net.out[i] + [k]
    requires IsSync(k, m) && Faithful(k, saved', k.lamportTime) && sent <= k.lamportTime
    requires Extends(saved, saved') && SyncLink(m, i, pi, seen, j, pj, saved, sent)
    ensures SyncLink(m, i, pi, seen, j, pj', saved', k.lamportTime)
  {
    assert pj'.net.out[i][|pj.net.out[i]|] == k;
    assert OnItsWay(m, i, pi, j, pj', k.lamportTime);
  }

  lemma SyncLinkBroadcast(cfg: Config, m: Name, i: ProcessId, pi: Proc, seen: LamportTime, j: ProcessId, pj: Proc,
                          pj': Proc,
                          saved: map<LamportTime, Bytes>, sent: LamportTime)
    requires |m| <= 127 && m in pj.replica && 1 + |m| + |pj.replica[m]| <= MAX_STRING
    requires pj'.net == SendOthers(pj.net, MessageType.Sync, PackSync(m, pj.replica[m]))
    requires pj.net.id == j && i < |pj.net.out| && i != j && sent <= pj.net.clock
    requires Extends(saved, saved[pj.net.clock + 1 := pj.replica[m]])
    requires SyncLink(m, i, pi, seen, j, pj, saved, sent)
    ensures SyncLink(m, i, pi, seen, j, pj', saved[pj.net.clock + 1 := pj.replica[m]], pj.net.clock + 1)
  {
    SyncRoundTrip(m, pj.replica[m]);
    assert i in Others(|pj.net.out|, j);
    var k := Stamped(pj.net, MessageType.Sync, PackSync(m, pj.replica[m]));
    SyncLinkAppend(m, i, pi, seen, j, pj, pj', k, saved, saved[pj.net.clock + 1 := pj.replica[m]], sent);
  }

  lemma SyncLinkTake(m: Name, i: ProcessId, pi: Proc, seen: LamportTime, j: ProcessId, pj: Proc,
                     saved: map<LamportTime, Bytes>, sent: LamportTime)
    requires i < |pj.net.out| && pj.net.out[i] != [] && pi.pending.None? && pj.net.out[i][0].source == j
    requires SyncLink(m, i, pi, seen, j, pj, saved, sent)
    ensures SyncLink(m, i, Take(pi, pj.net.out[i][0]), seen, j, DropHead(pj, i), saved, sent)
  {
    var ch := pj.net.out[i];
    var pi', pj' := Take(pi, ch[0]), DropHead(pj, i);
    assert pj'.net.out[i] == ch[1..];
    if x :| 0 <= x < |ch| && IsSync(ch[x], m) && ch[x].lamportTime == sent {
      if x > 0 {
        assert pj'.net.out[i][x - 1] == ch[x];
      }
      assert OnItsWay(m, i, pi', j, pj', sent);
    }
  }

  lemma SyncLinkAlike(m: Name, i: ProcessId, pi: Proc, pi': Proc, seen: LamportTime, j: ProcessId, pj: Proc, pj': Proc,
                      saved: map<LamportTime, Bytes>, sent: LamportTime)
    requires |pj'.net.out| == |pj.net.out| && (i < |pj.net.out| ==> pj'.net.out[i] == pj.net.out[i])
    requires pi'.pending == pi.pending || (pi.pending.None? && pi'.pending.Some? && pi'.pending.value.source != j)
    requires SyncLink(m, i, pi, seen, j, pj, saved, sent)
    ensures SyncLink(m, i, pi', seen, j, pj', saved, sent)
  {
  }

  // ---- The whole state -----------------------------------------------------------------------------

  ghost predicate Sound(cfg: Config, m: Name, s: State, exits: seq<LamportTime>) {
    && cfg.Valid() && m in cfg.monitors
    && Inv(cfg, m, s) && FlushInv(cfg, m, s, exits)
    && (forall i :: 0 <= i < |s| ==> Tidy(cfg, s[i]))
  }

  /** A dispatched SYNC message holds what was saved at its time. */
  lemma PendingIsFaithful(cfg: Config, m: Name, s: State, w: Watch, exits: seq<LamportTime>, i: ProcessId)
    requires Sound(cfg, m, s, exits) && SyncInv(cfg, m, s, w, exits) && i < cfg.n
    requires s[i].pending.Some? && IsSync(s[i].pending.value, m)
    ensures Faithful(s[i].pending.value, w.saved, w.last)
  {
    assert Solo(cfg.n, m, i, s[i]);
    var j := s[i].pending.value.source;
    assert SyncLink(m, i, s[i], w.seen[i], j, s[j], w.saved, w.sent[j]);
  }

  /** The saved states only grow, and so does everything that is compared with them. */
  ghost predicate Grows(n: nat, w: Watch, w': Watch) {
    && |w.sent| == |w.origin| == |w.seen| == n && |w'.sent| == |w'.origin| == |w'.seen| == n
    && Extends(w.saved, w'.saved) && w.last <= w'.last
    && (forall i :: 0 <= i < n ==> w.sent[i] <= w'.sent[i] && w.seen[i] <= w'.seen[i])
  }

  lemma BroadcastGrows(n: nat, m: Name, s: State, i: ProcessId, w: Watch)
    requires WatchOk(n, w) && |s| == n && i < n && w.sent[i] <= w.last && w.seen[i] == w.last <= s[i].net.clock
    ensures Grows(n, w, WatchAfter(m, s, Label(i, SyncOut(m)), w))
    ensures WatchOk(n, WatchAfter(m, s, Label(i, SyncOut(m)), w))
  {
    var t, w' := s[i].net.clock + 1, WatchAfter(m, s, Label(i, SyncOut(m)), w);
    if m in s[i].replica {
      assert w'.sent == w.sent[i := t] && w'.seen == w.seen[i := t] && w'.sent[i] == w'.last;
    }
  }

  lemma OtherGrows(n: nat, m: Name, s: State, l: Label, w: Watch)
    requires WatchOk(n, w) && |s| == n && l.proc < n && l.step != SyncOut(m)
    ensures Grows(n, w, WatchAfter(m, s, l, w)) && WatchOk(n, WatchAfter(m, s, l, w))
  {
    assert WatchAfter(m, s, l, w).sent == w.sent;
  }

  lemma WatchGrows(cfg: Config, m: Name, s: State, l: Label, w: Watch, exits: seq<LamportTime>)
    requires Sound(cfg, m, s, exits) && SyncInv(cfg, m, s, w, exits) && Enabled(cfg, s, l)
    ensures Grows(cfg.n, w, WatchAfter(m, s, l, w)) && WatchOk(cfg.n, WatchAfter(m, s, l, w))
  {
    if l.step == SyncOut(m) {
      var i := l.proc;
      assert LocalEnabled(cfg, s[i], SyncOut(m));
      HolderHasSeenLast(cfg, m, s, w, exits, i);
      assert SyncSolo(cfg, m, s[i], w.saved, w.last, w.sent[i], w.origin[i], w.seen[i], exits[i]);
      assert l == Label(i, SyncOut(m));
      BroadcastGrows(cfg.n, m, s, i, w);
    } else {
      OtherGrows(cfg.n, m, s, l, w);
    }
  }

  lemma SyncSoloNext(cfg: Config, m: Name, s: State, l: Label, w: Watch, i: ProcessId, e: LamportTime)
    requires |s| == cfg.n && Enabled(cfg, s, l) && i < cfg.n && m in cfg.monitors && Solo(cfg.n, m, i, s[i])
    requires |w.sent| == |w.origin| == |w.seen| == cfg.n && (forall t :: t in w.saved ==> t <= w.last)
    requires Grows(cfg.n, w, WatchAfter(m, s, l, w))
    requires SyncSolo(cfg, m, s[i], w.saved, w.last, w.sent[i], w.origin[i], w.seen[i], e)
    requires s[i].pending.Some? && IsSync(s[i].pending.value, m) ==> Faithful(s[i].pending.value, w.saved, w.last)
    ensures var w' := WatchAfter(m, s, l, w);
            SyncSolo(cfg, m, Next(cfg, s, l)[i], w'.saved, w'.last, w'.sent[i], w'.origin[i], w'.seen[i],
                     if l.proc == i then ExitAfter(m, s[i], l.step, e) else e)
  {
    var w' := WatchAfter(m, s, l, w);
    if l.step.Receive? || l.proc != i {
      SyncSoloIdle(cfg, m, s[i], Next(cfg, s, l)[i], w.saved, w'.saved, w.last, w'.last, w.sent[i], w.origin[i],
                   w.seen[i], e);
    } else if l.step == SyncOut(m) {
      SyncSoloBroadcast(cfg, m, i, s[i], w, e);
    } else if DispatchesSync(s[i], l.step, m) {
      SyncSoloDispatch(cfg, m, i, s[i], w, e);
    } else {
      SyncSoloOther(cfg, m, i, s[i], l.step, w, e);
    }
  }

  lemma SyncLinkReceive(n: nat, m: Name, s: State, a: ProcessId, b: ProcessId, seen: LamportTime,
                        saved: map<LamportTime, Bytes>, sent: LamportTime, i: ProcessId, j: ProcessId)
    requires CanReceive(s, a, b) && |s| == n && i < n && j < n && i != j
    requires EndpointOk(n, b, s[b]) && EndpointOk(n, j, s[j])
    requires SyncLink(m, i, s[i], seen, j, s[j], saved, sent)
    ensures SyncLink(m, i, ReceiveNext(s, a, b)[i], seen, j, ReceiveNext(s, a, b)[j], saved, sent)
  {
    if a == i && b == j {
      SyncLinkTake(m, i, s[i], seen, j, s[j], saved, sent);
    } else {
      ReceiveElsewhere(n, s, a, b, i, j);
      SyncLinkAlike(m, i, s[i], ReceiveNext(s, a, b)[i], seen, j, s[j], ReceiveNext(s, a, b)[j], saved, sent);
    }
  }

  lemma BroadcastFacts(cfg: Config, m: Name, p: Proc)
    requires cfg.Valid() && LocalEnabled(cfg, p, SyncOut(m)) && Tidy(cfg, p)
    ensures |m| <= 127 && m in p.replica && 1 + |m| + |p.replica[m]| <= MAX_STRING
    ensures LocalNext(cfg, p, SyncOut(m)).net == SendOthers(p.net, MessageType.Sync, PackSync(m, p.replica[m]))
  {
  }

  lemma WatchBroadcast(m: Name, s: State, j: ProcessId, w: Watch)
    requires j < |s| == |w.sent| == |w.origin| == |w.seen| && m in s[j].replica
    ensures var w' := WatchAfter(m, s, Label(j, SyncOut(m)), w);
            && w'.saved == w.saved[s[j].net.clock + 1 := s[j].replica[m]]
            && w'.last == s[j].net.clock + 1 && w'.sent[j] == s[j].net.clock + 1
            && (forall i :: 0 <= i < |s| && i != j ==> w'.seen[i] == w.seen[i])
  {
  }

  lemma SyncLinkSenderBroadcast(cfg: Config, m: Name, s: State, w: Watch, i: ProcessId, j: ProcessId)
    requires cfg.Valid() && |s| == cfg.n && i < cfg.n && j < cfg.n && i != j
    requires LocalEnabled(cfg, s[j], SyncOut(m)) && m in s[j].replica
    requires |w.sent| == |w.origin| == |w.seen| == cfg.n
    requires s[j].net.id == j && |s[j].net.out| == cfg.n && Tidy(cfg, s[j])
    requires Grows(cfg.n, w, WatchAfter(m, s, Label(j, SyncOut(m)), w)) && w.sent[j] <= s[j].net.clock
    requires SyncLink(m, i, s[i], w.seen[i], j, s[j], w.saved, w.sent[j])
    ensures var w' := WatchAfter(m, s, Label(j, SyncOut(m)), w);
            SyncLink(m, i, s[i], w'.seen[i], j, LocalNext(cfg, s[j], SyncOut(m)), w'.saved, w'.sent[j])
  {
    BroadcastFacts(cfg, m, s[j]);
    WatchBroadcast(m, s, j, w);
    SyncLinkBroadcast(cfg, m, i, s[i], w.seen[i], j, s[j], LocalNext(cfg, s[j], SyncOut(m)), w.saved, w.sent[j]);
  }

  lemma SyncLinkSenderStep(cfg: Config, m: Name, s: State, l: Label, w: Watch, i: ProcessId, j: ProcessId)
    requires cfg.Valid() && m in cfg.monitors && |s| == cfg.n && i < cfg.n && j < cfg.n && i != j
    requires Enabled(cfg, s, l) && !l.step.Receive? && l.proc == j
    requires |w.sent| == |w.origin| == |w.seen| == cfg.n
    requires EndpointOk(cfg.n, j, s[j]) && Tidy(cfg, s[j]) && Grows(cfg.n, w, WatchAfter(m, s, l, w))
    requires w.sent[j] <= s[j].net.clock
    requires SyncLink(m, i, s[i], w.seen[i], j, s[j], w.saved, w.sent[j])
    ensures var w' := WatchAfter(m, s, l, w);
            SyncLink(m, i, s[i], w'.seen[i], j, LocalNext(cfg, s[j], l.step), w'.saved, w'.sent[j])
  {
    if l.step == SyncOut(m) {
      BroadcastFacts(cfg, m, s[j]);
      assert l == Label(j, SyncOut(m));
      SyncLinkSenderBroadcast(cfg, m, s, w, i, j);
    } else {
      SyncLinkSenderOther(cfg, m, i, s[i], w.seen[i], j, s[j], l.step, w.saved, w.sent[j]);
    }
  }

  lemma SyncLinkNext(cfg: Config, m: Name, s: State, l: Label, w: Watch, i: ProcessId, j: ProcessId)
    requires cfg.Valid() && m in cfg.monitors && |s| == cfg.n && i < cfg.n && j < cfg.n && i != j
    requires Enabled(cfg, s, l) && (l.step.Receive? ==> EndpointOk(cfg.n, l.step.from, s[l.step.from]))
    requires |w.sent| == |w.origin| == |w.seen| == cfg.n
    requires EndpointOk(cfg.n, j, s[j]) && Tidy(cfg, s[j]) && Grows(cfg.n, w, WatchAfter(m, s, l, w))
    requires w.sent[j] <= s[j].net.clock
    requires SyncLink(m, i, s[i], w.seen[i], j, s[j], w.saved, w.sent[j])
    ensures var s', w' := Next(cfg, s, l), WatchAfter(m, s, l, w);
            SyncLink(m, i, s'[i], w'.seen[i], j, s'[j], w'.saved, w'.sent[j])
  {
    var w' := WatchAfter(m, s, l, w);
    if l.step.Receive? {
      SyncLinkReceive(cfg.n, m, s, l.proc, l.step.from, w.seen[i], w.saved, w.sent[j], i, j);
    } else if l.proc == j {
      SyncLinkSenderStep(cfg, m, s, l, w, i, j);
    } else if l.proc == i {
      SyncLinkReceiverStep(cfg, m, i, s[i], l.step, w.seen[i], w'.seen[i], j, s[j], w.saved, w'.saved, w.sent[j]);
    } else {
      SyncLinkIdle(m, i, s[i], w.seen[i], j, s[j], w.saved, w'.saved, w.sent[j]);
    }
  }

  lemma SyncNext(cfg: Config, m: Name, s: State, l: Label, w: Watch, exits: seq<LamportTime>)
    requires Sound(cfg, m, s, exits) && SyncInv(cfg, m, s, w, exits) && Enabled(cfg, s, l)
    ensures SyncInv(cfg, m, Next(cfg, s, l), WatchAfter(m, s, l, w), ExitsAfter(m, s, l, exits))
  {
    WatchGrows(cfg, m, s, l, w, exits);
    SyncSolosNext(cfg, m, s, l, w, exits);
    SyncLinksNext(cfg, m, s, l, w, exits);
  }

  lemma SyncSolosNext(cfg: Config, m: Name, s: State, l: Label, w: Watch, exits: seq<LamportTime>)
    requires Sound(cfg, m, s, exits) && SyncInv(cfg, m, s, w, exits) && Enabled(cfg, s, l)
    requires Grows(cfg.n, w, WatchAfter(m, s, l, w))
    ensures var s', w', exits' := Next(cfg, s, l), WatchAfter(m, s, l, w), ExitsAfter(m, s, l, exits);
            forall i :: 0 <= i < |s'| ==>
                          SyncSolo(cfg, m, s'[i], w'.saved, w'.last, w'.sent[i], w'.origin[i], w'.seen[i], exits'[i])
  {
    var s', w', exits' := Next(cfg, s, l), WatchAfter(m, s, l, w), ExitsAfter(m, s, l, exits);
    forall i | 0 <= i < |s'|
      ensures SyncSolo(cfg, m, s'[i], w'.saved, w'.last, w'.sent[i], w'.origin[i], w'.seen[i], exits'[i])
    {
      if s[i].pending.Some? && IsSync(s[i].pending.value, m) {
        PendingIsFaithful(cfg, m, s, w, exits, i);
      }
      SyncSoloNext(cfg, m, s, l, w, i, exits[i]);
    }
  }

  lemma SyncLinksNext(cfg: Config, m: Name, s: State, l: Label, w: Watch, exits: seq<LamportTime>)
    requires Sound(cfg, m, s, exits) && SyncInv(cfg, m, s, w, exits) && Enabled(cfg, s, l)
    requires Grows(cfg.n, w, WatchAfter(m, s, l, w))
    ensures var s', w' := Next(cfg, s, l), WatchAfter(m, s, l, w);
            forall i, j :: 0 <= i < |s'| && 0 <= j < |s'| && i != j ==>
                             SyncLink(m, i, s'[i], w'.seen[i], j, s'[j], w'.saved, w'.sent[j])
  {
    var s', w' := Next(cfg, s, l), WatchAfter(m, s, l, w);
    SyncPremises(cfg, m, s, w, exits);
    forall i, j | 0 <= i < |s'| && 0 <= j < |s'| && i != j
      ensures SyncLink(m, i, s'[i], w'.seen[i], j, s'[j], w'.saved, w'.sent[j])
    {
      SyncLinkNext(cfg, m, s, l, w, i, j);
    }
  }

  lemma SyncPremises(cfg: Config, m: Name, s: State, w: Watch, exits: seq<LamportTime>)
    requires Sound(cfg, m, s, exits) && SyncInv(cfg, m, s, w, exits)
    ensures forall j :: 0 <= j < |s| ==> EndpointOk(cfg.n, j, s[j]) && w.sent[j] <= s[j].net.clock
  {
    forall j | 0 <= j < |s| ensures EndpointOk(cfg.n, j, s[j]) && w.sent[j] <= s[j].net.clock {
      assert Solo(cfg.n, m, j, s[j]);
      assert SyncSolo(cfg, m, s[j], w.saved, w.last, w.sent[j], w.origin[j], w.seen[j], exits[j]);
    }
  }

  lemma RunSound(cfg: Config, m: Name, run: seq<Label>)
    requires cfg.Valid() && m in cfg.monitors && Exec(cfg, run).Some?
    ensures Sound(cfg, m, Exec(cfg, run).value, Exits(cfg, m, run))
  {
    RunInv(cfg, m, run);
    RunFlush(cfg, m, run);
    RunTidy(cfg, run);
  }

  lemma {:induction false} RunSync(cfg: Config, m: Name, run: seq<Label>)
    requires cfg.Valid() && m in cfg.monitors && Exec(cfg, run).Some?
    ensures Sound(cfg, m, Exec(cfg, run).value, Exits(cfg, m, run))
    ensures SyncInv(cfg, m, Exec(cfg, run).value, Watched(cfg, m, run), Exits(cfg, m, run))
  {
    RunSound(cfg, m, run);
    if run == [] {
      InitSync(cfg, m);
    } else {
      var before, s, l := ExecLast(cfg, run);
      RunSync(cfg, m, before);
      SyncNext(cfg, m, s, l, Watched(cfg, m, before), Exits(cfg, m, before));
      assert Exits(cfg, m, run) == ExitsAfter(m, s, l, Exits(cfg, m, before));
    }
  }

  lemma InitSync(cfg: Config, m: Name)
    requires cfg.Valid() && m in cfg.monitors
    ensures SyncInv(cfg, m, Init(cfg), Watched(cfg, m, []), Exits(cfg, m, []))
  {
    var s, w, exits := Init(cfg), Watched(cfg, m, []), Exits(cfg, m, []);
    forall i | 0 <= i < |s|
      ensures SyncSolo(cfg, m, s[i], w.saved, w.last, w.sent[i], w.origin[i], w.seen[i], exits[i])
    {
      assert s[i] == InitProc(cfg, i);
    }
    forall i, j | 0 <= i < |s| && 0 <= j < |s| && i != j
      ensures SyncLink(m, i, s[i], w.seen[i], j, s[j], w.saved, w.sent[j])
    {
      assert s[i] == InitProc(cfg, i) && s[j] == InitProc(cfg, j);
    }
  }
}
