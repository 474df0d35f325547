/**
  No packet is undispatchable: in no run does the receiving thread meet a packet
  that no callback takes, or an agreement it did not ask for.
*/
module Dispatchable {
  import opened Packets
  import opened Network
  import opened SyncFormat
  import opened Protocol
  import opened MutexInvariant
  import opened MutexTheorems
  import opened ConditionTheorems

  /** A packet about registered names only; a SYNC message that can be taken apart. */
  predicate Registered(cfg: Config, t: MessageType, x: Bytes) {
    match t
    case MutexRequest => x in cfg.mutexes
    case MutexAgreement => x in cfg.mutexes
    case CondWait => x in cfg.guard
    case CondWaitEnd => x in cfg.guard
    case CondWaitEndConfirm => x in cfg.guard
    case CondNotify => x in cfg.guard
    case Sync =>
      && ExtractName(x).Some? && ExtractName(x).value in cfg.monitors
      && ExtractData(x).Some? && 1 + |ExtractName(x).value| + |ExtractData(x).value| <= MAX_STRING
  }

  predicate RegisteredPacket(cfg: Config, k: Packet) {
    Registered(cfg, k.messageType, k.message)
  }

  ghost predicate Tidy(cfg: Config, p: Proc) {
    && (forall j, x :: 0 <= j < |p.net.out| && 0 <= x < |p.net.out[j]| ==> RegisteredPacket(cfg, p.net.out[j][x]))
    && (p.pending.Some? ==> RegisteredPacket(cfg, p.pending.value))
    && (!p.main.Free? ==> p.main.name in cfg.mutexes)
    && p.held <= cfg.mutexes
    && (!p.wait.NoWait? ==> p.wait.cond in cfg.guard)
    && cfg.monitors <= p.replica.Keys
    && (forall m :: m in cfg.monitors ==> 1 + |m| + |p.replica[m]| <= MAX_STRING)
  }

  lemma TidySending(cfg: Config, p: Proc, step: Step)
    requires cfg.Valid() && LocalEnabled(cfg, p, step) && Tidy(cfg, p)
    ensures SentBy(cfg, p, step).Sends? ==> Registered(cfg, SentBy(cfg, p, step).t, SentBy(cfg, p, step).x)
  {
    match step
    case SyncOut(m) => SyncRoundTrip(m, p.replica[m]);
    case _ =>
  }

  lemma TidyChannels(cfg: Config, e: Endpoint, t: MessageType, x: Bytes, to: set<ProcessId>)
    requires forall j, y :: 0 <= j < |e.out| && 0 <= y < |e.out[j]| ==> RegisteredPacket(cfg, e.out[j][y])
    requires Registered(cfg, t, x)
    ensures var e' := Send(e, t, x, to);
            forall j, y :: 0 <= j < |e'.out| && 0 <= y < |e'.out[j]| ==> RegisteredPacket(cfg, e'.out[j][y])
  {
  }

  lemma TidyNames(cfg: Config, p: Proc, step: Step)
    requires cfg.Valid() && LocalEnabled(cfg, p, step) && Tidy(cfg, p) && !step.Dispatch?
    ensures var p' := LocalNext(cfg, p, step);
            && (!p'.main.Free? ==> p'.main.name in cfg.mutexes)
            && p'.held <= cfg.mutexes
            && (!p'.wait.NoWait? ==> p'.wait.cond in cfg.guard)
  {
  }

  lemma TidyReplica(cfg: Config, p: Proc, step: Step)
    requires LocalEnabled(cfg, p, step) && !step.Dispatch? && Tidy(cfg, p)
    ensures var p' := LocalNext(cfg, p, step);
            && cfg.monitors <= p'.replica.Keys
            && (forall m :: m in cfg.monitors ==> 1 + |m| + |p'.replica[m]| <= MAX_STRING)
  {
    if !step.Update? {
      assert LocalNext(cfg, p, step).replica == p.replica;
    }
  }

  lemma TidyDispatchNames(cfg: Config, p: Proc)
    requires LocalEnabled(cfg, p, Dispatch) && Tidy(cfg, p)
    ensures var p' := LocalNext(cfg, p, Dispatch);
            && (!p'.main.Free? ==> p'.main.name in cfg.mutexes)
            && p'.held <= cfg.mutexes
            && (!p'.wait.NoWait? ==> p'.wait.cond in cfg.guard)
  {
  }

  lemma TidyDispatchReplica(cfg: Config, p: Proc)
    requires LocalEnabled(cfg, p, Dispatch) && Tidy(cfg, p)
    ensures var p' := LocalNext(cfg, p, Dispatch);
            && cfg.monitors <= p'.replica.Keys
            && (forall m :: m in cfg.monitors ==> 1 + |m| + |p'.replica[m]| <= MAX_STRING)
  {
    var k := p.pending.value;
    assert RegisteredPacket(cfg, k);
    if !k.messageType.Sync? {
      assert Deliver(cfg, p, k).replica == p.replica;
    }
  }

  lemma TidyStep(cfg: Config, p: Proc, step: Step)
    requires cfg.Valid() && LocalEnabled(cfg, p, step) && Tidy(cfg, p)
    ensures Tidy(cfg, LocalNext(cfg, p, step))
  {
    SentByIsSent(cfg, p, step);
    TidySending(cfg, p, step);
    if step.Dispatch? {
      TidyDispatchNames(cfg, p);
      TidyDispatchReplica(cfg, p);
    } else {
      TidyNames(cfg, p, step);
      TidyReplica(cfg, p, step);
    }
    match SentBy(cfg, p, step)
    case Silent =>
    case Sends(t, x, to) => TidyChannels(cfg, p.net, t, x, to);
  }

  lemma TidyReceive(cfg: Config, s: State, a: ProcessId, b: ProcessId)
    requires CanReceive(s, a, b) && Tidy(cfg, s[a]) && Tidy(cfg, s[b])
    ensures Tidy(cfg, ReceiveNext(s, a, b)[a]) && Tidy(cfg, ReceiveNext(s, a, b)[b])
  {
    assert RegisteredPacket(cfg, s[b].net.out[a][0]);
  }

  lemma {:induction false} RunTidy(cfg: Config, run: seq<Label>)
    requires cfg.Valid() && Exec(cfg, run).Some?
    ensures forall i :: 0 <= i < cfg.n ==> Tidy(cfg, Exec(cfg, run).value[i])
  {
    if run != [] {
      var before, s, l := ExecLast(cfg, run);
      RunTidy(cfg, before);
      if l.step.Receive? {
        TidyReceive(cfg, s, l.proc, l.step.from);
      } else {
        TidyStep(cfg, s[l.proc], l.step);
      }
    }
  }

  lemma AlwaysHandled(cfg: Config, run: seq<Label>, i: ProcessId)
    requires cfg.Valid() && Exec(cfg, run).Some? && i < cfg.n
    ensures var p := Exec(cfg, run).value[i]; p.pending.Some? ==> OutcomeOf(cfg, p, p.pending.value) == Handled
  {
    var s := Exec(cfg, run).value;
    RunTidy(cfg, run);
    assert Tidy(cfg, s[i]);
    RunInv(cfg, [], run);
    assert Solo(cfg.n, [], i, s[i]);
    if s[i].pending.Some? {
      var k := s[i].pending.value;
      assert RegisteredPacket(cfg, k);
      match k.messageType
      case MutexAgreement => AgreementExpected(cfg, run, i);
      case CondWaitEndConfirm => ConfirmExpected(cfg, run, i);
      case CondNotify => NotificationExpected(cfg, run, i);
      case _ =>
    }
  }

  /** With every name registered before listening and notification under the guard, neither the
      "no callback" exception nor the "unexpected agreement" exception is reachable.  Whatever has been
      received can be dispatched, except for a request or an agreement while the main thread is inside
      releaseMutex, which holds the locks that these two need. */
  lemma NoPacketUndispatchable(cfg: Config, run: seq<Label>, i: ProcessId)
    requires cfg.Valid() && Exec(cfg, run).Some? && i < cfg.n
    ensures var p := Exec(cfg, run).value[i]; p.pending.Some? ==> OutcomeOf(cfg, p, p.pending.value) == Handled
    ensures var s := Exec(cfg, run).value;
            s[i].pending.Some? ==>
              var t := s[i].pending.value.messageType;
              Enabled(cfg, s, Label(i, Dispatch)) <==>
                !(s[i].main.Releasing? && (t == MutexRequest || t == MutexAgreement))
  {
    AlwaysHandled(cfg, run, i);
    var s := Exec(cfg, run).value;
    if s[i].pending.Some? {
      HandledDispatch(cfg, s, i);
    }
  }

  lemma HandledDispatch(cfg: Config, s: State, i: ProcessId)
    requires i < |s| && s[i].pending.Some? && OutcomeOf(cfg, s[i], s[i].pending.value) == Handled
    ensures var t := s[i].pending.value.messageType;
            Enabled(cfg, s, Label(i, Dispatch)) <==>
              !(s[i].main.Releasing? && (t == MutexRequest || t == MutexAgreement))
  {
    var t := s[i].pending.value.messageType;
    assert Blocked(s[i], s[i].pending.value) <==>
        s[i].main.Releasing? && (t == MutexRequest || t == MutexAgreement);
  }

  lemma AgreementExpected(cfg: Config, run: seq<Label>, i: ProcessId)
    requires Exec(cfg, run).Some? && i < cfg.n
    requires var p := Exec(cfg, run).value[i]; p.pending.Some? && p.pending.value.messageType.MutexAgreement?
    ensures var p := Exec(cfg, run).value[i];
            Waiting(p, p.pending.value.message) && p.pending.value.message in p.queued
  {
    var s := Exec(cfg, run).value;
    var m := s[i].pending.value.message;
    NothingDropped(cfg, m, run, i);
    RunInv(cfg, m, run);
    assert Solo(cfg.n, m, i, s[i]);
  }

  lemma ConfirmExpected(cfg: Config, run: seq<Label>, i: ProcessId)
    requires Exec(cfg, run).Some? && i < cfg.n
    requires var p := Exec(cfg, run).value[i];
             p.pending.Some? && p.pending.value.message in cfg.guard && p.pending.value.source < cfg.n
             && p.pending.value.source != i && p.pending.value.messageType.CondWaitEndConfirm?
    ensures var p := Exec(cfg, run).value[i]; OutcomeOf(cfg, p, p.pending.value) == Handled
  {
    var k := Exec(cfg, run).value[i].pending.value;
    ConfirmationConservation(cfg, k.message, run, i, k.source);
  }

  lemma NotificationExpected(cfg: Config, run: seq<Label>, i: ProcessId)
    requires Exec(cfg, run).Some? && i < cfg.n
    requires var p := Exec(cfg, run).value[i];
             p.pending.Some? && p.pending.value.message in cfg.guard && p.pending.value.source < cfg.n
             && p.pending.value.source != i && p.pending.value.messageType.CondNotify?
    ensures var p := Exec(cfg, run).value[i]; OutcomeOf(cfg, p, p.pending.value) == Handled
  {
    var k := Exec(cfg, run).value[i].pending.value;
    NotificationSoundness(cfg, k.message, run, k.source, i);
  }
}
