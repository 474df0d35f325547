/**
  The condition-variable object of one process.  As for the mutex object, a
  process p of the step system is represented by its fields, and every method
  keeps that relation along the matching step.
*/
module ConditionAlgorithm {
  import opened Packets
  import opened Network
  import opened Protocol
  import opened MutexInvariant
  import opened Flush
  import opened ConditionInvariant
  import opened ConditionRuns
  import opened Manager
  import Communicator
  import ExclusionAlgorithm

  /** The first element of an ordered set. */
  method First(waiting: TimeSet) returns (time: LamportTime)
    requires waiting != map[]
    ensures time == Earliest(waiting)
  {
    ghost var earliest := Earliest(waiting);
    time :| time in waiting && forall t :: t in waiting ==> time <= t;
  }

  /** What the object's methods ask of the waiters and confirmations they hold is so in every run. */
  lemma ReachableWaiters(cfg: Config, c: Name, run: seq<Label>, i: ProcessId)
    requires Exec(cfg, run).Some? && c in cfg.guard && i < cfg.n
    ensures var p := Exec(cfg, run).value[i];
            && (forall k :: k in Sources(WaitersOf(p, c)) ==> k < cfg.n && k != i)
            && (Ends(p, c) ==> KeysOk(cfg.n, i, CondWaitEndConfirm, c, p.wait.confirmations))
  {
    RunCond(cfg, c, run);
    assert CondSolo(cfg, c, i, Exec(cfg, run).value[i], WaitTimes(cfg, c, run)[i], Exits(cfg, cfg.guard[c], run)[i]);
  }

  class ConditionVariables {
    const communicator: Communicator.SimpleCommunicator
    var registeredCVs: set<Name>
    var conditionalWaits: map<Name, TimeSet>

    ghost predicate Represents(p: Proc)
      reads this, communicator
    {
      communicator.Valid() && p.net == communicator.Endpoint() && p.waiters == conditionalWaits
    }

    constructor (communicator: Communicator.SimpleCommunicator, ghost cfg: Config)
      ensures communicator.Valid() && communicator.numberOfProcesses == cfg.n
              && communicator.currentLamportTime == 0 && (forall j :: 0 <= j < cfg.n ==> communicator.out[j] == []) ==>
                Represents(InitProc(cfg, communicator.myProcessId))
      ensures this.communicator == communicator && registeredCVs == {} && conditionalWaits == map[]
    {
      this.communicator := communicator;
      registeredCVs, conditionalWaits := {}, map[];
    }

    method RegisterCV(condName: Name)
      modifies this`registeredCVs
      ensures registeredCVs == old(registeredCVs) + {condName}
    {
      registeredCVs := registeredCVs + {condName};
    }

    /** The predicates of the two subscriptions. */
    method AcceptsWait(packet: Packet) returns (accepted: bool)
      ensures accepted <==> packet.messageType == CondWait && packet.message in registeredCVs
      ensures forall mutexes :: accepted == Accepts(mutexes, registeredCVs, Waits, packet)
    {
      accepted := packet.messageType == CondWait && packet.message in registeredCVs;
    }

    method AcceptsWaitEnd(packet: Packet) returns (accepted: bool)
      ensures accepted <==> packet.messageType == CondWaitEnd && packet.message in registeredCVs
      ensures forall mutexes :: accepted == Accepts(mutexes, registeredCVs, WaitEnds, packet)
    {
      accepted := packet.messageType == CondWaitEnd && packet.message in registeredCVs;
    }

    /** The callback for COND_WAIT. */
    method AddWaiter(waitInfo: Packet, ghost cfg: Config, ghost p: Proc)
      requires Represents(p) && waitInfo.messageType.CondWait?
      modifies this`conditionalWaits
      ensures Represents(Deliver(cfg, p, waitInfo)) && waitInfo.message in conditionalWaits
      ensures conditionalWaits[waitInfo.message := map[]] == old(conditionalWaits)[waitInfo.message := map[]]
      ensures var waiting, before := conditionalWaits[waitInfo.message], WaitersOf(p, waitInfo.message);
              && waiting.Keys == before.Keys + {waitInfo.lamportTime}
              && (forall t :: t in before ==> waiting[t] == before[t])
              && (waitInfo.lamportTime !in before ==> waiting[waitInfo.lamportTime] == waitInfo.Key())
    {
      var condName := waitInfo.message;
      var waiting := if condName in conditionalWaits then conditionalWaits[condName] else map[];
      conditionalWaits := conditionalWaits[condName := InsertByTime(waiting, waitInfo)];
    }

    /** The callback for COND_WAIT_END: all waiters of the variable go, and the sender is told. */
    method EndWaits(waitEndInfo: Packet, ghost cfg: Config, ghost p: Proc)
      requires Represents(p) && waitEndInfo.messageType.CondWaitEnd?
      requires waitEndInfo.source < communicator.numberOfProcesses
      modifies this`conditionalWaits, communicator
      ensures Represents(Deliver(cfg, p, waitEndInfo)) && communicator.incoming == old(communicator.incoming)
      ensures conditionalWaits == old(conditionalWaits) - {waitEndInfo.message}
      ensures communicator.currentLamportTime == old(communicator.currentLamportTime) + 1
      ensures communicator.out
              == old(communicator.out)[waitEndInfo.source := old(communicator.out[waitEndInfo.source])
                   + [Packet(communicator.currentLamportTime, communicator.myProcessId, CondWaitEndConfirm,
                             waitEndInfo.message)]]
    {
      conditionalWaits := conditionalWaits - {waitEndInfo.message};
      var _ := communicator.Send(CondWaitEndConfirm, waitEndInfo.message, {waitEndInfo.source});
    }

    /** wait, up to the point where it blocks on the local condition variable. */
    method BeginWait(condName: Name, ghost p: Proc)
      requires Represents(p)
      modifies communicator
      ensures Represents(AnnounceWait(p, condName)) && communicator.incoming == old(communicator.incoming)
      ensures SentToOthers(old(communicator.out), communicator.myProcessId,
                           Packet(old(communicator.currentLamportTime) + 1, communicator.myProcessId, CondWait,
                                  condName),
                           communicator.out)
    {
      var _ := communicator.SendOthers(CondWait, condName);
    }

    /** wait, once the predicate holds, up to the point where it blocks for the confirmations. */
    method StopWait(condName: Name, ghost p: Proc) returns (receivedConfirmations: PacketSet)
      requires Represents(p)
      modifies communicator
      ensures Represents(AnnounceEnd(p, condName)) && communicator.incoming == old(communicator.incoming)
      ensures receivedConfirmations == map[] && AnnounceEnd(p, condName).wait == Ending(condName, receivedConfirmations)
      ensures SentToOthers(old(communicator.out), communicator.myProcessId,
                           Packet(old(communicator.currentLamportTime) + 1, communicator.myProcessId, CondWaitEnd,
                                  condName),
                           communicator.out)
    {
      receivedConfirmations := map[];
      var _ := communicator.SendOthers(CondWaitEnd, condName);
    }

    /** The callback for COND_WAIT_END_CONFIRM. */
    method AddConfirmation(receivedConfirmations: PacketSet, confirmation: Packet, ghost cfg: Config, ghost p: Proc)
      returns (updated: PacketSet)
      ensures updated.Keys == receivedConfirmations.Keys + {confirmation.Key()}
      ensures forall k :: k in receivedConfirmations ==> updated[k] == receivedConfirmations[k]
      ensures confirmation.Key() !in receivedConfirmations ==>
                updated[confirmation.Key()] == confirmation.lamportTime
      ensures confirmation.messageType == CondWaitEndConfirm
              && p.wait == Ending(confirmation.message, receivedConfirmations) ==>
                && OutcomeOf(cfg, p, confirmation) == Handled
                && Deliver(cfg, p, confirmation) == p.(wait := Ending(confirmation.message, updated))
    {
      updated := Insert(receivedConfirmations, confirmation);
    }

    /** wait returns exactly when every other process has confirmed. */
    method AreConfirmationsComplete(condName: Name, receivedConfirmations: PacketSet) returns (complete: bool)
      requires communicator.Valid()
      requires KeysOk(communicator.numberOfProcesses, communicator.myProcessId, CondWaitEndConfirm, condName,
                      receivedConfirmations)
      ensures complete <==>
                forall k :: k in Others(communicator.numberOfProcesses, communicator.myProcessId) ==>
                              ConfirmKey(k, condName) in receivedConfirmations
    {
      AllFrom(communicator.numberOfProcesses, CondWaitEndConfirm, condName, communicator.myProcessId,
              receivedConfirmations);
      complete := |receivedConfirmations| == communicator.numberOfProcesses - 1;
      assert forall k :: ConfirmKey(k, condName) == PacketKey(k, CondWaitEndConfirm, condName);
    }

    /** Looking a variable up creates its entry; the first packet of the ordered set has the least time. */
    method NotifyOne(condName: Name, ghost p: Proc) returns (notified: Option<ProcessId>)
      requires Represents(p) && forall k :: k in Sources(WaitersOf(p, condName)) ==> k < communicator.numberOfProcesses
      modifies this`conditionalWaits, communicator
      ensures Represents(NotifyOneNext(p, condName)) && communicator.incoming == old(communicator.incoming)
      ensures notified == if WaitersOf(p, condName) == map[] then None
                          else Some(WaitersOf(p, condName)[Earliest(WaitersOf(p, condName))].source)
      ensures conditionalWaits == old(conditionalWaits)[condName := WaitersOf(p, condName)]
      ensures if notified.None? then communicator.Endpoint() == old(communicator.Endpoint())
              else
                && notified.value < |old(communicator.out)|
                && communicator.out
                   == old(communicator.out)[notified.value := old(communicator.out)[notified.value]
                        + [Packet(old(communicator.currentLamportTime) + 1, communicator.myProcessId, CondNotify,
                                  condName)]]
    {
      var waiting: TimeSet := if condName in conditionalWaits then conditionalWaits[condName] else map[];
      conditionalWaits := conditionalWaits[condName := waiting];
      if waiting == map[] {
        return None;
      }
      var first := First(waiting);
      var firstWaitingProcess := waiting[first].source;
      assert firstWaitingProcess in Sources(waiting);
      var _ := communicator.Send(CondNotify, condName, {firstWaitingProcess});
      return Some(firstWaitingProcess);
    }

    /** The emptiness test is about the whole table, so a variable without
        waiters can still cost a time stamp and an entry of its own. */
    method NotifyAll(condName: Name, ghost p: Proc) returns (recipients: set<ProcessId>)
      requires Represents(p) && forall k :: k in Sources(WaitersOf(p, condName)) ==> k < communicator.numberOfProcesses
      modifies this`conditionalWaits, communicator
      ensures Represents(NotifyAllNext(p, condName)) && communicator.incoming == old(communicator.incoming)
      ensures recipients == Sources(WaitersOf(p, condName))
      ensures forall k :: k in recipients <==>
                            exists t :: t in WaitersOf(p, condName) && WaitersOf(p, condName)[t].source == k
      ensures if old(conditionalWaits) == map[]
              then conditionalWaits == map[] && communicator.Endpoint() == old(communicator.Endpoint())
              else
                && conditionalWaits == old(conditionalWaits)[condName := WaitersOf(p, condName)]
                && communicator.currentLamportTime == old(communicator.currentLamportTime) + 1
                && (forall j :: 0 <= j < communicator.numberOfProcesses ==>
                      communicator.out[j]
                      == if j in recipients
                         then old(communicator.out[j])
                           + [Packet(communicator.currentLamportTime, communicator.myProcessId, CondNotify, condName)]
                         else old(communicator.out[j]))
    {
      recipients := {};
      if conditionalWaits == map[] {
        return;
      }
      var waiting: TimeSet := if condName in conditionalWaits then conditionalWaits[condName] else map[];
      conditionalWaits := conditionalWaits[condName := waiting];
      recipients := Sources(waiting);
      var _ := communicator.Send(CondNotify, condName, recipients);
    }
  }

  lemma MayWait(cfg: Config, p: Proc, c: Name)
    ensures c in cfg.guard && Running(p) && cfg.guard[c] !in p.changed ==>
              (cfg.guard[c] in p.held <==> LocalEnabled(cfg, p, Step.BeginWait(c)))
  {
  }

  /** The condition-variable object on top. */
  class DistributedConditionVariable {
    const name: Name
    const algorithm: ConditionVariables

    constructor (name: Name, algorithm: ConditionVariables)
      modifies algorithm`registeredCVs
      ensures this.name == name && this.algorithm == algorithm
      ensures algorithm.registeredCVs == old(algorithm.registeredCVs) + {name}
    {
      this.name, this.algorithm := name, algorithm;
      new;
      algorithm.RegisterCV(name);
    }

    /** False stands for the exception about a mutex that is not locked; nothing is announced then.  Called
        with the guard, between statements and before changes, it is the step system's step. */
    method BeginWait(mutex: ExclusionAlgorithm.DistributedMutex, ghost cfg: Config, ghost p: Proc)
      returns (locked: bool)
      requires algorithm.Represents(p) && mutex.Represents(p)
      modifies algorithm.communicator
      ensures locked <==> mutex.name in p.held
      ensures algorithm.Represents(if locked then AnnounceWait(p, name) else p) && (locked <==> old(mutex.owned))
      ensures name in cfg.guard && cfg.guard[name] == mutex.name && Running(p) && mutex.name !in p.changed ==>
                (locked <==> LocalEnabled(cfg, p, Step.BeginWait(name)))
    {
      MayWait(cfg, p, name);
      locked := mutex.owned;
      if locked {
        algorithm.BeginWait(name, p);
      }
    }
  }
}
