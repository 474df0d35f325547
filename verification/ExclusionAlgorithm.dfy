/**
  The Ricart-Agrawala object of one process, and the mutex object on top of it.
  Each method does to its fields what the step system says.
*/
module ExclusionAlgorithm {
  import opened Packets
  import opened Network
  import opened Protocol
  import opened MutexInvariant
  import opened Manager
  import Communicator

  /** releaseMutex answers the deferred requests one after the other. */
  ghost function GrantAll(p: Proc, m: Name, order: seq<ProcessId>): Proc {
    if order == [] then p
    else GrantDeferred(GrantAll(p, m, order[..|order| - 1]), m, order[|order| - 1])
  }

  lemma GrantOneMore(p: Proc, m: Name, order: seq<ProcessId>, to: ProcessId)
    ensures GrantAll(p, m, order + [to]).net == Network.Send(GrantAll(p, m, order).net, MutexAgreement, m, {to})
  {
    assert (order + [to])[..|order + [to]| - 1] == order;
  }

  /** The order names the requests of these keys, each once. */
  ghost predicate Answered(m: Name, keys: set<PacketKey>, order: seq<ProcessId>) {
    && (forall k, l :: 0 <= k < l < |order| ==> order[k] != order[l])
    && keys == set k | k in order :: RequestKey(k, m)
  }

  /** The order names every deferred request once. */
  ghost predicate IsOrder(m: Name, deferred: PacketSet, order: seq<ProcessId>) {
    Answered(m, deferred.Keys, order)
  }

  lemma AnswerOne(m: Name, keys: set<PacketKey>, order: seq<ProcessId>, to: ProcessId)
    requires Answered(m, keys, order) && RequestKey(to, m) !in keys
    ensures Answered(m, keys + {RequestKey(to, m)}, order + [to])
  {
    assert to !in order;
    assert forall k :: k in order + [to] <==> k in order || k == to;
  }

  /** Granting one more request leaves the rest of the order deferred. */
  lemma OneFewer(deferred: PacketSet, m: Name, rest: seq<ProcessId>, to: ProcessId)
    requires deferred.Keys == (set k | k in [to] + rest :: RequestKey(k, m)) && to !in rest
    ensures (deferred - {RequestKey(to, m)}).Keys == set k | k in rest :: RequestKey(k, m)
  {
    forall k | k in rest ensures RequestKey(k, m) in deferred - {RequestKey(to, m)} {
      assert k in [to] + rest;
    }
  }

  lemma GrantedOne(p: Proc, m: Name, to: ProcessId)
    ensures GrantDeferred(p, m, to).main == p.main
    ensures DeferredOf(GrantDeferred(p, m, to), m) == DeferredOf(p, m) - {RequestKey(to, m)}
  {
  }

  /** Granting the first few requests of an order leaves the others deferred. */
  lemma {:induction false} GrantedSoFar(p: Proc, m: Name, order: seq<ProcessId>, n: nat)
    requires IsOrder(m, DeferredOf(p, m), order) && n <= |order|
    ensures var p' := GrantAll(p, m, order[..n]);
            && p'.main == p.main
            && DeferredOf(p', m).Keys == set k | k in order[n..] :: RequestKey(k, m)
  {
    if n > 0 {
      var to, rest, before := order[n - 1], order[n..], GrantAll(p, m, order[..n - 1]);
      GrantedSoFar(p, m, order, n - 1);
      assert order[..n][..n - 1] == order[..n - 1];
      assert order[n - 1..] == [to] + rest;
      assert forall x :: 0 <= x < |rest| ==> rest[x] == order[n + x];
      GrantedOne(before, m, to);
      OneFewer(DeferredOf(before, m), m, rest, to);
    } else {
      assert order[..0] == [] && order[0..] == order;
    }
  }

  /** The next request of an order can be granted. */
  lemma NextGrant(p: Proc, m: Name, order: seq<ProcessId>, n: nat)
    requires IsOrder(m, DeferredOf(p, m), order) && n < |order|
    ensures GrantAll(p, m, order[..n]).main == p.main
    ensures RequestKey(order[n], m) in DeferredOf(GrantAll(p, m, order[..n]), m)
    ensures GrantAll(p, m, order[..n + 1]) == GrantDeferred(GrantAll(p, m, order[..n]), m, order[n])
  {
    GrantedSoFar(p, m, order, n);
    assert order[n..][0] == order[n];
    assert order[..n + 1][..n] == order[..n];
  }

  /** The states a sequence of steps goes through. */
  ghost predicate Path(cfg: Config, states: seq<State>, steps: seq<Label>) {
    && |states| == |steps| + 1
    && forall k :: 0 <= k < |steps| ==>
                     Enabled(cfg, states[k], steps[k]) && states[k + 1] == Next(cfg, states[k], steps[k])
  }

  lemma ExecSnoc(cfg: Config, run: seq<Label>, s: State, l: Label)
    requires Exec(cfg, run) == Some(s) && Enabled(cfg, s, l)
    ensures Exec(cfg, run + [l]) == Some(Next(cfg, s, l))
  {
    assert (run + [l])[..|run + [l]| - 1] == run;
  }

  lemma TakeSnoc(run: seq<Label>, steps: seq<Label>, n: nat)
    requires 0 < n <= |steps|
    ensures run + steps[..n] == run + steps[..n - 1] + [steps[n - 1]]
  {
  }

  lemma PathStep(cfg: Config, run: seq<Label>, states: seq<State>, steps: seq<Label>, n: nat)
    requires Path(cfg, states, steps) && n < |steps| && Exec(cfg, run) == Some(states[n])
    ensures Exec(cfg, run + [steps[n]]) == Some(states[n + 1])
  {
    assert Enabled(cfg, states[n], steps[n]) && states[n + 1] == Next(cfg, states[n], steps[n]);
    ExecSnoc(cfg, run, states[n], steps[n]);
  }

  lemma {:induction false} PathIsRun(cfg: Config, run: seq<Label>, states: seq<State>, steps: seq<Label>, n: nat)
    requires Path(cfg, states, steps) && Exec(cfg, run) == Some(states[0]) && n <= |steps|
    ensures Exec(cfg, run + steps[..n]) == Some(states[n])
  {
    if n == 0 {
      assert run + steps[..n] == run;
    } else {
      PathIsRun(cfg, run, states, steps, n - 1);
      PathStep(cfg, run + steps[..n - 1], states, steps, n - 1);
      TakeSnoc(run, steps, n);
    }
  }

  function ReleaseSteps(i: ProcessId, m: Name, order: seq<ProcessId>): seq<Label> {
    seq(|order| + 1, k requires 0 <= k <= |order| => Label(i, if k < |order| then Grant(m, order[k])
                                                           else EndRelease(m)))
  }

  ghost function ReleaseStates(s: State, i: ProcessId, m: Name, order: seq<ProcessId>): seq<State>
    requires i < |s|
  {
    seq(|order| + 1, k requires 0 <= k <= |order| => s[i := GrantAll(s[i], m, order[..k])])
    + [s[i := FinishRelease(GrantAll(s[i], m, order), m)]]
  }

  lemma ReleaseStarts(s: State, i: ProcessId, m: Name, order: seq<ProcessId>)
    requires i < |s|
    ensures ReleaseStates(s, i, m, order)[0] == s
  {
    assert order[..0] == [];
  }

  lemma GrantNext(cfg: Config, s: State, i: ProcessId, m: Name, to: ProcessId, p: Proc)
    requires i < |s| && p.main == Releasing(m) && RequestKey(to, m) in DeferredOf(p, m)
    ensures Enabled(cfg, s[i := p], Label(i, Grant(m, to)))
    ensures Next(cfg, s[i := p], Label(i, Grant(m, to))) == s[i := GrantDeferred(p, m, to)]
  {
  }

  lemma EndReleaseNext(cfg: Config, s: State, i: ProcessId, m: Name, p: Proc)
    requires i < |s| && p.main == Releasing(m) && DeferredOf(p, m).Keys == {}
    ensures Enabled(cfg, s[i := p], Label(i, EndRelease(m)))
    ensures Next(cfg, s[i := p], Label(i, EndRelease(m))) == s[i := FinishRelease(p, m)]
  {
  }

  lemma ReleasePath(cfg: Config, s: State, i: ProcessId, m: Name, order: seq<ProcessId>)
    requires i < |s| && s[i].main == Releasing(m) && IsOrder(m, DeferredOf(s[i], m), order)
    ensures Path(cfg, ReleaseStates(s, i, m, order), ReleaseSteps(i, m, order))
  {
    var steps, states := ReleaseSteps(i, m, order), ReleaseStates(s, i, m, order);
    forall k | 0 <= k < |steps|
      ensures Enabled(cfg, states[k], steps[k]) && states[k + 1] == Next(cfg, states[k], steps[k])
    {
      if k < |order| {
        NextGrant(s[i], m, order, k);
        GrantNext(cfg, s, i, m, order[k], GrantAll(s[i], m, order[..k]));
      } else {
        assert order[..k] == order && order[k..] == [];
        GrantedSoFar(s[i], m, order, k);
        EndReleaseNext(cfg, s, i, m, GrantAll(s[i], m, order));
      }
    }
  }

  /** releaseMutex, from the moment it holds its locks, is a run of the step
      system: one grant for each deferred request, then the end. */
  lemma ReleaseIsRun(cfg: Config, run: seq<Label>, s: State, i: ProcessId, m: Name, order: seq<ProcessId>)
    requires Exec(cfg, run) == Some(s) && i < |s| && s[i].main == Releasing(m)
    requires IsOrder(m, DeferredOf(s[i], m), order)
    ensures Exec(cfg, run + ReleaseSteps(i, m, order)) == Some(s[i := FinishRelease(GrantAll(s[i], m, order), m)])
  {
    var steps, states := ReleaseSteps(i, m, order), ReleaseStates(s, i, m, order);
    ReleasePath(cfg, s, i, m, order);
    ReleaseStarts(s, i, m, order);
    PathIsRun(cfg, run, states, steps, |steps|);
    assert steps[..|steps|] == steps;
  }

  /** Granting touches the network and the deferred requests of one mutex only. */
  lemma {:induction false} GrantAllFrame(p: Proc, m: Name, order: seq<ProcessId>)
    ensures var p' := GrantAll(p, m, order);
            && p' == p.(net := p'.net, deferred := p'.deferred)
            && p'.deferred[m := map[]] == p.deferred[m := map[]]
  {
    if order != [] {
      GrantAllFrame(p, m, order[..|order| - 1]);
    }
  }

  /** One agreement for each request, stamped one after the other. */
  ghost predicate Agreed(before: seq<seq<Packet>>, clock: LamportTime, id: ProcessId, m: Name, order: seq<ProcessId>,
                         now: seq<seq<Packet>>) {
    && |now| == |before|
    && (forall k :: 0 <= k < |order| && order[k] < |before| ==>
          now[order[k]] == before[order[k]] + [Packet(clock + 1 + k, id, MutexAgreement, m)])
    && (forall j :: 0 <= j < |before| && j !in order ==> now[j] == before[j])
  }

  lemma AgreedOneMore(e: Endpoint, m: Name, order: seq<ProcessId>, e': Endpoint, to: ProcessId)
    requires to !in order && e'.id == e.id && e'.clock == e.clock + |order|
    requires Agreed(e.out, e.clock, e.id, m, order, e'.out)
    ensures Agreed(e.out, e.clock, e.id, m, order + [to], Network.Send(e', MutexAgreement, m, {to}).out)
  {
  }

  lemma {:induction false} GrantAllSends(p: Proc, m: Name, order: seq<ProcessId>)
    requires forall k, l :: 0 <= k < l < |order| ==> order[k] != order[l]
    ensures var e := GrantAll(p, m, order).net;
            && e.id == p.net.id && e.clock == p.net.clock + |order|
            && Agreed(p.net.out, p.net.clock, p.net.id, m, order, e.out)
  {
    if order != [] {
      var last := |order| - 1;
      GrantAllSends(p, m, order[..last]);
      assert order == order[..last] + [order[last]];
      GrantOneMore(p, m, order[..last], order[last]);
      AgreedOneMore(p.net, m, order[..last], GrantAll(p, m, order[..last]).net, order[last]);
    }
  }

  /** What the object's methods ask of the requests and agreements they count holds in every run. */
  lemma ReachableKeys(cfg: Config, m: Name, run: seq<Label>, i: ProcessId)
    requires Exec(cfg, run).Some? && i < cfg.n
    ensures var p := Exec(cfg, run).value[i];
            && KeysOk(cfg.n, i, MutexRequest, m, DeferredOf(p, m))
            && (Waiting(p, m) ==> KeysOk(cfg.n, i, MutexAgreement, m, p.main.agreements))
  {
    RunInv(cfg, m, run);
    assert Solo(cfg.n, m, i, Exec(cfg, run).value[i]);
  }

  /** The algorithm's fields.  A process p of the step system is represented
      by them when its network end, queued mutexes and deferred requests are
      theirs; every method keeps that relation along the matching step. */
  class RicartAgrawala {
    const communicator: Communicator.SimpleCommunicator
    var registeredMutexes: set<Name>
    var queuedMutexes: map<Name, LamportTime>
    var receivedRequests: map<Name, PacketSet>

    ghost predicate Represents(p: Proc)
      reads this, communicator
    {
      && communicator.Valid()
      && p.net == communicator.Endpoint()
      && p.queued == queuedMutexes
      && p.deferred == receivedRequests
    }

    constructor (communicator: Communicator.SimpleCommunicator, ghost cfg: Config)
      ensures this.communicator == communicator
      ensures communicator.Valid() && communicator.numberOfProcesses == cfg.n
              && communicator.currentLamportTime == 0 && (forall j :: 0 <= j < cfg.n ==> communicator.out[j] == []) ==>
                Represents(InitProc(cfg, communicator.myProcessId))
      ensures registeredMutexes == {} && queuedMutexes == map[] && receivedRequests == map[]
    {
      this.communicator := communicator;
      registeredMutexes, queuedMutexes, receivedRequests := {}, map[], map[];
    }

    method RegisterMutex(mutexName: Name)
      modifies this`registeredMutexes
      ensures registeredMutexes == old(registeredMutexes) + {mutexName}
    {
      registeredMutexes := registeredMutexes + {mutexName};
    }

    /** The predicate of the subscription to requests. */
    method AcceptsRequest(packet: Packet) returns (accepted: bool)
      ensures accepted <==> packet.messageType == MutexRequest && packet.message in registeredMutexes
      ensures forall conds :: accepted == Accepts(registeredMutexes, conds, Requests, packet)
    {
      accepted := packet.messageType == MutexRequest && packet.message in registeredMutexes;
    }

    /** A request is deferred exactly when an own request comes before it, by time and then by process. */
    method CanSend(request: Packet, ghost p: Proc) returns (granted: bool)
      requires Represents(p)
      ensures granted == CanSendAgreement(p, request)
      ensures !granted <==>
                && request.message in queuedMutexes
                && var t := queuedMutexes[request.message];
                   t < request.lamportTime || (t == request.lamportTime && communicator.myProcessId <= request.source)
    {
      if request.message !in queuedMutexes {
        return true;
      }
      var myRequestLamportTime := queuedMutexes[request.message];
      if request.lamportTime < myRequestLamportTime {
        return true;
      }
      if request.lamportTime == myRequestLamportTime && request.source < communicator.myProcessId {
        return true;
      }
      return false;
    }

    method ProcessRequest(request: Packet, ghost p: Proc) returns (granted: bool)
      requires Represents(p) && request.source < communicator.numberOfProcesses
      modifies this`receivedRequests, communicator
      ensures Represents(Protocol.ProcessRequest(p, request))
      ensures communicator.incoming == old(communicator.incoming) && granted == CanSendAgreement(p, request)
      ensures granted ==>
                && receivedRequests == old(receivedRequests)
                && communicator.currentLamportTime == old(communicator.currentLamportTime) + 1
                && communicator.out
                   == old(communicator.out)[request.source := old(communicator.out[request.source])
                        + [Packet(communicator.currentLamportTime, communicator.myProcessId, MutexAgreement,
                                  request.message)]]
      ensures !granted ==>
                && communicator.Endpoint() == old(communicator.Endpoint()) && request.message in receivedRequests
                && receivedRequests[request.message := map[]] == old(receivedRequests)[request.message := map[]]
                && receivedRequests[request.message].Keys
                   == DeferredOf(p, request.message).Keys + {request.Key()}
    {
      var m := request.message;
      granted := CanSend(request, p);
      if granted {
        var _ := communicator.Send(MutexAgreement, m, {request.source});
      } else {
        var requests := if m in receivedRequests then receivedRequests[m] else map[];
        receivedRequests := receivedRequests[m := Insert(requests, request)];
      }
    }

    /** Queueing, inside acquireMutex, after the subscription to agreements. */
    method Queue(mutexName: Name, ghost p: Proc)
      requires Represents(p)
      modifies this`queuedMutexes, communicator
      ensures Represents(QueueFor(p, mutexName))
      ensures communicator.incoming == old(communicator.incoming)
      ensures communicator.currentLamportTime == old(communicator.currentLamportTime) + 1
      ensures queuedMutexes == old(queuedMutexes)[mutexName := communicator.currentLamportTime]
      ensures SentToOthers(old(communicator.out), communicator.myProcessId,
                           Packet(communicator.currentLamportTime, communicator.myProcessId, MutexRequest, mutexName),
                           communicator.out)
    {
      var packet := communicator.SendOthers(MutexRequest, mutexName);
      queuedMutexes := queuedMutexes[mutexName := packet.lamportTime];
    }

    /** False stands for the exception about an agreement that was not asked for. */
    method AddAgreement(receivedAgreements: PacketSet, agreement: Packet, ghost cfg: Config, ghost p: Proc)
      returns (updated: PacketSet, expected: bool)
      ensures expected <==> agreement.message in queuedMutexes
      ensures updated.Keys == receivedAgreements.Keys + if expected then {agreement.Key()} else {}
      ensures forall k :: k in receivedAgreements ==> updated[k] == receivedAgreements[k]
      ensures expected && agreement.Key() !in receivedAgreements ==>
                updated[agreement.Key()] == agreement.lamportTime
      ensures Represents(p) && agreement.Is(MutexAgreement, agreement.message)
              && p.main == Requesting(agreement.message, receivedAgreements) ==>
                && (expected <==> OutcomeOf(cfg, p, agreement) == Handled)
                && (!expected <==> OutcomeOf(cfg, p, agreement) == UnexpectedAgreement)
                && (expected ==> Deliver(cfg, p, agreement).main == Requesting(agreement.message, updated))
    {
      expected := agreement.message in queuedMutexes;
      updated := if expected then Insert(receivedAgreements, agreement) else receivedAgreements;
    }

    /** acquireMutex returns exactly when every other process has agreed. */
    method AreAgreementsComplete(mutexName: Name, receivedAgreements: PacketSet) returns (complete: bool)
      requires communicator.Valid()
      requires KeysOk(communicator.numberOfProcesses, communicator.myProcessId, MutexAgreement, mutexName,
                      receivedAgreements)
      ensures complete <==>
                forall j :: j in Others(communicator.numberOfProcesses, communicator.myProcessId) ==>
                              AgreementKey(j, mutexName) in receivedAgreements
    {
      AllReceived(communicator.numberOfProcesses, mutexName, communicator.myProcessId, receivedAgreements);
      complete := |receivedAgreements| == communicator.numberOfProcesses - 1;
    }

    /** Answers every deferred request, in whatever order the hash set yields
        them, and dequeues.  ReleaseIsRun says which steps these are. */
    method ReleaseMutex(mutexName: Name, ghost p: Proc) returns (ghost order: seq<ProcessId>)
      requires Represents(p)
      requires KeysOk(communicator.numberOfProcesses, communicator.myProcessId, MutexRequest, mutexName,
                      DeferredOf(p, mutexName))
      modifies this`receivedRequests, this`queuedMutexes, communicator
      ensures IsOrder(mutexName, DeferredOf(p, mutexName), order)
      ensures Represents(FinishRelease(GrantAll(p, mutexName, order), mutexName))
      ensures communicator.incoming == old(communicator.incoming)
      ensures queuedMutexes == old(queuedMutexes) - {mutexName}
      ensures receivedRequests == old(receivedRequests)[mutexName := map[]]
      ensures communicator.currentLamportTime == old(communicator.currentLamportTime) + |order|
      ensures Agreed(old(communicator.out), old(communicator.currentLamportTime), communicator.myProcessId, mutexName,
                     order, communicator.out)
    {
      var requests := if mutexName in receivedRequests then receivedRequests[mutexName] else map[];
      var todo := requests.Keys;
      order := [];
      while todo != {}
        invariant communicator.Valid() && communicator.incoming == old(communicator.incoming)
        invariant todo <= requests.Keys && Answered(mutexName, requests.Keys - todo, order)
        invariant communicator.Endpoint() == GrantAll(p, mutexName, order).net
        invariant queuedMutexes == p.queued && receivedRequests == p.deferred
        decreases todo
      {
        var key :| key in todo;
        assert key == RequestKey(key.source, mutexName);
        var _ := communicator.Send(MutexAgreement, mutexName, {key.source});
        GrantOneMore(p, mutexName, order, key.source);
        AnswerOne(mutexName, requests.Keys - todo, order, key.source);
        assert requests.Keys - (todo - {key}) == requests.Keys - todo + {key};
        order := order + [key.source];
        todo := todo - {key};
      }
      receivedRequests := receivedRequests[mutexName := map[]];
      queuedMutexes := queuedMutexes - {mutexName};
      GrantAllFrame(p, mutexName, order);
      assert requests.Keys - todo == requests.Keys;
      GrantAllSends(p, mutexName, order);
    }
  }

  /** The mutex object: the algorithm and an ownership flag. */
  class DistributedMutex {
    const name: Name
    const algorithm: RicartAgrawala
    var owned: bool

    constructor (name: Name, algorithm: RicartAgrawala)
      modifies algorithm`registeredMutexes
      ensures this.name == name && this.algorithm == algorithm && !owned
      ensures algorithm.registeredMutexes == old(algorithm.registeredMutexes) + {name}
    {
      this.name, this.algorithm, this.owned := name, algorithm, false;
      new;
      algorithm.RegisterMutex(name);
    }

    /** The flag of a represented process says whether it is inside the section. */
    ghost predicate Represents(p: Proc)
      reads this, algorithm, algorithm.communicator
    {
      algorithm.Represents(p) && (owned <==> name in p.held)
    }

    /** lock, up to the point where it waits for the agreements. */
    method BeginLock(ghost p: Proc)
      requires Represents(p) && !owned
      modifies algorithm`queuedMutexes, algorithm.communicator
      ensures Represents(QueueFor(p, name)) && !owned
      ensures algorithm.communicator.currentLamportTime == old(algorithm.communicator.currentLamportTime) + 1
      ensures algorithm.queuedMutexes
              == old(algorithm.queuedMutexes)[name := algorithm.communicator.currentLamportTime]
    {
      algorithm.Queue(name, p);
    }

    /** lock, once it looks at the agreements again; it returns as soon as they are complete. */
    method EndLock(receivedAgreements: PacketSet, ghost p: Proc, ghost cfg: Config) returns (acquired: bool)
      requires Represents(p) && !owned && p.main == Requesting(name, receivedAgreements)
      requires cfg.n == algorithm.communicator.numberOfProcesses
      requires KeysOk(cfg.n, algorithm.communicator.myProcessId, MutexAgreement, name, receivedAgreements)
      modifies this`owned
      ensures acquired <==> LocalEnabled(cfg, p, Enter(name))
      ensures acquired <==> forall j :: j in Others(cfg.n, algorithm.communicator.myProcessId) ==>
                                          AgreementKey(j, name) in receivedAgreements
      ensures owned == acquired
      ensures if acquired then Represents(LocalNext(cfg, p, Enter(name))) else Represents(p)
    {
      acquired := algorithm.AreAgreementsComplete(name, receivedAgreements);
      AllReceived(cfg.n, name, algorithm.communicator.myProcessId, receivedAgreements);
      owned := acquired;
    }

    /** Unlocking a mutex that is not owned does nothing.  A represented process
        p first leaves the section and then answers the deferred requests. */
    method Unlock(ghost p: Proc) returns (ghost order: seq<ProcessId>)
      requires Represents(p)
      requires KeysOk(algorithm.communicator.numberOfProcesses, algorithm.communicator.myProcessId, MutexRequest, name,
                      DeferredOf(p, name))
      modifies this`owned, algorithm`receivedRequests, algorithm`queuedMutexes, algorithm.communicator
      ensures !old(owned) ==>
                && Represents(p)
                && algorithm.communicator.Endpoint() == old(algorithm.communicator.Endpoint())
      ensures !owned
      ensures old(owned) ==>
                && algorithm.queuedMutexes == old(algorithm.queuedMutexes) - {name}
                && Agreed(old(algorithm.communicator.out), old(algorithm.communicator.currentLamportTime),
                          algorithm.communicator.myProcessId, name, order, algorithm.communicator.out)
      ensures old(owned) ==>
                && IsOrder(name, DeferredOf(p, name), order)
                && Represents(FinishRelease(GrantAll(LeaveSection(p, name), name, order), name))
    {
      order := [];
      if !owned {
        return;
      }
      order := algorithm.ReleaseMutex(name, LeaveSection(p, name));
      GrantAllFrame(LeaveSection(p, name), name, order);
      owned := false;
    }

    /** try_lock starts to lock if the mutex is not owned, and says so. */
    method TryLock(ghost p: Proc) returns (locking: bool)
      requires Represents(p)
      modifies algorithm`queuedMutexes, algorithm.communicator
      ensures locking <==> name !in p.held
      ensures Represents(if locking then QueueFor(p, name) else p)
    {
      locking := !owned;
      if locking {
        BeginLock(p);
      }
    }
  }
}
