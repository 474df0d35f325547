/**
  The monitor object around the ring buffer, and its scope guard: the guard
  locks when a monitor entry begins; when the entry ends it saves the state,
  broadcasts it and unlocks, in that order.
*/
module Monitor {
  import opened Packets
  import opened Network
  import opened SyncFormat
  import opened Protocol
  import opened MutexInvariant
  import opened RingBuffer
  import opened ExclusionAlgorithm

  const STATE_SIZE: nat := 3 + MAX_QUEUE_SIZE

  /** Every other process is sent p before anything else. */
  ghost predicate SentFirst(before: seq<seq<Packet>>, id: ProcessId, p: Packet, now: seq<seq<Packet>>) {
    |now| == |before| && forall j :: 0 <= j < |before| && j != id ==> before[j] + [p] <= now[j]
  }

  lemma SyncPrecedes(before: seq<seq<Packet>>, p: Packet, published: seq<seq<Packet>>, clock: LamportTime,
                     id: ProcessId, m: Name, order: seq<ProcessId>, now: seq<seq<Packet>>)
    requires SentToOthers(before, id, p, published) && Agreed(published, clock, id, m, order, now)
    ensures SentFirst(before, id, p, now)
  {
    forall j | 0 <= j < |before| && j != id ensures before[j] + [p] <= now[j] {
      if j in order {
        var k :| 0 <= k < |order| && order[k] == j;
        assert now[order[k]] == published[order[k]] + [Packet(clock + 1 + k, id, MutexAgreement, m)];
      }
    }
  }

  class DistributedMonitor {
    const mutex: DistributedMutex
    const buffer: BufferMonitor

    /** The fields of the buffer are this process's replica of the monitor state. */
    ghost predicate Represents(p: Proc)
      reads this, mutex, mutex.algorithm, mutex.algorithm.communicator, buffer, buffer.buffer
    {
      && mutex.Represents(p)
      && buffer.buffer.Length == MAX_QUEUE_SIZE
      && mutex.name in p.replica && p.replica[mutex.name] == SaveState(buffer.State())
    }

    constructor (mutex: DistributedMutex, buffer: BufferMonitor)
      ensures this.mutex == mutex && this.buffer == buffer
    {
      this.mutex, this.buffer := mutex, buffer;
    }

    /** The predicate of the SYNC subscription: of the messages that some monitor packed, it takes its own. */
    method AcceptsSync(packet: Packet) returns (accepted: bool)
      ensures accepted ==> packet.messageType.Sync?
      ensures forall name, state :: packet.messageType.Sync? && packet.message == PackSync(name, state)
                                    && |name| <= 127 && 1 + |name| + |state| <= MAX_STRING ==>
                                      (accepted <==> name == mutex.name)
    {
      accepted := packet.messageType.Sync? && ExtractName(packet.message) == Some(mutex.name);
      forall name, state | packet.messageType.Sync? && packet.message == PackSync(name, state)
                           && |name| <= 127 && 1 + |name| + |state| <= MAX_STRING
        ensures accepted <==> name == mutex.name
      {
        SyncRouting(name, state, mutex.name);
      }
    }

    /** The callback: the state is overwritten, whatever it was.  Other sizes than these are out of bounds. */
    method OnSync(packet: Packet, ghost cfg: Config, ghost p: Proc)
      requires Represents(p) && packet.messageType.Sync? && ExtractName(packet.message) == Some(mutex.name)
      requires ExtractData(packet.message).Some? && 3 <= |ExtractData(packet.message).value| <= STATE_SIZE
      modifies buffer`getIndex, buffer`putIndex, buffer`count, buffer.buffer
      ensures var data := ExtractData(packet.message).value;
              && buffer.State()
                 == RestoreState(data).(buffer := data[3..] + old(buffer.buffer[..])[|data| - 3..])
              && (|data| == STATE_SIZE ==> Represents(Deliver(cfg, p, packet)))
      ensures 0 < |packet.message| <= MAX_STRING && packet.message[0] < 128 ==>
                var start := 1 + packet.message[0];
                && start + 3 <= |packet.message|
                && buffer.getIndex == packet.message[start]
                && buffer.putIndex == packet.message[start + 1]
                && buffer.count == packet.message[start + 2]
    {
      if |packet.message| <= MAX_STRING {
        ExtractedExactly(packet.message);
      }
      var data := ExtractData(packet.message).value;
      buffer.Restore(data);
      RestoreSave(data);
    }

    method PackSyncMessage(state: Bytes) returns (message: Bytes)
      requires 1 + |mutex.name| + |state| <= MAX_STRING
      ensures message == PackSync(mutex.name, state)
      ensures |message| == 1 + |mutex.name| + |state| && message[0] == |mutex.name| % 256
      ensures message[1..1 + |mutex.name|] == mutex.name && message[1 + |mutex.name|..] == state
      ensures |mutex.name| <= 127 ==> ExtractName(message) == Some(mutex.name) && ExtractData(message) == Some(state)
    {
      message := [|mutex.name| % 256] + mutex.name + state;
      SyncRoundTrip(mutex.name, state);
    }

    /** The message about the buffer's fields: length byte, name, three counters, characters. */
    ghost function CurrentSync(): Bytes
      reads buffer, buffer.buffer
    {
      var length: Bytes, counters: Bytes := [|mutex.name| % 256], [buffer.getIndex, buffer.putIndex, buffer.count];
      length + mutex.name + (counters + buffer.buffer[..])
    }

    /** The first half of the guard's destructor. */
    method Publish(ghost cfg: Config, ghost p: Proc)
      requires Represents(p) && LocalEnabled(cfg, p, SyncOut(mutex.name))
      requires 1 + |mutex.name| + STATE_SIZE <= MAX_STRING
      modifies mutex.algorithm.communicator
      ensures Represents(LocalNext(cfg, p, SyncOut(mutex.name))) && mutex.owned == old(mutex.owned)
      ensures var c := mutex.algorithm.communicator;
              && c.currentLamportTime == old(c.currentLamportTime) + 1
              && SentToOthers(old(c.out), c.myProcessId,
                              Packet(c.currentLamportTime, c.myProcessId, MessageType.Sync, CurrentSync()), c.out)
    {
      var serializedState := buffer.Save();
      var message := PackSyncMessage(serializedState);
      assert message == CurrentSync();
      var _ := mutex.algorithm.communicator.SendOthers(MessageType.Sync, message);
    }

    /** The whole destructor: the broadcast precedes every agreement that unlocking sends. */
    method EndEntry(ghost cfg: Config, ghost p: Proc) returns (ghost order: seq<ProcessId>)
      requires Represents(p) && LocalEnabled(cfg, p, SyncOut(mutex.name))
      requires 1 + |mutex.name| + STATE_SIZE <= MAX_STRING
      requires KeysOk(mutex.algorithm.communicator.numberOfProcesses, mutex.algorithm.communicator.myProcessId,
                      MutexRequest, mutex.name, DeferredOf(p, mutex.name))
      modifies mutex`owned, mutex.algorithm`receivedRequests, mutex.algorithm`queuedMutexes,
               mutex.algorithm.communicator
      ensures IsOrder(mutex.name, DeferredOf(p, mutex.name), order)
      ensures Represents(AfterEntry(cfg, p, mutex.name, order))
      ensures !mutex.owned && mutex.name !in mutex.algorithm.queuedMutexes
      ensures var c := mutex.algorithm.communicator;
              SentFirst(old(c.out), c.myProcessId,
                        Packet(old(c.currentLamportTime) + 1, c.myProcessId, MessageType.Sync, CurrentSync()), c.out)
    {
      Publish(cfg, p);
      ghost var c := mutex.algorithm.communicator;
      ghost var sync := Packet(c.currentLamportTime, c.myProcessId, MessageType.Sync, CurrentSync());
      ghost var published, clock := c.out, c.currentLamportTime;
      order := mutex.Unlock(LocalNext(cfg, p, SyncOut(mutex.name)));
      SyncPrecedes(old(c.out), sync, published, clock, c.myProcessId, mutex.name, order, c.out);
      GrantAllFrame(LeaveSection(LocalNext(cfg, p, SyncOut(mutex.name)), mutex.name), mutex.name, order);
    }

    /** The body of produce once its wait is over, and that of consume. */
    method Produce(request: Byte, ghost cfg: Config, ghost p: Proc)
      requires Represents(p) && buffer.Valid() && |buffer.State().Contents()| < MAX_QUEUE_SIZE
      requires LocalEnabled(cfg, p, Update(mutex.name, SaveState(Put(buffer.State(), request))))
      modifies buffer`putIndex, buffer`count, buffer.buffer
      ensures Represents(LocalNext(cfg, p, Update(mutex.name, SaveState(Put(old(buffer.State()), request)))))
      ensures buffer.Valid() && buffer.State().Contents() == old(buffer.State().Contents()) + [request]
    {
      buffer.Produce(request);
    }

    method Consume(ghost cfg: Config, ghost p: Proc) returns (request: Byte)
      requires Represents(p) && buffer.Valid() && buffer.State().Contents() != []
      requires LocalEnabled(cfg, p, Update(mutex.name, SaveState(Get(buffer.State()).0)))
      modifies buffer`getIndex, buffer`count
      ensures Represents(LocalNext(cfg, p, Update(mutex.name, SaveState(Get(old(buffer.State())).0))))
      ensures buffer.Valid() && old(buffer.State().Contents()) == [request] + buffer.State().Contents()
    {
      request := buffer.Consume();
    }
  }

  lemma RestoreSave(state: Bytes)
    requires |state| >= 3
    ensures SaveState(RestoreState(state)) == state
  {
    assert state == [state[0], state[1], state[2]] + state[3..];
  }

  /** A process at the end of a monitor entry: state broadcast, deferred requests answered in this order. */
  ghost function AfterEntry(cfg: Config, p: Proc, m: Name, order: seq<ProcessId>): Proc
    requires LocalEnabled(cfg, p, SyncOut(m))
  {
    FinishRelease(GrantAll(LeaveSection(LocalNext(cfg, p, SyncOut(m)), m), m, order), m)
  }

  lemma LeaveNext(cfg: Config, s: State, i: ProcessId, m: Name)
    requires i < |s| && s[i].main == Leaving(m) && m in s[i].held
    ensures Enabled(cfg, s, Label(i, BeginRelease(m)))
    ensures Next(cfg, s, Label(i, BeginRelease(m))) == s[i := LeaveSection(s[i], m)]
  {
  }

  function EndEntrySteps(i: ProcessId, m: Name, order: seq<ProcessId>): seq<Label> {
    [Label(i, SyncOut(m))] + ([Label(i, BeginRelease(m))] + ReleaseSteps(i, m, order))
  }

  lemma PathCons(cfg: Config, s: State, l: Label, states: seq<State>, steps: seq<Label>)
    requires Enabled(cfg, s, l) && Path(cfg, states, steps) && states[0] == Next(cfg, s, l)
    ensures Path(cfg, [s] + states, [l] + steps)
  {
    var states', steps' := [s] + states, [l] + steps;
    forall k | 0 <= k < |steps'|
      ensures Enabled(cfg, states'[k], steps'[k]) && states'[k + 1] == Next(cfg, states'[k], steps'[k])
    {
      if k > 0 {
        assert states'[k] == states[k - 1] && states'[k + 1] == states[k] && steps'[k] == steps[k - 1];
        assert Enabled(cfg, states[k - 1], steps[k - 1]) && states[k - 1 + 1] == Next(cfg, states[k - 1], steps[k - 1]);
      }
    }
  }

  /** From the moment after the broadcast. */
  lemma LeavePath(cfg: Config, s: State, i: ProcessId, m: Name, order: seq<ProcessId>) returns (states: seq<State>)
    requires i < |s| && s[i].main == Leaving(m) && m in s[i].held && IsOrder(m, DeferredOf(s[i], m), order)
    ensures Path(cfg, states, [Label(i, BeginRelease(m))] + ReleaseSteps(i, m, order)) && states[0] == s
    ensures states[|states| - 1] == s[i := FinishRelease(GrantAll(LeaveSection(s[i], m), m, order), m)]
  {
    var s' := s[i := LeaveSection(s[i], m)];
    LeaveNext(cfg, s, i, m);
    ReleasePath(cfg, s', i, m, order);
    ReleaseStarts(s', i, m, order);
    PathCons(cfg, s, Label(i, BeginRelease(m)), ReleaseStates(s', i, m, order), ReleaseSteps(i, m, order));
    states := [s] + ReleaseStates(s', i, m, order);
  }

  lemma PublishNext(cfg: Config, s: State, i: ProcessId, m: Name)
    requires i < |s| && LocalEnabled(cfg, s[i], SyncOut(m))
    ensures Enabled(cfg, s, Label(i, SyncOut(m)))
    ensures Next(cfg, s, Label(i, SyncOut(m))) == s[i := LocalNext(cfg, s[i], SyncOut(m))]
    ensures var p := LocalNext(cfg, s[i], SyncOut(m));
            p.main == Leaving(m) && m in p.held && DeferredOf(p, m) == DeferredOf(s[i], m)
  {
  }

  /** The end of an entry is a run of the step system: broadcast, leave, grants, done. */
  lemma EndEntryIsRun(cfg: Config, run: seq<Label>, s: State, i: ProcessId, m: Name, order: seq<ProcessId>)
    requires Exec(cfg, run) == Some(s) && i < |s| && LocalEnabled(cfg, s[i], SyncOut(m))
    requires IsOrder(m, DeferredOf(s[i], m), order)
    ensures Exec(cfg, run + EndEntrySteps(i, m, order)) == Some(s[i := AfterEntry(cfg, s[i], m, order)])
  {
    var states := EndEntryPath(cfg, s, i, m, order);
    PathIsRun(cfg, run, states, EndEntrySteps(i, m, order), |EndEntrySteps(i, m, order)|);
    assert EndEntrySteps(i, m, order)[..|EndEntrySteps(i, m, order)|] == EndEntrySteps(i, m, order);
  }

  lemma EndEntryPath(cfg: Config, s: State, i: ProcessId, m: Name, order: seq<ProcessId>) returns (states: seq<State>)
    requires i < |s| && LocalEnabled(cfg, s[i], SyncOut(m)) && IsOrder(m, DeferredOf(s[i], m), order)
    ensures Path(cfg, states, EndEntrySteps(i, m, order)) && states[0] == s
    ensures states[|states| - 1] == s[i := AfterEntry(cfg, s[i], m, order)]
  {
    var p := LocalNext(cfg, s[i], SyncOut(m));
    var s' := s[i := p];
    PublishNext(cfg, s, i, m);
    var rest := LeavePath(cfg, s', i, m, order);
    PathCons(cfg, s, Label(i, SyncOut(m)), rest, [Label(i, BeginRelease(m))] + ReleaseSteps(i, m, order));
    states := [s] + rest;
    assert s'[i := FinishRelease(GrantAll(LeaveSection(p, m), m, order), m)] == s[i := AfterEntry(cfg, s[i], m, order)];
  }
}
