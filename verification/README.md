# Verification of the distributed monitor

A Dafny model of the distributed monitor library and proofs about it. The
model is one step system. It has `n` processes, a FIFO channel for each ordered
pair of them, and in each process a main thread and a receiving thread. Four
layers run on it at once:

1. Ricart-Agrawala mutual exclusion with Lamport clocks (G. Ricart and
   A. K. Agrawala, "An optimal algorithm for mutual exclusion in computer
   networks", CACM 24(1), 1981). FIFO delivery is the non-overtaking rule in
   section 3.5 of MPI 3.1.
2. The condition-variable handshake.
3. State replication by SYNC messages.
4. A ring-buffer client, and the wire formats underneath.

## How it is built

| files | content |
|---|---|
| `Packets`, `Network`, `SyncFormat`, `Protocol` | data, channels, the steps, runs (`Exec`) |
| `MutexInvariant`, `MutexTheorems`, `MutexFairness`, `Overtaking`, `MessageCost`, `Flush`, `Progress` | layer 1, any number of processes (`Overtaking`: a run of two) |
| `ConditionInvariant`, `ConditionRuns`, `ConditionTheorems`, `WaiterTable`, `Dispatchable` | layer 2 |
| `Replication`, `ReplicationTheorems`, `EndToEnd` | layer 3 |
| `RingBuffer`, `ProducerConsumer`, `Entries`, `WireFormat`, `Framing` | layer 4 |
| `Calls` | the calls of a program, as runs |
| `ThreeProcesses` | runs of three processes in which what two are guaranteed fails |
| `Communicator`, `ExclusionAlgorithm`, `ConditionAlgorithm`, `Manager`, `Monitor` | the objects of one process, as classes that update their fields in place |

A run is a sequence of labels (process, step). `Exec(cfg, run)` is the state it
ends in, or `None` when one of its steps was not enabled, so a theorem about
`Exec(cfg, run)` is about every reachable state of every configuration.
`Calls` and `Entries` are about the other direction: that the steps a program may
take are enabled, and what each of them has sent and changed.
Taking a packet (and merging its time into the clock) and dispatching it are
two steps, and any step of the main thread can fall between them. The
release of a mutex is several steps, one for each deferred request. A
broadcast is one step, because the sender holds the communicator's lock.

The invariants speak about one process or one ordered pair of processes at a
time, so they do not depend on the number of processes. History that the
program does not store (times of last exits and waits, the states broadcast so
far, the order of entries) is computed from the run.

In the class files, `Represents(p)` says that an object's fields are those of
the process `p` of the step system. Each method takes `p` as a ghost parameter and
promises that its fields afterwards represent what the step system makes of `p`.
Beside that, each of these methods says in terms of the fields, the channels and the clock
what it has done, without the step system's functions. Blocking calls are split where they block: `BeginLock` and `EndLock`,
`BeginWait` and `StopWait` with `AreConfirmationsComplete`.

A hash set of packets ignores their times (equality compares source, type and message), so
it is a map from these three to the time of the packet inserted first. An
ordered set of packets compares times only, so it is a map from times to
packets. Both drop what they take for duplicates; that nothing is ever dropped
in a run is proved, not assumed.

## What the model takes for granted

* Every mutex, monitor and condition variable is registered in every process
  before any of them starts to listen, as the examples do, and each condition variable
  is used under one mutex, its guard.
* `wait`, `notify_one` and `notify_all` are called with the guard held.
  `wait` is called before the monitor's state is changed in the same section,
  since the unlock inside `wait` broadcasts nothing.
* Reading the waiters and sending the notification is one step. In between, with
  the guard held, no packet can change that variable's waiters
  (`WaiterTable.HolderHasSeen`).
* A thread does not lock a mutex that it owns.
* Monitor names have at most 127 bytes (`Config.Valid`). The code asserts 255;
  `SyncRoundTrip` and `AdmittedNamesMisread` show what happens in between.
* `char` is signed and the machine is little-endian.

The comment in `src/examples/distributed/DistributedProdConsSingleCV.cpp:13-20` says
that any process entering a monitor has the latest state. That is so for two
processes (`MonitorIsSequentialForTwo`). With three it fails:
`EntersWithStaleState` gives the run. For any number, `SequentialExactly` gives the
exact condition. It holds whenever only two processes ever enter the monitor
(`UpToDateAmongTwo`), and whenever SYNC messages reach each process in the order of
critical sections (`InOrderIsUpToDate`).
In the same way the waiter table is complete for two processes
(`NoLostWaiter`), but `LosesWaiter` gives a run of three in which a notification
is lost. `RecordedWhileOthersWait` says which calls keep a waiter in the table, and
`WaiterRecordedExactly` relates the table to what was delivered.

## Model

| member | source | states |
|---|---|---|
| MutexTheorems.MutualExclusion | src/algorithms/RicartAgrawalaExclusionAlgorithm.h:41-82 | In every reachable state, for any number of processes, at most one is between the end of acquireMutex and the start of releaseMutex of a mutex. |
| MutexTheorems.HolderNeverGrants | src/algorithms/RicartAgrawalaExclusionAlgorithm.h:115-159 | While a process holds a mutex, no enabled step of it sends an agreement on that mutex. |
| MutexTheorems.RequestConservation | src/algorithms/RicartAgrawalaExclusionAlgorithm.h:72-123 | While i is queued, its request to j is in exactly one of six places (request in flight, undispatched, deferred; agreement in flight, undispatched, received); while i is not queued, in none. |
| MutexTheorems.NothingDropped | src/algorithms/RicartAgrawalaExclusionAlgorithm.h:91-123 | No deferred request and no received agreement is ever inserted into a set that already has an equal packet, and no agreement arrives that is not waited for. |
| Packets.InsertKeepsFirst | src/communication/ICommunicator.h:18-20 | Inserting into a hash set of packets adds a packet unless an equal one is there, which then stays with its own time. |
| Packets.InsertByTimeKeepsFirst | src/communication/ICommunicator.h:22-24 | The same for an ordered set, where packets with the same time are equal. |
| MutexTheorems.EntryOrder | src/algorithms/RicartAgrawalaExclusionAlgorithm.h:108-159 | Over any run, the critical sections of a mutex are entered in strictly increasing (request time, process) order. |
| MutexFairness.BoundedOvertaking | src/algorithms/RicartAgrawalaExclusionAlgorithm.h:107-159 | From a process's request until it enters, each other process enters that mutex at most twice. |
| Overtaking.BoundReached | src/algorithms/RicartAgrawalaExclusionAlgorithm.h:107-159 | The bound is sharp: two processes and two mutexes, a run in which one process waits for a mutex and the other enters it twice meanwhile, once on an agreement given before the request and once on an earlier-stamped request of its own. |
| MessageCost.AnsweredRequests | src/algorithms/RicartAgrawalaExclusionAlgorithm.h:72-123 | At any moment the agreements j has sent to i, plus the request of i that j still owes an answer, are as many as the times i has queued. |
| MessageCost.SentRequests | src/algorithms/RicartAgrawalaExclusionAlgorithm.h:108-112 | i sends one request to each other process each time it queues, and has entered as often as it queued, except for the entry it is waiting for. |
| MessageCost.TwoMessagesPerPeer | src/algorithms/RicartAgrawalaExclusionAlgorithm.h:41-82 | Whenever i is not queued, it has exchanged exactly one request and one agreement with each other process for every entry: 2(N-1) messages an entry. |
| MutexInvariant.AllReceived | src/algorithms/RicartAgrawalaExclusionAlgorithm.h:168-171 | Counting N-1 agreements is the same as having the agreement of every other process. |
| MutexInvariant.RunInv | src/algorithms/RicartAgrawalaExclusionAlgorithm.h:41-171 | The joint invariant over clocks, channels, undispatched packets, deferred and received sets holds in every reachable state, for every mutex. |
| Flush.FlushAtEntry | src/algorithms/RicartAgrawalaExclusionAlgorithm.h:41-82 | Whatever a process sent before it left a section of a mutex has been received and dispatched by any other process that is inside that mutex later, and the latter's clock is past its time. |
| Progress.NoDeadlock | src/algorithms/RicartAgrawalaExclusionAlgorithm.h:64-82 | If somebody waits for a mutex that nobody holds, a step that completes pending work is enabled; with nothing on its way it is the entry of the waiting process with the least (time, process). |
| Progress.MeasureFalls | src/algorithms/RicartAgrawalaExclusionAlgorithm.h:64-82 | Every step that completes pending work makes a natural number smaller. |
| Progress.CompletionEnds | src/algorithms/RicartAgrawalaExclusionAlgorithm.h:64-82 | A run continued only by such steps is continued by no more of them than the measure of the state it is continued from. |
| Progress.NothingLeftMeansServed | src/algorithms/RicartAgrawalaExclusionAlgorithm.h:64-82 | When no such step is left, nobody waits for the mutex and nobody is inside it, provided that from its rank upwards mutexes are locked in the order of some ranking and no holder waits on a condition under another mutex. |
| Progress.EndingFinishes | src/algorithms/DistributedConditionVariableAlgorithm.h:97-100 | With nothing on its way, a process that ends a wait has all confirmations. |
| ConditionTheorems.NotificationSoundness | src/algorithms/DistributedConditionVariableAlgorithm.h:58-129 | Every waiter-table entry names a process that is still inside that wait; every notification under way goes to a process that listens for it and is outside the guard. |
| ConditionTheorems.NotifyOnePicksLongest | src/algorithms/DistributedConditionVariableAlgorithm.h:105-114 | notifyOne sends to exactly one process, which is waiting, and has waited longest of those recorded. |
| ConditionTheorems.NotifyAllReachesRecorded | src/algorithms/DistributedConditionVariableAlgorithm.h:116-129 | notifyAll sends one notification to each recorded process, all of which are waiting outside the guard, and none to anybody else. |
| ConditionTheorems.WaitTimesIncrease | src/algorithms/DistributedConditionVariableAlgorithm.h:24-28 | Over any run, each wait on a variable carries a greater Lamport time than all waits on it before, whichever processes they belong to. |
| ConditionTheorems.NoWaiterDropped | src/algorithms/DistributedConditionVariableAlgorithm.h:24-28 | The ordered set of waiters, which compares times only, never drops an insertion. |
| ConditionTheorems.ConfirmationConservation | src/algorithms/DistributedConditionVariableAlgorithm.h:81-102 | While j ends a wait, its announcement at k is in exactly one of five places, and j is the only holder of the guard; otherwise there is no such traffic. |
| WaiterTable.WaiterRecordedExactly | src/algorithms/DistributedConditionVariableAlgorithm.h:37-44 | Any number of processes: a waiting process is in the holder's table if and only if the holder has dispatched no end of a wait since it dispatched that process's announcement. |
| WaiterTable.RecordedWhileOthersWait | src/algorithms/DistributedConditionVariableAlgorithm.h:58-114 | Any number of processes, in terms of the calls: if since j began to wait nobody but i has stopped waiting on the variable, then whenever i holds the guard it has j's wait in its table, and j is waiting. |
| WaiterTable.NoLostWaiter | src/algorithms/DistributedConditionVariableAlgorithm.h:58-114 | Two processes: the holder's table is exactly the other's wait while the other is inside wait, and empty otherwise. |
| ThreeProcesses.LosesWaiter | src/algorithms/DistributedConditionVariableAlgorithm.h:37-44 | Three processes: a run after which the holder may notify, its table is empty, notifyOne sends nothing, and another process is waiting. |
| Dispatchable.NoPacketUndispatchable | src/communication/CommunicationManager.h:80-100 | Neither the "no callback" exception nor the "unexpected agreement" exception is reachable in any run. A received packet can be dispatched at once, unless it is a request or an agreement and the main thread is inside releaseMutex, whose locks these two need. |
| Calls.ReceiveIsRun | src/communication/MpiSimpleCommunicator.cpp:32-49 | The head of any channel can be taken when nothing is undispatched; the clock is then above its old value and the stamp, by one above the larger; nothing else changes. |
| Calls.Arrives | src/communication/CommunicationManager.h:78-101 | Any channel can be emptied by the receiver's own receiving steps, unless its main thread is inside releaseMutex. |
| Calls.LockIsRun | src/algorithms/RicartAgrawalaExclusionAlgorithm.h:41-65 | Between statements, or inside a wait under it, any registered mutex that is not held can be locked: one stamped request to each other process, and the queue entry carries its stamp. |
| Calls.EntersExactly | src/algorithms/RicartAgrawalaExclusionAlgorithm.h:65-69 | The lock returns exactly when an agreement of every other process has been received; the mutex is held then. |
| Calls.UnlockIsRun | src/algorithms/RicartAgrawalaExclusionAlgorithm.h:73-82 | A held mutex that belongs to no monitor, or under which the process waits, can be unlocked, in whatever order the deferred requests are answered. |
| Calls.Unlocked | src/algorithms/RicartAgrawalaExclusionAlgorithm.h:73-82 | What unlocking has done: one agreement for each deferred request, stamped one after the other, and to nobody else; not held, not queued, nothing deferred; all else as before. |
| Calls.EntryEnds | src/distributed/DistributedMonitorHelper.cpp:10-14 | An entry of a monitor can end as soon as its statements are over: length byte, name and state go to every other process, then the mutex is released. |
| Calls.UpdateIsRun | src/examples/distributed/DistributedProdConsSimple.cpp:43-62 | Inside a monitor its state can be changed at any time between statements, to any state that fits a message. |
| Calls.WaitBegins | src/algorithms/DistributedConditionVariableAlgorithm.h:58-76 | Under the guard a wait can begin, with one announcement to each other process. |
| Calls.WaitEnds | src/algorithms/DistributedConditionVariableAlgorithm.h:76-97 | Once it holds the guard again it may announce its end to each other process. |
| Calls.WaitReturnsExactly | src/algorithms/DistributedConditionVariableAlgorithm.h:97-102 | wait returns exactly when a confirmation of every other process has been received. |
| Calls.NotifyIsRun | src/algorithms/DistributedConditionVariableAlgorithm.h:105-129 | Under the guard one or all can be notified at any time. |
| ReplicationTheorems.NoUpdateUnderHolder | src/distributed/DistributedMonitor.h:26-34 | No SYNC message of a monitor is undispatched at, or on its way to, the process inside it. |
| ReplicationTheorems.FreshExactly | src/distributed/DistributedMonitorHelper.cpp:10-14 | Any number of processes: a holder with no change of its own has the state that was broadcast last if and only if the broadcast it restored or sent last holds the same state as the latest one that has reached it. |
| ReplicationTheorems.FreshInOrder | src/distributed/DistributedMonitorHelper.cpp:10-14 | If SYNC messages reach every process in section order, the replica is fresh at every entry, up to the first change. |
| ReplicationTheorems.TwoInOrder | src/distributed/DistributedMonitorHelper.cpp:10-14 | Between two processes SYNC messages always arrive in section order. |
| ReplicationTheorems.FreshForTwo | src/distributed/DistributedMonitorHelper.cpp:10-14 | Two processes: the replica is fresh at every entry, up to the first change. |
| EndToEnd.SequentialExactly | src/distributed/DistributedMonitorHelper.cpp:3-14 | Any number of processes: at every moment of a run whoever is inside the monitor has the state written last, if and only if at every moment every holder without a change of its own is up to date: the broadcast it restored or sent last holds the same state as the latest one that has reached it. |
| EndToEnd.MonitorIsSequential | src/distributed/DistributedMonitorHelper.cpp:3-14 | If holders are up to date throughout, whoever is inside the monitor has the state written last in the whole run, by whichever process. |
| EndToEnd.InOrderIsUpToDate | src/distributed/DistributedMonitorHelper.cpp:10-14 | Holders are up to date throughout when SYNC messages reach every process in section order. |
| EndToEnd.UpToDateAmongTwo | src/distributed/DistributedMonitorHelper.cpp:3-14 | Any number of processes, in terms of the calls: if only two of them ever enter the monitor, holders are up to date throughout. |
| EndToEnd.MonitorIsSequentialAmongTwo | src/distributed/DistributedMonitorHelper.cpp:3-14 | So whoever is inside then has the state written last in the whole run. |
| EndToEnd.MonitorIsSequentialForTwo | src/examples/distributed/DistributedProdConsSingleCV.cpp:13-20 | Two processes: whoever is inside the monitor has the state written last in the whole run. |
| ThreeProcesses.EntersWithStaleState | src/distributed/DistributedMonitor.h:31-33 | Three processes: for any two states a run after which a process is inside the monitor with the older one although the newer was written and broadcast later; unless the two are equal its replica is then not fresh and it is not up to date. |
| ProducerConsumer.BoundedFifoQueue | src/examples/distributed/DistributedProdConsSimple.cpp:26-62 | What was produced is what was consumed followed by what the buffer holds; at most MAX_QUEUE_SIZE characters are outstanding. For two processes, or any number whose holders are up to date throughout. |
| ProducerConsumer.ReplicasAreRings | src/examples/distributed/DistributedProdConsSimple.cpp:26-62 | Any number of processes and any order of delivery: every replica is a ring with indices and count in range, and so is every state about to be restored, which therefore has the size restoreState expects. |
| Entries.EntryBegins | src/examples/distributed/DistributedProdConsSimple.cpp:43-45 | Inside the monitor an entry may start with its wait, whatever it is about to do. |
| Entries.WaitOverExactly | src/examples/distributed/DistributedProdConsSimple.cpp:45-72 | Inside the monitor, the wait of produce may return exactly when fewer characters than MAX_QUEUE_SIZE have been produced and not consumed by anybody, and that of consume exactly when there is one. Two processes, or any number whose holders are up to date throughout. |
| Entries.ChangeIsRun | src/examples/distributed/DistributedProdConsSimple.cpp:43-62 | Then produce can append its character to what was produced, and consume can take the oldest character that nobody has consumed. |
| Entries.EntryLeaves | src/examples/distributed/DistributedProdConsSimple.cpp:43-62 | After the change the entry can end. |
| RingBuffer.FullExactly | src/examples/distributed/DistributedProdConsSimple.cpp:64-70 | The ring is full exactly when it stands for a queue of MAX_QUEUE_SIZE characters, and empty exactly when it stands for the empty queue. |
| RingBuffer.PutAppends | src/examples/distributed/DistributedProdConsSimple.cpp:43-51 | While there are fewer than MAX_QUEUE_SIZE characters, producing keeps the indices and the count in order and appends one character to the queue the ring stands for. |
| RingBuffer.GetRemoves | src/examples/distributed/DistributedProdConsSimple.cpp:53-62 | While there is a character, consuming keeps them in order, and removes and returns the oldest one. |
| RingBuffer.SaveRestore | src/examples/distributed/DistributedProdConsSimple.cpp:26-41 | Restoring a saved state gives it back. |
| RingBuffer.SavedBytes | src/examples/distributed/DistributedProdConsSimple.cpp:26-34 | A saved state is getIndex, putIndex, count, and then the characters. |
| RingBuffer.BufferMonitor.Save | src/examples/distributed/DistributedProdConsSimple.cpp:26-34 | It returns getIndex, putIndex, count and the characters, in this order. |
| RingBuffer.BufferMonitor.Restore | src/examples/distributed/DistributedProdConsSimple.cpp:36-41 | Overwrites in place getIndex, putIndex and count by the first three bytes and as many cells of the buffer as there are further bytes; the other cells stay. |
| RingBuffer.BufferMonitor.IsFull | src/examples/distributed/DistributedProdConsSimple.cpp:64-66 | True exactly when the queue has MAX_QUEUE_SIZE characters. |
| RingBuffer.BufferMonitor.IsEmpty | src/examples/distributed/DistributedProdConsSimple.cpp:68-70 | True exactly when the queue has none. |
| RingBuffer.BufferMonitor.Produce | src/examples/distributed/DistributedProdConsSimple.cpp:43-51 | In place: the request is written at putIndex, which moves on by one slot, and the queue grows by the request, at its end. |
| RingBuffer.BufferMonitor.Consume | src/examples/distributed/DistributedProdConsSimple.cpp:53-62 | In place: the character at getIndex is returned, which moves on by one slot, and the queue loses its first character, which it is. |
| SyncFormat.SyncRoundTrip | src/distributed/DistributedMonitorHelper.cpp:16-19 | Name and state are read back from a SYNC message as they were packed if and only if the name has at most 127 bytes. |
| SyncFormat.AdmittedNamesMisread | src/distributed/DistributedMonitor.h:24-50 | Names of 128 to 255 bytes, which the assertion admits, are read back as all that follows the length byte, and the state is out of range, or the whole message when the length is 255. |
| SyncFormat.ExtractedExactly | src/distributed/DistributedMonitor.h:43-50 | What is read as name and state from any message, well-formed or not, including the two out-of-range exceptions. |
| SyncFormat.SyncRouting | src/distributed/DistributedMonitor.h:27-30 | A SYNC message is taken by the monitor it was packed for and by no other. |
| WireFormat.GetEncoded | src/communication/MpiOptimizedCommunicator.cpp:64-86 | Decoding an encoded packet truncates its time to 64 bits and keeps the rest, so it gives the packet back if and only if the time is below 2^64. |
| WireFormat.EncodeGotten | src/communication/MpiOptimizedCommunicator.cpp:75-86 | Every byte string that decodes is the encoding of what it decodes to, and has that layout. |
| WireFormat.GottenExactly | src/communication/MpiOptimizedCommunicator.cpp:75-86 | A byte string decodes exactly when it has at least nine bytes and the ninth names a message type. |
| WireFormat.EncodedBytes | src/communication/MpiOptimizedCommunicator.cpp:64-73 | The bytes on the wire: eight bytes of time, lowest first, the position of the type in the enumeration, the message. |
| WireFormat.EncodeInto | src/communication/MpiOptimizedCommunicator.cpp:64-73 | Writing the parts into a buffer of the right size in place produces the encoding: each byte of the time, the type's number, the message. |
| Framing.FramingIsTransparent | src/communication/MpiSimpleCommunicator.cpp:4-49 | However header and message transfers of several sources interleave, the receiver never meets an unexpected frame, returns each source's packets in order and loses none, finds a header at the head of every idle channel, and its clock ends above every stamp taken in. |
| Framing.TransferExactly | src/communication/MpiSimpleCommunicator.cpp:4-49 | Which transfers are possible next: a source may start a packet at any time once the last one is out, and the receiver may take any channel's header, but after a header that announces a message only that message. |
| Framing.Drains | src/communication/MpiSimpleCommunicator.cpp:4-49 | From wherever the transfers are, they can go on until every packet sent has been returned. |
| Framing.Delivered | src/communication/MpiSimpleCommunicator.cpp:4-49 | So any packet a source sends next is returned by receive, after all that was sent before it. |
| Framing.HeadIsHeader | src/communication/MpiSimpleCommunicator.cpp:32-43 | The head of an idle channel is the header of that source's next packet. |
| Network.MergeIsLeast | src/communication/MpiSimpleCommunicator.cpp:44-47 | The clock after a receive is above its old value and the stamp, by one above the larger. |
| Communicator.SimpleCommunicator.Send | src/communication/MpiSimpleCommunicator.cpp:4-30 | One time stamp, the clock plus one, for all recipients; each recipient, and nobody else, is sent a header with time, type and length, and then the message unless it is empty. |
| Communicator.SimpleCommunicator.SendOthers | src/communication/ICommunicator.h:47-49 | The same, to every other process. |
| Communicator.SimpleCommunicator.Receive | src/communication/MpiSimpleCommunicator.cpp:32-49 | Takes the next whole packet of some source that has one; the clock becomes one more than the larger of its value and the stamp; the other sources keep theirs. |
| ExclusionAlgorithm.RicartAgrawala.CanSend | src/algorithms/RicartAgrawalaExclusionAlgorithm.h:126-159 | Refuses exactly when queued for that mutex with a smaller time, or with the same time and a process number not above the sender's; the step system's process decides the same. |
| ExclusionAlgorithm.RicartAgrawala.AcceptsRequest | src/algorithms/RicartAgrawalaExclusionAlgorithm.h:19-23 | The subscription takes exactly the requests about registered mutexes. |
| ExclusionAlgorithm.RicartAgrawala.ProcessRequest | src/algorithms/RicartAgrawalaExclusionAlgorithm.h:115-123 | Either one agreement goes to the sender and nothing else changes, or the request is added to the deferred ones of its mutex and nothing else changes; the fields keep representing the process. |
| ExclusionAlgorithm.RicartAgrawala.Queue | src/algorithms/RicartAgrawalaExclusionAlgorithm.h:108-112 | One request to each other process, and the queue entry carries its stamp, the clock plus one. |
| ExclusionAlgorithm.RicartAgrawala.AddAgreement | src/algorithms/RicartAgrawalaExclusionAlgorithm.h:91-105 | Accepts an agreement exactly when queued, keeps it with its time, and never changes one received earlier; as the step system does. |
| ExclusionAlgorithm.RicartAgrawala.AreAgreementsComplete | src/algorithms/RicartAgrawalaExclusionAlgorithm.h:169-171 | True exactly when every other process has agreed. |
| ExclusionAlgorithm.RicartAgrawala.ReleaseMutex | src/algorithms/RicartAgrawalaExclusionAlgorithm.h:73-82 | Whatever order the hash set yields, each deferred request is answered once, in that order, with consecutive stamps, and nobody else is sent anything; then the mutex is dequeued and nothing is deferred. |
| ExclusionAlgorithm.ReleaseIsRun | src/algorithms/RicartAgrawalaExclusionAlgorithm.h:73-82 | What that method does is a run of the step system: one grant for each deferred request, then the end. |
| ExclusionAlgorithm.ReachableKeys | src/algorithms/RicartAgrawalaExclusionAlgorithm.h:73-82 | What the methods require of the sets they count and loop over holds in every reachable state. |
| ExclusionAlgorithm.DistributedMutex.BeginLock | src/distributed/DistributedMutex.h:24-27 | Locking queues the mutex of that name. |
| ExclusionAlgorithm.DistributedMutex.EndLock | src/distributed/DistributedMutex.h:24-27 | lock returns exactly when every other process has agreed, which is when the step system lets the process enter, and sets the flag then. |
| ExclusionAlgorithm.DistributedMutex.Unlock | src/distributed/DistributedMutex.h:29-35 | Nothing if not owned; otherwise leaves the section, answers all deferred requests, clears the flag. |
| ExclusionAlgorithm.DistributedMutex.TryLock | src/distributed/DistributedMutex.h:37-43 | Starts to lock exactly when the process is outside; otherwise changes nothing. |
| ConditionAlgorithm.ConditionVariables.AreConfirmationsComplete | src/algorithms/DistributedConditionVariableAlgorithm.h:137-139 | True exactly when every other process has confirmed. |
| ConditionAlgorithm.ConditionVariables.AcceptsWait | src/algorithms/DistributedConditionVariableAlgorithm.h:19-23 | The subscription takes exactly the announcements about registered variables. |
| ConditionAlgorithm.ConditionVariables.AcceptsWaitEnd | src/algorithms/DistributedConditionVariableAlgorithm.h:31-35 | The same for the ends of waits. |
| ConditionAlgorithm.ConditionVariables.AddWaiter | src/algorithms/DistributedConditionVariableAlgorithm.h:24-28 | The announcement joins the waiters of its variable under its time, unless that time is taken; no other variable changes. |
| ConditionAlgorithm.ConditionVariables.EndWaits | src/algorithms/DistributedConditionVariableAlgorithm.h:36-43 | All waiters of the variable go, of no other, and exactly the sender is sent one confirmation. |
| ConditionAlgorithm.ConditionVariables.BeginWait | src/algorithms/DistributedConditionVariableAlgorithm.h:76 | One announcement to each other process. |
| ConditionAlgorithm.ConditionVariables.StopWait | src/algorithms/DistributedConditionVariableAlgorithm.h:97 | No confirmation yet, and one announcement of the end to each other process. |
| ConditionAlgorithm.ConditionVariables.AddConfirmation | src/algorithms/DistributedConditionVariableAlgorithm.h:87-89 | A confirmation is kept with its time and never changes one received earlier; the step system's dispatch does the same. |
| ConditionAlgorithm.ConditionVariables.NotifyOne | src/algorithms/DistributedConditionVariableAlgorithm.h:105-114 | Creates the variable's entry in the table; sends one notification to the waiter with the least time, or nothing at all exactly when there is no waiter. |
| ConditionAlgorithm.ConditionVariables.NotifyAll | src/algorithms/DistributedConditionVariableAlgorithm.h:116-129 | One notification, with one stamp, to exactly the recorded processes; nothing at all happens only when the whole table is empty, and otherwise the clock advances even if there is nobody to notify. |
| ConditionAlgorithm.ReachableWaiters | src/algorithms/DistributedConditionVariableAlgorithm.h:105-139 | What these methods require of the waiters and confirmations they use holds in every reachable state. |
| ConditionAlgorithm.DistributedConditionVariable.BeginWait | src/distributed/DistributedConditionVariable.h:19-24 | Refuses, without announcing anything, exactly when the mutex is not owned; called as the model assumes, it announces exactly when the step system's step is enabled. |
| Manager.AtMostOneTakes | src/communication/CommunicationManager.h:85-99 | At most one subscription of a process takes a packet; some does exactly when the packet is about a registered name, or about the mutex being locked, the wait under way or a monitor of the process; otherwise the step system has no callback. |
| Manager.SubscriptionsFollowSteps | src/algorithms/RicartAgrawalaExclusionAlgorithm.h:46-67 | Which step subscribes to what and unsubscribes from what; nothing is subscribed twice or unsubscribed in vain. |
| Manager.SubscriptionsOfCalls | src/algorithms/DistributedConditionVariableAlgorithm.h:58-102 | The same call by call: locking, entering, and the three parts of a wait. |
| Manager.CommunicationManager.Subscribe | src/communication/CommunicationManager.h:37-41 | Identifiers are fresh, so no subscription is overwritten. |
| Manager.CommunicationManager.Dispatch | src/communication/CommunicationManager.h:85-99 | Calls back exactly the subscriptions that accept the packet; throws exactly when there is none. |
| Manager.CommunicationManager.DispatchFor | src/communication/CommunicationManager.h:85-99 | In a represented process it calls back exactly one subscription, or throws exactly when the step system has no callback. |
| Manager.CommunicationManager.SubscribeToAgreements | src/algorithms/RicartAgrawalaExclusionAlgorithm.h:46-62 | The table keeps representing the process across the step that subscribes to agreements. |
| Manager.CommunicationManager.UnsubscribeFromAgreements | src/algorithms/RicartAgrawalaExclusionAlgorithm.h:67 | The same across the entry. |
| Monitor.DistributedMonitor.AcceptsSync | src/distributed/DistributedMonitor.h:28-30 | Of all SYNC messages packed for some monitor, accepts exactly those packed for this one. |
| Monitor.DistributedMonitor.OnSync | src/distributed/DistributedMonitor.h:31-33 | Overwrites the buffer in place, whatever it held, so that it stays the process's replica: the counters by the three bytes behind the name; a shorter state leaves the end of the buffer as it was. |
| Monitor.DistributedMonitor.PackSyncMessage | src/distributed/DistributedMonitorHelper.cpp:16-19 | Length byte, name and state in this order, whatever the name; they can be extracted again for names of at most 127 bytes. |
| Monitor.DistributedMonitor.Publish | src/distributed/DistributedMonitorHelper.cpp:10-12 | Broadcasts, under one stamp, the length byte, the name, the three counters and the characters of the buffer. |
| Monitor.DistributedMonitor.EndEntry | src/distributed/DistributedMonitorHelper.cpp:10-14 | Saves, broadcasts and unlocks: every other process is sent the state before anything else; the mutex is neither owned nor queued afterwards, and the objects represent the process after the broadcast, the leaving, one grant for each deferred request, and the end of the release. |
| Monitor.EndEntryIsRun | src/distributed/DistributedMonitorHelper.cpp:10-14 | These are a run of the step system, broadcast first. |
| Monitor.DistributedMonitor.Produce | src/examples/distributed/DistributedProdConsSimple.cpp:43-51 | While there is room, the change in place is the step system's update, and appends to the queue. |
| Monitor.DistributedMonitor.Consume | src/examples/distributed/DistributedProdConsSimple.cpp:53-62 | While there is a character, the change in place is the step system's update, and returns the oldest one. |

## Left out

- Wrap-around of Lamport times and of subscription identifiers: clocks are unbounded naturals (the codec truncates to 64 bits, and says so).
- The timed variants of `receive` (src/communication/MpiSimpleCommunicator.cpp:55-106): driven by the wall clock, not used by the manager, and able to take a header without its message.
- `MpiOptimizedCommunicator` as the protocol's transport: it replaces a received packet's time by the receiver's clock; only its codec is modelled.
- MPI itself, its initialization, its datatypes and its errors: replaced by FIFO channels.
- Process failure and message loss; unregistering and destruction while others run: the code does not handle them.
- Operating-system scheduling and the inside of the local condition variables: waking is a step that is always allowed, after which the mutex is locked again and the predicate tested again.
- Notifying after unlocking, as in src/examples/distributed/DistributedProdConsSingleCVUnlockFirst.cpp: not modelled.
- Changing monitor state before a wait in the same section: the unlock inside the wait would not broadcast it.
- Two threads of one process inside the library at once: a process has one main thread here.
- Communicator.SimpleCommunicator.Receive: requires that what has arrived is whole packets and that there is one, because blocking is not modelled; `Framing` covers partial arrival.
- Communicator.SimpleCommunicator.Send: messages of 2^31 bytes and more, whose size does not fit the network's `int`, are not modelled; `Receive` and `Framing` are about shorter ones.
- ExclusionAlgorithm.DistributedMutex.EndLock: one look at the agreements; the waiting between looks is the step system's.
- ExclusionAlgorithm.DistributedMutex.TryLock: up to the point where it waits for the agreements, as `BeginLock`; `EndLock` is the rest.
- Progress.NothingLeftMeansServed: holders that lock mutexes against the ranking, are about to queue for another one, or wait under another one are not covered.
- Monitor.DistributedMonitor.OnSync: states outside 3 to 8 bytes are excluded, since the example's `restoreState` then reads or writes outside its strings and buffer; `ReplicasAreRings` shows that none arrives.
- Manager.SubscriptionsFollowSteps: a SYNC message too short for the name it announces makes the subscription's own predicate or callback throw; it counts as not dispatchable.
- The Boost-based and the local examples, logging, formatting and build files.
