/**
  The whole distributed monitor as one step system.

  A process has a main thread and a receiving thread.  The main thread locks
  and unlocks mutexes, waits and notifies on condition variables, changes and
  broadcasts monitor state; the receiving thread takes packets from the network
  (merging the clock) and, as a separate step, dispatches them.  Every step of
  one process is a function of that process alone, except taking a packet,
  which also shortens the sender's channel.
*/
module Protocol {
  import opened Packets
  import opened Network
  import opened SyncFormat

  type Name = Bytes

  /** What is registered, everywhere, before any process starts to listen.
      Each condition variable is used under one mutex, its guard. */
  datatype Config = Config(n: nat, mutexes: set<Name>, monitors: set<Name>, guard: map<Name, Name>,
                           initial: map<Name, Bytes>) {
    ghost predicate Valid() {
      && n >= 1
      && monitors <= mutexes
      && initial.Keys == monitors
      && (forall c :: c in guard ==> guard[c] in mutexes)
      && (forall m :: m in monitors ==> |m| <= 127 && 1 + |m| + |initial[m]| <= MAX_STRING)
    }
  }

  /** Where the main thread is with respect to locking and unlocking. */
  datatype Main =
    | Free
    | Subscribed(name: Name)                          // subscribed to agreements, not queued yet
    | Requesting(name: Name, agreements: PacketSet)   // queued, waiting for the agreements
    | Leaving(name: Name)                             // state broadcast, about to unlock
    | Releasing(name: Name)                           // inside releaseMutex

  /** Where the main thread is inside `wait` on a condition variable. */
  datatype Wait =
    | NoWait
    | Listening(cond: Name)
    | Ending(cond: Name, confirmations: PacketSet)

  datatype Proc = Proc(
    net: Endpoint,
    pending: Option<Packet>,          // received, not yet dispatched
    queued: map<Name, LamportTime>,
    deferred: map<Name, PacketSet>,
    held: set<Name>,                  // between the end of acquireMutex and the start of releaseMutex
    main: Main,
    waiters: map<Name, TimeSet>,
    wait: Wait,
    replica: map<Name, Bytes>,
    changed: set<Name>                // held monitors whose state was changed in this section
  )

  type State = seq<Proc>

  function DeferredOf(p: Proc, m: Name): PacketSet {
    if m in p.deferred then p.deferred[m] else map[]
  }

  function WaitersOf(p: Proc, c: Name): TimeSet {
    if c in p.waiters then p.waiters[c] else map[]
  }

  // ---- Ricart-Agrawala -------------------------------------------------------

  /** Requests are ordered by time stamp, then by process. */
  predicate Before(t: LamportTime, i: ProcessId, u: LamportTime, j: ProcessId) {
    t < u || (t == u && i < j)
  }

  predicate CanSendAgreement(p: Proc, request: Packet) {
    if request.message !in p.queued then true
    else if request.lamportTime < p.queued[request.message] then true
    else request.lamportTime == p.queued[request.message] && request.source < p.net.id
  }

  function SendAgreement(p: Proc, m: Name, to: ProcessId): Proc {
    p.(net := Send(p.net, MutexAgreement, m, {to}))
  }

  function ProcessRequest(p: Proc, request: Packet): Proc {
    var m := request.message;
    if CanSendAgreement(p, request) then SendAgreement(p, m, request.source)
    else p.(deferred := p.deferred[m := Insert(DeferredOf(p, m), request)])
  }

  function QueueFor(p: Proc, m: Name): Proc {
    p.(net := SendOthers(p.net, MutexRequest, m),
       queued := p.queued[m := p.net.clock + 1],
       main := Requesting(m, map[]))
  }

  /** releaseMutex sends one agreement per deferred request; this is one of them. */
  function GrantDeferred(p: Proc, m: Name, to: ProcessId): Proc {
    SendAgreement(p, m, to)
    .(deferred := p.deferred[m := DeferredOf(p, m) - {PacketKey(to, MutexRequest, m)}])
  }

  function LeaveSection(p: Proc, m: Name): Proc {
    p.(main := Releasing(m), held := p.held - {m}, changed := p.changed - {m})
  }

  /** What releaseMutex does once the agreements are sent. */
  function FinishRelease(p: Proc, m: Name): Proc {
    p.(main := Free, queued := p.queued - {m}, deferred := p.deferred[m := map[]])
  }

  // ---- Waiting ---------------------------------------------------------------

  /** wait announces itself, and later its end, to all others. */
  function AnnounceWait(p: Proc, c: Name): Proc {
    p.(wait := Listening(c), net := SendOthers(p.net, CondWait, c))
  }

  function AnnounceEnd(p: Proc, c: Name): Proc {
    p.(wait := Ending(c, map[]), net := SendOthers(p.net, CondWaitEnd, c))
  }

  // ---- Dispatching a packet --------------------------------------------------

  datatype Outcome = Handled | NoCallback | UnexpectedAgreement

  /** Which of the callbacks takes a packet; the other two outcomes are the program's exceptions. */
  function OutcomeOf(cfg: Config, p: Proc, k: Packet): Outcome {
    match k.messageType
    case MutexRequest => if k.message in cfg.mutexes then Handled else NoCallback
    case MutexAgreement =>
      if (p.main.Requesting? || p.main.Subscribed?) && p.main.name == k.message then
        if k.message in p.queued then Handled else UnexpectedAgreement
      else NoCallback
    case CondWait => if k.message in cfg.guard then Handled else NoCallback
    case CondWaitEnd => if k.message in cfg.guard then Handled else NoCallback
    case CondWaitEndConfirm => if p.wait.Ending? && p.wait.cond == k.message then Handled else NoCallback
    case CondNotify => if !p.wait.NoWait? && p.wait.cond == k.message then Handled else NoCallback
    case Sync =>
      var name := ExtractName(k.message);
      if name.Some? && name.value in cfg.monitors && ExtractData(k.message).Some? then Handled else NoCallback
  }

  /** releaseMutex holds the locks that requests and agreements need. */
  predicate Blocked(p: Proc, k: Packet) {
    p.main.Releasing? && (k.messageType.MutexRequest? || k.messageType.MutexAgreement?)
  }

  function Deliver(cfg: Config, p: Proc, k: Packet): (p': Proc)
    ensures p'.queued == p.queued && p'.held == p.held && p'.changed == p.changed
    ensures p'.net.id == p.net.id && p.net.clock <= p'.net.clock && |p'.net.out| == |p.net.out|
    ensures !k.messageType.MutexAgreement? ==> p'.main == p.main
    ensures p.main.Requesting? <==> p'.main.Requesting?
    ensures p.main.Requesting? ==> p'.main.name == p.main.name
    ensures !p.main.Requesting? ==> p'.main == p.main
    ensures !k.messageType.CondWaitEndConfirm? ==> p'.wait == p.wait
    ensures p.wait.Ending? <==> p'.wait.Ending?
    ensures if p.wait.Ending? then p'.wait.cond == p.wait.cond else p'.wait == p.wait
    ensures !k.messageType.CondWait? && !k.messageType.CondWaitEnd? ==> p'.waiters == p.waiters
    ensures forall c :: c != k.message ==> WaitersOf(p', c) == WaitersOf(p, c)
    ensures !k.messageType.MutexRequest? ==> p'.deferred == p.deferred
  {
    match k.messageType
    case MutexRequest => ProcessRequest(p, k)
    case MutexAgreement =>
      if p.main.Requesting? then p.(main := Requesting(p.main.name, Insert(p.main.agreements, k))) else p
    case CondWait => p.(waiters := p.waiters[k.message := InsertByTime(WaitersOf(p, k.message), k)])
    case CondWaitEnd =>
      p.(waiters := p.waiters - {k.message},
         net := Send(p.net, CondWaitEndConfirm, k.message, {k.source}))
    case CondWaitEndConfirm =>
      if p.wait.Ending? then p.(wait := Ending(p.wait.cond, Insert(p.wait.confirmations, k))) else p
    case CondNotify => p
    case Sync =>
      var name, data := ExtractName(k.message), ExtractData(k.message);
      if name.Some? && data.Some? then p.(replica := p.replica[name.value := data.value]) else p
  }

  // ---- Steps -----------------------------------------------------------------

  datatype Step =
    | Subscribe(m: Name)
    | Queue(m: Name)
    | Enter(m: Name)
    | BeginRelease(m: Name)
    | Grant(m: Name, to: ProcessId)
    | EndRelease(m: Name)
    | BeginWait(c: Name)
    | StopWait(c: Name)
    | FinishWait(c: Name)
    | NotifyOne(c: Name)
    | NotifyAll(c: Name)
    | Update(m: Name, state: Bytes)
    | SyncOut(m: Name)
    | Receive(from: ProcessId)
    | Dispatch

  datatype Label = Label(proc: ProcessId, step: Step)

  /** The main thread is between two statements of its own, not inside lock, unlock or wait. */
  predicate Running(p: Proc) {
    p.main.Free? && p.wait.NoWait?
  }

  /** The main thread is inside `wait` on a condition variable guarded by m, where it may unlock and lock m. */
  predicate WaitingUnder(cfg: Config, p: Proc, m: Name) {
    p.main.Free? && p.wait.Listening? && p.wait.cond in cfg.guard && cfg.guard[p.wait.cond] == m
  }

  ghost predicate LocalEnabled(cfg: Config, p: Proc, step: Step) {
    match step
    case Subscribe(m) => m in cfg.mutexes && m !in p.held && (Running(p) || WaitingUnder(cfg, p, m))
    case Queue(m) => p.main == Subscribed(m)
    case Enter(m) => p.main.Requesting? && p.main.name == m && |p.main.agreements| == cfg.n - 1
    case BeginRelease(m) =>
      && m in p.held
      && (p.main == Leaving(m) || WaitingUnder(cfg, p, m) || (Running(p) && m !in cfg.monitors))
    case Grant(m, to) => p.main == Releasing(m) && PacketKey(to, MutexRequest, m) in DeferredOf(p, m)
    case EndRelease(m) => p.main == Releasing(m) && DeferredOf(p, m) == map[]
    case BeginWait(c) => c in cfg.guard && Running(p) && cfg.guard[c] in p.held && cfg.guard[c] !in p.changed
    case StopWait(c) => c in cfg.guard && p.main.Free? && p.wait == Listening(c) && cfg.guard[c] in p.held
    case FinishWait(c) => p.wait.Ending? && p.wait.cond == c && |p.wait.confirmations| == cfg.n - 1
    case NotifyOne(c) => c in cfg.guard && Running(p) && cfg.guard[c] in p.held
    case NotifyAll(c) => c in cfg.guard && Running(p) && cfg.guard[c] in p.held
    case Update(m, state) =>
      m in cfg.monitors && Running(p) && m in p.held && 1 + |m| + |state| <= MAX_STRING
    case SyncOut(m) => m in cfg.monitors && Running(p) && m in p.held && m in p.replica
    case Receive(from) => false
    case Dispatch =>
      p.pending.Some? && !Blocked(p, p.pending.value) && OutcomeOf(cfg, p, p.pending.value) == Handled
  }

  ghost function NotifyOneNext(p: Proc, c: Name): Proc {
    var p' := p.(waiters := p.waiters[c := WaitersOf(p, c)]);
    if WaitersOf(p, c) == map[] then p'
    else p'.(net := Send(p.net, CondNotify, c, {WaitersOf(p, c)[Earliest(WaitersOf(p, c))].source}))
  }

  function NotifyAllNext(p: Proc, c: Name): Proc {
    if p.waiters == map[] then p
    else p.(waiters := p.waiters[c := WaitersOf(p, c)],
            net := Send(p.net, CondNotify, c, Sources(WaitersOf(p, c))))
  }

  ghost function LocalNext(cfg: Config, p: Proc, step: Step): Proc
    requires LocalEnabled(cfg, p, step)
  {
    match step
    case Subscribe(m) => p.(main := Subscribed(m))
    case Queue(m) => QueueFor(p, m)
    case Enter(m) => p.(main := Free, held := p.held + {m})
    case BeginRelease(m) => LeaveSection(p, m)
    case Grant(m, to) => GrantDeferred(p, m, to)
    case EndRelease(m) => FinishRelease(p, m)
    case BeginWait(c) => AnnounceWait(p, c)
    case StopWait(c) => AnnounceEnd(p, c)
    case FinishWait(c) => p.(wait := NoWait)
    case NotifyOne(c) => NotifyOneNext(p, c)
    case NotifyAll(c) => NotifyAllNext(p, c)
    case Update(m, state) => p.(replica := p.replica[m := state], changed := p.changed + {m})
    case SyncOut(m) => p.(main := Leaving(m), net := SendOthers(p.net, MessageType.Sync, PackSync(m, p.replica[m])))
    case Dispatch => Deliver(cfg, p, p.pending.value).(pending := None)
  }

  /** The receiver's and the sender's side of taking the head of a channel. */
  function Take(p: Proc, k: Packet): Proc {
    p.(pending := Some(k), net := p.net.(clock := Merge(p.net.clock, k.lamportTime)))
  }

  function DropHead(q: Proc, i: ProcessId): Proc
    requires i < |q.net.out| && q.net.out[i] != []
  {
    q.(net := q.net.(out := q.net.out[i := q.net.out[i][1..]]))
  }

  predicate CanReceive(s: State, i: ProcessId, from: ProcessId) {
    && i < |s| && from < |s| && from != i
    && s[i].pending.None?
    && i < |s[from].net.out| && s[from].net.out[i] != []
  }

  function ReceiveNext(s: State, i: ProcessId, from: ProcessId): (s': State)
    requires CanReceive(s, i, from)
    ensures |s'| == |s|
    ensures s'[i] == Take(s[i], s[from].net.out[i][0]) && s'[from] == DropHead(s[from], i)
    ensures forall k :: 0 <= k < |s| && k != i && k != from ==> s'[k] == s[k]
  {
    s[i := Take(s[i], s[from].net.out[i][0])][from := DropHead(s[from], i)]
  }

  ghost predicate Enabled(cfg: Config, s: State, l: Label) {
    && l.proc < |s|
    && if l.step.Receive? then CanReceive(s, l.proc, l.step.from) else LocalEnabled(cfg, s[l.proc], l.step)
  }

  ghost function Next(cfg: Config, s: State, l: Label): (s': State)
    requires Enabled(cfg, s, l)
    ensures |s'| == |s|
  {
    if l.step.Receive? then ReceiveNext(s, l.proc, l.step.from)
    else s[l.proc := LocalNext(cfg, s[l.proc], l.step)]
  }

  function InitProc(cfg: Config, i: ProcessId): Proc {
    Proc(Endpoint(i, 0, seq(cfg.n, _ => [])), None, map[], map[], {}, Free, map[], NoWait, cfg.initial, {})
  }

  function Init(cfg: Config): State {
    seq(cfg.n, i requires 0 <= i < cfg.n => InitProc(cfg, i))
  }

  /** The state a run ends in; None when some step of it was not enabled. */
  ghost function Exec(cfg: Config, run: seq<Label>): (end: Option<State>)
    ensures end.Some? ==> |end.value| == cfg.n
  {
    if run == [] then Some(Init(cfg))
    else
      var last := |run| - 1;
      match Exec(cfg, run[..last])
      case None => None
      case Some(s) => if Enabled(cfg, s, run[last]) then Some(Next(cfg, s, run[last])) else None
  }

  /** The last step of a run. */
  lemma ExecLast(cfg: Config, run: seq<Label>) returns (before: seq<Label>, s: State, l: Label)
    requires run != [] && Exec(cfg, run).Some?
    ensures before == run[..|run| - 1] && l == run[|run| - 1] && run == before + [l]
    ensures Exec(cfg, before) == Some(s) && Enabled(cfg, s, l) && Exec(cfg, run) == Some(Next(cfg, s, l))
  {
    before, l := run[..|run| - 1], run[|run| - 1];
    s := Exec(cfg, before).value;
  }
}
