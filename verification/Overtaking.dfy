/**
  The bound on overtaking is reached: a run of two processes in which the
  second enters a mutex twice while the first waits for it.

  Process 0 answers a request of process 1, and only then queues.  Before that
  it locks another mutex, which moves its clock on, so that even the next
  request of process 1 has the earlier stamp.
*/
module Overtaking {
  import opened Packets
  import opened Network
  import opened Protocol
  import opened MutexInvariant
  import opened MutexFairness

  /** The part of a process the run changes; `to` is its channel to the other. */
  datatype Side = Side(clock: LamportTime, to: seq<Packet>, queued: map<Name, LamportTime>,
                       deferred: map<Name, PacketSet>, held: set<Name>, main: Main)

  function Whole(cfg: Config, i: ProcessId, a: Side): Proc {
    Proc(Endpoint(i, a.clock, if i == 0 then [[], a.to] else [a.to, []]), None, a.queued, a.deferred, a.held, a.main,
         map[], NoWait, cfg.initial, {})
  }

  predicate Setup(cfg: Config, m: Name) {
    cfg.n == 2 && m in cfg.mutexes && m !in cfg.monitors
  }

  // ---- One process ------------------------------------------------------------------------

  function Asked(i: ProcessId, a: Side, m: Name): Side {
    a.(clock := a.clock + 1, to := a.to + [Packet(a.clock + 1, i, MutexRequest, m)],
       queued := a.queued[m := a.clock + 1], main := Requesting(m, map[]))
  }

  function Entered(a: Side, m: Name): Side {
    a.(held := a.held + {m}, main := Free)
  }

  function Left(a: Side, m: Name): Side {
    a.(held := a.held - {m}, queued := a.queued - {m}, deferred := a.deferred[m := map[]])
  }

  function Granted(i: ProcessId, a: Side, k: Packet): Side {
    var c := Merge(a.clock, k.lamportTime);
    a.(clock := c + 1, to := a.to + [Packet(c + 1, i, MutexAgreement, k.message)])
  }

  function Postponed(a: Side, k: Packet): Side {
    a.(clock := Merge(a.clock, k.lamportTime), deferred := a.deferred[k.message := map[k.Key() := k.lamportTime]])
  }

  function Agreed(a: Side, k: Packet): Side
    requires a.main.Requesting?
  {
    a.(clock := Merge(a.clock, k.lamportTime), main := Requesting(a.main.name, Insert(a.main.agreements, k)))
  }

  lemma SendTo(cfg: Config, i: ProcessId, a: Side, t: MessageType, x: Bytes, to: set<ProcessId>)
    requires i < 2 && to == {1 - i}
    ensures Send(Whole(cfg, i, a).net, t, x, to)
            == Whole(cfg, i, a.(clock := a.clock + 1, to := a.to + [Packet(a.clock + 1, i, t, x)])).net
  {
    var e := Send(Whole(cfg, i, a).net, t, x, to);
    assert e.out == if i == 0 then [[], a.to + [Packet(a.clock + 1, i, t, x)]]
                    else [a.to + [Packet(a.clock + 1, i, t, x)], []];
  }

  lemma AskNext(cfg: Config, i: ProcessId, a: Side, m: Name)
    requires cfg.n == 2 && m in cfg.mutexes && i < 2 && a.main == Free && m !in a.held
    ensures var p := Whole(cfg, i, a);
            && LocalEnabled(cfg, p, Subscribe(m)) && LocalEnabled(cfg, LocalNext(cfg, p, Subscribe(m)), Queue(m))
            && LocalNext(cfg, LocalNext(cfg, p, Subscribe(m)), Queue(m)) == Whole(cfg, i, Asked(i, a, m))
  {
    assert Others(2, i) == {1 - i};
    SendTo(cfg, i, a, MutexRequest, m, {1 - i});
  }

  lemma EnterNext(cfg: Config, i: ProcessId, a: Side, m: Name)
    requires cfg.n == 2 && a.main.Requesting? && a.main.name == m && |a.main.agreements| == 1
    ensures LocalEnabled(cfg, Whole(cfg, i, a), Enter(m))
    ensures LocalNext(cfg, Whole(cfg, i, a), Enter(m)) == Whole(cfg, i, Entered(a, m))
  {
  }

  lemma LeaveNext(cfg: Config, i: ProcessId, a: Side, m: Name)
    requires Setup(cfg, m) && a.main == Free && m in a.held && (m in a.deferred ==> a.deferred[m] == map[])
    ensures var p := Whole(cfg, i, a);
            && LocalEnabled(cfg, p, BeginRelease(m))
            && LocalEnabled(cfg, LocalNext(cfg, p, BeginRelease(m)), EndRelease(m))
            && LocalNext(cfg, LocalNext(cfg, p, BeginRelease(m)), EndRelease(m)) == Whole(cfg, i, Left(a, m))
  {
    assert {} - {m} == {};
  }

  function Taken(cfg: Config, i: ProcessId, a: Side, k: Packet): Proc {
    Take(Whole(cfg, i, a), k)
  }

  lemma GrantNext(cfg: Config, i: ProcessId, a: Side, k: Packet)
    requires i < 2 && k.messageType.MutexRequest? && k.message in cfg.mutexes && k.source == 1 - i && !a.main.Releasing?
    requires k.message in a.queued ==> k.lamportTime < a.queued[k.message]
    ensures LocalEnabled(cfg, Taken(cfg, i, a, k), Dispatch)
    ensures LocalNext(cfg, Taken(cfg, i, a, k), Dispatch) == Whole(cfg, i, Granted(i, a, k))
  {
    var a' := a.(clock := Merge(a.clock, k.lamportTime));
    SendTo(cfg, i, a', MutexAgreement, k.message, {k.source});
  }

  lemma PostponeNext(cfg: Config, i: ProcessId, a: Side, k: Packet)
    requires i < 2 && k.messageType.MutexRequest? && k.message in cfg.mutexes && k.source == 1 - i && !a.main.Releasing?
    requires k.message in a.queued && k.lamportTime > a.queued[k.message]
    requires k.message in a.deferred ==> a.deferred[k.message] == map[]
    ensures LocalEnabled(cfg, Taken(cfg, i, a, k), Dispatch)
    ensures LocalNext(cfg, Taken(cfg, i, a, k), Dispatch) == Whole(cfg, i, Postponed(a, k))
  {
    assert Insert(map[], k) == map[k.Key() := k.lamportTime];
  }

  lemma AgreeNext(cfg: Config, i: ProcessId, a: Side, k: Packet)
    requires k.messageType.MutexAgreement? && a.main.Requesting? && a.main.name == k.message && k.message in a.queued
    ensures LocalEnabled(cfg, Taken(cfg, i, a, k), Dispatch)
    ensures LocalNext(cfg, Taken(cfg, i, a, k), Dispatch) == Whole(cfg, i, Agreed(a, k))
  {
  }

  // ---- Runs -------------------------------------------------------------------------------

  /** From position `at`, where process 0 queues for m, process 1 has entered m so often. */
  datatype Tally = NotYet | Since(at: nat, count: nat)

  ghost predicate Tallied(run: seq<Label>, m: Name, t: Tally) {
    t.Since? ==>
      && t.at < |run| && run[t.at] == Label(0, Queue(m)) && EntriesBy(run, t.at, 1, m) == t.count
      && forall b :: t.at < b < |run| ==> run[b] != Label(0, Enter(m))
  }

  function TallyAfter(m: Name, n: nat, l: Label, t: Tally): Tally {
    if l == Label(0, Queue(m)) then Since(n, 0)
    else if t.Since? && l == Label(1, Enter(m)) then Since(t.at, t.count + 1)
    else t
  }

  /** A run and its tally. */
  datatype Point = Point(run: seq<Label>, tally: Tally)

  function Both(cfg: Config, i: ProcessId, a: Side, b: Side): State {
    if i == 0 then [Whole(cfg, 0, a), Whole(cfg, 1, b)] else [Whole(cfg, 0, b), Whole(cfg, 1, a)]
  }

  ghost predicate At(cfg: Config, m: Name, pt: Point, s: State) {
    Exec(cfg, pt.run) == Some(s) && |s| == 2 && Tallied(pt.run, m, pt.tally)
  }

  lemma Extend(cfg: Config, m: Name, pt: Point, s: State, l: Label) returns (pt': Point)
    requires At(cfg, m, pt, s) && Enabled(cfg, s, l) && (pt.tally.Since? ==> l != Label(0, Enter(m)))
    ensures At(cfg, m, pt', Next(cfg, s, l)) && pt'.tally == TallyAfter(m, |pt.run|, l, pt.tally)
  {
    var run := pt.run + [l];
    assert run[..|run| - 1] == pt.run;
    pt' := Point(run, TallyAfter(m, |pt.run|, l, pt.tally));
    assert Exec(cfg, run) == Some(Next(cfg, s, l));
  }

  lemma Own(cfg: Config, m: Name, pt: Point, s: State, i: ProcessId, p: Proc, step: Step) returns (pt': Point)
    requires i < |s| && At(cfg, m, pt, s[i := p]) && LocalEnabled(cfg, p, step)
    requires pt.tally.Since? ==> Label(i, step) != Label(0, Enter(m))
    ensures At(cfg, m, pt', s[i := LocalNext(cfg, p, step)])
    ensures pt'.tally == TallyAfter(m, |pt.run|, Label(i, step), pt.tally)
  {
    pt' := Extend(cfg, m, pt, s[i := p], Label(i, step));
    assert s[i := p][i := LocalNext(cfg, p, step)] == s[i := LocalNext(cfg, p, step)];
  }

  lemma Ask(cfg: Config, m: Name, pt: Point, i: ProcessId, a: Side, b: Side, x: Name) returns (pt': Point)
    requires cfg.n == 2 && x in cfg.mutexes && i < 2 && a.main == Free && x !in a.held
    requires At(cfg, m, pt, Both(cfg, i, a, b))
    ensures At(cfg, m, pt', Both(cfg, i, Asked(i, a, x), b))
    ensures if i == 0 && x == m then pt'.tally.Since? && pt'.tally.count == 0 else pt'.tally == pt.tally
  {
    AskNext(cfg, i, a, x);
    var s, p := Both(cfg, i, a, b), Whole(cfg, i, a);
    assert s[i := p] == s;
    pt' := Own(cfg, m, pt, s, i, p, Subscribe(x));
    pt' := Own(cfg, m, pt', s, i, LocalNext(cfg, p, Subscribe(x)), Queue(x));
    assert s[i := Whole(cfg, i, Asked(i, a, x))] == Both(cfg, i, Asked(i, a, x), b);
  }

  lemma Get(cfg: Config, m: Name, pt: Point, i: ProcessId, a: Side, b: Side, x: Name) returns (pt': Point)
    requires cfg.n == 2 && i < 2 && a.main.Requesting? && a.main.name == x && |a.main.agreements| == 1
    requires At(cfg, m, pt, Both(cfg, i, a, b)) && (pt.tally.Since? ==> i == 1)
    ensures At(cfg, m, pt', Both(cfg, i, Entered(a, x), b))
    ensures pt'.tally == if pt.tally.Since? && x == m then Since(pt.tally.at, pt.tally.count + 1) else pt.tally
  {
    EnterNext(cfg, i, a, x);
    var s := Both(cfg, i, a, b);
    assert s[i := Whole(cfg, i, a)] == s;
    pt' := Own(cfg, m, pt, s, i, Whole(cfg, i, a), Enter(x));
    assert s[i := Whole(cfg, i, Entered(a, x))] == Both(cfg, i, Entered(a, x), b);
  }

  lemma Leave(cfg: Config, m: Name, pt: Point, i: ProcessId, a: Side, b: Side) returns (pt': Point)
    requires Setup(cfg, m) && i < 2 && a.main == Free && m in a.held && (m in a.deferred ==> a.deferred[m] == map[])
    requires At(cfg, m, pt, Both(cfg, i, a, b))
    ensures At(cfg, m, pt', Both(cfg, i, Left(a, m), b)) && pt'.tally == pt.tally
  {
    LeaveNext(cfg, i, a, m);
    var s, p := Both(cfg, i, a, b), Whole(cfg, i, a);
    assert s[i := p] == s;
    pt' := Own(cfg, m, pt, s, i, p, BeginRelease(m));
    pt' := Own(cfg, m, pt', s, i, LocalNext(cfg, p, BeginRelease(m)), EndRelease(m));
    assert s[i := Whole(cfg, i, Left(a, m))] == Both(cfg, i, Left(a, m), b);
  }

  /** i takes the head of the other's channel and dispatches it. */
  lemma Fetch(cfg: Config, m: Name, pt: Point, i: ProcessId, a: Side, b: Side, a': Side) returns (pt': Point)
    requires i < 2 && b.to != [] && At(cfg, m, pt, Both(cfg, i, a, b))
    requires LocalEnabled(cfg, Taken(cfg, i, a, b.to[0]), Dispatch)
    requires LocalNext(cfg, Taken(cfg, i, a, b.to[0]), Dispatch) == Whole(cfg, i, a')
    ensures At(cfg, m, pt', Both(cfg, i, a', b.(to := b.to[1..]))) && pt'.tally == pt.tally
  {
    var s, p := Both(cfg, i, a, b), Taken(cfg, i, a, b.to[0]);
    var j: ProcessId := 1 - i;
    var s' := s[j := Whole(cfg, j, b.(to := b.to[1..]))];
    assert DropHead(Whole(cfg, j, b), i) == Whole(cfg, j, b.(to := b.to[1..])) by {
      assert Whole(cfg, j, b).net.out[i := b.to[1..]] == Whole(cfg, j, b.(to := b.to[1..])).net.out;
    }
    pt' := Extend(cfg, m, pt, s, Label(i, Receive(j)));
    assert ReceiveNext(s, i, j) == s'[i := p];
    pt' := Own(cfg, m, pt', s', i, p, Dispatch);
    assert s'[i := Whole(cfg, i, a')] == Both(cfg, i, a', b.(to := b.to[1..]));
  }

  // ---- The run ------------------------------------------------------------------------------

  const FRESH := Side(0, [], map[], map[], {}, Free)

  lemma Start(cfg: Config, m: Name) returns (pt: Point)
    requires cfg.n == 2
    ensures At(cfg, m, pt, Both(cfg, 0, FRESH, FRESH)) && pt.tally.NotYet?
  {
    pt := Point([], NotYet);
    forall i: ProcessId | i < 2 ensures Init(cfg)[i] == Whole(cfg, i, FRESH) {
      assert Init(cfg)[i] == InitProc(cfg, i);
      assert InitProc(cfg, i).net.out == [[], []];
    }
    assert Init(cfg) == Both(cfg, 0, FRESH, FRESH);
  }

  function Request(t: LamportTime, i: ProcessId, m: Name): Packet { Packet(t, i, MutexRequest, m) }
  function Agreement(t: LamportTime, i: ProcessId, m: Name): Packet { Packet(t, i, MutexAgreement, m) }

  /** Process 1 asks for m and process 0 agrees, then asks for x. */
  lemma Early(cfg: Config, m: Name, x: Name) returns (pt: Point, a: Side, b: Side)
    requires Setup(cfg, m) && x in cfg.mutexes && x != m
    ensures At(cfg, m, pt, Both(cfg, 0, a, b)) && pt.tally.NotYet?
    ensures a == Side(4, [Agreement(3, 0, m), Request(4, 0, x)], map[x := 4], map[], {}, Requesting(x, map[]))
    ensures b == Side(1, [], map[m := 1], map[], {}, Requesting(m, map[]))
  {
    pt := Start(cfg, m);
    b := Asked(1, FRESH, m);
    pt := Ask(cfg, m, pt, 1, FRESH, FRESH, m);
    GrantNext(cfg, 0, FRESH, b.to[0]);
    a := Granted(0, FRESH, b.to[0]);
    pt := Fetch(cfg, m, pt, 0, FRESH, b, a);
    b := b.(to := b.to[1..]);
    pt := Ask(cfg, m, pt, 0, a, b, x);
    a := Asked(0, a, x);
    assert map[][x := 4] == map[x := 4] && map[][m := 1] == map[m := 1];
  }

  /** Process 1 has its agreement on m, and agrees on x, which process 0 enters. */
  lemma Prepared(cfg: Config, m: Name, x: Name) returns (pt: Point, a: Side, b: Side)
    requires Setup(cfg, m) && x in cfg.mutexes && x != m
    ensures At(cfg, m, pt, Both(cfg, 0, a, b)) && pt.tally.NotYet?
    ensures a == Side(7, [], map[x := 4], map[], {x}, Free)
    ensures b == Side(6, [], map[m := 1], map[], {}, Requesting(m, map[AgreementKey(0, m) := 3]))
  {
    pt, a, b := Early(cfg, m, x);
    AgreeNext(cfg, 1, b, a.to[0]);
    pt := Fetch(cfg, m, pt, 1, b, a, Agreed(b, a.to[0]));
    b, a := Agreed(b, a.to[0]), a.(to := a.to[1..]);
    assert a.to == [Request(4, 0, x)];
    GrantNext(cfg, 1, b, a.to[0]);
    pt := Fetch(cfg, m, pt, 1, b, a, Granted(1, b, a.to[0]));
    b, a := Granted(1, b, a.to[0]), a.(to := a.to[1..]);
    assert b.to == [Agreement(6, 1, x)];
    AgreeNext(cfg, 0, a, b.to[0]);
    pt := Fetch(cfg, m, pt, 0, a, b, Agreed(a, b.to[0]));
    a, b := Agreed(a, b.to[0]), b.(to := b.to[1..]);
    pt := Get(cfg, m, pt, 0, a, b, x);
    a := Entered(a, x);
  }

  /** Process 0 queues for m; process 1 enters on the early agreement, leaves and asks again. */
  lemma FirstEntry(cfg: Config, m: Name, x: Name) returns (pt: Point, a: Side, b: Side)
    requires Setup(cfg, m) && x in cfg.mutexes && x != m
    ensures At(cfg, m, pt, Both(cfg, 0, a, b)) && pt.tally.Since? && pt.tally.count == 1
    ensures a == Side(8, [Request(8, 0, m)], map[x := 4, m := 8], map[], {x}, Requesting(m, map[]))
    ensures b == Side(7, [Request(7, 1, m)], map[m := 7], map[m := map[]], {}, Requesting(m, map[]))
  {
    pt, a, b := Prepared(cfg, m, x);
    pt := Ask(cfg, m, pt, 0, a, b, m);
    a := Asked(0, a, m);
    pt := Get(cfg, m, pt, 1, b, a, m);
    b := Entered(b, m);
    pt := Leave(cfg, m, pt, 1, b, a);
    b := Left(b, m);
    pt := Ask(cfg, m, pt, 1, b, a, m);
    b := Asked(1, b, m);
  }

  /** Two overtakings: process 0 has queued for m and not entered since, and process 1 has entered twice. */
  lemma BoundReached(cfg: Config, m: Name, x: Name) returns (run: seq<Label>, at: nat)
    requires cfg.n == 2 && m in cfg.mutexes && m !in cfg.monitors && x in cfg.mutexes && x != m
    ensures Exec(cfg, run).Some? && at < |run| && run[at] == Label(0, Queue(m))
    ensures forall b :: at < b < |run| ==> run[b] != Label(0, Enter(m))
    ensures EntriesBy(run, at, 1, m) == 2
  {
    var pt, a, b := FirstEntry(cfg, m, x);
    GrantNext(cfg, 0, a, b.to[0]);
    pt := Fetch(cfg, m, pt, 0, a, b, Granted(0, a, b.to[0]));
    a, b := Granted(0, a, b.to[0]), b.(to := b.to[1..]);
    assert a.to == [Request(8, 0, m), Agreement(10, 0, m)];
    PostponeNext(cfg, 1, b, a.to[0]);
    pt := Fetch(cfg, m, pt, 1, b, a, Postponed(b, a.to[0]));
    b, a := Postponed(b, a.to[0]), a.(to := a.to[1..]);
    AgreeNext(cfg, 1, b, a.to[0]);
    pt := Fetch(cfg, m, pt, 1, b, a, Agreed(b, a.to[0]));
    b, a := Agreed(b, a.to[0]), a.(to := a.to[1..]);
    pt := Get(cfg, m, pt, 1, b, a, m);
    run, at := pt.run, pt.tally.at;
  }
}
