/**
  Bounded overtaking: from the moment a process queues until it enters, every
  other process enters at most twice.

  While i's request has not reached j, j can only use an agreement that i sent
  before it queued, and there is at most one of those.  Once the request has
  reached j, j's clock is past the request's time, so only a request j made
  before that can still come first.
*/
module MutexFairness {
  import opened Packets
  import opened Network
  import opened Protocol
  import opened MutexInvariant
  import opened MutexTheorems

  /** How often j enters m in a run, after position a. */
  ghost function EntriesBy(run: seq<Label>, a: nat, j: ProcessId, m: Name): nat {
    if |run| <= a + 1 then 0
    else EntriesBy(run[..|run| - 1], a, j, m) + (if run[|run| - 1] == Label(j, Enter(m)) then 1 else 0)
  }

  /** An agreement under way to j that i sent before its own request of time t. */
  ghost predicate EarlyFlight(m: Name, pi: Proc, j: ProcessId, t: LamportTime) {
    j < |pi.net.out| &&
    exists k :: 0 <= k < |pi.net.out[j]| && pi.net.out[j][k].Is(MutexAgreement, m) && pi.net.out[j][k].lamportTime < t
  }

  ghost predicate HasAgreement(p: Proc, i: ProcessId, m: Name) {
    Waiting(p, m) && AgreementKey(i, m) in p.main.agreements
  }

  ghost function EarlyBit(m: Name, i: ProcessId, pi: Proc, j: ProcessId, pj: Proc, t: LamportTime): nat {
    if EarlyFlight(m, pi, j, t) || Pending(pj, i, MutexAgreement, m) == 1 || HasAgreement(pj, i, m) then 1 else 0
  }

  ghost function AheadBit(m: Name, i: ProcessId, j: ProcessId, pj: Proc, t: LamportTime): nat {
    if Waiting(pj, m) && m in pj.queued && Before(pj.queued[m], j, t, i) then 1 else 0
  }

  /** What is left of j's chances to overtake i, which waits with time t. */
  ghost predicate Budget(m: Name, i: ProcessId, pi: Proc, j: ProcessId, pj: Proc, t: LamportTime, count: nat) {
    && Waiting(pi, m) && m in pi.queued && pi.queued[m] == t
    && (if Flight(pi, j, MutexRequest, m) >= 1
        then count + EarlyBit(m, i, pi, j, pj, t) <= 1
        else count + AheadBit(m, i, j, pj, t) <= 2)
  }

  ghost predicate Pair(n: nat, m: Name, i: ProcessId, pi: Proc, j: ProcessId, pj: Proc) {
    && i != j && Solo(n, m, i, pi) && Solo(n, m, j, pj)
    && Link(m, i, pi, j, pj) && Link(m, j, pj, i, pi)
  }

  lemma InvPair(cfg: Config, m: Name, s: State, i: ProcessId, j: ProcessId)
    requires Inv(cfg, m, s) && i < |s| && j < |s| && i != j
    ensures Pair(cfg.n, m, i, s[i], j, s[j])
  {
  }

  /** Queueing gives j a budget of two. */
  lemma BudgetStarts(n: nat, m: Name, i: ProcessId, pi: Proc, j: ProcessId, pj: Proc)
    requires Pair(n, m, i, pi, j, pj) && pi.main == Subscribed(m)
    ensures Budget(m, i, QueueFor(pi, m), j, pj, pi.net.clock + 1, 0)
  {
    SendCount(pi.net, MutexRequest, m, Others(n, i), j, MutexRequest, m);
    assert j in Others(n, i);
  }

  /** A step of i's own that is not its entry. */
  lemma BudgetOwnStep(cfg: Config, m: Name, i: ProcessId, pi: Proc, step: Step, j: ProcessId, pj: Proc,
                      t: LamportTime, count: nat)
    requires Pair(cfg.n, m, i, pi, j, pj) && Budget(m, i, pi, j, pj, t, count)
    requires LocalEnabled(cfg, pi, step) && step != Enter(m)
    ensures Budget(m, i, LocalNext(cfg, pi, step), j, pj, t, count)
  {
    var pi' := LocalNext(cfg, pi, step);
    LocalFramed(cfg, m, i, pi, step);
    SentByIsSent(cfg, pi, step);
    match SentBy(cfg, pi, step)
    case Silent =>
    case Sends(u, x, to) =>
      SendCount(pi.net, u, x, to, j, MutexRequest, m);
      assert u == MutexRequest ==> x != m;
      assert EarlyFlight(m, pi', j, t) ==> EarlyFlight(m, pi, j, t);
  }

  /** j queues, or enters: it has no agreement left over from before. */
  lemma BudgetRestarts(n: nat, m: Name, i: ProcessId, pi: Proc, j: ProcessId, pj': Proc, t: LamportTime)
    requires Pair(n, m, i, pi, j, pj')
    requires Inside(pj', m) || (Waiting(pj', m) && pj'.main.agreements == map[] && Flight(pj', i, MutexRequest, m) == 1)
    ensures EarlyBit(m, i, pi, j, pj', t) == 0
  {
    assert Flight(pi, j, MutexAgreement, m) == 0 && Pending(pj', i, MutexAgreement, m) == 0;
    NoneInFlight(pi.net.out[j], MutexAgreement, m);
  }

  lemma BudgetQueue(cfg: Config, m: Name, i: ProcessId, pi: Proc, j: ProcessId, pj: Proc, t: LamportTime, count: nat)
    requires Pair(cfg.n, m, i, pi, j, pj) && Budget(m, i, pi, j, pj, t, count)
    requires pj.main == Subscribed(m) && Pair(cfg.n, m, i, pi, j, QueueFor(pj, m))
    ensures Budget(m, i, pi, j, QueueFor(pj, m), t, count)
  {
    var pj' := QueueFor(pj, m);
    SendCount(pj.net, MutexRequest, m, Others(cfg.n, j), i, MutexRequest, m);
    assert i in Others(cfg.n, j);
    BudgetRestarts(cfg.n, m, i, pi, j, pj', t);
    assert Flight(pi, j, MutexRequest, m) == 0 ==> pj.net.clock >= t;
  }

  lemma BudgetEnter(cfg: Config, m: Name, i: ProcessId, pi: Proc, j: ProcessId, pj: Proc, t: LamportTime, count: nat)
    requires Pair(cfg.n, m, i, pi, j, pj) && Budget(m, i, pi, j, pj, t, count)
    requires LocalEnabled(cfg, pj, Enter(m)) && Pair(cfg.n, m, i, pi, j, LocalNext(cfg, pj, Enter(m)))
    ensures Budget(m, i, pi, j, LocalNext(cfg, pj, Enter(m)), t, count + 1)
  {
    AllReceived(cfg.n, m, j, pj.main.agreements);
    assert i in Others(cfg.n, j);
    assert HasAgreement(pj, i, m);
    BudgetRestarts(cfg.n, m, i, pi, j, LocalNext(cfg, pj, Enter(m)), t);
  }

  lemma BudgetOtherKept(cfg: Config, m: Name, i: ProcessId, pi: Proc, step: Step, j: ProcessId, pj: Proc,
                        t: LamportTime, count: nat)
    requires Pair(cfg.n, m, i, pi, j, pj) && Budget(m, i, pi, j, pj, t, count)
    requires LocalEnabled(cfg, pj, step) && step != Enter(m) && step != Queue(m)
    ensures Budget(m, i, pi, j, LocalNext(cfg, pj, step), t, count)
  {
    LocalFramed(cfg, m, j, pj, step);
    SentByIsSent(cfg, pj, step);
    HasAgreementComesFromPending(cfg, m, i, j, pj, step);
  }

  /** A step of j's own; entering spends one. */
  lemma BudgetOtherStep(cfg: Config, m: Name, i: ProcessId, pi: Proc, step: Step, j: ProcessId, pj: Proc,
                        t: LamportTime, count: nat)
    requires Pair(cfg.n, m, i, pi, j, pj) && Budget(m, i, pi, j, pj, t, count)
    requires LocalEnabled(cfg, pj, step)
    requires Pair(cfg.n, m, i, pi, j, LocalNext(cfg, pj, step))
    ensures Budget(m, i, pi, j, LocalNext(cfg, pj, step), t, count + if step == Enter(m) then 1 else 0)
  {
    if step == Enter(m) {
      BudgetEnter(cfg, m, i, pi, j, pj, t, count);
    } else if step == Queue(m) {
      BudgetQueue(cfg, m, i, pi, j, pj, t, count);
    } else {
      BudgetOtherKept(cfg, m, i, pi, step, j, pj, t, count);
    }
  }

  lemma HasAgreementComesFromPending(cfg: Config, m: Name, i: ProcessId, j: ProcessId, pj: Proc, step: Step)
    requires LocalEnabled(cfg, pj, step) && step != Queue(m) && Solo(cfg.n, m, j, pj)
    ensures HasAgreement(LocalNext(cfg, pj, step), i, m) ==>
              HasAgreement(pj, i, m) || Pending(pj, i, MutexAgreement, m) == 1
  {
    LocalFramed(cfg, m, j, pj, step);
    if step.Dispatch? {
      assert pj.main.Requesting? && pj.pending.value.messageType.MutexAgreement? ==>
          pj.pending.value.message == pj.main.name;
    } else if Waiting(pj, m) && step != Enter(m) {
      assert LocalNext(cfg, pj, step).main == pj.main;
    }
  }

  /** j takes the head of the channel from i: an agreement in front of the request is an early one. */
  lemma BudgetTake(n: nat, m: Name, i: ProcessId, pi: Proc, j: ProcessId, pj: Proc, t: LamportTime, count: nat)
    requires Pair(n, m, i, pi, j, pj) && Budget(m, i, pi, j, pj, t, count)
    requires CanTake(n, j, pj, i, pi)
    ensures Budget(m, i, DropHead(pi, j), j, Take(pj, pi.net.out[j][0]), t, count)
  {
    var ch := pi.net.out[j];
    var pi', pj' := DropHead(pi, j), Take(pj, ch[0]);
    DropHeadCount(ch, MutexRequest, m);
    assert pi'.net.out[j] == ch[1..];
    assert EarlyFlight(m, pi', j, t) ==> EarlyFlight(m, pi, j, t) by {
      if EarlyFlight(m, pi', j, t) {
        var k :| 0 <= k < |ch[1..]| && ch[1..][k].Is(MutexAgreement, m) && ch[1..][k].lamportTime < t;
        assert ch[k + 1].Is(MutexAgreement, m);
      }
    }
    if Flight(pi', j, MutexRequest, m) >= 1 {
      if Pending(pj', i, MutexAgreement, m) == 1 {
        var k := CountWitness(ch[1..], MutexRequest, m);
        assert ch[k + 1] == ch[1..][k] && ch[k + 1].lamportTime == t;
        assert ch[0].Is(MutexAgreement, m) && ch[0].lamportTime < t;
        assert EarlyFlight(m, pi, j, t);
      }
      assert HasAgreement(pj', i, m) == HasAgreement(pj, i, m);
      assert EarlyBit(m, i, pi', j, pj', t) <= EarlyBit(m, i, pi, j, pj, t);
    } else {
      assert AheadBit(m, i, j, pj', t) <= 1;
      assert AheadBit(m, i, j, pj', t) == AheadBit(m, i, j, pj, t);
    }
  }

  /** The other ways of taking a packet change nothing that counts. */
  lemma BudgetOtherTake(n: nat, m: Name, i: ProcessId, pi: Proc, pi': Proc, j: ProcessId, pj: Proc, pj': Proc,
                        t: LamportTime, count: nat)
    requires Pair(n, m, i, pi, j, pj) && Budget(m, i, pi, j, pj, t, count)
    requires SameCoreExceptClock(pi, pi') && SameCoreExceptClock(pj, pj')
    requires pi'.net.out[j] == pi.net.out[j]
    requires Pending(pj', i, MutexAgreement, m) == Pending(pj, i, MutexAgreement, m)
    ensures Budget(m, i, pi', j, pj', t, count)
  {
  }

  lemma BudgetReceive(cfg: Config, m: Name, s: State, a: ProcessId, b: ProcessId, i: ProcessId, j: ProcessId,
                      t: LamportTime, count: nat)
    requires Inv(cfg, m, s) && CanReceive(s, a, b) && i < |s| && j < |s| && i != j
    requires Budget(m, i, s[i], j, s[j], t, count)
    ensures Budget(m, i, ReceiveNext(s, a, b)[i], j, ReceiveNext(s, a, b)[j], t, count)
  {
    InvPair(cfg, m, s, i, j);
    var s' := ReceiveNext(s, a, b);
    assert Solo(cfg.n, m, a, s[a]) && Solo(cfg.n, m, b, s[b]);
    if a == j && b == i {
      BudgetTake(cfg.n, m, i, s[i], j, s[j], t, count);
    } else {
      ReceiveElsewhere(cfg.n, s, a, b, j, i);
      BudgetOtherTake(cfg.n, m, i, s[i], s'[i], j, s[j], s'[j], t, count);
    }
  }

  lemma BudgetStep(cfg: Config, m: Name, s: State, l: Label, i: ProcessId, j: ProcessId, t: LamportTime, count: nat)
    requires Inv(cfg, m, s) && Enabled(cfg, s, l) && i < |s| && j < |s| && i != j
    requires Budget(m, i, s[i], j, s[j], t, count) && l != Label(i, Enter(m))
    ensures Budget(m, i, Next(cfg, s, l)[i], j, Next(cfg, s, l)[j], t, count + if l == Label(j, Enter(m)) then 1 else 0)
  {
    InvPair(cfg, m, s, i, j);
    if l.step.Receive? {
      BudgetReceive(cfg, m, s, l.proc, l.step.from, i, j, t, count);
    } else if l.proc == i {
      BudgetOwnStep(cfg, m, i, s[i], l.step, j, s[j], t, count);
    } else if l.proc == j {
      NextInv(cfg, m, s, l);
      InvPair(cfg, m, Next(cfg, s, l), i, j);
      BudgetOtherStep(cfg, m, i, s[i], l.step, j, s[j], t, count);
    }
  }

  lemma {:induction false} BudgetKept(cfg: Config, m: Name, run: seq<Label>, a: nat, i: ProcessId, j: ProcessId)
    returns (t: LamportTime)
    requires Exec(cfg, run).Some? && i < cfg.n && j < cfg.n && i != j
    requires a < |run| && run[a] == Label(i, Queue(m))
    requires forall b :: a < b < |run| ==> run[b] != Label(i, Enter(m))
    ensures var s := Exec(cfg, run).value;
            Budget(m, i, s[i], j, s[j], t, EntriesBy(run, a, j, m))
  {
    var before, s, l := ExecLast(cfg, run);
    RunInv(cfg, m, before);
    if a == |run| - 1 {
      InvPair(cfg, m, s, i, j);
      BudgetStarts(cfg.n, m, i, s[i], j, s[j]);
      t := s[i].net.clock + 1;
    } else {
      assert before[a] == run[a];
      assert forall b :: a < b < |before| ==> before[b] == run[b];
      t := BudgetKept(cfg, m, before, a, i, j);
      BudgetStep(cfg, m, s, l, i, j, t, EntriesBy(before, a, j, m));
    }
  }

  /** From a process's request until it enters, every other process enters at most twice. */
  lemma BoundedOvertaking(cfg: Config, m: Name, run: seq<Label>, a: nat, i: ProcessId, j: ProcessId)
    requires Exec(cfg, run).Some? && i < cfg.n && j < cfg.n && i != j
    requires a < |run| && run[a] == Label(i, Queue(m))
    requires forall b :: a < b < |run| ==> run[b] != Label(i, Enter(m))
    ensures EntriesBy(run, a, j, m) <= 2
  {
    var t := BudgetKept(cfg, m, run, a, i, j);
  }
}
