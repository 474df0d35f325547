/**
  End to end.  When the monitor state behaves as one sequential variable, that
  is, when whoever is inside the monitor has the state that was written last, by
  whichever process: always with two processes, and for any number exactly when
  holders are up to date with the broadcasts that have reached them.
*/
module EndToEnd {
  import opened Packets
  import opened Protocol
  import opened MutexInvariant
  import opened MutexTheorems
  import opened Flush
  import opened Replication
  import opened ReplicationTheorems

  // ---- One sequential variable -------------------------------------------------------------

  /** The state written last over a run, no matter by whom; at first the initial state. */
  ghost function Latest(cfg: Config, m: Name, run: seq<Label>): Bytes
    requires m in cfg.initial
  {
    if run == [] then cfg.initial[m]
    else
      var last := |run| - 1;
      LatestAfter(m, run[last].step, Latest(cfg, m, run[..last]))
  }

  function LatestAfter(m: Name, step: Step, latest: Bytes): Bytes {
    if step.Update? && step.m == m then step.state else latest
  }

  /** An unbroadcast change is the latest state; if there is none, the last broadcast is. */
  ghost predicate LatestInv(m: Name, s: State, w: Watch, latest: Bytes) {
    && (forall j :: 0 <= j < |s| && Unsaved(s[j], m) ==> m in s[j].replica && s[j].replica[m] == latest)
    && ((forall j :: 0 <= j < |s| ==> !Unsaved(s[j], m)) ==> w.last in w.saved && w.saved[w.last] == latest)
  }

  lemma UnsavedIsInside(cfg: Config, m: Name, s: State, w: Watch, exits: seq<LamportTime>, j: ProcessId)
    requires SyncInv(cfg, m, s, w, exits) && j < cfg.n
    ensures Unsaved(s[j], m) ==> Inside(s[j], m)
    ensures w.origin[j] in w.saved && m in s[j].replica
            && (!Unsaved(s[j], m) ==> s[j].replica[m] == w.saved[w.origin[j]])
  {
    assert SyncSolo(cfg, m, s[j], w.saved, w.last, w.sent[j], w.origin[j], w.seen[j], exits[j]);
  }

  lemma NotUnsavedOutside(cfg: Config, m: Name, s: State, w: Watch, exits: seq<LamportTime>, i: ProcessId)
    requires Sound(cfg, m, s, exits) && SyncInv(cfg, m, s, w, exits) && i < cfg.n && Inside(s[i], m)
    ensures forall j :: 0 <= j < |s| && j != i ==> !Unsaved(s[j], m)
  {
    forall j | 0 <= j < |s| && j != i ensures !Unsaved(s[j], m) {
      UnsavedIsInside(cfg, m, s, w, exits, j);
      PairExclusion(cfg, m, s, i, j);
    }
  }

  /** A holder with a change of its own has the latest state; without one it has the latest state exactly
      when it is up to date. */
  lemma HolderLatest(cfg: Config, m: Name, s: State, w: Watch, exits: seq<LamportTime>, latest: Bytes, i: ProcessId)
    requires Sound(cfg, m, s, exits) && SyncInv(cfg, m, s, w, exits) && LatestInv(m, s, w, latest)
    requires i < cfg.n && Inside(s[i], m)
    ensures m in s[i].replica
    ensures s[i].replica[m] == latest <==> Unsaved(s[i], m) || UpToDate(w, i)
  {
    UnsavedIsInside(cfg, m, s, w, exits, i);
    HolderHasSeenLast(cfg, m, s, w, exits, i);
    NotUnsavedOutside(cfg, m, s, w, exits, i);
  }

  /** A step that neither writes nor broadcasts leaves every unbroadcast change alone. */
  lemma UnsavedKept(cfg: Config, m: Name, p: Proc, step: Step)
    requires LocalEnabled(cfg, p, step) && m in cfg.monitors
    requires !(step.Update? && step.m == m) && step != SyncOut(m) && !DispatchesSync(p, step, m)
    requires !p.wait.NoWait? && p.wait.cond in cfg.guard && cfg.guard[p.wait.cond] == m ==> m !in p.changed
    requires m in p.replica
    ensures Unsaved(LocalNext(cfg, p, step), m) <==> Unsaved(p, m)
    ensures m in LocalNext(cfg, p, step).replica && LocalNext(cfg, p, step).replica[m] == p.replica[m]
  {
    LocalSyncFramed(cfg, m, p, step);
  }

  lemma LatestWritten(m: Name, s: State, w: Watch, a: ProcessId, latest: Bytes)
    requires a < |s| && Unsaved(s[a], m) && m in s[a].replica && s[a].replica[m] == latest
    requires forall j :: 0 <= j < |s| && j != a ==> !Unsaved(s[j], m)
    ensures LatestInv(m, s, w, latest)
  {
  }

  lemma UpdateNext(cfg: Config, m: Name, s: State, i: ProcessId, state: Bytes)
    requires i < |s| && LocalEnabled(cfg, s[i], Update(m, state))
    ensures var s' := Next(cfg, s, Label(i, Update(m, state)));
            && |s'| == |s| && Unsaved(s'[i], m) && m in s'[i].replica && s'[i].replica[m] == state
            && (forall j :: 0 <= j < |s| && j != i ==> s'[j] == s[j])
  {
  }

  lemma LatestUpdate(cfg: Config, m: Name, s: State, i: ProcessId, state: Bytes, w: Watch, w': Watch,
                     exits: seq<LamportTime>)
    requires Sound(cfg, m, s, exits) && SyncInv(cfg, m, s, w, exits)
    requires i < |s| && LocalEnabled(cfg, s[i], Update(m, state))
    ensures LatestInv(m, Next(cfg, s, Label(i, Update(m, state))), w', state)
  {
    NotUnsavedOutside(cfg, m, s, w, exits, i);
    UpdateNext(cfg, m, s, i, state);
    LatestWritten(m, Next(cfg, s, Label(i, Update(m, state))), w', i, state);
  }

  lemma LatestSaved(m: Name, s: State, w: Watch, latest: Bytes)
    requires forall j :: 0 <= j < |s| ==> !Unsaved(s[j], m)
    requires w.last in w.saved && w.saved[w.last] == latest
    ensures LatestInv(m, s, w, latest)
  {
  }

  lemma BroadcastNext(cfg: Config, m: Name, s: State, i: ProcessId)
    requires i < |s| && LocalEnabled(cfg, s[i], SyncOut(m))
    ensures var s' := Next(cfg, s, Label(i, SyncOut(m)));
            && |s'| == |s| && !Unsaved(s'[i], m)
            && (forall j :: 0 <= j < |s| && j != i ==> s'[j] == s[j])
  {
  }

  lemma LatestBroadcast(cfg: Config, m: Name, s: State, i: ProcessId, w: Watch, exits: seq<LamportTime>, latest: Bytes)
    requires Sound(cfg, m, s, exits) && SyncInv(cfg, m, s, w, exits)
    requires i < |s| && LocalEnabled(cfg, s[i], SyncOut(m)) && m in s[i].replica && s[i].replica[m] == latest
    ensures var l := Label(i, SyncOut(m)); LatestInv(m, Next(cfg, s, l), WatchAfter(m, s, l, w), latest)
  {
    var l := Label(i, SyncOut(m));
    NotUnsavedOutside(cfg, m, s, w, exits, i);
    BroadcastNext(cfg, m, s, i);
    WatchBroadcast(m, s, i, w);
    LatestSaved(m, Next(cfg, s, l), WatchAfter(m, s, l, w), latest);
  }

  lemma UnsavedNext(cfg: Config, m: Name, s: State, l: Label)
    requires Enabled(cfg, s, l) && m in cfg.monitors
    requires !(l.step.Update? && l.step.m == m) && l.step != SyncOut(m)
    requires var p := s[l.proc];
             && m in p.replica
             && (!p.wait.NoWait? && p.wait.cond in cfg.guard && cfg.guard[p.wait.cond] == m ==> m !in p.changed)
             && (DispatchesSync(p, l.step, m) ==> !Unsaved(p, m))
    ensures var s' := Next(cfg, s, l);
            forall j :: 0 <= j < |s| ==>
                          && (Unsaved(s'[j], m) <==> Unsaved(s[j], m))
                          && (Unsaved(s[j], m) && m in s[j].replica ==>
                              m in s'[j].replica && s'[j].replica[m] == s[j].replica[m])
  {
    if l.step.Receive? {
    } else if DispatchesSync(s[l.proc], l.step, m) {
      DispatchSyncFramed(cfg, m, s[l.proc]);
    } else {
      UnsavedKept(cfg, m, s[l.proc], l.step);
    }
  }

  lemma LatestKept(m: Name, s: State, s': State, w: Watch, w': Watch, latest: Bytes)
    requires LatestInv(m, s, w, latest) && |s'| == |s| && w'.last == w.last && w'.saved == w.saved
    requires forall j :: 0 <= j < |s| ==>
                           && (Unsaved(s'[j], m) <==> Unsaved(s[j], m))
                           && (Unsaved(s[j], m) && m in s[j].replica ==>
                               m in s'[j].replica && s'[j].replica[m] == s[j].replica[m])
    ensures LatestInv(m, s', w', latest)
  {
  }

  lemma LatestOther(cfg: Config, m: Name, s: State, l: Label, w: Watch, exits: seq<LamportTime>, latest: Bytes)
    requires Sound(cfg, m, s, exits) && SyncInv(cfg, m, s, w, exits) && LatestInv(m, s, w, latest)
    requires Enabled(cfg, s, l) && !(l.step.Update? && l.step.m == m) && l.step != SyncOut(m)
    ensures LatestInv(m, Next(cfg, s, l), WatchAfter(m, s, l, w), latest)
  {
    var i := l.proc;
    assert SyncSolo(cfg, m, s[i], w.saved, w.last, w.sent[i], w.origin[i], w.seen[i], exits[i]);
    if DispatchesSync(s[i], l.step, m) {
      NotInsideWhenDispatching(cfg, m, s, w, exits, i);
    }
    UnsavedNext(cfg, m, s, l);
    LatestKept(m, s, Next(cfg, s, l), w, WatchAfter(m, s, l, w), latest);
  }

  lemma NotInsideWhenDispatching(cfg: Config, m: Name, s: State, w: Watch, exits: seq<LamportTime>, i: ProcessId)
    requires Sound(cfg, m, s, exits) && SyncInv(cfg, m, s, w, exits) && i < cfg.n
    requires s[i].pending.Some? && IsSync(s[i].pending.value, m)
    ensures !Unsaved(s[i], m)
  {
    UnsavedIsInside(cfg, m, s, w, exits, i);
    assert Solo(cfg.n, m, i, s[i]);
    if Inside(s[i], m) {
      HolderHasNoSync(cfg, m, s, w, exits, i, s[i].pending.value.source);
    }
  }

  // ---- The exact condition -----------------------------------------------------------------

  /** Whoever is inside m has the state written last. */
  ghost predicate HoldersHaveLatest(cfg: Config, m: Name, run: seq<Label>)
    requires m in cfg.initial && Exec(cfg, run).Some?
  {
    forall i: ProcessId :: i < cfg.n && Inside(Exec(cfg, run).value[i], m) ==>
                             var p := Exec(cfg, run).value[i];
                             m in p.replica && p.replica[m] == Latest(cfg, m, run)
  }

  ghost predicate AlwaysLatest(cfg: Config, m: Name, run: seq<Label>)
    requires m in cfg.initial && Exec(cfg, run).Some?
  {
    HoldersHaveLatest(cfg, m, run) && (run != [] ==> AlwaysLatest(cfg, m, run[..|run| - 1]))
  }

  /** Whoever is inside m, with no change of its own to broadcast, is up to date with what has reached it. */
  ghost predicate HoldersUpToDate(cfg: Config, m: Name, run: seq<Label>)
    requires m in cfg.initial && Exec(cfg, run).Some?
  {
    forall i: ProcessId :: i < cfg.n && Inside(Exec(cfg, run).value[i], m) && !Unsaved(Exec(cfg, run).value[i], m) ==>
                             UpToDate(Watched(cfg, m, run), i)
  }

  ghost predicate AlwaysUpToDate(cfg: Config, m: Name, run: seq<Label>)
    requires m in cfg.initial && Exec(cfg, run).Some?
  {
    HoldersUpToDate(cfg, m, run) && (run != [] ==> AlwaysUpToDate(cfg, m, run[..|run| - 1]))
  }

  lemma LatestNext(cfg: Config, m: Name, s: State, l: Label, w: Watch, exits: seq<LamportTime>, latest: Bytes)
    requires Sound(cfg, m, s, exits) && SyncInv(cfg, m, s, w, exits) && LatestInv(m, s, w, latest) && Enabled(cfg, s, l)
    requires l.step == SyncOut(m) ==> m in s[l.proc].replica && s[l.proc].replica[m] == latest
    ensures LatestInv(m, Next(cfg, s, l), WatchAfter(m, s, l, w), LatestAfter(m, l.step, latest))
  {
    if l.step.Update? && l.step.m == m {
      assert l == Label(l.proc, Update(m, l.step.state));
      LatestUpdate(cfg, m, s, l.proc, l.step.state, w, WatchAfter(m, s, l, w), exits);
    } else if l.step == SyncOut(m) {
      assert l == Label(l.proc, SyncOut(m));
      LatestBroadcast(cfg, m, s, l.proc, w, exits, latest);
    } else {
      LatestOther(cfg, m, s, l, w, exits, latest);
    }
  }

  lemma HoldersExactly(cfg: Config, m: Name, run: seq<Label>)
    requires cfg.Valid() && m in cfg.monitors && Exec(cfg, run).Some?
    requires LatestInv(m, Exec(cfg, run).value, Watched(cfg, m, run), Latest(cfg, m, run))
    ensures HoldersHaveLatest(cfg, m, run) <==> HoldersUpToDate(cfg, m, run)
  {
    RunSync(cfg, m, run);
    var s, w, latest := Exec(cfg, run).value, Watched(cfg, m, run), Latest(cfg, m, run);
    forall i: ProcessId | i < cfg.n && Inside(s[i], m)
      ensures m in s[i].replica && (s[i].replica[m] == latest <==> Unsaved(s[i], m) || UpToDate(w, i))
    {
      HolderLatest(cfg, m, s, w, Exits(cfg, m, run), latest, i);
    }
  }

  /** A holder that broadcasts the state written last leaves the broadcasts faithful to what was written. */
  lemma FaithfulNext(cfg: Config, m: Name, before: seq<Label>, s: State, l: Label)
    requires cfg.Valid() && m in cfg.monitors && Exec(cfg, before) == Some(s) && Enabled(cfg, s, l)
    requires HoldersHaveLatest(cfg, m, before) && LatestInv(m, s, Watched(cfg, m, before), Latest(cfg, m, before))
    ensures LatestInv(m, Next(cfg, s, l), WatchAfter(m, s, l, Watched(cfg, m, before)),
                      LatestAfter(m, l.step, Latest(cfg, m, before)))
  {
    RunSync(cfg, m, before);
    if l.step == SyncOut(m) {
      assert LocalEnabled(cfg, s[l.proc], SyncOut(m)) && Inside(s[l.proc], m);
    }
    LatestNext(cfg, m, s, l, Watched(cfg, m, before), Exits(cfg, m, before), Latest(cfg, m, before));
  }

  /** The monitor is one sequential variable - at every moment of a run whoever is inside has the state
      written last - if and only if at every moment holders without a change of their own are up to date.
      Any number of processes. */
  lemma {:induction false} SequentialExactly(cfg: Config, m: Name, run: seq<Label>)
    requires cfg.Valid() && m in cfg.monitors && Exec(cfg, run).Some?
    ensures AlwaysLatest(cfg, m, run) <==> AlwaysUpToDate(cfg, m, run)
    ensures AlwaysLatest(cfg, m, run) ==>
              LatestInv(m, Exec(cfg, run).value, Watched(cfg, m, run), Latest(cfg, m, run))
  {
    if run == [] {
      HoldersExactly(cfg, m, run);
    } else {
      var before, s, l := ExecLast(cfg, run);
      SequentialExactly(cfg, m, before);
      if AlwaysLatest(cfg, m, before) {
        FaithfulNext(cfg, m, before, s, l);
        HoldersExactly(cfg, m, run);
      }
    }
  }

  /** In particular, if holders are always up to date, */
  lemma MonitorIsSequential(cfg: Config, m: Name, run: seq<Label>, i: ProcessId)
    requires cfg.Valid() && m in cfg.monitors && Exec(cfg, run).Some? && i < cfg.n && AlwaysUpToDate(cfg, m, run)
    requires Inside(Exec(cfg, run).value[i], m)
    ensures var p := Exec(cfg, run).value[i]; m in p.replica && p.replica[m] == Latest(cfg, m, run)
  {
    SequentialExactly(cfg, m, run);
  }

  /** which they are when broadcasts arrive in section order, */
  lemma {:induction false} InOrderIsUpToDate(cfg: Config, m: Name, run: seq<Label>)
    requires cfg.Valid() && m in cfg.monitors && Exec(cfg, run).Some? && InOrder(cfg, m, run)
    ensures AlwaysUpToDate(cfg, m, run)
  {
    forall i: ProcessId | i < cfg.n ensures UpToDate(Watched(cfg, m, run), i) {
      InOrderArrives(cfg, m, run, i);
    }
    if run != [] {
      InOrderIsUpToDate(cfg, m, run[..|run| - 1]);
    }
  }

  /** or when only two processes ever enter m, however many there are, */
  lemma {:induction false} UpToDateAmongTwo(cfg: Config, m: Name, run: seq<Label>, a: ProcessId, b: ProcessId)
    requires cfg.Valid() && m in cfg.monitors && Exec(cfg, run).Some? && OnlyEnteredBy(run, m, a, b)
    requires a < cfg.n && b < cfg.n && a != b
    ensures AlwaysUpToDate(cfg, m, run)
  {
    RunSync(cfg, m, run);
    var s, w, exits := Exec(cfg, run).value, Watched(cfg, m, run), Exits(cfg, m, run);
    forall i: ProcessId | i < cfg.n && Inside(s[i], m) ensures UpToDate(w, i) {
      var j := if i == a then b else a;
      if i != a && i != b {
        RunSilent(cfg, m, run, a, b, a, i);
      } else {
        LatestAmongTwo(cfg, m, run, i, j);
        assert SyncSolo(cfg, m, s[i], w.saved, w.last, w.sent[i], w.origin[i], w.seen[i], exits[i]);
      }
    }
    if run != [] {
      UpToDateAmongTwo(cfg, m, run[..|run| - 1], a, b);
    }
  }

  lemma MonitorIsSequentialAmongTwo(cfg: Config, m: Name, run: seq<Label>, a: ProcessId, b: ProcessId, i: ProcessId)
    requires cfg.Valid() && m in cfg.monitors && Exec(cfg, run).Some? && OnlyEnteredBy(run, m, a, b)
    requires a < cfg.n && b < cfg.n && a != b && i < cfg.n && Inside(Exec(cfg, run).value[i], m)
    ensures var p := Exec(cfg, run).value[i]; m in p.replica && p.replica[m] == Latest(cfg, m, run)
  {
    UpToDateAmongTwo(cfg, m, run, a, b);
    MonitorIsSequential(cfg, m, run, i);
  }

  /** and so always with two processes. */
  lemma MonitorIsSequentialForTwo(cfg: Config, m: Name, run: seq<Label>, i: ProcessId)
    requires cfg.n == 2 && cfg.Valid() && m in cfg.monitors && Exec(cfg, run).Some? && i < 2
    requires Inside(Exec(cfg, run).value[i], m)
    ensures var p := Exec(cfg, run).value[i]; m in p.replica && p.replica[m] == Latest(cfg, m, run)
  {
    EnteredByTwo(cfg, m, run, 0, 1);
    MonitorIsSequentialAmongTwo(cfg, m, run, 0, 1, i);
  }
}
