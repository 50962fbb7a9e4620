/** What the invariant of the mount service means for its runs: any number of calls, volumes and
    processes, in any interleaving. */
module MountSafety {
  import opened MountMachine

  ghost predicate Run(s: State, steps: seq<Step>, end: State)
    decreases |steps|
  {
    if steps == [] then s == end
    else Enabled(s, steps[0]) && Run(Apply(s, steps[0]), steps[1..], end)
  }

  ghost predicate Reachable(s: State) {
    exists steps :: Run(INIT, steps, s)
  }

  lemma {:induction false} RunKeepsInv(s: State, steps: seq<Step>, end: State)
    requires Inv(s) && Run(s, steps, end)
    ensures Inv(end)
    decreases |steps|
  {
    if steps != [] {
      StepKeepsInv(s, steps[0]);
      RunKeepsInv(Apply(s, steps[0]), steps[1..], end);
    }
  }

  lemma InitInv()
    ensures Inv(INIT)
  {
  }

  lemma ReachableInv(s: State)
    requires Reachable(s)
    ensures Inv(s)
  {
    var steps :| Run(INIT, steps, s);
    InitInv();
    RunKeepsInv(INIT, steps, s);
  }

  lemma {:induction false} RunsCompose(s: State, steps: seq<Step>, mid: State, more: seq<Step>, end: State)
    requires Run(s, steps, mid) && Run(mid, more, end)
    ensures Run(s, steps + more, end)
    decreases |steps|
  {
    if steps == [] {
      assert steps + more == more;
    } else {
      RunsCompose(Apply(s, steps[0]), steps[1..], mid, more, end);
      assert (steps + more)[1..] == steps[1..] + more;
    }
  }

  // ---- mutual exclusion ---------------------------------------------------------------------

  /** At most one goroutine at a time is between Lock and Unlock for one volume. */
  lemma OneCallPerVolume(s: State, t: Tid, u: Tid)
    requires Reachable(s) && t in s.threads && u in s.threads
    requires s.threads[t].stage == Held && s.threads[u].stage == Held && s.threads[t].vol == s.threads[u].vol
    ensures t == u
  {
    ReachableInv(s);
    OneInside(s.locks, s.threads, t, u);
  }

  // ---- recorded processes -------------------------------------------------------------------

  function Rank(phase: Phase): nat {
    match phase case Running => 0 case Exited => 1 case Unmounted => 2 case Done => 3
  }

  /** A process keeps its volume, its target and its fate once that is settled; it only goes forward. */
  ghost predicate Later(a: Proc, b: Proc) {
    && b.vol == a.vol && b.target == a.target && Rank(a.phase) <= Rank(b.phase)
    && (!a.fate.Starting? ==> b.fate == a.fate)
    && (b.fate.Starting? ==> b.fate == a.fate)
  }

  ghost predicate Evolves(a: Procs, b: Procs) {
    forall p :: p in a ==> p in b && Later(a[p], b[p])
  }

  lemma PhaseEvolves(procs: Procs, p: Pid, phase: Phase)
    requires p in procs && Rank(procs[p].phase) <= Rank(phase)
    ensures Evolves(procs, SetPhase(procs, p, phase))
  {
  }

  lemma FateEvolves(procs: Procs, p: Pid, fate: Fate)
    requires p in procs && procs[p].fate.Starting? && !fate.Starting?
    ensures Evolves(procs, SetFate(procs, p, fate))
  {
  }

  lemma StartEvolves(s: State, t: Tid)
    requires ProcsInv(s.mounts, s.procs, s.threads, s.nextPid) && Enabled(s, StartProc(t))
    ensures Evolves(s.procs, DoStart(s, t).procs)
  {
    assert s.nextPid !in s.procs;
  }

  /** Only the calls that start or stop a process and its own goroutine touch the process table. */
  predicate TouchesProcs(step: Step) {
    || step.StartProc? || step.StopOk? || step.StopTimeout? || step.InsertEntry?
    || step.ProcExit? || step.ProcUnmount? || step.ProcDone?
  }

  lemma OtherStepsKeepProcs(s: State, step: Step)
    requires Enabled(s, step) && !TouchesProcs(step)
    ensures Apply(s, step).procs == s.procs && Apply(s, step).nextPid == s.nextPid
  {
  }

  lemma StepEvolves(s: State, step: Step)
    requires Inv(s) && Enabled(s, step)
    ensures Evolves(s.procs, Apply(s, step).procs) && s.nextPid <= Apply(s, step).nextPid
  {
    if !TouchesProcs(step) {
      OtherStepsKeepProcs(s, step);
    } else if step.ProcExit? || step.ProcUnmount? || step.ProcDone? {
      PhaseEvolves(s.procs, step.p, if step.ProcExit? then Exited else if step.ProcUnmount? then Unmounted else Done);
    } else {
      CallEvolves(s, step);
    }
  }

  lemma StartingFate(s: State, t: Tid)
    requires ThreadsInv(s.mounts, s.procs, s.threads) && t in s.threads && (s.threads[t].at.Stop? || s.threads[t].at.Insert?)
    ensures s.threads[t].at.pid in s.procs && s.procs[s.threads[t].at.pid].fate.Starting?
  {
    assert ThreadOk(s.mounts, s.procs, t, s.threads[t]);
  }

  lemma CallEvolves(s: State, step: Step)
    requires ThreadsInv(s.mounts, s.procs, s.threads) && ProcsInv(s.mounts, s.procs, s.threads, s.nextPid) && Enabled(s, step)
    requires step.StartProc? || step.StopOk? || step.StopTimeout? || step.InsertEntry?
    ensures Evolves(s.procs, Apply(s, step).procs) && s.nextPid <= Apply(s, step).nextPid
  {
    var at := s.threads[step.t].at;
    if step.StartProc? {
      StartEvolves(s, step.t);
    } else if at.UStop? {
      assert Apply(s, step).procs == s.procs;
    } else {
      StartingFate(s, step.t);
      FateEvolves(s.procs, at.pid, if step.StopOk? then Stopped else if step.StopTimeout? then Abandoned else Recorded);
    }
  }

  lemma EvolvesTrans(a: Procs, b: Procs, c: Procs)
    requires Evolves(a, b) && Evolves(b, c)
    ensures Evolves(a, c)
  {
    forall p | p in a ensures p in c && Later(a[p], c[p]) {
      assert Later(a[p], b[p]) && Later(b[p], c[p]);
    }
  }

  lemma {:induction false} RunEvolves(s: State, steps: seq<Step>, end: State)
    requires Inv(s) && Run(s, steps, end)
    ensures Evolves(s.procs, end.procs)
    decreases |steps|
  {
    if steps != [] {
      StepKeepsInv(s, steps[0]);
      StepEvolves(s, steps[0]);
      RunEvolves(Apply(s, steps[0]), steps[1..], end);
      EvolvesTrans(s.procs, Apply(s, steps[0]).procs, end.procs);
    }
  }

  predicate IsRecorded(s: State, p: Pid) {
    p in s.procs && s.procs[p].vol in s.mounts && s.mounts[s.procs[p].vol].pid == p
  }

  /** Once recorded, recorded until `done` is closed, however the run goes on. */
  lemma RecordedUntilDone(s: State, steps: seq<Step>, end: State, p: Pid)
    requires Reachable(s) && Run(s, steps, end) && IsRecorded(s, p)
    ensures IsRecorded(end, p) || PhaseIs(end.procs, p, Done)
  {
    ReachableInv(s);
    assert EntryOk(s.procs, s.procs[p].vol, s.mounts[s.procs[p].vol]);
    RunEvolves(s, steps, end);
    RunKeepsInv(s, steps, end);
    assert Later(s.procs[p], end.procs[p]);
    assert ProcOk(end.mounts, end.threads, p, end.procs[p]);
  }

  /** One volume, one recorded process that is not done. */
  lemma OneRecordedPerVolume(s: State, p: Pid, q: Pid)
    requires Reachable(s) && p in s.procs && q in s.procs && s.procs[p].vol == s.procs[q].vol
    requires s.procs[p].fate == Recorded && s.procs[p].phase != Done
    requires s.procs[q].fate == Recorded && s.procs[q].phase != Done
    ensures p == q
  {
    ReachableInv(s);
    assert ProcOk(s.mounts, s.threads, p, s.procs[p]) && ProcOk(s.mounts, s.threads, q, s.procs[q]);
  }

  /** The entry of a volume never changes into another one. It can only go away, and then its
      process is done and the step is a removal that was about this very entry. */
  lemma EntriesOnlyLeave(s: State, step: Step, v: Vol)
    requires Reachable(s) && Enabled(s, step) && v in s.mounts
    ensures
      || (v in Apply(s, step).mounts && Apply(s, step).mounts[v] == s.mounts[v])
      || (&& v !in Apply(s, step).mounts
          && PhaseIs(s.procs, s.mounts[v].pid, Done)
          && (step.Remove? || step.WatchFire?)
          && s.threads[step.t].vol == v
          && s.threads[step.t].at.entry.pid == s.mounts[v].pid)
  {
    ReachableInv(s);
    if step.InsertEntry? {
      InsertOverwritesNothing(s, step.t);
    } else if step.Remove? {
      RemoveIsItsOwn(s, step.t, v);
    } else if step.WatchFire? {
      WatchFireIsItsOwn(s, step.t, v);
    } else {
      OtherStepsKeepMounts(s, step);
    }
  }

  lemma RemoveIsItsOwn(s: State, t: Tid, v: Vol)
    requires ThreadsInv(s.mounts, s.procs, s.threads) && Enabled(s, Remove(t)) && v in s.mounts
    ensures var after := Apply(s, Remove(t)).mounts;
            if s.threads[t].vol == v
            then v !in after && PhaseIs(s.procs, s.mounts[v].pid, Done) && s.threads[t].at.entry.pid == s.mounts[v].pid
            else v in after && after[v] == s.mounts[v]
  {
    if s.threads[t].vol == v {
      RemovalIsItsOwn(s, t);
    }
  }

  lemma WatchFireIsItsOwn(s: State, t: Tid, v: Vol)
    requires ThreadsInv(s.mounts, s.procs, s.threads) && Enabled(s, WatchFire(t)) && v in s.mounts
    ensures var after := Apply(s, WatchFire(t)).mounts;
            || (v in after && after[v] == s.mounts[v])
            || (v !in after && s.threads[t].vol == v && PhaseIs(s.procs, s.mounts[v].pid, Done) && s.threads[t].at.entry.pid == s.mounts[v].pid)
  {
    assert ThreadOk(s.mounts, s.procs, t, s.threads[t]);
  }

  lemma RemovalIsItsOwn(s: State, t: Tid)
    requires ThreadsInv(s.mounts, s.procs, s.threads) && t in s.threads && s.threads[t].vol in s.mounts
    requires s.threads[t].at.Replace? || s.threads[t].at.URemove?
             || (s.threads[t].at.Watch? && s.mounts[s.threads[t].vol].pid == s.threads[t].at.entry.pid && PhaseIs(s.procs, s.threads[t].at.entry.pid, Done))
    ensures s.threads[t].at.entry.pid == s.mounts[s.threads[t].vol].pid && PhaseIs(s.procs, s.threads[t].at.entry.pid, Done)
  {
    assert ThreadOk(s.mounts, s.procs, t, s.threads[t]);
  }

  /** An insert finds no entry of its volume in the map. */
  lemma InsertOverwritesNothing(s: State, t: Tid)
    requires Reachable(s) && Enabled(s, InsertEntry(t))
    ensures s.threads[t].at.req.volumeID !in s.mounts
  {
    ReachableInv(s);
    assert ThreadOk(s.mounts, s.procs, t, s.threads[t]);
  }

  // ---- the delayed unmount ------------------------------------------------------------------

  /** When `wait()` of a process is about to unmount, a later process of the volume can only
      exist if the earlier one was abandoned. */
  lemma DelayedUnmountIsInTime(s: State, p: Pid, q: Pid, ok: bool)
    requires Reachable(s) && Enabled(s, ProcUnmount(p, ok))
    requires q in s.procs && s.procs[q].vol == s.procs[p].vol && p < q
    ensures s.procs[p].fate == Abandoned
  {
    ReachableInv(s);
    assert Settled(s.procs[p]);
  }

  /** An old exit never unmounts a fresh mount: the unmount of a process that was not abandoned
      takes no session of a later process of its volume out of the table. */
  lemma OldExitSparesFreshMount(s: State, p: Pid, ok: bool, path: Path)
    requires Reachable(s) && Enabled(s, ProcUnmount(p, ok)) && s.procs[p].fate != Abandoned
    requires path in s.table && path !in Apply(s, ProcUnmount(p, ok)).table
    requires s.table[path].Fuse? && s.table[path].pid in s.procs
    requires s.procs[s.table[path].pid].vol == s.procs[p].vol
    ensures s.table[path].pid <= p
  {
    var q := s.table[path].pid;
    if p < q {
      DelayedUnmountIsInTime(s, p, q, ok);
    }
  }

  lemma OneMore(s: State, steps: seq<Step>, mid: State, step: Step)
    requires Run(s, steps, mid) && Enabled(mid, step)
    ensures Run(s, steps + [step], Apply(mid, step))
  {
    var end := Apply(mid, step);
    assert Run(mid, [step], end) by { assert [step][1..] == []; }
    RunsCompose(s, steps, mid, [step], end);
  }

  // ---- no stale entries ---------------------------------------------------------------------

  predicate Watches(th: Thread, p: Pid) {
    (th.at.Spawn? || th.at.Watch?) && th.at.entry.pid == p
  }

  /** Every entry has a goroutine that will drop it when its process is done. */
  ghost predicate Watched(s: State) {
    forall v :: v in s.mounts ==> exists t :: t in s.threads && s.threads[t].vol == v && Watches(s.threads[t], s.mounts[v].pid)
  }

  lemma StepKeepsWatched(s: State, step: Step)
    requires Inv(s) && Watched(s) && Enabled(s, step)
    ensures Watched(Apply(s, step))
  {
    var s' := Apply(s, step);
    forall v | v in s'.mounts ensures exists t :: t in s'.threads && s'.threads[t].vol == v && Watches(s'.threads[t], s'.mounts[v].pid) {
      StepKeepsWatch(s, step, v);
    }
  }

  /** Steps inside Mount or Unmount that deal with a process. */
  predicate InsideMount(step: Step) {
    || step.Cleaned? || step.StartFailed? || step.StartProc? || step.MountSeen? || step.MountNotSeen?
    || step.StopOk? || step.StopTimeout? || step.InsertEntry? || step.SpawnWatcher?
  }

  /** Steps of processes, and of anybody who mounts. */
  predicate OfProcess(step: Step) {
    step.MountUp? || step.ProcExit? || step.ProcUnmount? || step.ProcDone? || step.Kernel?
  }

  lemma ProcessStepsKeepThreads(s: State, step: Step)
    requires Enabled(s, step) && OfProcess(step)
    ensures Apply(s, step).threads == s.threads && Apply(s, step).mounts == s.mounts
  {
  }

  lemma InsideMovesOne(s: State, step: Step, u: Tid)
    requires Enabled(s, step) && InsideMount(step) && u in s.threads && u != step.t
    ensures u in Apply(s, step).threads && Apply(s, step).threads[u] == s.threads[u]
  {
  }

  lemma AroundMovesOne(s: State, step: Step, u: Tid)
    requires Enabled(s, step) && !InsideMount(step) && !OfProcess(step) && u in s.threads && u != step.t
    ensures u in Apply(s, step).threads && Apply(s, step).threads[u] == s.threads[u]
  {
  }

  /** A goroutine that is about to watch, or watches, has no other step. */
  lemma WatcherHasOneStep(s: State, step: Step, t: Tid, p: Pid)
    requires Enabled(s, step) && !OfProcess(step) && t in s.threads && Watches(s.threads[t], p)
    requires step != WatchFire(t) && !(step.SpawnWatcher? && step.t == t)
    ensures step.t != t
  {
  }

  lemma WatcherStays(s: State, step: Step, t: Tid, p: Pid)
    requires Enabled(s, step) && t in s.threads && Watches(s.threads[t], p)
    requires step != WatchFire(t) && !(step.SpawnWatcher? && step.t == t)
    ensures t in Apply(s, step).threads && Apply(s, step).threads[t] == s.threads[t]
  {
    if OfProcess(step) {
      ProcessStepsKeepThreads(s, step);
    } else {
      WatcherHasOneStep(s, step, t, p);
      if InsideMount(step) {
        InsideMovesOne(s, step, t);
      } else {
        AroundMovesOne(s, step, t);
      }
    }
  }

  lemma OtherStepsKeepMounts(s: State, step: Step)
    requires Enabled(s, step) && !step.InsertEntry? && !step.Remove? && !step.WatchFire?
    ensures Apply(s, step).mounts == s.mounts
  {
  }

  lemma EntryStays(s: State, step: Step, v: Vol)
    requires ThreadsInv(s.mounts, s.procs, s.threads) && Enabled(s, step) && v in Apply(s, step).mounts
    requires step.InsertEntry? ==> s.threads[step.t].vol != v
    ensures v in s.mounts && Apply(s, step).mounts[v] == s.mounts[v]
  {
    if step.InsertEntry? {
      assert ThreadOk(s.mounts, s.procs, step.t, s.threads[step.t]);
    } else if !step.Remove? && !step.WatchFire? {
      OtherStepsKeepMounts(s, step);
    }
  }

  lemma InsertKeepsWatch(s: State, t: Tid)
    requires ThreadsInv(s.mounts, s.procs, s.threads) && Enabled(s, InsertEntry(t))
    ensures t in DoInsert(s, t).threads && DoInsert(s, t).threads[t].vol == s.threads[t].vol
    ensures s.threads[t].vol in DoInsert(s, t).mounts && Watches(DoInsert(s, t).threads[t], DoInsert(s, t).mounts[s.threads[t].vol].pid)
  {
    assert ThreadOk(s.mounts, s.procs, t, s.threads[t]);
  }

  lemma WatchIsPassedOn(s: State, step: Step, v: Vol, t: Tid) returns (u: Tid)
    requires Enabled(s, step) && v in s.mounts && v in Apply(s, step).mounts && Apply(s, step).mounts[v] == s.mounts[v]
    requires t in s.threads && s.threads[t].vol == v && Watches(s.threads[t], s.mounts[v].pid)
    ensures u in Apply(s, step).threads && Apply(s, step).threads[u].vol == v && Watches(Apply(s, step).threads[u], s.mounts[v].pid)
  {
    if step.SpawnWatcher? && step.t == t {
      u := step.watcher;
    } else {
      u := t;
      if step != WatchFire(t) {
        WatcherStays(s, step, t, s.mounts[v].pid);
      }
    }
  }

  lemma StepKeepsWatch(s: State, step: Step, v: Vol)
    requires Inv(s) && Watched(s) && Enabled(s, step) && v in Apply(s, step).mounts
    ensures
      var s' := Apply(s, step);
      exists t :: t in s'.threads && s'.threads[t].vol == v && Watches(s'.threads[t], s'.mounts[v].pid)
  {
    if step.InsertEntry? && s.threads[step.t].vol == v {
      InsertKeepsWatch(s, step.t);
    } else {
      EntryStays(s, step, v);
      var t :| t in s.threads && s.threads[t].vol == v && Watches(s.threads[t], s.mounts[v].pid);
      var u := WatchIsPassedOn(s, step, v, t);
    }
  }

  lemma {:induction false} RunKeepsWatched(s: State, steps: seq<Step>, end: State)
    requires Inv(s) && Watched(s) && Run(s, steps, end)
    ensures Watched(end)
    decreases |steps|
  {
    if steps != [] {
      StepKeepsInv(s, steps[0]);
      StepKeepsWatched(s, steps[0]);
      RunKeepsWatched(Apply(s, steps[0]), steps[1..], end);
    }
  }

  lemma ReachableWatched(s: State)
    requires Reachable(s)
    ensures Watched(s)
  {
    var steps :| Run(INIT, steps, s);
    InitInv();
    RunKeepsWatched(INIT, steps, s);
  }

  /** Without anybody calling Unmount: in any reachable state in which no call is in progress and no
      watcher can fire any more, every entry of the map is that of a process that is not done. A
      weed process that crashed leaves no entry behind that would fool a later Mount. */
  lemma NoStaleEntryAtRest(s: State, v: Vol)
    requires Reachable(s) && v in s.mounts
    requires forall t :: t in s.threads ==> s.threads[t].at.Watch? && !PhaseIs(s.procs, s.threads[t].at.entry.pid, Done)
    ensures s.mounts[v].pid in s.procs && s.procs[s.mounts[v].pid].phase != Done
  {
    ReachableInv(s);
    ReachableWatched(s);
    assert EntryOk(s.procs, v, s.mounts[v]);
    var t :| t in s.threads && s.threads[t].vol == v && Watches(s.threads[t], s.mounts[v].pid);
  }
}
