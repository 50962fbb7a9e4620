/** What an abandoned process can do: one whose start failed and whose `stop()` timed out as well, so
    that nothing records it. Its exit unmounts its target like that of any other process. */
module MountAbandoned {
  import KeyMutex
  import opened MountMachine
  import opened MountSafety
  import opened MountRely
  import opened MountManager

  ghost predicate Leads(s: State, end: State) {
    exists steps :: Run(s, steps, end)
  }

  lemma LeadsNowhere(s: State)
    ensures Leads(s, s)
  {
    assert Run(s, [], s);
  }

  lemma LeadsOn(s: State, mid: State, step: Step)
    requires Inv(mid) && Leads(s, mid) && Enabled(mid, step)
    ensures Leads(s, Apply(mid, step)) && Inv(Apply(mid, step))
  {
    var steps :| Run(s, steps, mid);
    OneMore(s, steps, mid, step);
    StepKeepsInv(mid, step);
  }

  /** The goroutine moves: its place in the map of goroutines is taken anew. */
  lemma Moved(threads: Threads, t: Tid, before: Thread, after: Thread)
    ensures threads[t := before][t := after] == threads[t := after]
  {
  }

  /** Call `t` is at `th`, otherwise the goroutines are those of `s`. */
  predicate OnlyMoved(s: State, end: State, t: Tid, th: Thread) {
    end == s.(locks := end.locks, threads := s.threads[t := th])
  }

  lemma CallMoves(s: State, v: Vol, t: Tid, op: Op)
    requires t !in s.threads && t !in s.locks.refs && (op.Mount? ==> op.req.volumeID == v)
    ensures Enabled(s, Call(t, v, op)) && OnlyMoved(s, Apply(s, Call(t, v, op)), t, Thread(v, NoRef, Begin(op)))
  {
  }

  lemma GetLockMoves(s: State, mid: State, v: Vol, t: Tid, op: Op)
    requires Inv(mid) && OnlyMoved(s, mid, t, Thread(v, NoRef, Begin(op)))
    ensures Enabled(mid, GetLock(t)) && OnlyMoved(s, Apply(mid, GetLock(t)), t, Thread(v, Ref, Begin(op)))
  {
    NoRefHasNone(mid, t);
    Moved(s.threads, t, Thread(v, NoRef, Begin(op)), Thread(v, Ref, Begin(op)));
  }

  lemma LockStepMoves(s: State, mid: State, v: Vol, t: Tid, op: Op)
    requires Inv(mid) && Calm(s, v) && OnlyMoved(s, mid, t, Thread(v, Ref, Begin(op)))
    ensures Enabled(mid, Lock(t)) && OnlyMoved(s, Apply(mid, Lock(t)), t, Thread(v, Held, Lookup(op)))
  {
    LockIsFree(mid, t, v);
    Moved(s.threads, t, Thread(v, Ref, Begin(op)), Thread(v, Held, Lookup(op)));
  }

  /** A new call `t` about a volume that nobody else works on gets the lock. */
  lemma LeadsToLock(s: State, v: Vol, t: Tid, req: MountRequest) returns (end: State)
    requires Inv(s) && Calm(s, v) && t !in s.threads && req.volumeID == v
    ensures Leads(s, end) && Inv(end) && OnlyMoved(s, end, t, Thread(v, Held, Lookup(Mount(req))))
  {
    LeadsNowhere(s);
    RefsAreThreads(s);
    CallMoves(s, v, t, Mount(req));
    LeadsOn(s, s, Call(t, v, Mount(req)));
    var s1 := Apply(s, Call(t, v, Mount(req)));
    GetLockMoves(s, s1, v, t, Mount(req));
    LeadsOn(s, s1, GetLock(t));
    var s2 := Apply(s1, GetLock(t));
    LockStepMoves(s, s2, v, t, Mount(req));
    LeadsOn(s, s2, Lock(t));
    end := Apply(s2, Lock(t));
  }

  lemma LookUpFindsNothing(s: State, mid: State, v: Vol, t: Tid, req: MountRequest)
    requires OnlyMoved(s, mid, t, Thread(v, Held, Lookup(Mount(req)))) && v !in s.mounts
    ensures Enabled(mid, LookUp(t)) && OnlyMoved(s, Apply(mid, LookUp(t)), t, Thread(v, Held, Clean(req)))
  {
    Moved(s.threads, t, Thread(v, Held, Lookup(Mount(req))), Thread(v, Held, Clean(req)));
  }

  lemma CleanedMoves(s: State, mid: State, v: Vol, t: Tid, req: MountRequest)
    requires OnlyMoved(s, mid, t, Thread(v, Held, Clean(req))) && req.targetPath !in s.table
    ensures Enabled(mid, Cleaned(t)) && OnlyMoved(s, Apply(mid, Cleaned(t)), t, Thread(v, Held, Start(req)))
  {
    Moved(s.threads, t, Thread(v, Held, Clean(req)), Thread(v, Held, Start(req)));
  }

  /** If there is no entry and the target is free, the call starts a process. */
  lemma LeadsToStart(s: State, v: Vol, t: Tid, req: MountRequest) returns (end: State)
    requires Inv(s) && Calm(s, v) && t !in s.threads && req.volumeID == v && v !in s.mounts && req.targetPath !in s.table
    ensures Leads(s, end) && Inv(end)
    ensures end.procs == s.procs[s.nextPid := Proc(v, req.targetPath, Running, Starting(t))]
    ensures end.table == s.table && end.mounts == s.mounts && end.threads == s.threads[t := Thread(v, Held, Wait(req, s.nextPid))]
  {
    var s3 := LeadsToLock(s, v, t, req);
    LookUpFindsNothing(s, s3, v, t, req);
    LeadsOn(s, s3, LookUp(t));
    var s4 := Apply(s3, LookUp(t));
    CleanedMoves(s, s4, v, t, req);
    LeadsOn(s, s4, Cleaned(t));
    var s5 := Apply(s4, Cleaned(t));
    Moved(s.threads, t, Thread(v, Held, Start(req)), Thread(v, Held, Wait(req, s.nextPid)));
    LeadsOn(s, s5, StartProc(t));
    end := Apply(s5, StartProc(t));
  }

  /** Call `t` waits for process `n`, which has not mounted yet. */
  lemma MountComesUp(s: State, t: Tid, v: Vol, req: MountRequest, n: Pid)
    requires t in s.threads && s.threads[t] == Thread(v, Held, Wait(req, n)) && req.targetPath !in s.table
    requires n in s.procs && s.procs[n] == Proc(v, req.targetPath, Running, Starting(t))
    ensures Enabled(s, MountUp(n)) && Enabled(Apply(s, MountUp(n)), MountSeen(t))
    ensures var end := Apply(Apply(s, MountUp(n)), MountSeen(t));
            end == s.(table := s.table[req.targetPath := Fuse(n)], threads := s.threads[t := Thread(v, Held, Insert(req, n))])
  {
  }

  lemma RecordMoves(s: State, t: Tid, v: Vol, req: MountRequest, n: Pid)
    requires t in s.threads && s.threads[t] == Thread(v, Held, Insert(req, n)) && n in s.procs && req.volumeID == v
    ensures Enabled(s, InsertEntry(t))
    ensures var end := Apply(s, InsertEntry(t));
            end.procs == SetFate(s.procs, n, Recorded) && end.table == s.table && v in end.mounts && end.mounts[v] == Entry(req, n)
  {
  }

  /** The process mounts its target. */
  lemma LeadsToMount(s: State, v: Vol, t: Tid, req: MountRequest) returns (end: State)
    requires Inv(s) && Calm(s, v) && t !in s.threads && req.volumeID == v && v !in s.mounts && req.targetPath !in s.table
    ensures Leads(s, end) && Inv(end) && t in end.threads && end.threads[t] == Thread(v, Held, Insert(req, s.nextPid))
    ensures end.procs == s.procs[s.nextPid := Proc(v, req.targetPath, Running, Starting(t))]
    ensures end.table == s.table[req.targetPath := Fuse(s.nextPid)]
  {
    var n := s.nextPid;
    var s6 := LeadsToStart(s, v, t, req);
    MountComesUp(s6, t, v, req, n);
    LeadsOn(s, s6, MountUp(n));
    var s7 := Apply(s6, MountUp(n));
    LeadsOn(s, s7, MountSeen(t));
    end := Apply(s7, MountSeen(t));
  }

  lemma Settles(procs: Procs, n: Pid, proc: Proc, fate: Fate)
    ensures SetFate(procs[n := proc], n, fate) == procs[n := proc.(fate := fate)]
  {
  }

  /** And it is recorded. */
  lemma LeadsToRecord(s: State, v: Vol, t: Tid, req: MountRequest) returns (end: State)
    requires Inv(s) && Calm(s, v) && t !in s.threads && req.volumeID == v && v !in s.mounts && req.targetPath !in s.table
    ensures Leads(s, end) && Inv(end)
    ensures end.procs == s.procs[s.nextPid := Proc(v, req.targetPath, Running, Recorded)]
    ensures end.table == s.table[req.targetPath := Fuse(s.nextPid)] && v in end.mounts && end.mounts[v] == Entry(req, s.nextPid)
  {
    var n := s.nextPid;
    var s8 := LeadsToMount(s, v, t, req);
    RecordMoves(s8, t, v, req, n);
    Settles(s.procs, n, Proc(v, req.targetPath, Running, Starting(t)), Recorded);
    LeadsOn(s, s8, InsertEntry(t));
    end := Apply(s8, InsertEntry(t));
  }

  /** The delayed unmount of process `p` comes next, and what it takes away from `x` is the session of the
      later process `q`, which runs and is the recorded one of the volume. */
  predicate AboutToHarm(s: State, v: Vol, x: Path, p: Pid, q: Pid) {
    && p < q && p in s.procs && s.procs[p].vol == v && s.procs[p].target == x && s.procs[p].phase == Exited
    && q in s.procs && s.procs[q] == Proc(v, x, Running, Recorded) && v in s.mounts && s.mounts[v].pid == q
    && x in s.table && s.table[x] == Fuse(q)
  }

  ghost predicate CanHarm(s: State, v: Vol, x: Path, p: Pid) {
    exists end, q :: Leads(s, end) && AboutToHarm(end, v, x, p, q)
  }

  lemma HarmIsDone(s: State, v: Vol, x: Path, p: Pid, q: Pid)
    requires AboutToHarm(s, v, x, p, q)
    ensures Enabled(s, ProcUnmount(p, true))
    ensures var end := Apply(s, ProcUnmount(p, true));
            x !in end.table && PhaseIs(end.procs, q, Running) && IsRecorded(end, q)
  {
  }

  /** Only an abandoned process whose unmount is still to come can do that. */
  lemma HarmIsOfAbandoned(s: State, v: Vol, x: Path, p: Pid)
    requires Inv(s) && Calm(s, v) && p in s.procs && s.procs[p].vol == v && CanHarm(s, v, x, p)
    ensures s.procs[p].fate == Abandoned && Rank(s.procs[p].phase) <= 1
  {
    var end, q :| Leads(s, end) && AboutToHarm(end, v, x, p, q);
    var steps :| Run(s, steps, end);
    RunKeepsInv(s, steps, end);
    RunEvolves(s, steps, end);
    assert Later(s.procs[p], end.procs[p]);
    assert Settled(end.procs[p]);
    CalmHasNoStarting(s, v, p);
  }

  /** And every such process can. */
  lemma AbandonedCanHarm(s: State, v: Vol, x: Path, p: Pid)
    requires Inv(s) && Calm(s, v) && v !in s.mounts && x !in s.table
    requires p in s.procs && s.procs[p].vol == v && s.procs[p].target == x && s.procs[p].fate == Abandoned && Rank(s.procs[p].phase) <= 1
    ensures CanHarm(s, v, x, p)
  {
    var t := KeyMutex.UnusedTid(s.threads.Keys);
    var req := MountRequest(v, x, "/cache", ["mount"], map[], false, "/sock");
    QuietIsOrigin(s, v);
    var s9 := LeadsToRecord(s, v, t, req);
    var end := s9;
    if s9.procs[p].phase == Running {
      LeadsOn(s, s9, ProcExit(p));
      end := Apply(s9, ProcExit(p));
    }
    assert AboutToHarm(end, v, x, p, s.nextPid);
  }

  /** Take any state of the service in which nobody works on the volume, nothing is recorded for it and the
      target of one of its processes is free. From there the late unmount of that process can take away
      the mount of a later, running process, if and only if it was abandoned and has not unmounted yet. */
  lemma LateExitHarmsIffAbandoned(s: State, v: Vol, p: Pid)
    requires Reachable(s) && Calm(s, v) && v !in s.mounts
    requires p in s.procs && s.procs[p].vol == v && s.procs[p].target !in s.table
    ensures CanHarm(s, v, s.procs[p].target, p) <==> s.procs[p].fate == Abandoned && Rank(s.procs[p].phase) <= 1
  {
    ReachableInv(s);
    if CanHarm(s, v, s.procs[p].target, p) {
      HarmIsOfAbandoned(s, v, s.procs[p].target, p);
    }
    if s.procs[p].fate == Abandoned && Rank(s.procs[p].phase) <= 1 {
      AbandonedCanHarm(s, v, s.procs[p].target, p);
    }
  }

  /** There are such states: from the beginning, the start of process 0 fails and `stop()` times out. */
  lemma AbandonedExitTakesFreshMount(req: MountRequest) returns (s: State)
    ensures Reachable(s) && Calm(s, req.volumeID) && CanHarm(s, req.volumeID, req.targetPath, 0)
  {
    var v := req.volumeID;
    InitInv();
    var s1 := LeadsToStart(INIT, v, 0, req);
    LeadsOn(INIT, s1, MountNotSeen(0));
    var s2 := Apply(s1, MountNotSeen(0));
    LeadsOn(INIT, s2, StopTimeout(0));
    var s3 := Apply(s2, StopTimeout(0));
    HeldHolds(s3, 0);
    LeadsOn(INIT, s3, Unlock(0));
    s := Apply(s3, Unlock(0));
    assert Reachable(s);
    LateExitHarmsIffAbandoned(s, v, 0);
  }
}
