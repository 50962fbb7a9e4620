/** What one volume may see of the rest of the node while a call about it is in progress: weed
    processes exit, their `wait()` goroutines unmount, watchers drop entries, and calls about
    other volumes run. Nobody else calls Mount or Unmount for this volume. */
module MountRely {
  import opened Wrappers
  import opened MountMachine
  import opened MountSafety

  /** Kubelet gives every volume its own paths, and names staging paths differently from publish paths. */
  datatype Owner = Owner(vol: Path -> Vol, stages: Path -> bool)

  /** `x` is a staging path of `v`. */
  predicate Stages(owner: Owner, v: Vol, x: Path) {
    owner.vol(x) == v && owner.stages(x)
  }

  /** The goroutine runs Mount or Unmount for `v`. */
  predicate Calls(th: Thread, v: Vol) {
    th.vol == v && !th.at.Watch?
  }

  function RequestOf(at: Loc): Option<MountRequest> {
    match at
    case Begin(op) => if op.Mount? then Some(op.req) else None
    case Lookup(op) => if op.Mount? then Some(op.req) else None
    case Select(req, _) => Some(req)
    case AwaitDone(req, _) => Some(req)
    case Replace(req, _) => Some(req)
    case Clean(req) => Some(req)
    case Start(req) => Some(req)
    case Wait(req, _) => Some(req)
    case Stop(req, _) => Some(req)
    case Insert(req, _) => Some(req)
    case _ => None
  }

  ghost predicate OwnRequest(owner: Owner, th: Thread) {
    RequestOf(th.at).Some? ==> Stages(owner, th.vol, RequestOf(th.at).value.targetPath)
  }

  /** Every process mounts at a staging path of its own volume. */
  ghost predicate Separate(owner: Owner, s: State) {
    && (forall p :: p in s.procs ==> Stages(owner, s.procs[p].vol, s.procs[p].target))
    && (forall t :: t in s.threads ==> OwnRequest(owner, s.threads[t]))
  }

  /** A step that is not taken by a call about `v`, and is not a system call on a path of `v`. */
  predicate Foreign(owner: Owner, v: Vol, s: State, step: Step) {
    && Enabled(s, step)
    && match step
       case Call(_, vol, op) => vol != v && (op.Mount? ==> Stages(owner, vol, op.req.targetPath))
       case MountUp(_) => true
       case ProcExit(_) => true
       case ProcUnmount(_, _) => true
       case ProcDone(_) => true
       case Kernel(path, _) => owner.vol(path) != v
       case _ => !Calls(s.threads[step.t], v)
  }

  // ---- how the parts of the state may change --------------------------------------------------

  /** No new process of `v`, and none changes its fate. */
  ghost predicate ProcsRely(v: Vol, a: Procs, b: Procs) {
    && Evolves(a, b)
    && (forall p :: p in b && b[p].vol == v ==> p in a && b[p].fate == a[p].fate)
  }

  ghost predicate ThreadsRely(v: Vol, a: Threads, b: Threads) {
    && (forall t :: t in b && Calls(b[t], v) ==> t in a && a[t] == b[t])
    && (forall t :: t in a && Calls(a[t], v) ==> t in b && a[t] == b[t])
  }

  ghost predicate MountsRely(v: Vol, a: Mounts, b: Mounts) {
    v in b ==> v in a && a[v] == b[v]
  }

  /** `x` carries the session of a process of `v` that is just being started. */
  predicate CarriesStarting(v: Vol, x: Path, s: State) {
    && x in s.table && s.table[x].Fuse? && s.table[x].pid in s.procs
    && var p := s.procs[s.table[x].pid]; p.vol == v && p.target == x && p.fate.Starting?
  }

  /** Between `a` and `b` the `wait()` of process `p` has unmounted its target `x`. */
  predicate UnmountedBy(v: Vol, x: Path, a: State, b: State, p: Pid) {
    && p in a.procs && p in b.procs && b.procs[p].vol == v && b.procs[p].target == x
    && Rank(a.procs[p].phase) <= 1 && Rank(b.procs[p].phase) >= 2
  }

  /** What is at `x` stays, unless the exit of a process that mounted there takes it away. */
  ghost predicate PathRely(v: Vol, x: Path, a: State, b: State) {
    && (x in b.table ==> (x in a.table && a.table[x] == b.table[x]) || CarriesStarting(v, x, b))
    && (x in a.table && x !in b.table ==> exists p :: UnmountedBy(v, x, a, b, p))
  }

  /** The entry, the processes and the mounts of `v` are left alone in this sense. */
  ghost predicate Spared(owner: Owner, v: Vol, a: State, b: State) {
    && a.nextPid <= b.nextPid
    && ProcsRely(v, a.procs, b.procs)
    && MountsRely(v, a.mounts, b.mounts)
    && (forall x :: owner.vol(x) == v ==> PathRely(v, x, a, b))
  }

  ghost predicate Rely(owner: Owner, v: Vol, a: State, b: State) {
    Spared(owner, v, a, b) && ThreadsRely(v, a.threads, b.threads)
  }

  lemma PathRelyTrans(v: Vol, x: Path, a: State, b: State, c: State)
    requires ProcsRely(v, a.procs, b.procs) && ProcsRely(v, b.procs, c.procs)
    requires PathRely(v, x, a, b) && PathRely(v, x, b, c)
    ensures PathRely(v, x, a, c)
  {
    if x in a.table && x !in c.table {
      if x in b.table {
        var p :| UnmountedBy(v, x, b, c, p);
        assert Later(a.procs[p], b.procs[p]);
        assert UnmountedBy(v, x, a, c, p);
      } else {
        var p :| UnmountedBy(v, x, a, b, p);
        assert Later(b.procs[p], c.procs[p]);
        assert UnmountedBy(v, x, a, c, p);
      }
    }
    if x in c.table && x in b.table && b.table[x] == c.table[x] && CarriesStarting(v, x, b) {
      assert Later(b.procs[b.table[x].pid], c.procs[b.table[x].pid]);
    }
  }

  lemma SparedTrans(owner: Owner, v: Vol, a: State, b: State, c: State)
    requires Spared(owner, v, a, b) && Spared(owner, v, b, c)
    ensures Spared(owner, v, a, c)
  {
    EvolvesTrans(a.procs, b.procs, c.procs);
    forall x | owner.vol(x) == v ensures PathRely(v, x, a, c) {
      PathRelyTrans(v, x, a, b, c);
    }
  }

  lemma RelyTrans(owner: Owner, v: Vol, a: State, b: State, c: State)
    requires Rely(owner, v, a, b) && Rely(owner, v, b, c)
    ensures Rely(owner, v, a, c)
  {
    SparedTrans(owner, v, a, b, c);
  }

  lemma RelyRefl(owner: Owner, v: Vol, a: State)
    ensures Rely(owner, v, a, a)
  {
  }

  // ---- one foreign step ----------------------------------------------------------------------

  lemma StepKeepsSeparate(owner: Owner, s: State, step: Step)
    requires Inv(s) && Separate(owner, s) && Enabled(s, step)
    requires step.Call? && step.op.Mount? ==> Stages(owner, step.vol, step.op.req.targetPath)
    ensures Separate(owner, Apply(s, step))
  {
    var s' := Apply(s, step);
    forall t | t in s'.threads ensures OwnRequest(owner, s'.threads[t]) {
      StepKeepsOwnRequest(owner, s, step, t);
    }
    StepEvolves(s, step);
    if step.StartProc? {
      assert OwnRequest(owner, s.threads[step.t]);
    } else {
      OnlyStartAdds(s, step);
    }
    forall p | p in s'.procs ensures Stages(owner, s'.procs[p].vol, s'.procs[p].target) {
      if p in s.procs {
        assert Later(s.procs[p], s'.procs[p]);
      }
    }
  }

  lemma OnlyStartAdds(s: State, step: Step)
    requires Enabled(s, step) && !step.StartProc?
    ensures Apply(s, step).procs.Keys == s.procs.Keys
  {
  }

  lemma InsideMountKeepsOwnRequest(owner: Owner, s: State, step: Step, t: Tid)
    requires Enabled(s, step) && InsideMount(step) && t in Apply(s, step).threads
    requires forall u :: u in s.threads ==> OwnRequest(owner, s.threads[u])
    ensures OwnRequest(owner, Apply(s, step).threads[t])
  {
    if t != step.t && t in s.threads {
      InsideMovesOne(s, step, t);
    } else if step.StopOk? || step.StopTimeout? || step.InsertEntry? || step.SpawnWatcher? {
      EndKeepsOwnRequest(owner, s, step, t);
    } else {
      MountingKeepsOwnRequest(owner, s, step, t);
    }
  }

  lemma EndKeepsOwnRequest(owner: Owner, s: State, step: Step, t: Tid)
    requires Enabled(s, step) && (step.StopOk? || step.StopTimeout? || step.InsertEntry? || step.SpawnWatcher?)
    requires t in Apply(s, step).threads && (t == step.t || t !in s.threads)
    ensures OwnRequest(owner, Apply(s, step).threads[t])
  {
  }

  lemma MountingKeepsOwnRequest(owner: Owner, s: State, step: Step, t: Tid)
    requires Enabled(s, step) && (step.Cleaned? || step.StartFailed? || step.StartProc? || step.MountSeen? || step.MountNotSeen?)
    requires t in Apply(s, step).threads && (t == step.t || t !in s.threads) && OwnRequest(owner, s.threads[step.t])
    ensures OwnRequest(owner, Apply(s, step).threads[t])
  {
  }

  lemma StepKeepsOwnRequest(owner: Owner, s: State, step: Step, t: Tid)
    requires Enabled(s, step) && t in Apply(s, step).threads
    requires forall u :: u in s.threads ==> OwnRequest(owner, s.threads[u])
    requires step.Call? && step.op.Mount? ==> Stages(owner, step.vol, step.op.req.targetPath)
    ensures OwnRequest(owner, Apply(s, step).threads[t])
  {
    if InsideMount(step) {
      InsideMountKeepsOwnRequest(owner, s, step, t);
    } else if t in s.threads {
      assert OwnRequest(owner, s.threads[t]);
    }
  }

  lemma ForeignKeepsThreads(owner: Owner, v: Vol, s: State, step: Step)
    requires Inv(s) && Foreign(owner, v, s, step)
    ensures ThreadsRely(v, s.threads, Apply(s, step).threads)
  {
    var s' := Apply(s, step);
    forall t | t in s'.threads && Calls(s'.threads[t], v) ensures t in s.threads && s.threads[t] == s'.threads[t] {
      ForeignThread(owner, v, s, step, t);
    }
    forall t | t in s.threads && Calls(s.threads[t], v) ensures t in s'.threads && s.threads[t] == s'.threads[t] {
      ForeignThread(owner, v, s, step, t);
    }
  }

  lemma ForeignThread(owner: Owner, v: Vol, s: State, step: Step, t: Tid)
    requires Foreign(owner, v, s, step)
    ensures t in Apply(s, step).threads && Calls(Apply(s, step).threads[t], v) ==> t in s.threads && s.threads[t] == Apply(s, step).threads[t]
    ensures t in s.threads && Calls(s.threads[t], v) ==> t in Apply(s, step).threads && Apply(s, step).threads[t] == s.threads[t]
  {
  }

  /** The process a call starts or stops is one of the volume the call is about. */
  lemma OwnProcess(s: State, t: Tid)
    requires ThreadsInv(s.mounts, s.procs, s.threads) && t in s.threads && (s.threads[t].at.Stop? || s.threads[t].at.Insert?)
    ensures s.threads[t].at.pid in s.procs && s.procs[s.threads[t].at.pid].vol == s.threads[t].vol
  {
    assert ThreadOk(s.mounts, s.procs, t, s.threads[t]);
  }

  lemma PhaseStepsKeepFate(s: State, step: Step, p: Pid)
    requires Enabled(s, step) && (step.ProcExit? || step.ProcUnmount? || step.ProcDone?) && p in Apply(s, step).procs
    ensures p in s.procs && Apply(s, step).procs[p].fate == s.procs[p].fate
  {
  }

  lemma CallStepsKeepFate(owner: Owner, v: Vol, s: State, step: Step, p: Pid)
    requires ThreadsInv(s.mounts, s.procs, s.threads) && Foreign(owner, v, s, step)
    requires step.StartProc? || step.StopOk? || step.StopTimeout? || step.InsertEntry?
    requires p in Apply(s, step).procs && Apply(s, step).procs[p].vol == v
    ensures p in s.procs && Apply(s, step).procs[p].fate == s.procs[p].fate
  {
    if !step.StartProc? && !s.threads[step.t].at.UStop? {
      OwnProcess(s, step.t);
    }
  }

  lemma ForeignFate(owner: Owner, v: Vol, s: State, step: Step, p: Pid)
    requires ThreadsInv(s.mounts, s.procs, s.threads) && Foreign(owner, v, s, step)
    requires p in Apply(s, step).procs && Apply(s, step).procs[p].vol == v
    ensures p in s.procs && Apply(s, step).procs[p].fate == s.procs[p].fate
  {
    if !TouchesProcs(step) {
      OtherStepsKeepProcs(s, step);
    } else if step.ProcExit? || step.ProcUnmount? || step.ProcDone? {
      PhaseStepsKeepFate(s, step, p);
    } else {
      CallStepsKeepFate(owner, v, s, step, p);
    }
  }

  lemma ForeignKeepsProcs(owner: Owner, v: Vol, s: State, step: Step)
    requires Inv(s) && Foreign(owner, v, s, step)
    ensures ProcsRely(v, s.procs, Apply(s, step).procs) && s.nextPid <= Apply(s, step).nextPid
  {
    StepEvolves(s, step);
    var s' := Apply(s, step);
    forall p | p in s'.procs && s'.procs[p].vol == v ensures p in s.procs && s'.procs[p].fate == s.procs[p].fate {
      ForeignFate(owner, v, s, step, p);
    }
  }

  lemma ForeignKeepsMounts(owner: Owner, v: Vol, s: State, step: Step)
    requires ThreadsInv(s.mounts, s.procs, s.threads) && Foreign(owner, v, s, step)
    ensures MountsRely(v, s.mounts, Apply(s, step).mounts)
  {
    if step.InsertEntry? {
      assert ThreadOk(s.mounts, s.procs, step.t, s.threads[step.t]);
    }
  }

  lemma OtherStepsKeepTable(s: State, step: Step)
    requires Enabled(s, step) && !step.MountUp? && !step.ProcUnmount? && !step.Kernel?
    ensures Apply(s, step).table == s.table
  {
  }

  lemma MountUpKeepsPath(owner: Owner, v: Vol, s: State, p: Pid, x: Path)
    requires Separate(owner, s) && Enabled(s, MountUp(p)) && owner.vol(x) == v
    ensures PathRely(v, x, s, Apply(s, MountUp(p)))
  {
  }

  lemma UnmountKeepsPath(v: Vol, s: State, p: Pid, ok: bool, x: Path)
    requires Enabled(s, ProcUnmount(p, ok)) && (s.procs[p].target == x ==> s.procs[p].vol == v)
    ensures PathRely(v, x, s, Apply(s, ProcUnmount(p, ok)))
  {
    if s.procs[p].target == x {
      assert UnmountedBy(v, x, s, Apply(s, ProcUnmount(p, ok)), p);
    }
  }

  lemma ForeignKeepsPath(owner: Owner, v: Vol, s: State, step: Step, x: Path)
    requires Separate(owner, s) && Foreign(owner, v, s, step) && owner.vol(x) == v
    ensures PathRely(v, x, s, Apply(s, step))
  {
    if step.MountUp? {
      MountUpKeepsPath(owner, v, s, step.p, x);
    } else if step.ProcUnmount? {
      UnmountKeepsPath(v, s, step.p, step.ok, x);
    } else if !step.Kernel? {
      OtherStepsKeepTable(s, step);
    }
  }

  /** Any step of the rest of the node, as the volume sees it. */
  lemma ForeignStepRely(owner: Owner, v: Vol, s: State, step: Step)
    requires Inv(s) && Separate(owner, s) && Foreign(owner, v, s, step)
    ensures Rely(owner, v, s, Apply(s, step))
    ensures Inv(Apply(s, step)) && Separate(owner, Apply(s, step))
  {
    ForeignKeepsProcs(owner, v, s, step);
    ForeignKeepsThreads(owner, v, s, step);
    ForeignKeepsMounts(owner, v, s, step);
    forall x | owner.vol(x) == v ensures PathRely(v, x, s, Apply(s, step)) {
      ForeignKeepsPath(owner, v, s, step, x);
    }
    StepKeepsInv(s, step);
    StepKeepsSeparate(owner, s, step);
  }

  // ---- what a fresh mount may count on ---------------------------------------------------------

  /** No call about `v` is in progress. */
  predicate Calm(s: State, v: Vol) {
    forall t :: t in s.threads ==> !Calls(s.threads[t], v)
  }

  /** Call `t` is the one call in progress about its volume. */
  ghost predicate Sole(s: State, t: Tid, th: Thread) {
    && t in s.threads && s.threads[t] == th
    && (forall u :: u in s.threads && Calls(s.threads[u], th.vol) ==> u == t)
  }

  lemma RelyKeepsSole(owner: Owner, v: Vol, a: State, b: State, t: Tid, th: Thread)
    requires ThreadsRely(v, a.threads, b.threads) && Sole(a, t, th) && Calls(th, v)
    ensures Sole(b, t, th)
  {
  }

  /** A step that concerns locks and goroutines only. */
  lemma LocksAndThreadsSpare(owner: Owner, v: Vol, a: State, b: State)
    requires b == a.(locks := b.locks, threads := b.threads)
    ensures Spared(owner, v, a, b)
  {
  }

  /** A process that is being started is started by a call about its volume. */
  lemma StartingHasCaller(s: State, p: Pid)
    requires Inv(s) && p in s.procs && s.procs[p].fate.Starting?
    ensures s.procs[p].fate.caller in s.threads && Calls(s.threads[s.procs[p].fate.caller], s.procs[p].vol)
  {
    assert ProcOk(s.mounts, s.threads, p, s.procs[p]);
    assert ThreadOk(s.mounts, s.procs, s.procs[p].fate.caller, s.threads[s.procs[p].fate.caller]);
  }

  /** In a calm state no process of `v` is being started. */
  lemma CalmHasNoStarting(s: State, v: Vol, p: Pid)
    requires Inv(s) && Calm(s, v) && p in s.procs && s.procs[p].vol == v
    ensures !s.procs[p].fate.Starting?
  {
    if s.procs[p].fate.Starting? {
      StartingHasCaller(s, p);
    }
  }

  /** Since `a` the late exit of `q`, an abandoned process, has unmounted `x`. */
  predicate TakenBy(v: Vol, x: Path, a: State, b: State, q: Pid) {
    UnmountedBy(v, x, a, b, q) && b.procs[q].fate == Abandoned
  }

  /** No process of `v` has been started since `a`. */
  ghost predicate NoneNew(v: Vol, a: State, b: State) {
    forall q :: q in b.procs && b.procs[q].vol == v ==> q in a.procs
  }

  /** `pid` is the only process of `v` that has been started since `a`. */
  ghost predicate OnlyNew(v: Vol, a: State, b: State, pid: Pid) {
    && a.nextPid <= pid && pid in b.procs && b.procs[pid].vol == v
    && (forall q :: q in b.procs && b.procs[q].vol == v && q != pid ==> q in a.procs && q < pid)
  }

  /** The session of `pid`, a process started since `a`, is at `x`; or it has gone again, because `pid`
      exited, or because the late exit of an abandoned process has taken it away since `a`. */
  ghost predicate Carries(v: Vol, x: Path, a: State, b: State, pid: Pid) {
    && OnlyNew(v, a, b, pid) && b.procs[pid].target == x
    && (x in b.table ==> b.table[x] == Fuse(pid))
    && (x !in b.table ==> Gone(b.procs, pid) || exists q :: TakenBy(v, x, a, b, q))
  }

  lemma OnlyNewStays(v: Vol, a: State, b: State, c: State, pid: Pid)
    requires ProcsRely(v, b.procs, c.procs) && OnlyNew(v, a, b, pid)
    ensures OnlyNew(v, a, c, pid)
  {
    forall q | q in c.procs && c.procs[q].vol == v && q != pid ensures q in a.procs && q < pid {
      assert Later(b.procs[q], c.procs[q]);
    }
  }

  /** An unmount of `x` that comes after `pid` was started is its own, or that of an abandoned process. */
  lemma LaterUnmount(v: Vol, x: Path, a: State, b: State, c: State, pid: Pid, q: Pid)
    requires InTurn(b.procs) && Evolves(a.procs, b.procs) && ProcsRely(v, b.procs, c.procs)
    requires OnlyNew(v, a, b, pid) && UnmountedBy(v, x, b, c, q)
    ensures q == pid || TakenBy(v, x, a, c, q)
  {
    assert Later(b.procs[q], c.procs[q]);
    if q != pid {
      assert Later(a.procs[q], b.procs[q]);
      assert Settled(b.procs[q]);
    }
  }

  lemma TakenStays(v: Vol, x: Path, a: State, b: State, c: State, q: Pid)
    requires ProcsRely(v, b.procs, c.procs) && TakenBy(v, x, a, b, q)
    ensures TakenBy(v, x, a, c, q)
  {
    assert Later(b.procs[q], c.procs[q]);
  }

  /** What has not changed at `x` between `b` and `c`, or was taken away by an exit, is still carried. */
  lemma KeptCarries(v: Vol, x: Path, a: State, b: State, c: State, pid: Pid)
    requires InTurn(b.procs) && Evolves(a.procs, b.procs) && ProcsRely(v, b.procs, c.procs) && Carries(v, x, a, b, pid)
    requires x in c.table ==> c.table[x] == Fuse(pid)
    requires x in b.table && x !in c.table ==> exists q :: UnmountedBy(v, x, b, c, q)
    ensures Carries(v, x, a, c, pid)
  {
    OnlyNewStays(v, a, b, c, pid);
    assert Later(b.procs[pid], c.procs[pid]);
    if x in b.table && x !in c.table {
      var q: Pid :| UnmountedBy(v, x, b, c, q);
      LaterUnmount(v, x, a, b, c, pid, q);
    } else if x !in c.table && !Gone(b.procs, pid) {
      var q: Pid :| TakenBy(v, x, a, b, q);
      TakenStays(v, x, a, b, c, q);
    }
  }

  /** Foreign steps keep it that way. `pid` is the only process of `v` that may be in its start. */
  lemma SparedKeepsCarries(owner: Owner, v: Vol, a: State, b: State, c: State, x: Path, pid: Pid)
    requires Inv(b) && Evolves(a.procs, b.procs) && Spared(owner, v, b, c) && owner.vol(x) == v && Carries(v, x, a, b, pid)
    requires forall q :: q in b.procs && b.procs[q].vol == v && b.procs[q].fate.Starting? ==> q == pid
    ensures Carries(v, x, a, c, pid)
  {
    assert PathRely(v, x, b, c);
    if x in c.table && !(x in b.table && b.table[x] == c.table[x]) {
      var q := c.table[x].pid;
      assert q in b.procs && Later(b.procs[q], c.procs[q]);
    }
    KeptCarries(v, x, a, b, c, pid);
  }

  /** Nothing was started between `a` and `b`, so `a` can take the place of `b`. */
  lemma CarriesSince(v: Vol, x: Path, a: State, b: State, c: State, pid: Pid)
    requires a.nextPid <= b.nextPid && (forall q :: q in a.procs ==> q < a.nextPid)
    requires Evolves(a.procs, b.procs) && Evolves(b.procs, c.procs) && NoneNew(v, a, b) && Carries(v, x, b, c, pid)
    ensures Carries(v, x, a, c, pid)
  {
    forall q | q in b.procs && q in c.procs && c.procs[q].vol == v ensures q in a.procs && Later(a.procs[q], b.procs[q]) {
      assert Later(b.procs[q], c.procs[q]);
    }
    if x !in c.table && !Gone(c.procs, pid) {
      var q: Pid :| TakenBy(v, x, b, c, q);
      assert TakenBy(v, x, a, c, q);
    }
  }

  // ---- what a call of Mount may do to its volume -----------------------------------------------

  /** What was at `y` is there, or the exit of its process took it away; nothing new appeared. */
  ghost predicate PathKept(v: Vol, y: Path, a: State, b: State) {
    && (y in b.table ==> y in a.table && a.table[y] == b.table[y])
    && (y in a.table && y !in b.table ==> exists p :: UnmountedBy(v, y, a, b, p))
  }

  ghost predicate NoStarting(v: Vol, procs: Procs) {
    forall p :: p in procs && procs[p].vol == v ==> !procs[p].fate.Starting?
  }

  /** While the new process runs its session is there, if every abandoned process of the volume that mounts at
      `x` had unmounted when the call began. */
  lemma SessionIsThere(v: Vol, x: Path, a: State, b: State, pid: Pid)
    requires NoStarting(v, a.procs) && Evolves(a.procs, b.procs) && Carries(v, x, a, b, pid) && !Gone(b.procs, pid)
    requires forall q :: q in a.procs && a.procs[q].vol == v && a.procs[q].target == x && a.procs[q].fate == Abandoned ==> Rank(a.procs[q].phase) >= 2
    ensures x in b.table && b.table[x] == Fuse(pid)
  {
    forall q ensures !TakenBy(v, x, a, b, q) {
      if q in a.procs {
        assert Later(a.procs[q], b.procs[q]);
      }
    }
  }

  /** Since `a`, the volume has been touched at `x` only: new processes mount there, old ones keep
      their fate, and no other path of the volume has a new mount. */
  ghost predicate OnlyAt(owner: Owner, v: Vol, x: Path, a: State, b: State) {
    && a.nextPid <= b.nextPid && Evolves(a.procs, b.procs)
    && (forall p :: p in b.procs && b.procs[p].vol == v ==>
          (p in a.procs && b.procs[p].fate == a.procs[p].fate) || (a.nextPid <= p && b.procs[p].target == x))
    && (forall y :: owner.vol(y) == v && y != x ==> PathKept(v, y, a, b))
  }

  lemma PathKeptTrans(v: Vol, y: Path, a: State, b: State, c: State)
    requires Evolves(a.procs, b.procs) && Evolves(b.procs, c.procs)
    requires PathKept(v, y, a, b) && PathKept(v, y, b, c)
    requires forall p :: p in b.procs && b.procs[p].vol == v && b.procs[p].target == y ==> p in a.procs
    ensures PathKept(v, y, a, c)
  {
    if y in a.table && y !in c.table {
      if y in b.table {
        var p: Pid :| UnmountedBy(v, y, b, c, p);
        assert Later(b.procs[p], c.procs[p]) && Later(a.procs[p], b.procs[p]);
        assert UnmountedBy(v, y, a, c, p);
      } else {
        var p: Pid :| UnmountedBy(v, y, a, b, p);
        assert Later(b.procs[p], c.procs[p]);
        assert UnmountedBy(v, y, a, c, p);
      }
    }
  }

  lemma SparedIsKept(owner: Owner, v: Vol, a: State, b: State, y: Path)
    requires Spared(owner, v, a, b) && owner.vol(y) == v
    requires forall p :: p in a.procs && a.procs[p].vol == v && a.procs[p].target == y ==> !a.procs[p].fate.Starting?
    ensures PathKept(v, y, a, b)
  {
    assert PathRely(v, y, a, b);
  }

  lemma OnlyAtRefl(owner: Owner, v: Vol, x: Path, a: State)
    ensures OnlyAt(owner, v, x, a, a)
  {
  }

  /** The rest of the node takes steps. */
  lemma OnlyAtThenSpared(owner: Owner, v: Vol, x: Path, a: State, b: State, c: State)
    requires NoStarting(v, a.procs) && OnlyAt(owner, v, x, a, b) && Spared(owner, v, b, c)
    requires forall p :: p in a.procs ==> p < a.nextPid
    ensures OnlyAt(owner, v, x, a, c)
  {
    EvolvesTrans(a.procs, b.procs, c.procs);
    forall y | owner.vol(y) == v && y != x ensures PathKept(v, y, a, c) {
      SparedIsKept(owner, v, b, c, y);
      PathKeptTrans(v, y, a, b, c);
    }
    forall p | p in c.procs && c.procs[p].vol == v
      ensures (p in a.procs && c.procs[p].fate == a.procs[p].fate) || (a.nextPid <= p && c.procs[p].target == x)
    {
      assert p in b.procs && Later(b.procs[p], c.procs[p]);
    }
  }

  /** The call itself takes a step: it changes the table at `x` at most, starts a process for `x`,
      or settles the fate of a process that has been started since `a`. */
  lemma OnlyAtThenOwn(owner: Owner, v: Vol, x: Path, a: State, b: State, c: State)
    requires OnlyAt(owner, v, x, a, b) && Evolves(b.procs, c.procs) && b.nextPid <= c.nextPid
    requires forall p :: p in c.procs && c.procs[p].vol == v ==>
               (p in b.procs && (c.procs[p].fate == b.procs[p].fate || a.nextPid <= p)) || (a.nextPid <= p && c.procs[p].target == x)
    requires forall p :: p in a.procs ==> p < a.nextPid
    requires forall y :: owner.vol(y) == v && y != x ==> PathKept(v, y, b, c)
    ensures OnlyAt(owner, v, x, a, c)
  {
    EvolvesTrans(a.procs, b.procs, c.procs);
    forall y | owner.vol(y) == v && y != x ensures PathKept(v, y, a, c) {
      PathKeptTrans(v, y, a, b, c);
    }
    forall p | p in c.procs && c.procs[p].vol == v
      ensures (p in a.procs && c.procs[p].fate == a.procs[p].fate) || (a.nextPid <= p && c.procs[p].target == x)
    {
      if p in b.procs {
        assert Later(b.procs[p], c.procs[p]);
      }
    }
  }
}
