/** `Manager.Mount`, `Manager.Unmount` and `Manager.List`, statement by statement, as one goroutine
    runs them: every atomic action is a step of the machine, and between two actions the rest of
    the node takes any number of steps of its own. */
module MountManager {
  import opened Wrappers
  import KeyMutex
  import opened MountMachine
  import opened MountSafety
  import opened MountRely

  datatype MountResult = Started(pid: Pid) | AlreadyMounted | MountFailed

  /** What a check of a mount point answers; `Corrupted` and `Failed` are errors. */
  datatype Check = NotMounted | Mounted | NotExist | Corrupted | Failed

  datatype MountInfo = MountInfo(volumeID: Vol, targetPath: Path, volumeContext: Context, readOnly: bool)

  function InfoOf(e: Entry): MountInfo {
    MountInfo(e.req.volumeID, e.req.targetPath, e.req.volumeContext, e.req.readOnly)
  }

  lemma RefsAreThreads(s: State)
    requires Inv(s)
    ensures forall t :: t !in s.threads ==> t !in s.locks.refs
  {
  }

  /** With one call about `v`, which is not inside yet, the lock of `v` is free. */
  lemma LockIsFree(s: State, t: Tid, v: Vol)
    requires Inv(s) && t in s.threads && s.threads[t].vol == v && s.threads[t].stage == Ref
    requires forall u :: u in s.threads && Calls(s.threads[u], v) ==> u == t
    ensures t in s.locks.refs && s.locks.refs[t].1 !in s.locks.owner
  {
  }

  lemma NoRefHasNone(s: State, t: Tid)
    requires Inv(s) && t in s.threads && s.threads[t].stage == NoRef
    ensures t !in s.locks.refs
  {
  }

  lemma HeldHolds(s: State, t: Tid)
    requires Inv(s) && t in s.threads && s.threads[t].stage == Held
    ensures KeyMutex.Holds(s.locks, t)
  {
  }

  /** The only process of `v` that can be in its start is the one its one call is starting. */
  lemma SoleStarts(s: State, t: Tid, th: Thread, p: Pid)
    requires Inv(s) && Sole(s, t, th) && p in s.procs && s.procs[p].vol == th.vol && s.procs[p].fate.Starting?
    ensures StartsProc(th, p)
  {
    var u := s.procs[p].fate.caller;
    assert ProcOk(s.mounts, s.threads, p, s.procs[p]);
    assert ThreadOk(s.mounts, s.procs, u, s.threads[u]);
  }

  /** The state `a` in which a call about `v` begins. */
  ghost predicate Origin(a: State, v: Vol) {
    NoStarting(v, a.procs) && forall p :: p in a.procs ==> p < a.nextPid
  }

  lemma QuietIsOrigin(s: State, v: Vol)
    requires Inv(s) && Calm(s, v)
    ensures Origin(s, v)
  {
    forall p | p in s.procs ensures p < s.nextPid && (s.procs[p].vol == v ==> !s.procs[p].fate.Starting?) {
      assert ProcOk(s.mounts, s.threads, p, s.procs[p]);
      if s.procs[p].vol == v {
        CalmHasNoStarting(s, v, p);
      }
    }
  }

  /** Process `pid`, the only one started since `a`, is about to mount at `x`, where nothing else can be. */
  ghost predicate Coming(v: Vol, x: Path, a: State, b: State, pid: Pid) {
    && OnlyNew(v, a, b, pid) && b.procs[pid].target == x
    && (x in b.table ==> b.table[x] == Fuse(pid))
  }

  lemma SparedKeepsComing(owner: Owner, v: Vol, a: State, b: State, c: State, x: Path, pid: Pid)
    requires Spared(owner, v, b, c) && owner.vol(x) == v && Coming(v, x, a, b, pid)
    requires forall q :: q in b.procs && b.procs[q].vol == v && b.procs[q].fate.Starting? ==> q == pid
    ensures Coming(v, x, a, c, pid)
  {
    OnlyNewStays(v, a, b, c, pid);
    assert PathRely(v, x, b, c);
    assert Later(b.procs[pid], c.procs[pid]);
    if x in c.table && !(x in b.table && b.table[x] == c.table[x]) {
      var q := c.table[x].pid;
      assert q in b.procs && Later(b.procs[q], c.procs[q]);
    }
  }

  /** The daemon behind the mount at `x` no longer answers. */
  predicate Dead(s: State, x: Path) {
    && x in s.table
    && match s.table[x]
       case Fuse(p) => Gone(s.procs, p)
       case Bind(Some(p), _) => Gone(s.procs, p)
       case Bind(None, _) => false
  }

  // ---- what a step of the one call of a volume does, after the others had their turn --------------

  function EntryOf(mounts: Mounts, v: Vol): Option<Entry> {
    if v in mounts then Some(mounts[v]) else None
  }

  function AfterLookUp(op: Op, entry: Option<Entry>): Loc {
    match (op, entry)
    case (Mount(req), Some(e)) => Select(req, e)
    case (Mount(req), None) => Clean(req)
    case (Unmount, Some(e)) => UStop(e)
    case (Unmount, None) => Leave
  }

  /** validateMountRequest */
  predicate RequestOk(req: MountRequest) {
    req.volumeID != "" && req.targetPath != "" && req.cacheDir != "" && req.localSocket != "" && req.mountArgs != []
  }

  /** The service has an entry of the volume, and its process has not exited. */
  predicate LiveEntry(s: State, v: Vol) {
    v in s.mounts && !Gone(s.procs, s.mounts[v].pid)
  }

  /** The process runs and is being started. */
  predicate IsStarting(procs: Procs, p: Pid) {
    PhaseIs(procs, p, Running) && procs[p].fate.Starting?
  }

  /** Whatever ran in `a` still runs in `b`. */
  ghost predicate Steady(a: Procs, b: Procs) {
    forall p :: PhaseIs(a, p, Running) ==> PhaseIs(b, p, Running)
  }

  /** Only an exit makes a process stop running. */
  lemma OnlyExitsStop(s: State, step: Step)
    requires Inv(s) && Enabled(s, step) && !step.ProcExit?
    ensures Steady(s.procs, Apply(s, step).procs)
  {
    StepEvolves(s, step);
    forall p | PhaseIs(s.procs, p, Running) ensures PhaseIs(Apply(s, step).procs, p, Running) {
      assert ProcOk(s.mounts, s.threads, p, s.procs[p]);
      if step.StartProc? || step.StopOk? || step.StopTimeout? || step.InsertEntry? {
        CallStepsKeepPhase(s, step, p);
      }
    }
  }

  lemma CallStepsKeepPhase(s: State, step: Step, p: Pid)
    requires Enabled(s, step) && (step.StartProc? || step.StopOk? || step.StopTimeout? || step.InsertEntry?)
    requires p in s.procs && p < s.nextPid
    ensures p in Apply(s, step).procs && Apply(s, step).procs[p].phase == s.procs[p].phase
  {
  }

  lemma NotGoneAtStart(a: State, b: State, p: Pid)
    requires Evolves(a.procs, b.procs) && !Gone(b.procs, p)
    ensures !Gone(a.procs, p)
  {
    if Gone(a.procs, p) {
      StaysGone(a.procs, b.procs, p);
    }
  }

  /** Every process of the volume that was recorded has finished for good. */
  ghost predicate RecordedAreDone(s: State, v: Vol) {
    forall p :: p in s.procs && s.procs[p].vol == v && s.procs[p].fate == Recorded ==> s.procs[p].phase == Done
  }

  lemma NoEntryNoProcess(s: State, v: Vol)
    requires Inv(s) && v !in s.mounts
    ensures RecordedAreDone(s, v)
  {
    forall p | p in s.procs && s.procs[p].vol == v && s.procs[p].fate == Recorded ensures s.procs[p].phase == Done {
      assert ProcOk(s.mounts, s.threads, p, s.procs[p]);
    }
  }

  /** A step that spares the volume, after others had their turn. */
  lemma OwnStep(owner: Owner, v: Vol, a: State, b: State, step: Step)
    requires Inv(b) && Separate(owner, b) && Spared(owner, v, a, b)
    requires Enabled(b, step) && !step.Call? && Spared(owner, v, b, Apply(b, step))
    ensures Inv(Apply(b, step)) && Separate(owner, Apply(b, step)) && Spared(owner, v, a, Apply(b, step))
  {
    StepKeepsInv(b, step);
    StepKeepsSeparate(owner, b, step);
    SparedTrans(owner, v, a, b, Apply(b, step));
  }

  lemma LockMoves(owner: Owner, b: State, t: Tid, v: Vol, op: Op)
    requires Sole(b, t, Thread(v, Ref, Begin(op))) && t in b.locks.refs && b.locks.refs[t].1 !in b.locks.owner
    ensures Enabled(b, Lock(t)) && DoLock(b, t) == Apply(b, Lock(t))
    ensures Spared(owner, v, b, DoLock(b, t)) && Sole(DoLock(b, t), t, Thread(v, Held, Lookup(op)))
  {
    LocksAndThreadsSpare(owner, v, b, DoLock(b, t));
  }

  lemma LockFacts(owner: Owner, v: Vol, a: State, b: State, t: Tid, op: Op)
    requires Inv(b) && Separate(owner, b) && Rely(owner, v, a, b) && Sole(a, t, Thread(v, Ref, Begin(op)))
    ensures Enabled(b, Lock(t)) && Inv(DoLock(b, t)) && Separate(owner, DoLock(b, t))
    ensures Spared(owner, v, a, DoLock(b, t)) && Sole(DoLock(b, t), t, Thread(v, Held, Lookup(op)))
  {
    RelyKeepsSole(owner, v, a, b, t, Thread(v, Ref, Begin(op)));
    LockIsFree(b, t, v);
    LockMoves(owner, b, t, v, op);
    OwnStep(owner, v, a, b, Lock(t));
  }

  lemma LookUpMoves(owner: Owner, b: State, t: Tid, v: Vol, op: Op)
    requires Sole(b, t, Thread(v, Held, Lookup(op)))
    ensures Enabled(b, LookUp(t)) && DoLookUp(b, t) == Apply(b, LookUp(t))
    ensures Spared(owner, v, b, DoLookUp(b, t)) && DoLookUp(b, t).mounts == b.mounts
    ensures Sole(DoLookUp(b, t), t, Thread(v, Held, AfterLookUp(op, EntryOf(b.mounts, v))))
  {
    LocksAndThreadsSpare(owner, v, b, DoLookUp(b, t));
  }

  lemma LookUpFacts(owner: Owner, v: Vol, a: State, b: State, t: Tid, op: Op)
    requires Inv(b) && Separate(owner, b) && Rely(owner, v, a, b) && Sole(a, t, Thread(v, Held, Lookup(op)))
    ensures Enabled(b, LookUp(t)) && Inv(DoLookUp(b, t)) && Separate(owner, DoLookUp(b, t))
    ensures Spared(owner, v, a, DoLookUp(b, t)) && DoLookUp(b, t).mounts == b.mounts
    ensures Sole(DoLookUp(b, t), t, Thread(v, Held, AfterLookUp(op, EntryOf(b.mounts, v))))
  {
    RelyKeepsSole(owner, v, a, b, t, Thread(v, Held, Lookup(op)));
    LookUpMoves(owner, b, t, v, op);
    OwnStep(owner, v, a, b, LookUp(t));
  }

  lemma RemoveMoves(owner: Owner, b: State, t: Tid, v: Vol, at: Loc)
    requires Sole(b, t, Thread(v, Held, at)) && (at.Replace? || at.URemove?)
    ensures Enabled(b, Remove(t)) && DoRemove(b, t) == Apply(b, Remove(t))
    ensures Spared(owner, v, b, DoRemove(b, t)) && v !in DoRemove(b, t).mounts
    ensures Sole(DoRemove(b, t), t, Thread(v, Held, if at.Replace? then Clean(at.req) else Leave))
  {
  }

  lemma RemoveFacts(owner: Owner, v: Vol, a: State, b: State, t: Tid, at: Loc)
    requires Inv(b) && Separate(owner, b) && Rely(owner, v, a, b) && Sole(a, t, Thread(v, Held, at)) && (at.Replace? || at.URemove?)
    ensures Enabled(b, Remove(t)) && Inv(DoRemove(b, t)) && Separate(owner, DoRemove(b, t))
    ensures Spared(owner, v, a, DoRemove(b, t)) && v !in DoRemove(b, t).mounts
    ensures Sole(DoRemove(b, t), t, Thread(v, Held, if at.Replace? then Clean(at.req) else Leave))
  {
    RelyKeepsSole(owner, v, a, b, t, Thread(v, Held, at));
    RemoveMoves(owner, b, t, v, at);
    OwnStep(owner, v, a, b, Remove(t));
  }

  lemma StaysGone(a: Procs, b: Procs, p: Pid)
    requires Evolves(a, b) && Gone(a, p)
    ensures Gone(b, p)
  {
    assert Later(a[p], b[p]);
  }

  lemma ExitedUnmounts(owner: Owner, v: Vol, a: State, b: State, p: Pid, ok: bool)
    requires Inv(b) && Separate(owner, b) && Rely(owner, v, a, b) && PhaseIs(b.procs, p, Exited)
    ensures Enabled(b, ProcUnmount(p, ok))
    ensures var c := Apply(b, ProcUnmount(p, ok));
            Inv(c) && Separate(owner, c) && Rely(owner, v, a, c) && PhaseIs(c.procs, p, Unmounted)
  {
    ForeignStepRely(owner, v, b, ProcUnmount(p, ok));
    RelyTrans(owner, v, a, b, Apply(b, ProcUnmount(p, ok)));
  }

  lemma EntryInHand(s: State, t: Tid, v: Vol, entry: Entry)
    requires Inv(s) && Sole(s, t, Thread(v, Held, UStop(entry)))
    ensures entry.pid in s.procs
  {
    assert ThreadOk(s.mounts, s.procs, t, s.threads[t]);
  }

  lemma StopMoves(owner: Owner, b: State, t: Tid, v: Vol, entry: Entry, ok: bool)
    requires Sole(b, t, Thread(v, Held, UStop(entry))) && (ok ==> PhaseIs(b.procs, entry.pid, Done))
    ensures Enabled(b, if ok then StopOk(t) else StopTimeout(t))
    ensures var c := if ok then DoStopOk(b, t) else DoStopTimeout(b, t);
            && c == Apply(b, if ok then StopOk(t) else StopTimeout(t))
            && Spared(owner, v, b, c) && Sole(c, t, Thread(v, Held, if ok then URemove(entry) else Leave))
  {
    LocksAndThreadsSpare(owner, v, b, if ok then DoStopOk(b, t) else DoStopTimeout(b, t));
  }

  lemma StopFacts(owner: Owner, v: Vol, a: State, b: State, t: Tid, entry: Entry, ok: bool)
    requires Inv(b) && Separate(owner, b) && Rely(owner, v, a, b) && Sole(a, t, Thread(v, Held, UStop(entry)))
    requires ok ==> PhaseIs(b.procs, entry.pid, Done)
    ensures Enabled(b, if ok then StopOk(t) else StopTimeout(t))
    ensures var c := if ok then DoStopOk(b, t) else DoStopTimeout(b, t);
            Inv(c) && Separate(owner, c) && Spared(owner, v, a, c) && Sole(c, t, Thread(v, Held, if ok then URemove(entry) else Leave))
  {
    RelyKeepsSole(owner, v, a, b, t, Thread(v, Held, UStop(entry)));
    StopMoves(owner, b, t, v, entry, ok);
    OwnStep(owner, v, a, b, if ok then StopOk(t) else StopTimeout(t));
  }

  // ---- the same for a step of Mount, which may change the volume at the target `x` ----------------

  /** From `a` on, the call has touched the volume at `x` only. */
  ghost predicate Since(owner: Owner, v: Vol, x: Path, a: State, b: State) {
    Origin(a, v) && OnlyAt(owner, v, x, a, b)
  }

  lemma SinceSpared(owner: Owner, v: Vol, x: Path, a: State, b: State, c: State)
    requires Since(owner, v, x, a, b) && Spared(owner, v, b, c)
    ensures Since(owner, v, x, a, c)
  {
    OnlyAtThenSpared(owner, v, x, a, b, c);
  }

  lemma SinceStart(owner: Owner, v: Vol, x: Path, a: State, b: State)
    requires Inv(a) && Calm(a, v) && Spared(owner, v, a, b)
    ensures Before(owner, v, x, a, b)
  {
    QuietIsOrigin(a, v);
    OnlyAtRefl(owner, v, x, a);
    BeforeSpared(owner, v, x, a, a, b);
  }

  /** From `a` on, the call has started nothing yet. */
  ghost predicate Before(owner: Owner, v: Vol, x: Path, a: State, b: State) {
    Since(owner, v, x, a, b) && NoneNew(v, a, b)
  }

  lemma BeforeSpared(owner: Owner, v: Vol, x: Path, a: State, b: State, c: State)
    requires Before(owner, v, x, a, b) && Spared(owner, v, b, c)
    ensures Before(owner, v, x, a, c)
  {
    SinceSpared(owner, v, x, a, b, c);
    forall q | q in c.procs && c.procs[q].vol == v ensures q in a.procs {
      assert Later(b.procs[q], c.procs[q]);
    }
  }

  /** Somebody changes what is mounted at `x`. */
  lemma SinceTable(owner: Owner, v: Vol, x: Path, a: State, b: State, table: map<Path, Mnt>)
    requires Since(owner, v, x, a, b)
    requires forall y :: y != x ==> (y in table <==> y in b.table) && (y in table ==> table[y] == b.table[y])
    ensures Since(owner, v, x, a, b.(table := table))
  {
    OnlyAtThenOwn(owner, v, x, a, b, b.(table := table));
  }

  /** While the call of the volume is not starting a process, nothing appears on a path of the volume. */
  lemma StaysClean(owner: Owner, v: Vol, a: State, b: State, t: Tid, th: Thread, x: Path)
    requires Inv(a) && Sole(a, t, th) && th.vol == v && !(th.at.Wait? || th.at.Stop? || th.at.Insert?)
    requires Spared(owner, v, a, b) && owner.vol(x) == v && x !in a.table
    ensures x !in b.table
  {
    forall p | p in a.procs && a.procs[p].vol == v && a.procs[p].target == x ensures !a.procs[p].fate.Starting? {
      if a.procs[p].fate.Starting? {
        SoleStarts(a, t, th, p);
      }
    }
    SparedIsKept(owner, v, a, b, x);
  }

  lemma HopMoves(owner: Owner, b: State, t: Tid, th: Thread, at: Loc)
    requires Sole(b, t, th) && Calls(th, th.vol) && !at.Watch?
    ensures Spared(owner, th.vol, b, Goto(b, t, at)) && Sole(Goto(b, t, at), t, th.(at := at))
  {
    LocksAndThreadsSpare(owner, th.vol, b, Goto(b, t, at));
  }

  lemma SelectFacts(owner: Owner, v: Vol, a: State, b: State, t: Tid, req: MountRequest, e: Entry)
    requires Inv(b) && Separate(owner, b) && Rely(owner, v, a, b) && Sole(a, t, Thread(v, Held, Select(req, e)))
    ensures Enabled(b, SelectExited(t)) && Inv(DoSelect(b, t)) && Separate(owner, DoSelect(b, t)) && Spared(owner, v, a, DoSelect(b, t))
    ensures Sole(DoSelect(b, t), t, Thread(v, Held, if Gone(b.procs, e.pid) then Loc.AwaitDone(req, e) else Leave))
    ensures DoSelect(b, t).procs == b.procs
  {
    RelyKeepsSole(owner, v, a, b, t, Thread(v, Held, Select(req, e)));
    HopMoves(owner, b, t, Thread(v, Held, Select(req, e)), if Gone(b.procs, e.pid) then Loc.AwaitDone(req, e) else Leave);
    OwnStep(owner, v, a, b, SelectExited(t));
  }

  lemma DoneSeenFacts(owner: Owner, v: Vol, a: State, b: State, t: Tid, req: MountRequest, e: Entry)
    requires Inv(b) && Separate(owner, b) && Rely(owner, v, a, b) && Sole(a, t, Thread(v, Held, Loc.AwaitDone(req, e)))
    requires PhaseIs(b.procs, e.pid, Done)
    ensures t in b.threads && Inv(Goto(b, t, Replace(req, e))) && Separate(owner, Goto(b, t, Replace(req, e)))
    ensures Spared(owner, v, a, Goto(b, t, Replace(req, e))) && Sole(Goto(b, t, Replace(req, e)), t, Thread(v, Held, Replace(req, e)))
  {
    RelyKeepsSole(owner, v, a, b, t, Thread(v, Held, Loc.AwaitDone(req, e)));
    HopMoves(owner, b, t, Thread(v, Held, Loc.AwaitDone(req, e)), Replace(req, e));
    OwnStep(owner, v, a, b, DoneSeen(t));
  }

  /** From a clean target to the point before cmd.Start, or out. */
  lemma HopFacts(owner: Owner, v: Vol, x: Path, a: State, b: State, t: Tid, from: Loc, step: Step, at: Loc)
    requires Inv(b) && Separate(owner, b) && Since(owner, v, x, a, b) && Sole(b, t, Thread(v, Held, from)) && !at.Watch?
    requires Enabled(b, step) && !step.Call? && Apply(b, step) == Goto(b, t, at) && !from.Watch?
    ensures Inv(Goto(b, t, at)) && Separate(owner, Goto(b, t, at)) && Since(owner, v, x, a, Goto(b, t, at))
    ensures Sole(Goto(b, t, at), t, Thread(v, Held, at))
  {
    HopMoves(owner, b, t, Thread(v, Held, from), at);
    StepKeepsInv(b, step);
    StepKeepsSeparate(owner, b, step);
    SinceSpared(owner, v, x, a, b, Goto(b, t, at));
  }

  lemma StartMoves(b: State, t: Tid, v: Vol, req: MountRequest)
    requires Sole(b, t, Thread(v, Held, Start(req))) && ProcsInv(b.mounts, b.procs, b.threads, b.nextPid) && req.targetPath !in b.table
    ensures Enabled(b, StartProc(t)) && Apply(b, StartProc(t)) == DoStart(b, t)
    ensures Sole(DoStart(b, t), t, Thread(v, Held, Wait(req, b.nextPid)))
    ensures Evolves(b.procs, DoStart(b, t).procs) && DoStart(b, t).table == b.table && DoStart(b, t).nextPid == b.nextPid + 1
    ensures DoStart(b, t).procs == b.procs[b.nextPid := Proc(v, req.targetPath, Running, Starting(t))]
  {
    StartEvolves(b, t);
  }

  lemma SinceStarted(owner: Owner, v: Vol, a: State, b: State, c: State, x: Path, t: Tid)
    requires Since(owner, v, x, a, b) && Evolves(b.procs, c.procs) && c.table == b.table && c.nextPid == b.nextPid + 1
    requires c.procs == b.procs[b.nextPid := Proc(v, x, Running, Starting(t))]
    ensures Since(owner, v, x, a, c)
  {
    OnlyAtThenOwn(owner, v, x, a, b, c);
  }

  lemma StartedIsComing(owner: Owner, v: Vol, a: State, b: State, c: State, x: Path, t: Tid)
    requires Before(owner, v, x, a, b) && c.table == b.table && x !in b.table
    requires c.procs == b.procs[b.nextPid := Proc(v, x, Running, Starting(t))]
    ensures Coming(v, x, a, c, b.nextPid)
  {
    forall q | q in c.procs && c.procs[q].vol == v && q != b.nextPid ensures q in a.procs && q < b.nextPid {
      assert q in b.procs && b.procs[q].vol == v;
    }
  }

  lemma StartFacts(owner: Owner, v: Vol, a: State, b: State, t: Tid, req: MountRequest)
    requires Inv(b) && Separate(owner, b) && Before(owner, v, req.targetPath, a, b) && Sole(b, t, Thread(v, Held, Start(req)))
    requires req.targetPath !in b.table
    ensures Enabled(b, StartProc(t)) && Inv(DoStart(b, t)) && Separate(owner, DoStart(b, t))
    ensures Since(owner, v, req.targetPath, a, DoStart(b, t)) && Sole(DoStart(b, t), t, Thread(v, Held, Wait(req, b.nextPid)))
    ensures Coming(v, req.targetPath, a, DoStart(b, t), b.nextPid)
  {
    StartMoves(b, t, v, req);
    StepKeepsInv(b, StartProc(t));
    StepKeepsSeparate(owner, b, StartProc(t));
    SinceStarted(owner, v, a, b, DoStart(b, t), req.targetPath, t);
    StartedIsComing(owner, v, a, b, DoStart(b, t), req.targetPath, t);
  }

  /** The process that call `t` is starting is the only one of the volume that may mount. */
  lemma OnlyOwnStarts(s: State, t: Tid, th: Thread, pid: Pid)
    requires Inv(s) && Sole(s, t, th) && StartsProc(th, pid)
    ensures forall q :: q in s.procs && s.procs[q].vol == th.vol && s.procs[q].fate.Starting? ==> q == pid
  {
    forall q | q in s.procs && s.procs[q].vol == th.vol && s.procs[q].fate.Starting? ensures q == pid {
      SoleStarts(s, t, th, q);
    }
  }

  lemma WaitFacts(owner: Owner, v: Vol, a: State, b: State, c: State, t: Tid, req: MountRequest, pid: Pid)
    requires Inv(b) && Inv(c) && Rely(owner, v, b, c) && Since(owner, v, req.targetPath, a, b) && owner.vol(req.targetPath) == v
    requires Sole(b, t, Thread(v, Held, Wait(req, pid))) && Coming(v, req.targetPath, a, b, pid)
    ensures Sole(c, t, Thread(v, Held, Wait(req, pid))) && Coming(v, req.targetPath, a, c, pid) && Since(owner, v, req.targetPath, a, c)
  {
    OnlyOwnStarts(b, t, Thread(v, Held, Wait(req, pid)), pid);
    SparedKeepsComing(owner, v, a, b, c, req.targetPath, pid);
    RelyKeepsSole(owner, v, b, c, t, Thread(v, Held, Wait(req, pid)));
    SinceSpared(owner, v, req.targetPath, a, b, c);
  }

  /** stop() after a mount that did not come up. */
  lemma FailMoves(b: State, t: Tid, v: Vol, req: MountRequest, pid: Pid, ok: bool)
    requires ThreadsInv(b.mounts, b.procs, b.threads) && Sole(b, t, Thread(v, Held, Stop(req, pid))) && (ok ==> PhaseIs(b.procs, pid, Done))
    ensures Enabled(b, if ok then StopOk(t) else StopTimeout(t))
    ensures var c := if ok then DoStopOk(b, t) else DoStopTimeout(b, t);
            && c == Apply(b, if ok then StopOk(t) else StopTimeout(t))
            && Sole(c, t, Thread(v, Held, Leave)) && c.table == b.table && c.nextPid == b.nextPid
            && c.procs == SetFate(b.procs, pid, if ok then Stopped else Abandoned) && b.procs[pid].fate.Starting?
  {
    assert ThreadOk(b.mounts, b.procs, t, b.threads[t]);
  }

  /** The fate of a process started since `a` is settled. */
  lemma SinceSettled(owner: Owner, v: Vol, x: Path, a: State, b: State, c: State, pid: Pid, fate: Fate)
    requires Since(owner, v, x, a, b) && a.nextPid <= pid && pid in b.procs && b.procs[pid].fate.Starting? && !fate.Starting?
    requires c.procs == SetFate(b.procs, pid, fate) && c.table == b.table && c.nextPid == b.nextPid
    ensures Since(owner, v, x, a, c)
  {
    FateEvolves(b.procs, pid, fate);
    OnlyAtThenOwn(owner, v, x, a, b, c);
  }

  lemma FailFacts(owner: Owner, v: Vol, a: State, b: State, t: Tid, req: MountRequest, pid: Pid, ok: bool)
    requires Inv(b) && Separate(owner, b) && Since(owner, v, req.targetPath, a, b) && a.nextPid <= pid
    requires Sole(b, t, Thread(v, Held, Stop(req, pid))) && (ok ==> PhaseIs(b.procs, pid, Done))
    ensures Enabled(b, if ok then StopOk(t) else StopTimeout(t))
    ensures var c := if ok then DoStopOk(b, t) else DoStopTimeout(b, t);
            Inv(c) && Separate(owner, c) && Since(owner, v, req.targetPath, a, c) && Sole(c, t, Thread(v, Held, Leave))
  {
    var step := if ok then StopOk(t) else StopTimeout(t);
    FailMoves(b, t, v, req, pid, ok);
    StepKeepsInv(b, step);
    StepKeepsSeparate(owner, b, step);
    SinceSettled(owner, v, req.targetPath, a, b, Apply(b, step), pid, if ok then Stopped else Abandoned);
  }

  /** What a Mount that began in `a` and was successful has brought about. */
  ghost predicate Up(v: Vol, req: MountRequest, a: State, b: State, pid: Pid) {
    && Carries(v, req.targetPath, a, b, pid)
    && b.procs[pid].fate == Recorded
    && (v in b.mounts ==> b.mounts[v] == Entry(req, pid))
  }

  lemma SparedKeepsUp(owner: Owner, v: Vol, a: State, b: State, c: State, req: MountRequest, pid: Pid)
    requires Inv(b) && Evolves(a.procs, b.procs) && Spared(owner, v, b, c) && owner.vol(req.targetPath) == v && Up(v, req, a, b, pid)
    requires NoStarting(v, b.procs)
    ensures Up(v, req, a, c, pid)
  {
    SparedKeepsCarries(owner, v, a, b, c, req.targetPath, pid);
    assert Later(b.procs[pid], c.procs[pid]);
  }

  lemma RecordedIsUp(v: Vol, req: MountRequest, a: State, b: State, c: State, pid: Pid)
    requires Carries(v, req.targetPath, a, b, pid) && c.table == b.table && c.procs == SetFate(b.procs, pid, Recorded)
    requires v in c.mounts && c.mounts[v] == Entry(req, pid)
    ensures Up(v, req, a, c, pid)
  {
    if req.targetPath !in b.table && !Gone(b.procs, pid) {
      var q: Pid :| TakenBy(v, req.targetPath, a, b, q);
      assert TakenBy(v, req.targetPath, a, c, q);
    }
  }

  lemma InsertMoves(b: State, t: Tid, v: Vol, req: MountRequest, pid: Pid)
    requires ThreadsInv(b.mounts, b.procs, b.threads) && Sole(b, t, Thread(v, Held, Insert(req, pid))) && pid in b.procs
    ensures Enabled(b, InsertEntry(t)) && Apply(b, InsertEntry(t)) == DoInsert(b, t)
    ensures Sole(DoInsert(b, t), t, Thread(v, Held, Spawn(Entry(req, pid))))
    ensures v in DoInsert(b, t).mounts && DoInsert(b, t).mounts[v] == Entry(req, pid)
    ensures DoInsert(b, t).table == b.table && DoInsert(b, t).nextPid == b.nextPid
    ensures DoInsert(b, t).procs == SetFate(b.procs, pid, Recorded) && b.procs[pid].fate.Starting?
  {
    assert ThreadOk(b.mounts, b.procs, t, b.threads[t]);
  }

  lemma InsertFacts(owner: Owner, v: Vol, a: State, b: State, t: Tid, req: MountRequest, pid: Pid)
    requires Inv(b) && Separate(owner, b) && Since(owner, v, req.targetPath, a, b)
    requires Sole(b, t, Thread(v, Held, Insert(req, pid))) && Carries(v, req.targetPath, a, b, pid)
    ensures Enabled(b, InsertEntry(t)) && Inv(DoInsert(b, t)) && Separate(owner, DoInsert(b, t))
    ensures Since(owner, v, req.targetPath, a, DoInsert(b, t)) && Sole(DoInsert(b, t), t, Thread(v, Held, Spawn(Entry(req, pid))))
    ensures Up(v, req, a, DoInsert(b, t), pid)
  {
    InsertMoves(b, t, v, req, pid);
    RecordedIsUp(v, req, a, b, DoInsert(b, t), pid);
    StepKeepsInv(b, InsertEntry(t));
    StepKeepsSeparate(owner, b, InsertEntry(t));
    SinceSettled(owner, v, req.targetPath, a, b, DoInsert(b, t), pid, Recorded);
  }

  lemma SpawnMoves(owner: Owner, v: Vol, b: State, t: Tid, w: Tid, entry: Entry)
    requires Sole(b, t, Thread(v, Held, Spawn(entry))) && w !in b.threads && w !in b.locks.refs
    ensures Enabled(b, SpawnWatcher(t, w)) && Apply(b, SpawnWatcher(t, w)) == DoSpawn(b, t, w)
    ensures Spared(owner, v, b, DoSpawn(b, t, w)) && Sole(DoSpawn(b, t, w), t, Thread(v, Held, Leave))
  {
    LocksAndThreadsSpare(owner, v, b, DoSpawn(b, t, w));
  }

  lemma SpawnFacts(owner: Owner, v: Vol, b: State, t: Tid, w: Tid, entry: Entry)
    requires Inv(b) && Separate(owner, b) && Sole(b, t, Thread(v, Held, Spawn(entry))) && w !in b.threads && w !in b.locks.refs
    ensures Enabled(b, SpawnWatcher(t, w)) && Inv(DoSpawn(b, t, w)) && Separate(owner, DoSpawn(b, t, w))
    ensures Spared(owner, v, b, DoSpawn(b, t, w)) && Sole(DoSpawn(b, t, w), t, Thread(v, Held, Leave))
  {
    SpawnMoves(owner, v, b, t, w, entry);
    StepKeepsInv(b, SpawnWatcher(t, w));
    StepKeepsSeparate(owner, b, SpawnWatcher(t, w));
  }

  /** The host: the mount service and the kernel's mount table. `remote` is what is stored for each
      volume; only RemoveAll in the node plugin touches it. `quota` is what the mount of a volume was last
      told about its capacity. */
  class Host {
    const owner: Owner
    const reliable: bool  // no system call fails, and no directory is missing
    const smooth: bool    // weed processes mount in time, exit only when they are told to, and then in time
    const hung: set<Path> // where a daemon is alive but does not answer statfs in time
    const cached: set<Path> // where the kernel answers a stat for a dead daemon, from cached attributes
    var m: State
    var remote: map<Vol, set<string>>
    var quota: map<Vol, int>

    ghost predicate Valid() reads this`m {
      Inv(m) && Separate(owner, m)
    }

    /** Nothing fails that could fail. */
    predicate Ideal() {
      reliable && smooth
    }

    /** Nobody runs Mount or Unmount for `v`. */
    ghost predicate Quiet(v: Vol) reads this`m {
      Valid() && Calm(m, v)
    }

    /** Call `t` is inside Mount or Unmount of `v`, alone. */
    ghost predicate In(t: Tid, v: Vol, at: Loc) reads this`m {
      Valid() && Sole(m, t, Thread(v, Held, at))
    }

    constructor (owner: Owner, reliable: bool, smooth: bool, hung: set<Path>, cached: set<Path>)
      ensures Valid() && m == INIT && this.owner == owner && this.reliable == reliable && this.smooth == smooth && this.hung == hung && this.cached == cached && remote == map[] && quota == map[]
    {
      this.owner, this.reliable, this.smooth, this.hung, this.cached := owner, reliable, smooth, hung, cached;
      m := INIT;
      remote, quota := map[], map[];
    }

    /** One step, by whoever takes it. */
    method Take(step: Step)
      requires Valid() && Enabled(m, step)
      requires step.Call? && step.op.Mount? ==> Stages(owner, step.vol, step.op.req.targetPath)
      modifies this`m
      ensures Valid() && m == Apply(old(m), step)
    {
      StepKeepsInv(m, step);
      StepKeepsSeparate(owner, m, step);
      m := Apply(m, step);
    }

    /** One step of the rest of the node, as volume `v` sees it. */
    method Elsewhere(v: Vol, step: Step)
      requires Valid() && Foreign(owner, v, m, step)
      modifies this`m
      ensures Valid() && m == Apply(old(m), step) && Rely(owner, v, old(m), m)
    {
      ForeignStepRely(owner, v, m, step);
      m := Apply(m, step);
    }

    /** The rest of the node goes on for a while. */
    method Others(v: Vol)
      requires Valid()
      modifies this`m
      ensures Valid() && Rely(owner, v, old(m), m) && (smooth ==> Steady(old(m).procs, m.procs))
    {
      var n: nat := *;
      RelyRefl(owner, v, m);
      while n > 0
        invariant Valid() && Rely(owner, v, old(m), m) && (smooth ==> Steady(old(m).procs, m.procs))
      {
        var step: Step := *;
        if Foreign(owner, v, m, step) && !(smooth && step.ProcExit?) {
          ghost var before := m;
          if !step.ProcExit? {
            OnlyExitsStop(m, step);
          }
          Elsewhere(v, step);
          RelyTrans(owner, v, old(m), before, m);
        }
        n := n - 1;
      }
    }

    method NewGoroutine() returns (t: Tid)
      requires Valid()
      ensures t !in m.threads && t !in m.locks.refs
    {
      RefsAreThreads(m);
      ghost var unused := KeyMutex.UnusedTid(m.threads.Keys);
      t :| t !in m.threads;
    }

    // ---- the frame of every call -------------------------------------------------------------

    method Register(v: Vol, op: Op) returns (t: Tid)
      requires Quiet(v) && (op.Mount? ==> op.req.volumeID == v && Stages(owner, v, op.req.targetPath))
      modifies this`m
      ensures Valid() && Sole(m, t, Thread(v, NoRef, Begin(op))) && t !in m.locks.refs && Spared(owner, v, old(m), m)
    {
      t := NewGoroutine();
      Take(Call(t, v, op));
      LocksAndThreadsSpare(owner, v, old(m), m);
    }

    /** The call looks its lock up in the map; between that and locking it anything can happen. */
    method GetRef(t: Tid, v: Vol, op: Op)
      requires Valid() && Sole(m, t, Thread(v, NoRef, Begin(op)))
      modifies this`m
      ensures Valid() && Sole(m, t, Thread(v, Ref, Begin(op))) && Spared(owner, v, old(m), m)
    {
      Others(v);
      ghost var before := m;
      RelyKeepsSole(owner, v, old(m), m, t, Thread(v, NoRef, Begin(op)));
      NoRefHasNone(m, t);
      Take(Step.GetLock(t));
      LocksAndThreadsSpare(owner, v, before, m);
      SparedTrans(owner, v, old(m), before, m);
    }

    /** The call waits for its turn. Nobody else works on the volume, so the lock is free. */
    method GrabLock(t: Tid, v: Vol, op: Op)
      requires Valid() && Sole(m, t, Thread(v, Ref, Begin(op)))
      modifies this`m
      ensures In(t, v, Lookup(op)) && Spared(owner, v, old(m), m)
    {
      Others(v);
      LockFacts(owner, v, old(m), m, t, op);
      m := DoLock(m, t);
    }

    /** From the registration of a call to the point where it has the lock of its volume. */
    method Enter(v: Vol, op: Op) returns (t: Tid)
      requires Quiet(v) && (op.Mount? ==> op.req.volumeID == v && Stages(owner, v, op.req.targetPath))
      modifies this`m
      ensures In(t, v, Lookup(op)) && Spared(owner, v, old(m), m)
    {
      t := Register(v, op);
      ghost var s1 := m;
      GetRef(t, v, op);
      ghost var s2 := m;
      SparedTrans(owner, v, old(m), s1, s2);
      GrabLock(t, v, op);
      SparedTrans(owner, v, old(m), s2, m);
    }

    /** One look at the map, under `mu`, decides how the call goes on. */
    method LookUpEntry(t: Tid, v: Vol, op: Op) returns (entry: Option<Entry>)
      requires In(t, v, Lookup(op))
      modifies this`m
      ensures Valid() && Spared(owner, v, old(m), m)
      ensures entry == EntryOf(m.mounts, v)
      ensures Sole(m, t, Thread(v, Held, AfterLookUp(op, entry)))
    {
      Others(v);
      LookUpFacts(owner, v, old(m), m, t, op);
      entry := EntryOf(m.mounts, v);
      m := DoLookUp(m, t);
    }

    /** The entry of the volume leaves the map. */
    method RemoveEntry(t: Tid, v: Vol, at: Loc)
      requires In(t, v, at) && (at.Replace? || at.URemove?)
      modifies this`m
      ensures In(t, v, if at.Replace? then Clean(at.req) else Leave) && Spared(owner, v, old(m), m)
      ensures v !in m.mounts
    {
      Others(v);
      RemoveFacts(owner, v, old(m), m, t, at);
      m := DoRemove(m, t);
    }

    /** The call is over and gives the lock back. */
    method Exit(t: Tid, v: Vol)
      requires In(t, v, Leave)
      modifies this`m
      ensures Quiet(v) && Spared(owner, v, old(m), m) && (smooth ==> Steady(old(m).procs, m.procs))
    {
      Others(v);
      ghost var before := m;
      RelyKeepsSole(owner, v, old(m), m, t, Thread(v, Held, Leave));
      HeldHolds(m, t);
      Take(Unlock(t));
      LocksAndThreadsSpare(owner, v, before, m);
      SparedTrans(owner, v, old(m), before, m);
    }

    // ---- system calls and process control ------------------------------------------------------

    /** IsLikelyNotMountPoint of the mount library: errors at will, but no wrong answer. */
    method IsLikelyNotMountPoint(x: Path) returns (c: Check)
      ensures c.NotMounted? || c.NotExist? ==> x !in m.table
      ensures c.Mounted? ==> x in m.table && (Dead(m, x) ==> x in cached)
      ensures c.Corrupted? ==> Dead(m, x)
      ensures reliable ==> !c.Failed? && !c.NotExist?
    {
      if !reliable {
        if * {
          return Failed;
        }
        if x !in m.table {
          if * {
            return NotExist;
          }
        }
      }
      if x !in m.table {
        c := NotMounted;
      } else {
        c := if Dead(m, x) && x !in cached then Corrupted else Mounted;
      }
    }

    /** An attempt to unmount a path, plain or lazy. */
    method Detach(x: Path) returns (ok: bool)
      requires Valid()
      modifies this`m
      ensures Valid() && m == (if ok then old(m).(table := old(m).table - {x}) else old(m)) && (reliable ==> ok)
    {
      ok := *;
      ok := ok || reliable;
      if ok {
        Take(Kernel(x, None));
      }
    }

    /** The wait() of a process that has exited unmounts its target, or fails to. */
    method TakeUnmount(v: Vol, p: Pid)
      requires Valid() && PhaseIs(m.procs, p, Exited)
      modifies this`m
      ensures Valid() && Rely(owner, v, old(m), m) && PhaseIs(m.procs, p, Unmounted)
    {
      var ok: bool := *;
      RelyRefl(owner, v, m);
      ExitedUnmounts(owner, v, m, m, p, ok);
      m := Apply(m, ProcUnmount(p, ok));
    }

    method UnmountIfExited(v: Vol, p: Pid)
      requires Valid() && Gone(m.procs, p)
      modifies this`m
      ensures Valid() && Rely(owner, v, old(m), m) && p in m.procs && Rank(m.procs[p].phase) >= 2
    {
      RelyRefl(owner, v, m);
      if m.procs[p].phase == Exited {
        TakeUnmount(v, p);
      }
    }

    /** The process has exited: its wait() gets as far as the unmount of its target. */
    method AwaitUnmount(v: Vol, p: Pid)
      requires Valid() && Gone(m.procs, p)
      modifies this`m
      ensures Valid() && Rely(owner, v, old(m), m) && p in m.procs && Rank(m.procs[p].phase) >= 2
    {
      ghost var s0 := m;
      Others(v);
      ghost var s1 := m;
      StaysGone(s0.procs, s1.procs, p);
      UnmountIfExited(v, p);
      RelyTrans(owner, v, s0, s1, m);
    }

    /** The call waits for `done` of a process that has exited; its wait() runs to the end meanwhile. */
    method AwaitDone(v: Vol, p: Pid)
      requires Valid() && Gone(m.procs, p)
      modifies this`m
      ensures Valid() && Rely(owner, v, old(m), m) && PhaseIs(m.procs, p, Done)
    {
      ghost var s0 := m;
      AwaitUnmount(v, p);
      ghost var s1 := m;
      if m.procs[p].phase == Unmounted {
        Elsewhere(v, ProcDone(p));
        RelyTrans(owner, v, s0, s1, m);
      }
    }

    /** The process gets a signal and exits, and its wait() runs to the end. */
    method ExitAndAwaitDone(v: Vol, p: Pid)
      requires Valid() && p in m.procs
      modifies this`m
      ensures Valid() && Rely(owner, v, old(m), m) && PhaseIs(m.procs, p, Done)
    {
      ghost var s0 := m;
      RelyRefl(owner, v, m);
      if m.procs[p].phase == Running {
        Elsewhere(v, ProcExit(p));
      }
      ghost var s1 := m;
      AwaitDone(v, p);
      RelyTrans(owner, v, s0, s1, m);
    }

    /** The process is asked to end and, five seconds later, killed; the call waits for its clean-up for one
        second more. */
    method StopProcess(v: Vol, p: Pid) returns (ok: bool)
      requires Valid() && p in m.procs
      modifies this`m
      ensures Valid() && Rely(owner, v, old(m), m) && (ok ==> PhaseIs(m.procs, p, Done)) && (smooth ==> ok)
    {
      Others(v);
      ghost var s1 := m;
      assert Later(old(m).procs[p], s1.procs[p]);
      var inTime: bool := *;
      if inTime || smooth {
        ExitAndAwaitDone(v, p);
        RelyTrans(owner, v, old(m), s1, m);
        return true;
      }
      Others(v);
      ghost var s2 := m;
      RelyTrans(owner, v, old(m), s1, s2);
      assert Later(s1.procs[p], s2.procs[p]);
      if * {
        ExitAndAwaitDone(v, p);
        RelyTrans(owner, v, old(m), s2, m);
        return true;
      }
      return false;
    }

    // ---- Unmount -------------------------------------------------------------------------------

    /** Manager.Unmount: a success means that the service has no entry of the volume, and that every process
        it has ever recorded for it has finished. Beyond that the volume has only been touched by the
        exit of its processes. It succeeds if there is no entry, or if the process lets itself be stopped. */
    method Unmount(v: Vol) returns (ok: bool)
      requires Quiet(v)
      modifies this`m
      ensures Quiet(v) && Spared(owner, v, old(m), m)
      ensures ok ==> v !in m.mounts && RecordedAreDone(m, v)
      ensures v != "" && (smooth || v !in old(m).mounts) ==> ok
    {
      if v == "" {
        return false;
      }
      var t := Enter(v, Op.Unmount);
      ghost var s1 := m;
      var entry := LookUpEntry(t, v, Op.Unmount);
      ghost var s2 := m;
      SparedTrans(owner, v, old(m), s1, s2);
      ok := true;
      if entry.Some? {
        ok := StopEntry(t, v, entry.value);
        SparedTrans(owner, v, old(m), s2, m);
      }
      ghost var s3 := m;
      Exit(t, v);
      SparedTrans(owner, v, old(m), s3, m);
      if ok {
        NoEntryNoProcess(m, v);
      }
    }

    /** The process is stopped; only then the entry goes. */
    method StopEntry(t: Tid, v: Vol, entry: Entry) returns (ok: bool)
      requires In(t, v, UStop(entry))
      modifies this`m
      ensures In(t, v, Leave) && Spared(owner, v, old(m), m)
      ensures (ok ==> v !in m.mounts) && (smooth ==> ok)
    {
      EntryInHand(m, t, v, entry);
      ok := StopProcess(v, entry.pid);
      StopFacts(owner, v, old(m), m, t, entry, ok);
      if ok {
        m := DoStopOk(m, t);
        ghost var before := m;
        RemoveEntry(t, v, URemove(entry));
        SparedTrans(owner, v, old(m), before, m);
      } else {
        m := DoStopTimeout(m, t);
      }
    }

    // ---- List ----------------------------------------------------------------------------------

    /** Manager.List: a snapshot under `mu`, then one look at `exited` per entry, while others go on.
        Nothing is made up, no volume is listed twice, nothing is listed whose process had exited when
        the snapshot was taken, and whatever still runs at the end is listed. */
    method List(v: Vol) returns (infos: seq<MountInfo>)
      requires Valid()
      modifies this`m
      ensures Valid() && Rely(owner, v, old(m), m)
      ensures forall i :: 0 <= i < |infos| ==> Listed(old(m), infos[i])
      ensures forall i, j :: 0 <= i < j < |infos| ==> infos[i].volumeID != infos[j].volumeID
      ensures forall w :: w in old(m).mounts && !Gone(m.procs, old(m).mounts[w].pid) ==> InfoOf(old(m).mounts[w]) in infos
    {
      ghost var a := m;
      var snapshot := m.mounts;
      var rest := snapshot.Keys;
      infos := [];
      RelyRefl(owner, v, m);
      while rest != {}
        invariant Valid() && Rely(owner, v, a, m) && ListedSoFar(a, m.procs, rest, infos)
      {
        var w :| w in rest;
        ghost var before := m;
        Others(v);
        RelyTrans(owner, v, a, before, m);
        LookedAt(a, before, m, rest, infos, w);
        rest := rest - {w};
        if !Gone(m.procs, snapshot[w].pid) {
          infos := infos + [InfoOf(snapshot[w])];
        }
      }
    }

    // ---- Mount ---------------------------------------------------------------------------------

    /** Manager.Mount. `Started`: one process has been started and recorded, and its session is at the target,
        unless it has exited since, or an abandoned process has that had not unmounted yet when the call
        began. `AlreadyMounted`: there was an entry for this target, its process had not exited, and nothing
        was done. As long as the process of an entry lives, nothing is started and this is the answer if and
        only if the entry is for the target; without a live entry a process is started, if nothing fails.
        Whatever happens, the volume is touched at the target only. */
    method Mount(req: MountRequest) returns (r: MountResult)
      requires Quiet(req.volumeID) && Stages(owner, req.volumeID, req.targetPath)
      modifies this`m
      ensures Quiet(req.volumeID) && OnlyAt(owner, req.volumeID, req.targetPath, old(m), m)
      ensures r.Started? ==> Up(req.volumeID, req, old(m), m, r.pid)
      ensures r.AlreadyMounted? ==> req.volumeID in old(m).mounts && old(m).mounts[req.volumeID].req.targetPath == req.targetPath
                                    && Spared(owner, req.volumeID, old(m), m) && !Gone(old(m).procs, old(m).mounts[req.volumeID].pid)
      ensures !RequestOk(req) ==> r.MountFailed? && m == old(m)
      ensures RequestOk(req) && req.volumeID in old(m).mounts && !Gone(m.procs, old(m).mounts[req.volumeID].pid) ==>
                NoneNew(req.volumeID, old(m), m) && !r.Started?
                && (r.AlreadyMounted? <==> old(m).mounts[req.volumeID].req.targetPath == req.targetPath)
      ensures Ideal() && RequestOk(req) && !LiveEntry(old(m), req.volumeID) ==> r.Started? && PhaseIs(m.procs, r.pid, Running)
    {
      ghost var a := m;
      var v := req.volumeID;
      OnlyAtRefl(owner, v, req.targetPath, a);
      if req.volumeID == "" || req.targetPath == "" || req.cacheDir == "" || req.localSocket == "" || req.mountArgs == [] {
        return MountFailed;
      }
      var t := Enter(v, Op.Mount(req));
      ghost var s1 := m;
      var entry := LookUpEntry(t, v, Op.Mount(req));
      SparedTrans(owner, v, a, s1, m);
      if entry.Some? {
        ghost var s2 := m;
        var replaced := ReplaceExited(t, v, req, entry.value);
        SparedTrans(owner, v, a, s2, m);
        if !replaced {
          ghost var s3 := m;
          NotGoneAtStart(a, s2, entry.value.pid);
          Exit(t, v);
          SparedTrans(owner, v, a, s3, m);
          SinceStart(owner, v, req.targetPath, a, m);
          return if entry.value.req.targetPath == req.targetPath then AlreadyMounted else MountFailed;
        }
      }
      SinceStart(owner, v, req.targetPath, a, m);
      r := StartMount(t, v, req, a);
      ghost var s4 := m;
      Exit(t, v);
      SinceSpared(owner, v, req.targetPath, a, s4, m);
      if r.Started? {
        UpAfterExit(owner, v, a, s4, m, t, req, r.pid);
      }
      EntryHasDied(owner, v, req.targetPath, a, m, r);
    }

    /** The select on entry.process.exited: a dead process is waited for and its entry removed. */
    method ReplaceExited(t: Tid, v: Vol, req: MountRequest, e: Entry) returns (replaced: bool)
      requires In(t, v, Select(req, e))
      modifies this`m
      ensures In(t, v, if replaced then Clean(req) else Leave) && Spared(owner, v, old(m), m)
      ensures !replaced ==> !Gone(old(m).procs, e.pid)
    {
      Others(v);
      if Gone(old(m).procs, e.pid) {
        StaysGone(old(m).procs, m.procs, e.pid);
      }
      SelectFacts(owner, v, old(m), m, t, req, e);
      replaced := Gone(m.procs, e.pid);
      m := DoSelect(m, t);
      if replaced {
        ghost var s1 := m;
        DropExited(t, v, req, e);
        SparedTrans(owner, v, old(m), s1, m);
      }
    }

    method DropExited(t: Tid, v: Vol, req: MountRequest, e: Entry)
      requires In(t, v, Loc.AwaitDone(req, e)) && Gone(m.procs, e.pid)
      modifies this`m
      ensures In(t, v, Clean(req)) && Spared(owner, v, old(m), m)
    {
      AwaitDone(v, e.pid);
      DoneSeenFacts(owner, v, old(m), m, t, req, e);
      m := Goto(m, t, Replace(req, e));
      ghost var s1 := m;
      RemoveEntry(t, v, Replace(req, e));
      SparedTrans(owner, v, old(m), s1, m);
    }

    /** startMount, and the insertion of the entry. */
    method StartMount(t: Tid, v: Vol, req: MountRequest, ghost a: State) returns (r: MountResult)
      requires In(t, v, Clean(req)) && Before(owner, v, req.targetPath, a, m) && owner.vol(req.targetPath) == v
      modifies this`m
      ensures In(t, v, Leave) && Since(owner, v, req.targetPath, a, m) && !r.AlreadyMounted?
      ensures if r.Started? then Up(v, req, a, m, r.pid) else v !in m.mounts
      ensures Ideal() ==> r.Started? && PhaseIs(m.procs, r.pid, Running)
    {
      var clean := EnsureTargetClean(t, v, req, a);
      if !clean {
        NoEntryYet(m, t, v, Clean(req));
        HopFacts(owner, v, req.targetPath, a, m, t, Clean(req), StartFailed(t), Leave);
        m := Goto(m, t, Leave);
        return MountFailed;
      }
      var pid := StartProcess(t, v, req, a);
      if pid == None {
        return MountFailed;
      }
      var up := WaitForMount(t, v, req, pid.value, a);
      if !up {
        GiveUp(t, v, req, pid.value, a);
        return MountFailed;
      }
      Record(t, v, req, pid.value, a);
      r := Started(pid.value);
    }

    /** Others have their turn while the call is not starting anything: a clean target stays clean. */
    method Pause(t: Tid, v: Vol, req: MountRequest, at: Loc, ghost a: State)
      requires In(t, v, at) && (at == Clean(req) || at == Start(req)) && Before(owner, v, req.targetPath, a, m) && owner.vol(req.targetPath) == v
      modifies this`m
      ensures In(t, v, at) && Before(owner, v, req.targetPath, a, m)
      ensures req.targetPath !in old(m).table ==> req.targetPath !in m.table
    {
      Others(v);
      RelyKeepsSole(owner, v, old(m), m, t, Thread(v, Held, at));
      BeforeSpared(owner, v, req.targetPath, a, old(m), m);
      if req.targetPath !in old(m).table {
        StaysClean(owner, v, old(m), m, t, Thread(v, Held, at), req.targetPath);
      }
    }

    /** umount of the target, plain or lazy. */
    method DetachTarget(t: Tid, v: Vol, req: MountRequest, ghost a: State) returns (ok: bool)
      requires In(t, v, Clean(req)) && Before(owner, v, req.targetPath, a, m)
      modifies this`m
      ensures In(t, v, Clean(req)) && Before(owner, v, req.targetPath, a, m)
      ensures (ok ==> req.targetPath !in m.table) && (reliable ==> ok)
    {
      ok := Detach(req.targetPath);
      SinceTable(owner, v, req.targetPath, a, old(m), m.table);
    }

    /** ensureTargetClean */
    method EnsureTargetClean(t: Tid, v: Vol, req: MountRequest, ghost a: State) returns (ok: bool)
      requires In(t, v, Clean(req)) && Before(owner, v, req.targetPath, a, m) && owner.vol(req.targetPath) == v
      modifies this`m
      ensures In(t, v, Clean(req)) && Before(owner, v, req.targetPath, a, m)
      ensures (ok ==> req.targetPath !in m.table) && (reliable ==> ok)
    {
      ok := true;
      Pause(t, v, req, Clean(req), a);
      var check := IsLikelyNotMountPoint(req.targetPath);
      match check
      case Failed => return false;
      case NotExist =>
      case NotMounted =>
      case Corrupted =>
        ok := DetachTarget(t, v, req, a);
        if !ok {
          ok := DetachTarget(t, v, req, a);
        }
      case Mounted =>
        ok := DetachTarget(t, v, req, a);
      if (check == Corrupted || check == Mounted) && !ok {
        return false;
      }
      ok := *;  // os.MkdirAll(targetPath)
      ok := ok || reliable;
    }

    /** The cache directory is made and the process is started, unless one of these fails. */
    method StartProcess(t: Tid, v: Vol, req: MountRequest, ghost a: State) returns (pid: Option<Pid>)
      requires In(t, v, Clean(req)) && Before(owner, v, req.targetPath, a, m) && owner.vol(req.targetPath) == v
      requires req.targetPath !in m.table
      modifies this`m
      ensures Valid() && Since(owner, v, req.targetPath, a, m)
      ensures pid.None? ==> In(t, v, Leave) && v !in m.mounts && !reliable
      ensures pid.Some? ==> In(t, v, Wait(req, pid.value)) && Coming(v, req.targetPath, a, m, pid.value) && IsStarting(m.procs, pid.value)
    {
      HopFacts(owner, v, req.targetPath, a, m, t, Clean(req), Cleaned(t), Loc.Start(req));
      m := Goto(m, t, Loc.Start(req));
      Pause(t, v, req, Loc.Start(req), a);
      var prepared: bool := *;
      if !prepared && !reliable {
        NoEntryYet(m, t, v, Loc.Start(req));
        HopFacts(owner, v, req.targetPath, a, m, t, Loc.Start(req), StartFailed(t), Leave);
        m := Goto(m, t, Leave);
        return None;
      }
      StartFacts(owner, v, a, m, t, req);
      pid := Some(m.nextPid);
      m := DoStart(m, t);
    }

    /** Others have their turn, the process that is being started among them. */
    method ComeUp(v: Vol, pid: Pid)
      requires Valid() && pid in m.procs && m.procs[pid].vol == v
      modifies this`m
      ensures Valid() && Rely(owner, v, old(m), m)
      ensures smooth && IsStarting(old(m).procs, pid) ==> IsStarting(m.procs, pid) && m.procs[pid].target in m.table
    {
      ghost var s0 := m;
      Others(v);
      ghost var s1 := m;
      if smooth {
        StillStarting(owner, v, s0, s1, pid);
        MountDue(v, pid);
        RelyTrans(owner, v, s0, s1, m);
      }
    }

    /** A process that is being started mounts its target, if that has not happened yet. */
    method MountDue(v: Vol, pid: Pid)
      requires Valid() && pid in m.procs
      modifies this`m
      ensures Valid() && Rely(owner, v, old(m), m)
      ensures IsStarting(old(m).procs, pid) ==> IsStarting(m.procs, pid) && m.procs[pid].target in m.table
    {
      RelyRefl(owner, v, m);
      if IsStarting(m.procs, pid) && m.procs[pid].target !in m.table {
        Elsewhere(v, MountUp(pid));
      }
    }

    /** waitForMount, at most ten seconds in steps of ten milliseconds. */
    method WaitForMount(t: Tid, v: Vol, req: MountRequest, pid: Pid, ghost a: State) returns (up: bool)
      requires In(t, v, Wait(req, pid)) && Since(owner, v, req.targetPath, a, m) && owner.vol(req.targetPath) == v
      requires Coming(v, req.targetPath, a, m, pid) && IsStarting(m.procs, pid)
      modifies this`m
      ensures In(t, v, if up then Insert(req, pid) else Stop(req, pid)) && Since(owner, v, req.targetPath, a, m)
      ensures Ideal() ==> up && PhaseIs(m.procs, pid, Running)
      ensures if up then Carries(v, req.targetPath, a, m, pid) else a.nextPid <= pid
    {
      var elapsed := 0;
      while elapsed < 10_000
        invariant In(t, v, Wait(req, pid)) && Since(owner, v, req.targetPath, a, m) && Coming(v, req.targetPath, a, m, pid)
        invariant Ideal() ==> elapsed == 0 && IsStarting(m.procs, pid)
      {
        ghost var before := m;
        ComeUp(v, pid);
        WaitFacts(owner, v, a, before, m, t, req, pid);
        var check := IsLikelyNotMountPoint(req.targetPath);
        if check == Mounted {
          HopFacts(owner, v, req.targetPath, a, m, t, Wait(req, pid), MountSeen(t), Insert(req, pid));
          m := Goto(m, t, Insert(req, pid));
          return true;
        }
        if check != NotMounted {
          break;
        }
        elapsed := elapsed + 10;
      }
      HopFacts(owner, v, req.targetPath, a, m, t, Wait(req, pid), MountNotSeen(t), Stop(req, pid));
      m := Goto(m, t, Stop(req, pid));
      up := false;
    }

    /** The mount did not come up: stop() the process; if even that fails it is abandoned. */
    method GiveUp(t: Tid, v: Vol, req: MountRequest, pid: Pid, ghost a: State)
      requires In(t, v, Stop(req, pid)) && Since(owner, v, req.targetPath, a, m) && owner.vol(req.targetPath) == v && a.nextPid <= pid
      modifies this`m
      ensures In(t, v, Leave) && Since(owner, v, req.targetPath, a, m) && v !in m.mounts
    {
      StoppedIsKnown(m, t, v, req, pid);
      var ok := StopProcess(v, pid);
      RelyKeepsSole(owner, v, old(m), m, t, Thread(v, Held, Stop(req, pid)));
      SinceSpared(owner, v, req.targetPath, a, old(m), m);
      NoEntryYet(m, t, v, Stop(req, pid));
      FailFacts(owner, v, a, m, t, req, pid, ok);
      m := if ok then DoStopOk(m, t) else DoStopTimeout(m, t);
    }

    /** The mount has come up: its entry goes into the map, and its watcher starts. */
    method Record(t: Tid, v: Vol, req: MountRequest, pid: Pid, ghost a: State)
      requires In(t, v, Insert(req, pid)) && Since(owner, v, req.targetPath, a, m) && owner.vol(req.targetPath) == v
      requires Carries(v, req.targetPath, a, m, pid)
      modifies this`m
      ensures In(t, v, Leave) && Since(owner, v, req.targetPath, a, m) && Up(v, req, a, m, pid)
      ensures smooth && PhaseIs(old(m).procs, pid, Running) ==> PhaseIs(m.procs, pid, Running)
    {
      InsertFacts(owner, v, a, m, t, req, pid);
      m := DoInsert(m, t);
      ghost var s1 := m;
      Others(v);
      SettledAt(owner, v, a, s1, m, t, req, pid);
      SpawnWatch(t, v, req, pid, a);
    }

    /** A goroutine that holds no lock will drop the entry when the process is done. */
    method SpawnWatch(t: Tid, v: Vol, req: MountRequest, pid: Pid, ghost a: State)
      requires In(t, v, Spawn(Entry(req, pid))) && Since(owner, v, req.targetPath, a, m) && owner.vol(req.targetPath) == v
      requires Up(v, req, a, m, pid)
      modifies this`m
      ensures In(t, v, Leave) && Since(owner, v, req.targetPath, a, m) && Up(v, req, a, m, pid) && m.procs == old(m).procs
    {
      ghost var before := m;
      var w := NewGoroutine();
      NothingStarts(m, t, v, Spawn(Entry(req, pid)));
      SpawnFacts(owner, v, m, t, w, Entry(req, pid));
      m := DoSpawn(m, t, w);
      SinceSpared(owner, v, req.targetPath, a, before, m);
      SparedKeepsUp(owner, v, a, before, m, req, pid);
    }
  }

  /** The description of an entry of `s` whose process runs. */
  ghost predicate Listed(s: State, info: MountInfo) {
    && info.volumeID in s.mounts
    && info == InfoOf(s.mounts[info.volumeID])
    && !Gone(s.procs, s.mounts[info.volumeID].pid)
  }

  /** The entries outside `rest` have been looked at; `procs` is how the processes are now. */
  ghost predicate ListedSoFar(a: State, procs: Procs, rest: set<Vol>, infos: seq<MountInfo>) {
    && rest <= a.mounts.Keys
    && (forall i :: 0 <= i < |infos| ==> Listed(a, infos[i]) && infos[i].volumeID !in rest)
    && (forall i, j :: 0 <= i < j < |infos| ==> infos[i].volumeID != infos[j].volumeID)
    && (forall w :: w in a.mounts && w !in rest && !Gone(procs, a.mounts[w].pid) ==> InfoOf(a.mounts[w]) in infos)
  }

  /** A process that has not exited later on had not exited before. */
  lemma NotGoneBefore(a: Procs, b: Procs, c: Procs, p: Pid)
    requires Evolves(a, b) && Evolves(b, c) && !Gone(c, p)
    ensures !Gone(a, p) && !Gone(b, p)
  {
    if Gone(b, p) {
      StaysGone(b, c, p);
    } else if Gone(a, p) {
      StaysGone(a, b, p);
    }
  }

  lemma StillIn(infos: seq<MountInfo>, more: seq<MountInfo>, info: MountInfo)
    requires info in infos
    ensures info in infos + more
  {
  }

  lemma LookedAt(a: State, b: State, c: State, rest: set<Vol>, infos: seq<MountInfo>, w: Vol)
    requires Inv(a) && Evolves(a.procs, b.procs) && Evolves(b.procs, c.procs)
    requires ListedSoFar(a, b.procs, rest, infos) && w in rest
    ensures ListedSoFar(a, c.procs, rest - {w}, if Gone(c.procs, a.mounts[w].pid) then infos else infos + [InfoOf(a.mounts[w])])
  {
    var more := if Gone(c.procs, a.mounts[w].pid) then [] else [InfoOf(a.mounts[w])];
    assert EntryOk(a.procs, w, a.mounts[w]);
    assert infos + more == if more == [] then infos else infos + [InfoOf(a.mounts[w])];
    if more != [] {
      NotGoneBefore(a.procs, b.procs, c.procs, a.mounts[w].pid);
    }
    forall u | u in a.mounts && u !in rest - {w} && !Gone(c.procs, a.mounts[u].pid) ensures InfoOf(a.mounts[u]) in infos + more {
      NotGoneBefore(a.procs, b.procs, c.procs, a.mounts[u].pid);
      if u == w {
        assert (infos + more)[|infos|] == InfoOf(a.mounts[w]);
      } else {
        StillIn(infos, more, InfoOf(a.mounts[u]));
      }
    }
  }

  lemma StoppedIsKnown(s: State, t: Tid, v: Vol, req: MountRequest, pid: Pid)
    requires Inv(s) && Sole(s, t, Thread(v, Held, Stop(req, pid)))
    ensures pid in s.procs
  {
    assert ThreadOk(s.mounts, s.procs, t, s.threads[t]);
  }

  lemma StillStarting(owner: Owner, v: Vol, a: State, b: State, pid: Pid)
    requires Rely(owner, v, a, b) && Steady(a.procs, b.procs) && pid in a.procs && a.procs[pid].vol == v
    ensures IsStarting(a.procs, pid) ==> IsStarting(b.procs, pid)
  {
    assert Later(a.procs[pid], b.procs[pid]);
  }

  /** Until the process it starts is recorded, a call of Mount finds no entry of its volume. */
  lemma NoEntryYet(s: State, t: Tid, v: Vol, at: Loc)
    requires Inv(s) && Sole(s, t, Thread(v, Held, at)) && (at.Clean? || at.Start? || at.Stop?)
    ensures v !in s.mounts
  {
    assert ThreadOk(s.mounts, s.procs, t, s.threads[t]);
  }

  /** A Mount that went on to start a process found no live entry, or one whose process exited meanwhile. */
  lemma EntryHasDied(owner: Owner, v: Vol, x: Path, a: State, b: State, r: MountResult)
    requires Inv(a) && Inv(b) && OnlyAt(owner, v, x, a, b) && (if r.Started? then OnlyNew(v, a, b, r.pid) else v !in b.mounts)
    ensures v in a.mounts ==> Gone(b.procs, a.mounts[v].pid)
  {
    if v in a.mounts {
      var p := a.mounts[v].pid;
      assert EntryOk(a.procs, v, a.mounts[v]);
      assert ProcOk(a.mounts, a.threads, p, a.procs[p]) && p < a.nextPid;
      assert Later(a.procs[p], b.procs[p]);
      if r.Started? {
        assert Settled(b.procs[p]);
      } else {
        NoEntryNoProcess(b, v);
      }
    }
  }

  lemma NothingStarts(s: State, t: Tid, v: Vol, at: Loc)
    requires Inv(s) && Sole(s, t, Thread(v, Held, at)) && !(at.Wait? || at.Stop? || at.Insert?)
    ensures NoStarting(v, s.procs)
  {
    forall p | p in s.procs && s.procs[p].vol == v ensures !s.procs[p].fate.Starting? {
      if s.procs[p].fate.Starting? {
        SoleStarts(s, t, Thread(v, Held, at), p);
      }
    }
  }

  lemma SettledAt(owner: Owner, v: Vol, a: State, b: State, c: State, t: Tid, req: MountRequest, pid: Pid)
    requires Inv(b) && Rely(owner, v, b, c) && Since(owner, v, req.targetPath, a, b) && owner.vol(req.targetPath) == v
    requires Sole(b, t, Thread(v, Held, Spawn(Entry(req, pid)))) && Up(v, req, a, b, pid)
    ensures Sole(c, t, Thread(v, Held, Spawn(Entry(req, pid)))) && Up(v, req, a, c, pid) && Since(owner, v, req.targetPath, a, c)
  {
    NothingStarts(b, t, v, Spawn(Entry(req, pid)));
    RelyKeepsSole(owner, v, b, c, t, Thread(v, Held, Spawn(Entry(req, pid))));
    SparedKeepsUp(owner, v, a, b, c, req, pid);
    SinceSpared(owner, v, req.targetPath, a, b, c);
  }

  lemma UpAfterExit(owner: Owner, v: Vol, a: State, b: State, c: State, t: Tid, req: MountRequest, pid: Pid)
    requires Inv(b) && Evolves(a.procs, b.procs) && Spared(owner, v, b, c) && owner.vol(req.targetPath) == v
    requires Sole(b, t, Thread(v, Held, Leave)) && Up(v, req, a, b, pid)
    ensures Up(v, req, a, c, pid)
  {
    NothingStarts(b, t, v, Leave);
    SparedKeepsUp(owner, v, a, b, c, req, pid);
  }
}
