/** The mount service as a state machine: any number of concurrent `Mount` and `Unmount` calls,
    the weed processes they start, the `wait()` goroutine of every process and the watcher
    goroutine of every recorded one. A step is what happens between two points at which another
    goroutine may run: one look-up or update under `mu`, one channel operation, one system call.

    A process goes Running -> Exited (`exited` is closed) -> Unmounted (`wait()` has tried to
    unmount its target) -> Done (`done` is closed). */
module MountMachine {
  import opened Wrappers
  import KeyMutex

  type Vol = string
  type Path = string
  type Pid = nat  // processes are numbered in the order in which they are started
  type Tid = nat
  type Context = map<string, string>

  datatype MountRequest = MountRequest(volumeID: Vol, targetPath: Path, cacheDir: string, mountArgs: seq<string>,
                                       volumeContext: Context, readOnly: bool, localSocket: string)

  datatype Phase = Running | Exited | Unmounted | Done

  /** What became of the start of a process. `Abandoned` is a process whose mount did not come up
      and whose `stop()` timed out as well: it runs on, and nothing records it. */
  datatype Fate = Starting(caller: Tid) | Recorded | Stopped | Abandoned

  datatype Proc = Proc(vol: Vol, target: Path, phase: Phase, fate: Fate)

  datatype Entry = Entry(req: MountRequest, pid: Pid)

  /** What the kernel shows at a path: the FUSE session of a process, or a bind mount of whatever
      was at the source: a session, or a plain directory. */
  datatype Mnt = Fuse(pid: Pid) | Bind(session: Option<Pid>, readOnly: bool)

  datatype Op = Mount(req: MountRequest) | Unmount

  /** How far a call has come with the lock of its volume. */
  datatype Stage = NoRef | Ref | Held

  /** Where a goroutine is. */
  datatype Loc =
    | Begin(op: Op)
    | Lookup(op: Op)
    | Select(req: MountRequest, entry: Entry)
    | AwaitDone(req: MountRequest, entry: Entry)
    | Replace(req: MountRequest, entry: Entry)
    | Clean(req: MountRequest)
    | Start(req: MountRequest)
    | Wait(req: MountRequest, pid: Pid)
    | Stop(req: MountRequest, pid: Pid)
    | Insert(req: MountRequest, pid: Pid)
    | Spawn(entry: Entry)
    | UStop(entry: Entry)
    | URemove(entry: Entry)
    | Leave
    | Watch(entry: Entry)

  datatype Thread = Thread(vol: Vol, stage: Stage, at: Loc)

  type Procs = map<Pid, Proc>
  type Mounts = map<Vol, Entry>
  type Threads = map<Tid, Thread>

  datatype State = State(locks: KeyMutex.State, mounts: Mounts, procs: Procs, nextPid: Pid, threads: Threads,
                         table: map<Path, Mnt>)

  const INIT := State(KeyMutex.EMPTY, map[], map[], 0, map[], map[])

  datatype Step =
    | Call(t: Tid, vol: Vol, op: Op)
    | GetLock(t: Tid)
    | Lock(t: Tid)
    | LookUp(t: Tid)
    | SelectExited(t: Tid)
    | DoneSeen(t: Tid)
    | Remove(t: Tid)
    | Cleaned(t: Tid)            // ensureTargetClean saw that nothing is mounted at the target
    | StartFailed(t: Tid)        // a step before the process runs failed
    | StartProc(t: Tid)          // cmd.Start
    | MountSeen(t: Tid)          // waitForMount saw a mount point
    | MountNotSeen(t: Tid)       // waitForMount gave up
    | StopOk(t: Tid)             // stop() returned nil
    | StopTimeout(t: Tid)        // stop() returned an error
    | InsertEntry(t: Tid)
    | SpawnWatcher(t: Tid, watcher: Tid)
    | Unlock(t: Tid)
    | WatchFire(t: Tid)
    | MountUp(p: Pid)            // the weed process mounts its target, unless stop() has killed it in vain
    | ProcExit(p: Pid)
    | ProcUnmount(p: Pid, ok: bool)
    | ProcDone(p: Pid)
    | Kernel(path: Path, mnt: Option<Mnt>)  // anybody else mounts, binds or unmounts

  predicate PhaseIs(procs: Procs, p: Pid, phase: Phase) {
    p in procs && procs[p].phase == phase
  }

  predicate Gone(procs: Procs, p: Pid) {
    p in procs && procs[p].phase != Running
  }

  predicate Enabled(s: State, step: Step) {
    match step
    case Call(t, vol, op) => t !in s.threads && t !in s.locks.refs && (op.Mount? ==> op.req.volumeID == vol)
    case GetLock(t) => t in s.threads && s.threads[t].at.Begin? && s.threads[t].stage == NoRef && t !in s.locks.refs
    case Lock(t) => t in s.threads && s.threads[t].at.Begin? && s.threads[t].stage == Ref && t in s.locks.refs && s.locks.refs[t].1 !in s.locks.owner
    case LookUp(t) => t in s.threads && s.threads[t].at.Lookup?
    case SelectExited(t) => t in s.threads && s.threads[t].at.Select?
    case DoneSeen(t) => t in s.threads && s.threads[t].at.AwaitDone? && PhaseIs(s.procs, s.threads[t].at.entry.pid, Done)
    case Remove(t) => t in s.threads && (s.threads[t].at.Replace? || s.threads[t].at.URemove?)
    case Cleaned(t) => t in s.threads && s.threads[t].at.Clean? && s.threads[t].at.req.targetPath !in s.table
    case StartFailed(t) => t in s.threads && (s.threads[t].at.Clean? || s.threads[t].at.Start?)
    case StartProc(t) => t in s.threads && s.threads[t].at.Start?
    case MountSeen(t) => t in s.threads && s.threads[t].at.Wait? && s.threads[t].at.req.targetPath in s.table
    case MountNotSeen(t) => t in s.threads && s.threads[t].at.Wait?
    case StopOk(t) =>
      && t in s.threads
      && (|| (s.threads[t].at.Stop? && PhaseIs(s.procs, s.threads[t].at.pid, Done))
          || (s.threads[t].at.UStop? && PhaseIs(s.procs, s.threads[t].at.entry.pid, Done)))
    case StopTimeout(t) => t in s.threads && ((s.threads[t].at.Stop? && s.threads[t].at.pid in s.procs) || s.threads[t].at.UStop?)
    case InsertEntry(t) => t in s.threads && s.threads[t].at.Insert? && s.threads[t].at.pid in s.procs
    case SpawnWatcher(t, w) => t in s.threads && s.threads[t].at.Spawn? && w !in s.threads && w !in s.locks.refs
    case Unlock(t) => t in s.threads && s.threads[t].at.Leave? && KeyMutex.Holds(s.locks, t)
    case WatchFire(t) => t in s.threads && s.threads[t].at.Watch? && PhaseIs(s.procs, s.threads[t].at.entry.pid, Done)
    case MountUp(p) => PhaseIs(s.procs, p, Running) && s.procs[p].fate.Starting? && s.procs[p].target !in s.table
    case ProcExit(p) => PhaseIs(s.procs, p, Running)
    case ProcUnmount(p, _) => PhaseIs(s.procs, p, Exited)
    case ProcDone(p) => PhaseIs(s.procs, p, Unmounted)
    case Kernel(_, _) => true
  }

  function Goto(s: State, t: Tid, at: Loc): State
    requires t in s.threads
  {
    s.(threads := s.threads[t := s.threads[t].(at := at)])
  }

  function SetPhase(procs: Procs, p: Pid, phase: Phase): Procs
    requires p in procs
  {
    procs[p := procs[p].(phase := phase)]
  }

  function SetFate(procs: Procs, p: Pid, fate: Fate): Procs
    requires p in procs
  {
    procs[p := procs[p].(fate := fate)]
  }

  // The three updates of `mounts` that are made under `mu`.

  function InsertMount(mounts: Mounts, entry: Entry): Mounts {
    mounts[entry.req.volumeID := entry]
  }

  /** By volume, whatever entry is there. */
  function RemoveMount(mounts: Mounts, vol: Vol): Mounts {
    mounts - {vol}
  }

  /** By identity: a process number names one entry. */
  function DropEntry(mounts: Mounts, vol: Vol, entry: Entry): Mounts {
    if vol in mounts && mounts[vol].pid == entry.pid then mounts - {vol} else mounts
  }

  function Apply(s: State, step: Step): State
    requires Enabled(s, step)
  {
    match step
    case Call(t, vol, op) => s.(threads := s.threads[t := Thread(vol, NoRef, Begin(op))])
    case GetLock(t) => DoGetLock(s, t)
    case Lock(t) => DoLock(s, t)
    case LookUp(t) => DoLookUp(s, t)
    case SelectExited(t) => DoSelect(s, t)
    case DoneSeen(t) => Goto(s, t, Replace(s.threads[t].at.req, s.threads[t].at.entry))
    case Remove(t) => DoRemove(s, t)
    case Cleaned(t) => Goto(s, t, Loc.Start(s.threads[t].at.req))
    case StartFailed(t) => Goto(s, t, Leave)
    case StartProc(t) => DoStart(s, t)
    case MountSeen(t) => Goto(s, t, Insert(s.threads[t].at.req, s.threads[t].at.pid))
    case MountNotSeen(t) => Goto(s, t, Stop(s.threads[t].at.req, s.threads[t].at.pid))
    case StopOk(t) => DoStopOk(s, t)
    case StopTimeout(t) => DoStopTimeout(s, t)
    case InsertEntry(t) => DoInsert(s, t)
    case SpawnWatcher(t, w) => DoSpawn(s, t, w)
    case Unlock(t) => s.(locks := KeyMutex.DoUnlock(s.locks, t), threads := s.threads - {t})
    case WatchFire(t) => s.(mounts := DropEntry(s.mounts, s.threads[t].vol, s.threads[t].at.entry), threads := s.threads - {t})
    case MountUp(p) => s.(table := s.table[s.procs[p].target := Fuse(p)])
    case ProcExit(p) => s.(procs := SetPhase(s.procs, p, Exited))
    case ProcUnmount(p, ok) =>
      s.(procs := SetPhase(s.procs, p, Unmounted), table := if ok then s.table - {s.procs[p].target} else s.table)
    case ProcDone(p) => s.(procs := SetPhase(s.procs, p, Done))
    case Kernel(path, mnt) => s.(table := if mnt.Some? then s.table[path := mnt.value] else s.table - {path})
  }

  function DoGetLock(s: State, t: Tid): State
    requires Enabled(s, GetLock(t))
  {
    s.(locks := KeyMutex.DoGet(s.locks, t, s.threads[t].vol), threads := s.threads[t := s.threads[t].(stage := Ref)])
  }

  function DoLock(s: State, t: Tid): State
    requires Enabled(s, Lock(t))
  {
    s.(locks := KeyMutex.DoLock(s.locks, t),
       threads := s.threads[t := Thread(s.threads[t].vol, Held, Lookup(s.threads[t].at.op))])
  }

  function DoLookUp(s: State, t: Tid): State
    requires Enabled(s, LookUp(t))
  {
    var v, op := s.threads[t].vol, s.threads[t].at.op;
    Goto(s, t, if v in s.mounts then (if op.Mount? then Select(op.req, s.mounts[v]) else UStop(s.mounts[v]))
               else if op.Mount? then Clean(op.req) else Leave)
  }

  function DoSelect(s: State, t: Tid): State
    requires Enabled(s, SelectExited(t))
  {
    var at := s.threads[t].at;
    Goto(s, t, if Gone(s.procs, at.entry.pid) then AwaitDone(at.req, at.entry) else Leave)
  }

  function DoRemove(s: State, t: Tid): State
    requires Enabled(s, Remove(t))
  {
    var th := s.threads[t];
    Goto(s.(mounts := RemoveMount(s.mounts, th.vol)), t, if th.at.Replace? then Clean(th.at.req) else Leave)
  }

  function DoStart(s: State, t: Tid): State
    requires Enabled(s, StartProc(t))
  {
    var req := s.threads[t].at.req;
    var p := Proc(s.threads[t].vol, req.targetPath, Running, Starting(t));
    Goto(s.(procs := s.procs[s.nextPid := p], nextPid := s.nextPid + 1), t, Wait(req, s.nextPid))
  }

  function DoStopOk(s: State, t: Tid): State
    requires Enabled(s, StopOk(t))
  {
    var at := s.threads[t].at;
    if at.Stop? then Goto(s.(procs := SetFate(s.procs, at.pid, Stopped)), t, Leave) else Goto(s, t, URemove(at.entry))
  }

  function DoStopTimeout(s: State, t: Tid): State
    requires Enabled(s, StopTimeout(t))
  {
    var at := s.threads[t].at;
    Goto(if at.Stop? then s.(procs := SetFate(s.procs, at.pid, Abandoned)) else s, t, Leave)
  }

  function DoInsert(s: State, t: Tid): State
    requires Enabled(s, InsertEntry(t))
  {
    var at := s.threads[t].at;
    var entry := Entry(at.req, at.pid);
    Goto(s.(procs := SetFate(s.procs, at.pid, Recorded), mounts := InsertMount(s.mounts, entry)), t, Spawn(entry))
  }

  function DoSpawn(s: State, t: Tid, w: Tid): State
    requires Enabled(s, SpawnWatcher(t, w))
  {
    var th := s.threads[t];
    s.(threads := s.threads[t := th.(at := Leave)][w := Thread(th.vol, NoRef, Watch(th.at.entry))])
  }

  // ---- the invariant ------------------------------------------------------------------------

  /** A call has the lock it says it has, and nobody else has a lock. */
  ghost predicate LocksInv(locks: KeyMutex.State, threads: Threads) {
    KeyMutex.Inv(locks) && Matching(locks, threads)
  }

  ghost predicate Matching(locks: KeyMutex.State, threads: Threads) {
    && (forall t :: t in locks.refs ==> t in threads && threads[t].stage != NoRef)
    && (forall t :: t in threads && threads[t].stage != NoRef ==> t in locks.refs && locks.refs[t].0 == threads[t].vol)
    && (forall t :: t in threads ==> (threads[t].stage == Held <==> KeyMutex.Holds(locks, t)))
  }

  /** The entry describes a process of that volume that has been recorded. */
  ghost predicate EntryOk(procs: Procs, v: Vol, e: Entry) {
    && e.req.volumeID == v
    && e.pid in procs
    && procs[e.pid].vol == v
    && procs[e.pid].target == e.req.targetPath
    && procs[e.pid].fate == Recorded
  }

  ghost predicate MountsInv(mounts: Mounts, procs: Procs) {
    forall v :: v in mounts ==> EntryOk(procs, v, mounts[v])
  }

  /** The entry in hand is the one in the map, unless the map has none any more. */
  ghost predicate InHand(mounts: Mounts, procs: Procs, v: Vol, e: Entry) {
    EntryOk(procs, v, e) && (v in mounts ==> mounts[v] == e)
  }

  ghost predicate StartingOk(mounts: Mounts, procs: Procs, t: Tid, v: Vol, req: MountRequest, p: Pid) {
    && req.volumeID == v
    && v !in mounts
    && p in procs
    && procs[p].vol == v
    && procs[p].target == req.targetPath
    && procs[p].fate == Starting(t)
  }

  /** What a goroutine knows at the point where it is. */
  ghost predicate ThreadOk(mounts: Mounts, procs: Procs, t: Tid, th: Thread) {
    && (th.stage == Held <==> !(th.at.Begin? || th.at.Watch?))
    && (th.at.Watch? ==> th.stage == NoRef)
    && match th.at
       case Begin(op) => op.Mount? ==> op.req.volumeID == th.vol
       case Lookup(op) => op.Mount? ==> op.req.volumeID == th.vol
       case Select(req, e) => req.volumeID == th.vol && InHand(mounts, procs, th.vol, e)
       case AwaitDone(req, e) => req.volumeID == th.vol && InHand(mounts, procs, th.vol, e) && Gone(procs, e.pid)
       case Replace(req, e) => req.volumeID == th.vol && InHand(mounts, procs, th.vol, e) && PhaseIs(procs, e.pid, Done)
       case Clean(req) => req.volumeID == th.vol && th.vol !in mounts
       case Start(req) => req.volumeID == th.vol && th.vol !in mounts
       case Wait(req, p) => StartingOk(mounts, procs, t, th.vol, req, p)
       case Stop(req, p) => StartingOk(mounts, procs, t, th.vol, req, p)
       case Insert(req, p) => StartingOk(mounts, procs, t, th.vol, req, p)
       case Spawn(e) => EntryOk(procs, th.vol, e)
       case UStop(e) => InHand(mounts, procs, th.vol, e)
       case URemove(e) => InHand(mounts, procs, th.vol, e) && PhaseIs(procs, e.pid, Done)
       case Leave => true
       case Watch(e) => EntryOk(procs, th.vol, e)
  }

  ghost predicate ThreadsInv(mounts: Mounts, procs: Procs, threads: Threads) {
    forall t :: t in threads ==> ThreadOk(mounts, procs, t, threads[t])
  }

  predicate StartsProc(th: Thread, p: Pid) {
    (th.at.Wait? || th.at.Stop? || th.at.Insert?) && th.at.pid == p
  }

  /** A recorded process stays recorded until it is done; a process that is being started belongs
      to the call that starts it. */
  ghost predicate ProcOk(mounts: Mounts, threads: Threads, p: Pid, proc: Proc) {
    && (proc.fate == Recorded && proc.phase != Done ==> proc.vol in mounts && mounts[proc.vol].pid == p)
    && (proc.fate.Starting? ==> proc.fate.caller in threads && StartsProc(threads[proc.fate.caller], p))
    && (proc.fate == Stopped ==> proc.phase == Done)
  }

  ghost predicate ProcsInv(mounts: Mounts, procs: Procs, threads: Threads, nextPid: Pid) {
    forall p :: p in procs ==> p < nextPid && ProcOk(mounts, threads, p, procs[p])
  }

  /** Finished for good: `wait()` has nothing left to do. The exception is an abandoned process. */
  predicate Settled(proc: Proc) {
    proc.phase == Done || proc.fate == Abandoned
  }

  /** When a process of a volume is started, every earlier one is settled. */
  ghost predicate InTurn(procs: Procs) {
    forall p, q :: p in procs && q in procs && p < q && procs[p].vol == procs[q].vol ==> Settled(procs[p])
  }

  ghost predicate Inv(s: State) {
    && LocksInv(s.locks, s.threads)
    && MountsInv(s.mounts, s.procs)
    && ThreadsInv(s.mounts, s.procs, s.threads)
    && ProcsInv(s.mounts, s.procs, s.threads, s.nextPid)
    && InTurn(s.procs)
  }

  /** Two goroutines inside Mount or Unmount of one volume are the same goroutine. */
  lemma OneInside(locks: KeyMutex.State, threads: Threads, t: Tid, u: Tid)
    requires LocksInv(locks, threads) && t in threads && u in threads
    requires threads[t].stage == Held && threads[u].stage == Held && threads[t].vol == threads[u].vol
    ensures t == u
  {
    assert KeyMutex.Holds(locks, t) && KeyMutex.Holds(locks, u);
  }

  // ---- what a change of one component keeps --------------------------------------------------

  /** The locks do not care where a goroutine is, only what it does with its lock. */
  lemma SameStages(locks: KeyMutex.State, threads: Threads, threads': Threads)
    requires LocksInv(locks, threads) && threads'.Keys == threads.Keys
    requires forall t :: t in threads ==> threads'[t].vol == threads[t].vol && threads'[t].stage == threads[t].stage
    ensures LocksInv(locks, threads')
  {
  }

  /** A goroutine moves on, and is still starting the process it was starting. */
  lemma MoveKeepsThreads(mounts: Mounts, procs: Procs, threads: Threads, n: Pid, t: Tid, th: Thread)
    requires ThreadsInv(mounts, procs, threads) && ProcsInv(mounts, procs, threads, n)
    requires ThreadOk(mounts, procs, t, th)
    requires t in threads ==> forall p :: StartsProc(threads[t], p) ==> StartsProc(th, p)
    ensures ThreadsInv(mounts, procs, threads[t := th]) && ProcsInv(mounts, procs, threads[t := th], n)
  {
    var threads' := threads[t := th];
    forall u | u in threads' ensures ThreadOk(mounts, procs, u, threads'[u]) {
    }
    forall p | p in procs ensures p < n && ProcOk(mounts, threads', p, procs[p]) {
      assert ProcOk(mounts, threads, p, procs[p]);
    }
  }

  /** A goroutine that starts no process ends. */
  lemma EndKeepsThreads(mounts: Mounts, procs: Procs, threads: Threads, n: Pid, t: Tid)
    requires ThreadsInv(mounts, procs, threads) && ProcsInv(mounts, procs, threads, n)
    requires t in threads && (threads[t].at.Leave? || threads[t].at.Watch?)
    ensures ThreadsInv(mounts, procs, threads - {t}) && ProcsInv(mounts, procs, threads - {t}, n)
  {
    var threads' := threads - {t};
    forall u | u in threads' ensures ThreadOk(mounts, procs, u, threads'[u]) {
      assert ThreadOk(mounts, procs, u, threads[u]);
    }
    forall p | p in procs ensures p < n && ProcOk(mounts, threads', p, procs[p]) {
      assert ProcOk(mounts, threads, p, procs[p]);
    }
  }

  /** An entry disappears whose process, if it is the one in the map, is done. */
  lemma ShrinkKeeps(mounts: Mounts, procs: Procs, threads: Threads, n: Pid, v: Vol)
    requires MountsInv(mounts, procs) && ThreadsInv(mounts, procs, threads) && ProcsInv(mounts, procs, threads, n)
    requires v in mounts ==> PhaseIs(procs, mounts[v].pid, Done)
    ensures MountsInv(mounts - {v}, procs) && ThreadsInv(mounts - {v}, procs, threads) && ProcsInv(mounts - {v}, procs, threads, n)
  {
    var mounts' := mounts - {v};
    forall u | u in threads ensures ThreadOk(mounts', procs, u, threads[u]) {
      assert ThreadOk(mounts, procs, u, threads[u]);
    }
    forall p | p in procs ensures p < n && ProcOk(mounts', threads, p, procs[p]) {
      assert ProcOk(mounts, threads, p, procs[p]);
    }
  }

  /** `wait()` goes on by one step. */
  lemma PhaseKeeps(mounts: Mounts, procs: Procs, threads: Threads, n: Pid, p: Pid, phase: Phase)
    requires MountsInv(mounts, procs) && ThreadsInv(mounts, procs, threads) && ProcsInv(mounts, procs, threads, n) && InTurn(procs)
    requires p in procs && procs[p].phase != Done && phase != Running
    ensures MountsInv(mounts, SetPhase(procs, p, phase)) && ThreadsInv(mounts, SetPhase(procs, p, phase), threads)
    ensures ProcsInv(mounts, SetPhase(procs, p, phase), threads, n) && InTurn(SetPhase(procs, p, phase))
  {
    var procs' := SetPhase(procs, p, phase);
    forall v | v in mounts ensures EntryOk(procs', v, mounts[v]) {
      assert EntryOk(procs, v, mounts[v]);
    }
    forall u | u in threads ensures ThreadOk(mounts, procs', u, threads[u]) {
      assert ThreadOk(mounts, procs, u, threads[u]);
    }
    forall q | q in procs' ensures q < n && ProcOk(mounts, threads, q, procs'[q]) {
      assert ProcOk(mounts, threads, q, procs[q]);
    }
    forall q, r | q in procs' && r in procs' && q < r && procs'[q].vol == procs'[r].vol ensures Settled(procs'[q]) {
      assert Settled(procs[q]);
    }
  }

  lemma FateKeepsThread(mounts: Mounts, procs: Procs, p: Pid, fate: Fate, t: Tid, u: Tid, th: Thread)
    requires ThreadOk(mounts, procs, u, th) && p in procs && procs[p].fate == Starting(t) && u != t
    ensures ThreadOk(mounts, SetFate(procs, p, fate), u, th)
  {
  }

  lemma FateKeepsProc(mounts: Mounts, procs: Procs, threads: Threads, p: Pid, fate: Fate, t: Tid, th: Thread, q: Pid)
    requires q in procs && ProcOk(mounts, threads, q, procs[q]) && p in procs && procs[p].fate == Starting(t) && !fate.Starting? && fate != Recorded
    requires (fate == Stopped ==> procs[p].phase == Done) && t in threads && StartsProc(threads[t], p)
    ensures ProcOk(mounts, threads[t := th], q, SetFate(procs, p, fate)[q])
  {
  }

  lemma FateKeepsTurn(procs: Procs, p: Pid, fate: Fate)
    requires InTurn(procs) && p in procs && procs[p].fate.Starting?
    ensures InTurn(SetFate(procs, p, fate))
  {
    var procs' := SetFate(procs, p, fate);
    forall q, r | q in procs' && r in procs' && q < r && procs'[q].vol == procs'[r].vol ensures Settled(procs'[q]) {
      assert Settled(procs[q]);
    }
  }

  /** A process stops being one that is being started. Its call `t` moves to `th`. */
  lemma FateKeeps(mounts: Mounts, procs: Procs, threads: Threads, n: Pid, p: Pid, fate: Fate, t: Tid, th: Thread)
    requires MountsInv(mounts, procs) && ThreadsInv(mounts, procs, threads) && ProcsInv(mounts, procs, threads, n) && InTurn(procs)
    requires p in procs && procs[p].fate == Starting(t) && !fate.Starting? && fate != Recorded
    requires fate == Stopped ==> procs[p].phase == Done
    requires t in threads && StartsProc(threads[t], p) && th == threads[t].(at := Leave) && threads[t].stage == Held
    ensures MountsInv(mounts, SetFate(procs, p, fate)) && ThreadsInv(mounts, SetFate(procs, p, fate), threads[t := th])
    ensures ProcsInv(mounts, SetFate(procs, p, fate), threads[t := th], n) && InTurn(SetFate(procs, p, fate))
  {
    var procs', threads' := SetFate(procs, p, fate), threads[t := th];
    forall v | v in mounts ensures EntryOk(procs', v, mounts[v]) {
      assert EntryOk(procs, v, mounts[v]);
    }
    forall u | u in threads' ensures ThreadOk(mounts, procs', u, threads'[u]) {
      if u != t {
        FateKeepsThread(mounts, procs, p, fate, t, u, threads[u]);
      }
    }
    forall q | q in procs' ensures q < n && ProcOk(mounts, threads', q, procs'[q]) {
      FateKeepsProc(mounts, procs, threads, p, fate, t, th, q);
    }
    FateKeepsTurn(procs, p, fate);
  }

  /** A new process `n` is started by call `t`, at a moment when the map has no entry of its volume. */
  lemma StartKeeps(mounts: Mounts, procs: Procs, threads: Threads, n: Pid, t: Tid, req: MountRequest)
    requires MountsInv(mounts, procs) && ThreadsInv(mounts, procs, threads) && ProcsInv(mounts, procs, threads, n)
    requires t in threads && threads[t].at == Start(req)
    ensures var procs' := procs[n := Proc(threads[t].vol, req.targetPath, Running, Starting(t))];
            var threads' := threads[t := threads[t].(at := Wait(req, n))];
            MountsInv(mounts, procs') && ThreadsInv(mounts, procs', threads') && ProcsInv(mounts, procs', threads', n + 1)
  {
    var procs' := procs[n := Proc(threads[t].vol, req.targetPath, Running, Starting(t))];
    var threads' := threads[t := threads[t].(at := Wait(req, n))];
    assert n !in procs;
    assert ThreadOk(mounts, procs, t, threads[t]);
    forall v | v in mounts ensures EntryOk(procs', v, mounts[v]) {
      assert EntryOk(procs, v, mounts[v]);
    }
    forall u | u in threads' ensures ThreadOk(mounts, procs', u, threads'[u]) {
      assert ThreadOk(mounts, procs, u, threads[u]);
    }
    forall q | q in procs' ensures q < n + 1 && ProcOk(mounts, threads', q, procs'[q]) {
      if q in procs {
        assert ProcOk(mounts, threads, q, procs[q]);
      }
    }
  }

  /** While call `t` is about to start a process, its volume has no entry and no other process is being
      started for it. */
  lemma NoneBefore(s: State, t: Tid, p: Pid)
    requires LocksInv(s.locks, s.threads) && ThreadsInv(s.mounts, s.procs, s.threads) && ProcsInv(s.mounts, s.procs, s.threads, s.nextPid)
    requires t in s.threads && s.threads[t].at.Start? && p in s.procs && s.procs[p].vol == s.threads[t].vol
    ensures Settled(s.procs[p])
  {
    assert ThreadOk(s.mounts, s.procs, t, s.threads[t]);
    assert ProcOk(s.mounts, s.threads, p, s.procs[p]);
    if s.procs[p].fate.Starting? {
      var u := s.procs[p].fate.caller;
      assert ThreadOk(s.mounts, s.procs, u, s.threads[u]);
      OneInside(s.locks, s.threads, t, u);
    }
  }

  /** At the start of a process every earlier one of its volume is settled: a recorded one that is
      not done would be in the map, and one still being started would have another call inside. */
  lemma StartIsInTurn(s: State, t: Tid)
    requires LocksInv(s.locks, s.threads) && ThreadsInv(s.mounts, s.procs, s.threads)
    requires ProcsInv(s.mounts, s.procs, s.threads, s.nextPid) && InTurn(s.procs)
    requires t in s.threads && s.threads[t].at.Start?
    ensures forall p :: p in s.procs && s.procs[p].vol == s.threads[t].vol ==> Settled(s.procs[p])
    ensures forall proc: Proc :: proc.vol == s.threads[t].vol ==> InTurn(s.procs[s.nextPid := proc])
  {
    forall p | p in s.procs && s.procs[p].vol == s.threads[t].vol ensures Settled(s.procs[p]) {
      NoneBefore(s, t, p);
    }
  }

  /** The entry of a process that has come up is put into the map, which has none of its volume. */
  lemma InsertKeeps(mounts: Mounts, procs: Procs, threads: Threads, n: Pid, t: Tid)
    requires MountsInv(mounts, procs) && ThreadsInv(mounts, procs, threads) && ProcsInv(mounts, procs, threads, n) && InTurn(procs)
    requires t in threads && threads[t].at.Insert?
    requires forall u :: u in threads && threads[u].stage == Held && threads[u].vol == threads[t].vol ==> u == t
    ensures
      var entry := Entry(threads[t].at.req, threads[t].at.pid);
      var mounts', procs', threads' := InsertMount(mounts, entry), SetFate(procs, entry.pid, Recorded), threads[t := threads[t].(at := Spawn(entry))];
      MountsInv(mounts', procs') && ThreadsInv(mounts', procs', threads') && ProcsInv(mounts', procs', threads', n) && InTurn(procs')
  {
    var th := threads[t];
    assert ThreadOk(mounts, procs, t, th);
    var p := th.at.pid;
    var entry := Entry(th.at.req, p);
    var mounts', procs', threads' := InsertMount(mounts, entry), SetFate(procs, p, Recorded), threads[t := th.(at := Spawn(entry))];
    forall w | w in mounts' ensures EntryOk(procs', w, mounts'[w]) {
      assert w in mounts ==> EntryOk(procs, w, mounts[w]);
    }
    forall u | u in threads' ensures ThreadOk(mounts', procs', u, threads'[u]) {
      if u != t {
        InsertKeepsThread(mounts, procs, p, entry, u, threads[u]);
      }
    }
    forall q | q in procs' ensures q < n && ProcOk(mounts', threads', q, procs'[q]) {
      assert ProcOk(mounts, threads, q, procs[q]);
    }
    forall q, r | q in procs' && r in procs' && q < r && procs'[q].vol == procs'[r].vol ensures Settled(procs'[q]) {
      assert Settled(procs[q]);
    }
  }

  lemma InsertKeepsThread(mounts: Mounts, procs: Procs, p: Pid, entry: Entry, u: Tid, th: Thread)
    requires ThreadOk(mounts, procs, u, th) && (th.stage == Held ==> th.vol != entry.req.volumeID)
    requires p in procs && procs[p].fate.Starting? && procs[p].fate.caller != u
    ensures ThreadOk(InsertMount(mounts, entry), SetFate(procs, p, Recorded), u, th)
  {
  }

  // ---- every step keeps the invariant -------------------------------------------------------

  lemma CallKeepsInv(s: State, t: Tid, vol: Vol, op: Op)
    requires Inv(s) && Enabled(s, Call(t, vol, op))
    ensures Inv(Apply(s, Call(t, vol, op)))
  {
    MoveKeepsThreads(s.mounts, s.procs, s.threads, s.nextPid, t, Thread(vol, NoRef, Begin(op)));
  }

  /** The locks have changed for `t` alone, and the thread says so. */
  lemma LocksAndThread(locks: KeyMutex.State, locks': KeyMutex.State, threads: Threads, t: Tid, th: Thread)
    requires Matching(locks, threads) && t in threads && th.vol == threads[t].vol
    requires locks'.refs - {t} == locks.refs - {t} && (forall u :: u != t ==> (KeyMutex.Holds(locks', u) <==> KeyMutex.Holds(locks, u)))
    requires th.stage != NoRef && t in locks'.refs && locks'.refs[t].0 == th.vol && (th.stage == Held <==> KeyMutex.Holds(locks', t))
    ensures Matching(locks', threads[t := th])
  {
    forall u | u != t ensures (u in locks'.refs <==> u in locks.refs) && (u in locks.refs ==> locks'.refs[u] == locks.refs[u]) {
      assert u in locks.refs <==> u in locks.refs - {t};
      assert u in locks'.refs <==> u in locks'.refs - {t};
    }
  }

  lemma LocksKeptByLock(locks: KeyMutex.State, threads: Threads, t: Tid, at: Loc)
    requires LocksInv(locks, threads) && t in locks.refs && locks.refs[t].1 !in locks.owner
    ensures LocksInv(KeyMutex.DoLock(locks, t), threads[t := Thread(threads[t].vol, Held, at)])
  {
    KeyMutex.LockKeepsInv(locks, t);
    LocksAndThread(locks, KeyMutex.DoLock(locks, t), threads, t, Thread(threads[t].vol, Held, at));
  }

  lemma LocksKeptByGetLock(locks: KeyMutex.State, threads: Threads, t: Tid)
    requires LocksInv(locks, threads) && t in threads && t !in locks.refs
    ensures LocksInv(KeyMutex.DoGet(locks, t, threads[t].vol), threads[t := threads[t].(stage := Ref)])
  {
    KeyMutex.GetKeepsInv(locks, t, threads[t].vol);
    LocksAndThread(locks, KeyMutex.DoGet(locks, t, threads[t].vol), threads, t, threads[t].(stage := Ref));
  }

  lemma GetLockKeepsInv(s: State, t: Tid)
    requires Inv(s) && Enabled(s, GetLock(t))
    ensures Inv(DoGetLock(s, t))
  {
    assert ThreadOk(s.mounts, s.procs, t, s.threads[t]);
    LocksKeptByGetLock(s.locks, s.threads, t);
    MoveKeepsThreads(s.mounts, s.procs, s.threads, s.nextPid, t, s.threads[t].(stage := Ref));
  }

  lemma LockKeepsInv(s: State, t: Tid)
    requires Inv(s) && Enabled(s, Lock(t))
    ensures Inv(DoLock(s, t))
  {
    assert ThreadOk(s.mounts, s.procs, t, s.threads[t]);
    LocksKeptByLock(s.locks, s.threads, t, Lookup(s.threads[t].at.op));
    MoveKeepsThreads(s.mounts, s.procs, s.threads, s.nextPid, t, Thread(s.threads[t].vol, Held, Lookup(s.threads[t].at.op)));
  }

  lemma LocksKeptByUnlock(locks: KeyMutex.State, threads: Threads, t: Tid)
    requires LocksInv(locks, threads) && KeyMutex.Holds(locks, t)
    ensures LocksInv(KeyMutex.DoUnlock(locks, t), threads - {t})
  {
    KeyMutex.UnlockKeepsInv(locks, t);
  }

  lemma LocksKeptByMove(locks: KeyMutex.State, threads: Threads, t: Tid, at: Loc)
    requires LocksInv(locks, threads) && t in threads
    ensures LocksInv(locks, threads[t := threads[t].(at := at)])
  {
    SameStages(locks, threads, threads[t := threads[t].(at := at)]);
  }

  /** Steps that only move one goroutine that is not starting a process, or that starts it still. */
  lemma MoveKeepsInv(s: State, t: Tid, at: Loc)
    requires Inv(s) && t in s.threads
    requires ThreadOk(s.mounts, s.procs, t, s.threads[t].(at := at))
    requires forall p :: StartsProc(s.threads[t], p) ==> StartsProc(s.threads[t].(at := at), p)
    ensures Inv(Goto(s, t, at))
  {
    MoveKeepsThreads(s.mounts, s.procs, s.threads, s.nextPid, t, s.threads[t].(at := at));
    LocksKeptByMove(s.locks, s.threads, t, at);
  }

  lemma ShrinkKeepsInv(s: State, v: Vol)
    requires Inv(s) && (v in s.mounts ==> PhaseIs(s.procs, s.mounts[v].pid, Done))
    ensures Inv(s.(mounts := s.mounts - {v}))
  {
    ShrinkKeeps(s.mounts, s.procs, s.threads, s.nextPid, v);
  }

  function AfterRemove(at: Loc): Loc
    requires at.Replace? || at.URemove?
  {
    if at.Replace? then Clean(at.req) else Leave
  }

  lemma RemoveOk(mounts: Mounts, procs: Procs, t: Tid, th: Thread)
    requires ThreadOk(mounts, procs, t, th) && (th.at.Replace? || th.at.URemove?)
    ensures th.vol in mounts ==> PhaseIs(procs, mounts[th.vol].pid, Done)
    ensures ThreadOk(mounts - {th.vol}, procs, t, th.(at := AfterRemove(th.at)))
  {
  }

  lemma RemoveKeepsInv(s: State, t: Tid)
    requires Inv(s) && Enabled(s, Remove(t))
    ensures Inv(DoRemove(s, t))
  {
    var th := s.threads[t];
    RemoveOk(s.mounts, s.procs, t, th);
    ShrinkKeepsInv(s, th.vol);
    MoveKeepsInv(s.(mounts := s.mounts - {th.vol}), t, AfterRemove(th.at));
  }

  lemma StartKeepsInv(s: State, t: Tid)
    requires Inv(s) && Enabled(s, StartProc(t))
    ensures Inv(DoStart(s, t))
  {
    var req := s.threads[t].at.req;
    StartKeeps(s.mounts, s.procs, s.threads, s.nextPid, t, req);
    StartIsInTurn(s, t);
    SameStages(s.locks, s.threads, s.threads[t := s.threads[t].(at := Wait(req, s.nextPid))]);
  }

  lemma StopIsOwn(mounts: Mounts, procs: Procs, t: Tid, th: Thread)
    requires ThreadOk(mounts, procs, t, th) && th.at.Stop?
    ensures th.stage == Held && th.at.pid in procs && procs[th.at.pid].fate == Starting(t)
  {
  }

  lemma StopKeepsInv(s: State, t: Tid, fate: Fate)
    requires Inv(s) && t in s.threads && s.threads[t].at.Stop?
    requires s.threads[t].at.pid in s.procs && (fate == Abandoned || (fate == Stopped && s.procs[s.threads[t].at.pid].phase == Done))
    ensures Inv(Goto(s.(procs := SetFate(s.procs, s.threads[t].at.pid, fate)), t, Leave))
  {
    var th := s.threads[t];
    StopIsOwn(s.mounts, s.procs, t, th);
    FateKeeps(s.mounts, s.procs, s.threads, s.nextPid, th.at.pid, fate, t, th.(at := Leave));
    SameStages(s.locks, s.threads, s.threads[t := th.(at := Leave)]);
  }

  lemma StopOkKeepsInv(s: State, t: Tid)
    requires Inv(s) && Enabled(s, StopOk(t))
    ensures Inv(DoStopOk(s, t))
  {
    if s.threads[t].at.Stop? {
      StopKeepsInv(s, t, Stopped);
    } else {
      HopKeepsInv(s, t, URemove(s.threads[t].at.entry));
    }
  }

  lemma StopTimeoutKeepsInv(s: State, t: Tid)
    requires Inv(s) && Enabled(s, StopTimeout(t))
    ensures Inv(DoStopTimeout(s, t))
  {
    if s.threads[t].at.Stop? {
      StopKeepsInv(s, t, Abandoned);
    } else {
      HopKeepsInv(s, t, Leave);
    }
  }

  lemma AloneInside(locks: KeyMutex.State, threads: Threads, t: Tid)
    requires LocksInv(locks, threads) && t in threads && threads[t].stage == Held
    ensures forall u :: u in threads && threads[u].stage == Held && threads[u].vol == threads[t].vol ==> u == t
  {
    forall u | u in threads && threads[u].stage == Held && threads[u].vol == threads[t].vol ensures u == t {
      OneInside(locks, threads, t, u);
    }
  }

  lemma InsertIsInside(mounts: Mounts, procs: Procs, t: Tid, th: Thread)
    requires ThreadOk(mounts, procs, t, th) && th.at.Insert?
    ensures th.stage == Held
  {
  }

  lemma InsertParts(s: State, t: Tid)
    requires Enabled(s, InsertEntry(t))
    ensures var th := s.threads[t];
            var entry := Entry(th.at.req, th.at.pid);
            DoInsert(s, t) == s.(mounts := InsertMount(s.mounts, entry), procs := SetFate(s.procs, entry.pid, Recorded), threads := s.threads[t := th.(at := Spawn(entry))])
  {
  }

  lemma InsertKeepsInv(s: State, t: Tid)
    requires Inv(s) && Enabled(s, InsertEntry(t))
    ensures Inv(DoInsert(s, t))
  {
    var th := s.threads[t];
    InsertIsInside(s.mounts, s.procs, t, th);
    AloneInside(s.locks, s.threads, t);
    InsertKeeps(s.mounts, s.procs, s.threads, s.nextPid, t);
    LocksKeptByMove(s.locks, s.threads, t, Spawn(Entry(th.at.req, th.at.pid)));
    InsertParts(s, t);
  }

  lemma LocksKeptBySpawn(locks: KeyMutex.State, threads: Threads, t: Tid, w: Tid, at: Loc, th: Thread)
    requires LocksInv(locks, threads) && t in threads && w !in threads && w !in locks.refs && th.stage == NoRef
    ensures LocksInv(locks, threads[t := threads[t].(at := at)][w := th])
  {
    SameStages(locks, threads, threads[t := threads[t].(at := at)]);
  }

  lemma ThreadsKeptBySpawn(mounts: Mounts, procs: Procs, threads: Threads, n: Pid, t: Tid, w: Tid)
    requires ThreadsInv(mounts, procs, threads) && ProcsInv(mounts, procs, threads, n)
    requires t in threads && threads[t].at.Spawn? && w !in threads
    ensures
      var threads' := threads[t := threads[t].(at := Leave)][w := Thread(threads[t].vol, NoRef, Watch(threads[t].at.entry))];
      ThreadsInv(mounts, procs, threads') && ProcsInv(mounts, procs, threads', n)
  {
    var th := threads[t];
    assert ThreadOk(mounts, procs, t, th);
    MoveKeepsThreads(mounts, procs, threads, n, t, th.(at := Leave));
    MoveKeepsThreads(mounts, procs, threads[t := th.(at := Leave)], n, w, Thread(th.vol, NoRef, Watch(th.at.entry)));
  }

  lemma SpawnKeepsInv(s: State, t: Tid, w: Tid)
    requires Inv(s) && Enabled(s, SpawnWatcher(t, w))
    ensures Inv(DoSpawn(s, t, w))
  {
    LocksKeptBySpawn(s.locks, s.threads, t, w, Leave, Thread(s.threads[t].vol, NoRef, Watch(s.threads[t].at.entry)));
    ThreadsKeptBySpawn(s.mounts, s.procs, s.threads, s.nextPid, t, w);
  }

  lemma UnlockKeepsInv(s: State, t: Tid)
    requires Inv(s) && Enabled(s, Unlock(t))
    ensures Inv(Apply(s, Unlock(t)))
  {
    LocksKeptByUnlock(s.locks, s.threads, t);
    EndKeepsThreads(s.mounts, s.procs, s.threads, s.nextPid, t);
  }

  lemma LocksKeptByWatchFire(s: State, t: Tid)
    requires LocksInv(s.locks, s.threads) && t in s.threads && s.threads[t].stage == NoRef
    ensures LocksInv(s.locks, s.threads - {t})
  {
  }

  lemma WatchFireKeepsInv(s: State, t: Tid)
    requires Inv(s) && Enabled(s, WatchFire(t))
    ensures Inv(Apply(s, WatchFire(t)))
  {
    var th := s.threads[t];
    assert ThreadOk(s.mounts, s.procs, t, th);
    var mounts' := DropEntry(s.mounts, th.vol, th.at.entry);
    if mounts' != s.mounts {
      ShrinkKeeps(s.mounts, s.procs, s.threads, s.nextPid, th.vol);
    }
    EndKeepsThreads(mounts', s.procs, s.threads, s.nextPid, t);
    LocksKeptByWatchFire(s, t);
  }

  lemma PhaseKeepsInv(s: State, p: Pid, phase: Phase)
    requires Inv(s) && p in s.procs && s.procs[p].phase != Done && phase != Running
    ensures Inv(s.(procs := SetPhase(s.procs, p, phase)))
  {
    PhaseKeeps(s.mounts, s.procs, s.threads, s.nextPid, p, phase);
  }

  lemma LookUpKeepsInv(s: State, t: Tid)
    requires Inv(s) && Enabled(s, LookUp(t))
    ensures Inv(DoLookUp(s, t))
  {
    var v := s.threads[t].vol;
    assert ThreadOk(s.mounts, s.procs, t, s.threads[t]);
    assert v in s.mounts ==> EntryOk(s.procs, v, s.mounts[v]);
    MoveKeepsInv(s, t, DoLookUp(s, t).threads[t].at);
  }

  /** Moves inside Mount or Unmount between two places where the goroutine knows the same things. */
  predicate Hop(procs: Procs, from: Loc, at: Loc) {
    || (from.Select? && (at == Leave || (Gone(procs, from.entry.pid) && at == AwaitDone(from.req, from.entry))))
    || (from.AwaitDone? && PhaseIs(procs, from.entry.pid, Done) && at == Replace(from.req, from.entry))
    || (from.Clean? && (at == Leave || at == Start(from.req)))
    || (from.Start? && at == Leave)
    || (from.Wait? && (at == Insert(from.req, from.pid) || at == Stop(from.req, from.pid)))
    || (from.UStop? && (at == Leave || (PhaseIs(procs, from.entry.pid, Done) && at == URemove(from.entry))))
  }

  lemma HopOk(mounts: Mounts, procs: Procs, t: Tid, th: Thread, at: Loc)
    requires ThreadOk(mounts, procs, t, th) && Hop(procs, th.at, at)
    ensures ThreadOk(mounts, procs, t, th.(at := at))
    ensures forall p :: StartsProc(th, p) ==> StartsProc(th.(at := at), p)
  {
  }

  lemma HopKeepsInv(s: State, t: Tid, at: Loc)
    requires Inv(s) && t in s.threads && Hop(s.procs, s.threads[t].at, at)
    ensures Inv(Goto(s, t, at))
  {
    HopOk(s.mounts, s.procs, t, s.threads[t], at);
    MoveKeepsInv(s, t, at);
  }

  lemma TableKeepsInv(s: State, table: map<Path, Mnt>)
    requires Inv(s)
    ensures Inv(s.(table := table))
  {
  }

  lemma TableStepKeepsInv(s: State, step: Step)
    requires Inv(s) && Enabled(s, step) && (step.MountUp? || step.Kernel?)
    ensures Inv(Apply(s, step))
  {
    TableKeepsInv(s, Apply(s, step).table);
  }

  lemma ProcStepKeepsInv(s: State, step: Step)
    requires Inv(s) && Enabled(s, step) && (step.ProcExit? || step.ProcUnmount? || step.ProcDone?)
    ensures Inv(Apply(s, step))
  {
    match step
    case ProcExit(p) => PhaseKeepsInv(s, p, Exited);
    case ProcUnmount(p, _) =>
      PhaseKeepsInv(s, p, Unmounted);
      TableKeepsInv(s.(procs := SetPhase(s.procs, p, Unmounted)), Apply(s, step).table);
    case ProcDone(p) => PhaseKeepsInv(s, p, Done);
  }

  lemma MoveStepKeepsInv(s: State, step: Step)
    requires Inv(s) && Enabled(s, step)
    requires step.SelectExited? || step.DoneSeen? || step.Cleaned? || step.StartFailed? || step.MountSeen? || step.MountNotSeen?
    ensures Inv(Apply(s, step))
  {
    var at := s.threads[step.t].at;
    match step
    case SelectExited(t) => HopKeepsInv(s, t, if Gone(s.procs, at.entry.pid) then AwaitDone(at.req, at.entry) else Leave);
    case DoneSeen(t) => HopKeepsInv(s, t, Replace(at.req, at.entry));
    case Cleaned(t) => HopKeepsInv(s, t, Start(at.req));
    case StartFailed(t) => HopKeepsInv(s, t, Leave);
    case MountSeen(t) => HopKeepsInv(s, t, Insert(at.req, at.pid));
    case MountNotSeen(t) => HopKeepsInv(s, t, Stop(at.req, at.pid));
  }

  lemma EntryStepKeepsInv(s: State, step: Step)
    requires Inv(s) && Enabled(s, step) && (step.Remove? || step.InsertEntry? || step.WatchFire?)
    ensures Inv(Apply(s, step))
  {
    match step
    case Remove(t) => RemoveKeepsInv(s, t);
    case InsertEntry(t) => InsertKeepsInv(s, t);
    case WatchFire(t) => WatchFireKeepsInv(s, t);
  }

  lemma StartStopKeepsInv(s: State, step: Step)
    requires Inv(s) && Enabled(s, step) && (step.StartProc? || step.StopOk? || step.StopTimeout?)
    ensures Inv(Apply(s, step))
  {
    match step
    case StartProc(t) => StartKeepsInv(s, t);
    case StopOk(t) => StopOkKeepsInv(s, t);
    case StopTimeout(t) => StopTimeoutKeepsInv(s, t);
  }

  lemma LockStepKeepsInv(s: State, step: Step)
    requires Inv(s) && Enabled(s, step)
    requires step.Call? || step.GetLock? || step.Lock? || step.Unlock? || step.LookUp? || step.SpawnWatcher?
    ensures Inv(Apply(s, step))
  {
    match step
    case Call(t, vol, op) => CallKeepsInv(s, t, vol, op);
    case GetLock(t) => GetLockKeepsInv(s, t);
    case Lock(t) => LockKeepsInv(s, t);
    case Unlock(t) => UnlockKeepsInv(s, t);
    case LookUp(t) => LookUpKeepsInv(s, t);
    case SpawnWatcher(t, w) => SpawnKeepsInv(s, t, w);
  }

  /** The heart of the matter: whatever step is taken next, the invariant holds after it. */
  lemma StepKeepsInv(s: State, step: Step)
    requires Inv(s) && Enabled(s, step)
    ensures Inv(Apply(s, step))
  {
    if step.Call? || step.GetLock? || step.Lock? || step.Unlock? || step.LookUp? || step.SpawnWatcher? {
      LockStepKeepsInv(s, step);
    } else if step.MountUp? || step.Kernel? {
      TableStepKeepsInv(s, step);
    } else if step.ProcExit? || step.ProcUnmount? || step.ProcDone? {
      ProcStepKeepsInv(s, step);
    } else if step.Remove? || step.InsertEntry? || step.WatchFire? {
      EntryStepKeepsInv(s, step);
    } else if step.StartProc? || step.StopOk? || step.StopTimeout? {
      StartStopKeepsInv(s, step);
    } else {
      MoveStepKeepsInv(s, step);
    }
  }
}
