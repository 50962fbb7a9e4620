/** The node plugin's mount helpers: checks of a mount point, unmounting, and the two clean-ups of a
    staging path, of which the second is built around one rule: RemoveAll never runs on a path that
    is still a mount point, because it would delete the volume's data through the mount. */
module MountUtil {
  import opened Wrappers
  import opened MountMachine
  import opened MountSafety
  import opened MountRely
  import opened MountManager

  // ---- what a caller about one volume may change -------------------------------------------------

  /** Between `a` and `b` somebody has worked on the paths `xs` of volume `v` without starting a
      process; on every other path of the volume the mount is the same, unless its process exited. */
  ghost predicate Handled(owner: Owner, v: Vol, xs: set<Path>, a: State, b: State) {
    && a.nextPid <= b.nextPid
    && ProcsRely(v, a.procs, b.procs)
    && MountsRely(v, a.mounts, b.mounts)
    && (forall y :: owner.vol(y) == v && y !in xs ==> PathKept(v, y, a, b))
  }

  lemma HandledTrans(owner: Owner, v: Vol, xs: set<Path>, ys: set<Path>, a: State, b: State, c: State)
    requires Handled(owner, v, xs, a, b) && Handled(owner, v, ys, b, c)
    ensures Handled(owner, v, xs + ys, a, c)
  {
    EvolvesTrans(a.procs, b.procs, c.procs);
    forall y | owner.vol(y) == v && y !in xs + ys ensures PathKept(v, y, a, c) {
      PathKeptTrans(v, y, a, b, c);
    }
  }

  lemma HandledSame(owner: Owner, v: Vol, x: Path, a: State, b: State, c: State)
    requires Handled(owner, v, {x}, a, b) && Handled(owner, v, {x}, b, c)
    ensures Handled(owner, v, {x}, a, c)
  {
    HandledTrans(owner, v, {x}, {x}, a, b, c);
    assert {x} + {x} == {x};
  }

  lemma HandledRefl(owner: Owner, v: Vol, xs: set<Path>, a: State)
    ensures Handled(owner, v, xs, a, a)
  {
  }

  lemma HandledTable(owner: Owner, v: Vol, x: Path, a: State, mnt: Option<Mnt>)
    ensures Handled(owner, v, {x}, a, Apply(a, Kernel(x, mnt)))
  {
  }

  lemma SparedHandled(owner: Owner, v: Vol, xs: set<Path>, a: State, b: State)
    requires Inv(a) && Calm(a, v) && Spared(owner, v, a, b)
    ensures Handled(owner, v, xs, a, b)
  {
    QuietIsOrigin(a, v);
    forall y | owner.vol(y) == v && y !in xs ensures PathKept(v, y, a, b) {
      SparedIsKept(owner, v, a, b, y);
    }
  }

  lemma CalmStays(v: Vol, a: State, b: State)
    requires Calm(a, v) && ThreadsRely(v, a.threads, b.threads)
    ensures Calm(b, v)
  {
  }

  /** Nothing appears on a path of the volume that nobody works on. */
  lemma HandledStaysFree(owner: Owner, v: Vol, xs: set<Path>, a: State, b: State, x: Path)
    requires Handled(owner, v, xs, a, b) && owner.vol(x) == v && x !in xs && x !in a.table
    ensures x !in b.table
  {
    assert PathKept(v, x, a, b);
  }

  lemma StaysFree(owner: Owner, v: Vol, a: State, b: State, x: Path)
    requires Handled(owner, v, {}, a, b) && owner.vol(x) == v
    ensures x !in a.table ==> x !in b.table
  {
    assert PathKept(v, x, a, b);
  }

  /** The exit of a process takes nothing away from a path at which no process mounts. */
  lemma BindStays(owner: Owner, v: Vol, xs: set<Path>, a: State, b: State, y: Path)
    requires Handled(owner, v, xs, a, b) && Separate(owner, b) && owner.vol(y) == v && y !in xs && !owner.stages(y)
    ensures (y in b.table <==> y in a.table) && (y in b.table ==> b.table[y] == a.table[y])
  {
    assert PathKept(v, y, a, b);
  }

  lemma HandledThenOnly(owner: Owner, v: Vol, x: Path, a: State, b: State, c: State)
    requires Handled(owner, v, {x}, a, b) && OnlyAt(owner, v, x, b, c)
    ensures OnlyAt(owner, v, x, a, c)
  {
    EvolvesTrans(a.procs, b.procs, c.procs);
    forall y | owner.vol(y) == v && y != x ensures PathKept(v, y, a, c) {
      PathKeptTrans(v, y, a, b, c);
    }
    forall p | p in c.procs && c.procs[p].vol == v
      ensures (p in a.procs && c.procs[p].fate == a.procs[p].fate) || (a.nextPid <= p && c.procs[p].target == x)
    {
      if p in b.procs {
        assert Later(b.procs[p], c.procs[p]);
      }
    }
  }

  /** Like OnlyAt, but on the paths `xs` of the volume there has been work as well. */
  ghost predicate OnlyAmong(owner: Owner, v: Vol, x: Path, xs: set<Path>, a: State, b: State) {
    && a.nextPid <= b.nextPid && Evolves(a.procs, b.procs)
    && (forall p :: p in b.procs && b.procs[p].vol == v ==>
          (p in a.procs && b.procs[p].fate == a.procs[p].fate) || (a.nextPid <= p && b.procs[p].target == x))
    && (forall y :: owner.vol(y) == v && y != x && y !in xs ==> PathKept(v, y, a, b))
  }

  lemma OnlyThenAmong(owner: Owner, v: Vol, x: Path, xs: set<Path>, a: State, b: State, c: State)
    requires OnlyAt(owner, v, x, a, b) && Handled(owner, v, xs, b, c) && (forall p :: p in a.procs ==> p < a.nextPid)
    ensures OnlyAmong(owner, v, x, xs, a, c)
  {
    EvolvesTrans(a.procs, b.procs, c.procs);
    forall y | owner.vol(y) == v && y != x && y !in xs ensures PathKept(v, y, a, c) {
      PathKeptTrans(v, y, a, b, c);
    }
    forall p | p in c.procs && c.procs[p].vol == v
      ensures (p in a.procs && c.procs[p].fate == a.procs[p].fate) || (a.nextPid <= p && c.procs[p].target == x)
    {
      assert p in b.procs && Later(b.procs[p], c.procs[p]);
    }
  }

  lemma OnlyThenHandled(owner: Owner, v: Vol, x: Path, a: State, b: State, c: State)
    requires OnlyAt(owner, v, x, a, b) && Handled(owner, v, {x}, b, c) && (forall p :: p in a.procs ==> p < a.nextPid)
    ensures OnlyAt(owner, v, x, a, c)
  {
    OnlyThenAmong(owner, v, x, {x}, a, b, c);
  }

  lemma HandledKeepsCarries(owner: Owner, v: Vol, xs: set<Path>, a: State, b: State, c: State, x: Path, pid: Pid)
    requires InTurn(b.procs) && Evolves(a.procs, b.procs) && Handled(owner, v, xs, b, c) && owner.vol(x) == v && x !in xs
    requires Carries(v, x, a, b, pid)
    ensures Carries(v, x, a, c, pid)
  {
    assert PathKept(v, x, b, c);
    KeptCarries(v, x, a, b, c, pid);
  }

  /** What a successful Mount has brought about outlasts work on other paths of the volume. */
  lemma HandledKeepsUp(owner: Owner, v: Vol, xs: set<Path>, a: State, b: State, c: State, req: MountRequest, pid: Pid)
    requires Inv(b) && Evolves(a.procs, b.procs) && Handled(owner, v, xs, b, c) && owner.vol(req.targetPath) == v && req.targetPath !in xs
    requires Up(v, req, a, b, pid)
    ensures Up(v, req, a, c, pid)
  {
    HandledKeepsCarries(owner, v, xs, a, b, c, req.targetPath, pid);
    assert Later(b.procs[pid], c.procs[pid]);
  }

  lemma StartedBelow(s: State)
    requires Inv(s)
    ensures forall p :: p in s.procs ==> p < s.nextPid
  {
  }

  /** Work on the volume before the Mount has started nothing. */
  lemma UpSince(owner: Owner, v: Vol, xs: set<Path>, a: State, b: State, c: State, req: MountRequest, pid: Pid)
    requires Inv(a) && Handled(owner, v, xs, a, b) && Evolves(b.procs, c.procs) && Up(v, req, b, c, pid)
    ensures Up(v, req, a, c, pid)
  {
    StartedBelow(a);
    CarriesSince(v, req.targetPath, a, b, c, pid);
  }

  // ---- system calls ------------------------------------------------------------------------------

  /** Others have their turn. No call about `v` is in progress, so nothing of `v` is being started. */
  method Pause(host: Host, v: Vol)
    requires host.Quiet(v)
    modifies host`m
    ensures host.Quiet(v) && Handled(host.owner, v, {}, old(host.m), host.m)
  {
    host.Others(v);
    CalmStays(v, old(host.m), host.m);
    SparedHandled(host.owner, v, {}, old(host.m), host.m);
  }

  /** One system call of the plugin changes what is mounted at `x`. */
  method SetMount(host: Host, v: Vol, x: Path, mnt: Option<Mnt>)
    requires host.Quiet(v)
    modifies host`m
    ensures host.Quiet(v) && Handled(host.owner, v, {x}, old(host.m), host.m)
    ensures host.m == old(host.m).(table := if mnt.Some? then old(host.m).table[x := mnt.value] else old(host.m).table - {x})
  {
    HandledTable(host.owner, v, x, host.m, mnt);
    host.Take(Kernel(x, mnt));
  }

  /** umount(2), plain or lazy: on success nothing is mounted there any more. */
  method UnmountPath(host: Host, v: Vol, x: Path) returns (ok: bool)
    requires host.Quiet(v)
    modifies host`m
    ensures host.Quiet(v) && Handled(host.owner, v, {x}, old(host.m), host.m)
    ensures host.m == if ok then old(host.m).(table := old(host.m).table - {x}) else old(host.m)
    ensures host.reliable ==> (ok <==> x in old(host.m).table)
  {
    ok := *;
    if host.reliable {
      ok := x in host.m.table;
    }
    if ok {
      SetMount(host, v, x, None);
    } else {
      HandledRefl(host.owner, v, {x}, host.m);
    }
  }

  /** mount.CleanupMountPoint with the extensive check: on success nothing is mounted there; a failure
      can leave the mount, or leave the directory of a mount it has removed. */
  method CleanupMountPoint(host: Host, v: Vol, x: Path) returns (ok: bool)
    requires host.Quiet(v)
    modifies host`m
    ensures host.Quiet(v) && Handled(host.owner, v, {x}, old(host.m), host.m)
    ensures host.m == old(host.m) || host.m == old(host.m).(table := old(host.m).table - {x})
    ensures (ok ==> x !in host.m.table) && (host.reliable ==> ok)
  {
    ok := UnmountPath(host, v, x);
    if ok || x !in host.m.table {
      ok := *;
      ok := ok || host.reliable;
    }
  }

  /** bind(2) of whatever is at `source`. */
  method BindMount(host: Host, v: Vol, source: Path, target: Path, readOnly: bool) returns (ok: bool)
    requires host.Quiet(v)
    modifies host`m
    ensures host.Quiet(v) && Handled(host.owner, v, {target}, old(host.m), host.m)
    ensures host.m == if ok then old(host.m).(table := old(host.m).table[target := Bound(old(host.m), source, readOnly)]) else old(host.m)
    ensures host.reliable ==> ok
  {
    ok := *;
    ok := ok || host.reliable;
    if ok {
      SetMount(host, v, target, Some(Bound(host.m, source, readOnly)));
    } else {
      HandledRefl(host.owner, v, {target}, host.m);
    }
  }

  /** The session one sees at a path. */
  function SessionAt(s: State, path: Path): Option<Pid> {
    if path !in s.table then None
    else match s.table[path]
         case Fuse(p) => Some(p)
         case Bind(session, _) => session
  }

  /** A bind mount shows the session at its source, or the plain directory there. */
  function Bound(s: State, source: Path, readOnly: bool): Mnt {
    Bind(SessionAt(s, source), readOnly)
  }

  /** Deleting below `x` would reach the data of this volume: a session is mounted there, its daemon
      answers, and the mount is not read-only. */
  function ExposedVolume(s: State, x: Path): Option<Vol> {
    if x !in s.table || Dead(s, x) then None
    else match s.table[x]
         case Fuse(p) => if p in s.procs then Some(s.procs[p].vol) else None
         case Bind(Some(p), false) => if p in s.procs then Some(s.procs[p].vol) else None
         case Bind(_, _) => None
  }

  /** os.RemoveAll. Nothing stops it from going through a live mount, and then the data is gone. */
  method RemoveAll(host: Host, x: Path) returns (ok: bool)
    modifies host`remote
    ensures host.remote == match ExposedVolume(host.m, x)
                           case Some(v) => old(host.remote)[v := {}]
                           case None => old(host.remote)
    ensures forall p :: x in host.m.table && host.m.table[x] == Fuse(p) && PhaseIs(host.m.procs, p, Running) ==>
                          host.m.procs[p].vol in host.remote && host.remote[host.m.procs[p].vol] == {}
    ensures host.reliable ==> ok
  {
    ok := *;
    ok := ok || host.reliable;
    match ExposedVolume(host.m, x)
    case Some(v) => host.remote := host.remote[v := {}];
    case None =>
  }

  /** Something is mounted at `x`, and its daemon answers. */
  predicate Working(s: State, x: Path) {
    x in s.table && !Dead(s, x)
  }

  /** A mount point, as far as the kernel can tell without its daemon. */
  predicate LooksLive(s: State, x: Path, cached: bool) {
    x in s.table && (Dead(s, x) ==> cached)
  }

  datatype StatResult = Exists | NoEntry | NotConnected | StatError

  /** stat(2) and lstat(2): errors at will; ENOTCONN only from a dead mount. */
  method Stat(host: Host, x: Path) returns (r: StatResult)
    ensures r.NoEntry? ==> x !in host.m.table
    ensures r.Exists? && x in host.m.table ==> LooksLive(host.m, x, x in host.cached)
    ensures r.NotConnected? ==> Dead(host.m, x)
    ensures host.reliable ==> !r.StatError?
  {
    if !host.reliable {
      if * { return StatError; }
    }
    if x !in host.m.table {
      if * { return NoEntry; }
    } else if Dead(host.m, x) && x !in host.cached {
      return NotConnected;
    }
    r := Exists;
  }

  /** IsMountPoint of the mount library. */
  method IsMountPoint(host: Host, x: Path) returns (c: Check)
    ensures c.NotMounted? || c.NotExist? ==> x !in host.m.table
    ensures c.Mounted? ==> LooksLive(host.m, x, x in host.cached)
    ensures c.Corrupted? ==> Dead(host.m, x)
    ensures host.reliable ==> !c.Failed? && !c.NotExist?
  {
    c := host.IsLikelyNotMountPoint(x);
  }

  datatype Probe = TimedOut | Answered(corrupted: bool)

  /** probeStatfs. An answer is taken to describe the mount that is there now. The single-flight protocol sees
      to that where the node plugin itself has detached a mount, for it resets the probe then; where the
      mount service has taken one away, nothing resets it, and here it is an assumption. */
  method ProbeStatfs(host: Host, x: Path) returns (p: Probe)
    ensures p.Answered? ==> p.corrupted == Dead(host.m, x)
    ensures x in host.hung && !Dead(host.m, x) ==> p.TimedOut?
    ensures host.reliable && (x !in host.hung || Dead(host.m, x)) ==> p.Answered?
  {
    p := Answered(Dead(host.m, x));
    var timedOut := *;
    if (timedOut && !host.reliable) || (x in host.hung && !p.corrupted) {
      p := TimedOut;
    }
  }

  method IsDeadMount(host: Host, x: Path) returns (dead: bool)
    ensures (dead ==> Dead(host.m, x)) && (host.reliable && Dead(host.m, x) ==> dead)
  {
    var p := ProbeStatfs(host, x);
    dead := p.Answered? && p.corrupted;
  }

  method IsStagingPathHealthy(host: Host, x: Path) returns (healthy: bool)
    ensures healthy ==> x in host.m.table && !Dead(host.m, x) && x !in host.hung
    ensures host.reliable ==> (healthy <==> x in host.m.table && !Dead(host.m, x) && x !in host.hung)
  {
    var stat := Stat(host, x);
    if stat != Exists {
      return false;
    }
    var isDir := *;
    if !isDir && !host.reliable {
      return false;
    }
    var check := IsMountPoint(host, x);
    if check != Mounted {
      return false;
    }
    var p := ProbeStatfs(host, x);
    healthy := p.Answered? && !p.corrupted;
  }

  /** isStagingPathLive: a mount whose daemon is alive counts as live, whether it answers in time or not; one
      whose daemon is dead does not, unless the kernel conceals that. */
  method IsStagingPathLive(host: Host, x: Path) returns (live: bool)
    ensures live ==> LooksLive(host.m, x, x in host.cached)
    ensures host.reliable && x in host.m.table && !Dead(host.m, x) ==> live
  {
    var stat := Stat(host, x);
    if stat != Exists {
      return false;
    }
    var check := IsMountPoint(host, x);
    live := check == Mounted;
  }

  // ---- cleaning up a staging path ----------------------------------------------------------------

  /** Nothing is mounted at `x`: removing what is there is safe, also after others had their turn. */
  method RemoveFreePath(host: Host, v: Vol, x: Path) returns (ok: bool)
    requires host.Quiet(v) && host.owner.vol(x) == v && x !in host.m.table
    modifies host`m, host`remote
    ensures host.Quiet(v) && Handled(host.owner, v, {x}, old(host.m), host.m)
    ensures host.remote == old(host.remote) && x !in host.m.table && (host.reliable ==> ok)
  {
    Pause(host, v);
    HandledStaysFree(host.owner, v, {}, old(host.m), host.m, x);
    HandledMore(host.owner, v, {x}, old(host.m), host.m);
    ok := RemoveAll(host, x);
  }

  lemma HandledMore(owner: Owner, v: Vol, xs: set<Path>, a: State, b: State)
    requires Handled(owner, v, {}, a, b)
    ensures Handled(owner, v, xs, a, b)
  {
  }

  method CleanupCorruptedStagingPath(host: Host, v: Vol, x: Path) returns (ok: bool)
    requires host.Quiet(v) && host.owner.vol(x) == v
    modifies host`m, host`remote
    ensures host.Quiet(v) && Handled(host.owner, v, {x}, old(host.m), host.m)
    ensures host.remote == old(host.remote)
    ensures (ok ==> x !in host.m.table) && (host.reliable ==> ok)
  {
    ok := CleanupMountPoint(host, v, x);
    if !ok {
      ghost var s1 := host.m;
      ok := LazyUnmountAndRemove(host, v, x);
      HandledSame(host.owner, v, x, old(host.m), s1, host.m);
    }
  }

  method LazyUnmountAndRemove(host: Host, v: Vol, x: Path) returns (ok: bool)
    requires host.Quiet(v) && host.owner.vol(x) == v
    modifies host`m, host`remote
    ensures host.Quiet(v) && Handled(host.owner, v, {x}, old(host.m), host.m)
    ensures host.remote == old(host.remote)
    ensures ok ==> x !in host.m.table
  {
    ok := UnmountPath(host, v, x);
    if ok {
      ghost var s1 := host.m;
      ok := RemoveFreePath(host, v, x);
      HandledSame(host.owner, v, x, old(host.m), s1, host.m);
    }
  }

  /** cleanupStaleStagingPath. Whatever the system calls answer, the data of every volume is as it was,
      and a success means that nothing is mounted at the path. */
  method CleanupStaleStagingPath(host: Host, v: Vol, x: Path) returns (ok: bool)
    requires host.Quiet(v) && host.owner.vol(x) == v
    modifies host`m, host`remote
    ensures host.Quiet(v) && Handled(host.owner, v, {x}, old(host.m), host.m)
    ensures host.remote == old(host.remote)
    ensures (ok ==> x !in host.m.table) && (host.reliable ==> ok)
  {
    var unmounted := UnmountPath(host, v, x);
    ghost var s1 := host.m;
    ok := RemoveUnmounted(host, v, x);
    HandledSame(host.owner, v, x, old(host.m), s1, host.m);
  }

  /** The second half, after the unmount that may have failed. */
  method RemoveUnmounted(host: Host, v: Vol, x: Path) returns (ok: bool)
    requires host.Quiet(v) && host.owner.vol(x) == v
    modifies host`m, host`remote
    ensures host.Quiet(v) && Handled(host.owner, v, {x}, old(host.m), host.m)
    ensures host.remote == old(host.remote)
    ensures (ok ==> x !in host.m.table) && (host.reliable && x !in old(host.m).table ==> ok)
  {
    Pause(host, v);
    StaysFree(host.owner, v, old(host.m), host.m, x);
    HandledMore(host.owner, v, {x}, old(host.m), host.m);
    ghost var s1 := host.m;
    var stat := Stat(host, x);
    if stat == NoEntry {
      return true;
    }
    if stat == StatError {
      return false;
    }
    if stat == NotConnected {
      ok := CleanupCorruptedStagingPath(host, v, x);
    } else {
      ok := RemoveIfNotMounted(host, v, x);
    }
    HandledSame(host.owner, v, x, old(host.m), s1, host.m);
  }

  method RemoveIfNotMounted(host: Host, v: Vol, x: Path) returns (ok: bool)
    requires host.Quiet(v) && host.owner.vol(x) == v
    modifies host`m, host`remote
    ensures host.Quiet(v) && Handled(host.owner, v, {x}, old(host.m), host.m)
    ensures host.remote == old(host.remote)
    ensures (ok ==> x !in host.m.table) && (host.reliable && x !in old(host.m).table ==> ok)
  {
    Pause(host, v);
    StaysFree(host.owner, v, old(host.m), host.m, x);
    HandledMore(host.owner, v, {x}, old(host.m), host.m);
    ghost var s1 := host.m;
    var check := IsMountPoint(host, x);
    match check
    case Corrupted =>
      ok := CleanupCorruptedStagingPath(host, v, x);
      HandledSame(host.owner, v, x, old(host.m), s1, host.m);
    case NotMounted =>
      ok := RemoveFreePath(host, v, x);
      HandledSame(host.owner, v, x, old(host.m), s1, host.m);
    case _ =>  // still a mount point, or the check failed: refuse
      ok := false;
  }

  /** checkMount: is something mounted here? A dead mount is taken away first. */
  method CheckMount(host: Host, v: Vol, x: Path) returns (isMnt: Option<bool>)
    requires host.Quiet(v)
    modifies host`m
    ensures host.Quiet(v) && Handled(host.owner, v, {x}, old(host.m), host.m)
    ensures host.m == old(host.m) || host.m == old(host.m).(table := old(host.m).table - {x})
    ensures isMnt == Some(false) ==> x !in host.m.table
    ensures isMnt == Some(true) ==> x in host.m.table && host.m == old(host.m)
    ensures host.m == old(host.m) || Dead(old(host.m), x)
    ensures host.reliable ==> isMnt.Some? && (Working(old(host.m), x) ==> isMnt == Some(true))
  {
    HandledRefl(host.owner, v, {x}, host.m);
    var check := IsMountPoint(host, x);
    match check
    case NotExist =>
      var made := *;
      isMnt := if made then Some(false) else None;
    case Corrupted =>
      var ok := UnmountPath(host, v, x);
      // The second check's error is dropped; isMnt is then false.
      isMnt := if ok then Some(false) else None;
    case Failed => isMnt := None;
    case Mounted => isMnt := Some(true);
    case NotMounted => isMnt := Some(false);
  }
}
