/** The health monitor: checking a volume, recovering one whose mount has died, and mending publish
    binds. Recovery and mending work under the same per-volume lock as the CSI calls, so nothing else is
    done about the volume meanwhile, except by the mount service and the weed processes. The probes with
    which a check begins, and the clearing of the throttle, take no lock; here a check is one piece of
    work all the same. */
module HealthMonitor {
  import opened Wrappers
  import opened MountMachine
  import opened MountSafety
  import opened MountRely
  import opened MountManager
  import opened MountUtil
  import opened Volumes
  import opened NodeServers
  import RB = RecoveryBackoff
  import VA = VolumeAttributes

  // ---- publish binds -----------------------------------------------------------------------------

  /** A bind with this flag. It shows the session at the staging path `x` if there is one, and no other
      session than `src`, which was there when the binds began to be made. */
  predicate BoundTo(s: State, x: Path, src: Option<Pid>, path: Path, readOnly: bool) {
    && path in s.table && s.table[path].Bind? && s.table[path].readOnly == readOnly
    && (SessionAt(s, x).Some? ==> SessionAt(s, path) == SessionAt(s, x))
    && (SessionAt(s, path).Some? ==> SessionAt(s, path) == src)
  }

  /** At `x` there is the session `src`, or none. */
  predicate NoOther(s: State, x: Path, src: Option<Pid>) {
    SessionAt(s, x).Some? ==> SessionAt(s, x) == src
  }

  /** Every publish path that has not failed is such a bind, as long as it is not named like a staging
      path. */
  ghost predicate AllBound(owner: Owner, s: State, x: Path, src: Option<Pid>, publishes: Publishes, failed: set<Path>) {
    forall y :: y in publishes && y !in failed && !owner.stages(y) ==> BoundTo(s, x, src, y, publishes[y])
  }

  lemma AllBoundToNew(owner: Owner, s: State, x: Path, src: Option<Pid>, publishes: Publishes, failed: set<Path>, pid: Pid)
    requires AllBound(owner, s, x, src, publishes, failed) && (src.Some? ==> src == Some(pid))
    ensures AllBound(owner, s, x, Some(pid), publishes, failed)
  {
    forall y | y in publishes && y !in failed && !owner.stages(y) ensures BoundTo(s, x, Some(pid), y, publishes[y]) {
      assert BoundTo(s, x, src, y, publishes[y]);
    }
  }

  /** No session is mounted at `x`, neither its own nor that of a bind. */
  predicate NoSessionAt(s: State, x: Path) {
    SessionAt(s, x).None?
  }

  /** tearDownStalePublishBind: true only if nothing is mounted at the path any more. */
  method TearDownStalePublishBind(host: Host, v: Vol, path: Path) returns (down: bool)
    requires host.Quiet(v)
    modifies host`m
    ensures host.Quiet(v) && Handled(host.owner, v, {path}, old(host.m), host.m)
    ensures (down ==> path !in host.m.table) && (host.reliable ==> down)
    ensures host.m == old(host.m).(table := host.m.table)
    ensures forall y :: y != path ==> (y in host.m.table <==> y in old(host.m).table) && (y in host.m.table ==> host.m.table[y] == old(host.m).table[y])
  {
    down := UnmountPath(host, v, path);
    if !down {
      ghost var s1 := host.m;
      down := CleanupMountPoint(host, v, path);
      HandledSame(host.owner, v, path, old(host.m), s1, host.m);
    }
  }

  /** Step 4 of a recovery: which of the binds could be taken down. */
  method TearDownAll(host: Host, v: Vol, publishes: Publishes) returns (unmounted: set<Path>)
    requires host.Quiet(v) && (forall y :: y in publishes ==> host.owner.vol(y) == v)
    modifies host`m
    ensures host.Quiet(v) && Handled(host.owner, v, publishes.Keys, old(host.m), host.m)
    ensures unmounted <= publishes.Keys && forall y :: y in unmounted ==> y !in host.m.table
    ensures host.reliable ==> unmounted == publishes.Keys
  {
    unmounted := {};
    var rest := publishes.Keys;
    HandledRefl(host.owner, v, publishes.Keys, host.m);
    while rest != {}
      invariant host.Quiet(v) && Handled(host.owner, v, publishes.Keys, old(host.m), host.m)
      invariant rest <= publishes.Keys && unmounted <= publishes.Keys - rest
      invariant host.reliable ==> unmounted == publishes.Keys - rest
      invariant forall y :: y in unmounted ==> y !in host.m.table
    {
      var path :| path in rest;
      rest := rest - {path};
      ghost var s1 := host.m;
      Pause(host, v);
      ghost var s2 := host.m;
      forall y | y in unmounted ensures y !in s2.table {
        HandledStaysFree(host.owner, v, {}, s1, s2, y);
      }
      var down := TearDownStalePublishBind(host, v, path);
      Handled2(host.owner, v, publishes.Keys, old(host.m), s1, s2, host.m, path);
      if down {
        unmounted := unmounted + {path};
      }
    }
  }

  lemma Handled2(owner: Owner, v: Vol, xs: set<Path>, a: State, b: State, c: State, d: State, x: Path)
    requires Handled(owner, v, xs, a, b) && Handled(owner, v, {}, b, c) && Handled(owner, v, {x}, c, d) && x in xs
    ensures Handled(owner, v, xs, a, d)
  {
    HandledTrans(owner, v, xs, {}, a, b, c);
    HandledTrans(owner, v, xs + {}, {x}, a, c, d);
    assert xs + {} + {x} == xs;
  }

  /** What step 5 has done for the paths outside `rest`. */
  ghost predicate Rebound(owner: Owner, s: State, x: Path, src: Option<Pid>, publishes: Publishes, rest: set<Path>, unmounted: set<Path>, failed: set<Path>) {
    && (forall y :: y in rest && y in unmounted ==> y !in s.table)
    && NoOther(s, x, src)
    && AllBound(owner, s, x, src, publishes, rest + failed)
  }

  /** Others cannot disturb that: they mount nothing on paths of the volume and unmount none of these. */
  lemma ReboundStays(owner: Owner, v: Vol, a: State, b: State, x: Path, src: Option<Pid>, publishes: Publishes, rest: set<Path>, unmounted: set<Path>, failed: set<Path>)
    requires Handled(owner, v, {}, a, b) && Separate(owner, b) && owner.vol(x) == v && (forall y :: y in publishes ==> owner.vol(y) == v)
    requires rest <= publishes.Keys && Rebound(owner, a, x, src, publishes, rest, unmounted, failed)
    ensures Rebound(owner, b, x, src, publishes, rest, unmounted, failed)
  {
    assert PathKept(v, x, a, b);
    forall y | y in rest && y in unmounted ensures y !in b.table {
      HandledStaysFree(owner, v, {}, a, b, y);
    }
    forall y | y in publishes && y !in rest + failed && !owner.stages(y) ensures BoundTo(b, x, src, y, publishes[y]) {
      BindStays(owner, v, {}, a, b, y);
      assert BoundTo(a, x, src, y, publishes[y]);
    }
  }

  /** One more path: `y` was free, and either its bind has been made or it is among the failed. */
  lemma ReboundOneMore(owner: Owner, s: State, s': State, x: Path, src: Option<Pid>, publishes: Publishes, rest: set<Path>, unmounted: set<Path>,
                       failed: set<Path>, y: Path)
    requires Rebound(owner, s, x, src, publishes, rest, unmounted, failed) && y in rest && y != x && rest <= publishes.Keys
    requires s' == s || s' == s.(table := s.table - {y})
             || s' == s.(table := (s.table - {y})[y := Bound(s.(table := s.table - {y}), x, publishes[y])])
    requires y !in failed ==> y in unmounted && s' != s && s' != s.(table := s.table - {y})
    ensures Rebound(owner, s', x, src, publishes, rest - {y}, unmounted, failed)
  {
    forall z | z in publishes && z !in rest - {y} + failed && !owner.stages(z) ensures BoundTo(s', x, src, z, publishes[z]) {
      if z != y {
        assert BoundTo(s, x, src, z, publishes[z]);
      }
    }
  }

  /** Others bring no session to a path of the volume. */
  lemma OverItself(owner: Owner, v: Vol, a: State, b: State, x: Path)
    requires Handled(owner, v, {}, a, b) && owner.vol(x) == v && NoSessionAt(a, x)
    ensures NoSessionAt(b, x)
  {
    assert PathKept(v, x, a, b);
  }

  lemma TrackOneMore(publishes: Publishes, rest: set<Path>, path: Path)
    requires path in rest && path in publishes
    ensures (map y | y in publishes && y !in rest :: publishes[y])[path := publishes[path]] == map y | y in publishes && y !in rest - {path} :: publishes[y]
  {
  }

  /** Step 5 of a recovery: track every path again, and bind those that were taken down from the staging
      path `x`. */
  method RepublishAll(host: Host, vol: Volume, x: Path, publishes: Publishes, unmounted: set<Path>) returns (failed: set<Path>)
    requires host.Quiet(vol.volumeId) && host.owner.vol(x) == vol.volumeId && (forall y :: y in publishes ==> host.owner.vol(y) == vol.volumeId)
    requires vol.publishPaths == map[] && unmounted <= publishes.Keys && (forall y :: y in unmounted ==> y !in host.m.table)
    modifies host`m, vol`publishPaths
    ensures host.Quiet(vol.volumeId) && Handled(host.owner, vol.volumeId, publishes.Keys, old(host.m), host.m)
    ensures vol.publishPaths == publishes && failed <= publishes.Keys && publishes.Keys - unmounted <= failed
    ensures host.reliable ==> failed == publishes.Keys - unmounted
    ensures x !in publishes ==> AllBound(host.owner, host.m, x, SessionAt(old(host.m), x), publishes, failed)
    ensures x in unmounted ==> NoSessionAt(host.m, x)
  {
    failed := {};
    var rest := publishes.Keys;
    ghost var a, v, src := host.m, vol.volumeId, SessionAt(host.m, x);
    HandledRefl(host.owner, v, publishes.Keys, a);
    while rest != {}
      invariant host.Quiet(v) && Handled(host.owner, v, publishes.Keys, a, host.m)
      invariant rest <= publishes.Keys && vol.publishPaths == map y | y in publishes && y !in rest :: publishes[y]
      invariant failed <= publishes.Keys - rest && publishes.Keys - rest - unmounted <= failed
      invariant host.reliable ==> failed == publishes.Keys - rest - unmounted
      invariant x !in publishes ==> Rebound(host.owner, host.m, x, src, publishes, rest, unmounted, failed)
      invariant x in unmounted ==> NoSessionAt(host.m, x)
    {
      var path :| path in rest;
      TrackOneMore(publishes, rest, path);
      vol.AddPublishPath(path, publishes[path]);
      var ok := RepublishOne(host, vol, x, publishes, unmounted, path, a, src, rest, failed);
      rest := rest - {path};
      if !ok {
        failed := failed + {path};
      }
    }
    assert {} + failed == failed;
  }

  method RepublishOne(host: Host, vol: Volume, x: Path, publishes: Publishes, unmounted: set<Path>, path: Path,
                      ghost a: State, ghost src: Option<Pid>, ghost rest: set<Path>, ghost failed: set<Path>) returns (ok: bool)
    requires host.Quiet(vol.volumeId) && host.owner.vol(x) == vol.volumeId && (forall y :: y in publishes ==> host.owner.vol(y) == vol.volumeId)
    requires Handled(host.owner, vol.volumeId, publishes.Keys, a, host.m) && path in rest && rest <= publishes.Keys && failed !! rest
    requires x !in publishes ==> Rebound(host.owner, host.m, x, src, publishes, rest, unmounted, failed)
    requires x in unmounted ==> NoSessionAt(host.m, x)
    modifies host`m
    ensures host.Quiet(vol.volumeId) && Handled(host.owner, vol.volumeId, publishes.Keys, a, host.m)
    ensures (ok ==> path in unmounted) && (host.reliable && path in unmounted ==> ok)
    ensures x !in publishes ==> Rebound(host.owner, host.m, x, src, publishes, rest - {path}, unmounted, if ok then failed else failed + {path})
    ensures x in unmounted ==> NoSessionAt(host.m, x)
  {
    var v := vol.volumeId;
    ghost var s1 := host.m;
    if path !in unmounted {
      assert s1.(table := s1.table) == s1;
      if x !in publishes {
        ReboundOneMore(host.owner, s1, s1, x, src, publishes, rest, unmounted, failed + {path}, path);
      }
      return false;
    }
    Pause(host, v);
    ghost var s2 := host.m;
    if x !in publishes {
      ReboundStays(host.owner, v, s1, s2, x, src, publishes, rest, unmounted, failed);
    }
    if x in unmounted {
      OverItself(host.owner, v, s1, s2, x);
    }
    ok := vol.Publish(host, x, path, publishes[path]);
    Handled2(host.owner, v, publishes.Keys, a, s1, s2, host.m, path);
    if x !in publishes {
      ReboundOneMore(host.owner, s2, host.m, x, src, publishes, rest, unmounted, if ok then failed else failed + {path}, path);
    }
  }

  // ---- recovery ----------------------------------------------------------------------------------

  datatype Outcome = Throttled | Missing | Healthy | NoContext | SkippedStillLive | Failed | Partial | Success

  /** Which probes of the staging path run out of time: the one a check begins with, and the two of
      recoverVolume. */
  datatype Lateness = Lateness(probe: bool, health: bool, live: bool)

  /** A hung daemon makes the health probes late, but not the liveness check, which does not reach it. */
  function Slow(late: Lateness, hung: bool): Lateness {
    Lateness(late.probe || hung, late.health || hung, late.live)
  }

  /** checkHealth and live: a probe that is late counts against the mount. */
  method CheckHealth(host: Host, x: Path, late: bool) returns (healthy: bool)
    ensures healthy ==> !late && Working(host.m, x) && x !in host.hung
    ensures host.reliable && !late && Working(host.m, x) && x !in host.hung ==> healthy
  {
    healthy := IsStagingPathHealthy(host, x);
    healthy := healthy && !late;
  }

  method Live(host: Host, x: Path, late: bool) returns (live: bool)
    ensures live ==> !late && LooksLive(host.m, x, x in host.cached)
    ensures host.reliable && !late && Working(host.m, x) ==> live
  {
    live := IsStagingPathLive(host, x);
    live := live && !late;
  }

  /** checkHealth of a publish path, or again of the staging path before publish paths are mended; it is in
      time if no system call fails. */
  method CheckPath(host: Host, x: Path) returns (healthy: bool)
    ensures healthy ==> Working(host.m, x) && x !in host.hung
    ensures host.reliable && Working(host.m, x) && x !in host.hung ==> healthy
  {
    var late := *;
    healthy := CheckHealth(host, x, late && !host.reliable);
  }

  lemma StillNotWorking(owner: Owner, v: Vol, a: State, b: State, x: Path)
    requires Handled(owner, v, {}, a, b) && owner.vol(x) == v && !Working(a, x)
    ensures !Working(b, x)
  {
    if Working(b, x) {
      WorksSince(owner, v, {}, a, b, x);
    }
  }

  /** Step 1: the manager gives the mount up; what is still mounted is detached if its daemon is dead,
      and never otherwise. */
  method DetachOld(host: Host, v: Vol, x: Path, hasUnmounter: bool) returns (ok: bool)
    requires host.Quiet(v) && host.owner.vol(x) == v
    modifies host`m
    ensures host.Quiet(v) && Handled(host.owner, v, {x}, old(host.m), host.m)
    ensures ok && hasUnmounter ==> v !in host.m.mounts
    ensures host.Ideal() && v != "" && !Working(old(host.m), x) ==> ok
  {
    ghost var a := host.m;
    if !Working(a, x) {
      forall b | Handled(host.owner, v, {}, a, b) ensures !Working(b, x) {
        StillNotWorking(host.owner, v, a, b, x);
      }
    }
    if hasUnmounter {
      ok := UnmountViaService(host, v);
      HandledMore(host.owner, v, {x}, a, host.m);
      if !ok {
        return;
      }
    } else {
      Pause(host, v);
      HandledMore(host.owner, v, {x}, a, host.m);
    }
    ghost var s1 := host.m;
    ok := true;
    var check := IsMountPoint(host, x);
    if check == Mounted {
      ok := DetachIfDead(host, v, x);
      HandledSame(host.owner, v, x, a, s1, host.m);
    }
  }

  /** A path that still is a mount point: a dead mount is detached, and no other. */
  method DetachIfDead(host: Host, v: Vol, x: Path) returns (ok: bool)
    requires host.Quiet(v) && x in host.m.table
    modifies host`m
    ensures host.Quiet(v) && Handled(host.owner, v, {x}, old(host.m), host.m)
    ensures ok ==> Dead(old(host.m), x) && host.m == old(host.m).(table := old(host.m).table - {x})
    ensures !ok ==> host.m == old(host.m)
    ensures host.reliable ==> (ok <==> Dead(old(host.m), x))
  {
    HandledRefl(host.owner, v, {x}, host.m);
    ok := false;
    var dead := IsDeadMount(host, x);
    if dead {
      ok := UnmountPath(host, v, x);
    }
  }

  /** Steps 1 and 2: afterwards nothing is mounted at the staging path, and the manager knows it. */
  method CleanStaging(host: Host, v: Vol, x: Path, hasUnmounter: bool) returns (ok: bool)
    requires host.Quiet(v) && host.owner.vol(x) == v
    modifies host`m, host`remote
    ensures host.Quiet(v) && host.remote == old(host.remote) && Handled(host.owner, v, {x}, old(host.m), host.m)
    ensures ok ==> x !in host.m.table && (hasUnmounter ==> v !in host.m.mounts)
    ensures host.Ideal() && v != "" && !Working(old(host.m), x) ==> ok
  {
    ok := DetachOld(host, v, x, hasUnmounter);
    ghost var s1 := host.m;
    if ok {
      ok := CleanupStaleStagingPath(host, v, x);
      HandledSame(host.owner, v, x, old(host.m), s1, host.m);
    }
  }

  /** What a volume staged anew from `context` has in common with the one it replaces, and what it has been
      staged with. */
  ghost predicate Renewed(vol: Volume, v: Vol, x: Path, context: Context, staging: VA.Staging, readOnly: bool)
    reads vol`stagedPath, vol`readOnly, vol`hasUnmounter, vol`volContext
  {
    && vol.volumeId == v && vol.stagedPath == x && vol.readOnly == readOnly && vol.hasUnmounter
    && vol.volContext.Some? && StagedWith(Some(context), staging, vol.volContext)
  }

  /** Staging again has to succeed if nothing fails: the mount does not work, the mount service can be told to
      give it up or has no live entry, and the parameters are not refused. */
  predicate CanRestage(s: State, v: Vol, x: Path, context: Context, staging: VA.Staging, hasUnmounter: bool) {
    && v != "" && x != "" && !Working(s, x) && (hasUnmounter || !LiveEntry(s, v))
    && VA.StageContext(context, staging).Context?
  }

  /** Steps 1 to 3. No path but the staging path is touched, whatever happens. */
  method Restage(host: Host, v: Vol, x: Path, context: Context, staging: VA.Staging, readOnly: bool, hasUnmounter: bool)
      returns (vol: Volume?, r: MountResult)
    requires host.Quiet(v) && Stages(host.owner, v, x)
    modifies host`m, host`remote, host`quota
    ensures host.Quiet(v) && host.remote == old(host.remote) && (vol == null ==> OnlyAt(host.owner, v, x, old(host.m), host.m))
    ensures vol != null ==> fresh(vol) && Renewed(vol, v, x, context, staging, readOnly) && vol.publishPaths == map[]
    ensures vol != null ==> QuotaIs(host.quota, v, VA.CapacityOf(context, staging))
    ensures vol != null ==> Asked(host.owner, old(host.m), host.m, RequestFor(v, x, vol.volContext.value, readOnly), r)
    ensures vol != null && hasUnmounter ==> r.Started?
    ensures host.Ideal() && CanRestage(old(host.m), v, x, context, staging, hasUnmounter) ==> vol != null
  {
    ghost var a := host.m;
    vol, r := null, MountFailed;
    OnlyAtRefl(host.owner, v, x, a);
    var cleaned := CleanStaging(host, v, x, hasUnmounter);
    NoLiveEntryStays(host.owner, v, {x}, a, host.m);
    if cleaned {
      vol, r := StageAgain(host, v, x, context, staging, readOnly, a);
    } else {
      OnlyAtRefl(host.owner, v, x, host.m);
      HandledThenOnly(host.owner, v, x, a, host.m, host.m);
    }
  }

  /** Step 3, after the path has been worked on since `a`. */
  method StageAgain(host: Host, v: Vol, x: Path, context: Context, staging: VA.Staging, readOnly: bool, ghost a: State)
      returns (vol: Volume?, r: MountResult)
    requires host.Quiet(v) && Stages(host.owner, v, x) && Inv(a) && Handled(host.owner, v, {x}, a, host.m)
    modifies host`m, host`quota
    ensures host.Quiet(v) && OnlyAt(host.owner, v, x, a, host.m)
    ensures vol != null ==> fresh(vol) && Renewed(vol, v, x, context, staging, readOnly) && vol.publishPaths == map[]
    ensures vol != null ==> QuotaIs(host.quota, v, VA.CapacityOf(context, staging))
    ensures vol != null ==> Asked(host.owner, a, host.m, RequestFor(v, x, vol.volContext.value, readOnly), r)
    ensures vol != null && v !in old(host.m).mounts ==> r.Started?
    ensures host.Ideal() && v != "" && x != "" && !LiveEntry(old(host.m), v) && VA.StageContext(context, staging).Context? ==> vol != null
  {
    ghost var s1 := host.m;
    vol, r := StageNewVolume(host, v, x, Some(context), staging, readOnly);
    HandledThenOnly(host.owner, v, x, a, s1, host.m);
    if vol != null {
      AskedSince(host.owner, a, s1, host.m, RequestFor(v, x, vol.volContext.value, readOnly), r);
    }
  }

  /** Steps 4 and 5. */
  method Rebind(host: Host, vol: Volume, x: Path, publishes: Publishes) returns (failed: set<Path>)
    requires host.Quiet(vol.volumeId) && host.owner.vol(x) == vol.volumeId && (forall y :: y in publishes ==> host.owner.vol(y) == vol.volumeId)
    requires vol.publishPaths == map[]
    modifies host`m, vol`publishPaths
    ensures host.Quiet(vol.volumeId) && Handled(host.owner, vol.volumeId, publishes.Keys, old(host.m), host.m)
    ensures vol.publishPaths == publishes && failed <= publishes.Keys && (host.reliable ==> failed == {})
    ensures x !in publishes ==> AllBound(host.owner, host.m, x, SessionAt(old(host.m), x), publishes, failed)
    ensures x in publishes && x !in failed ==> NoSessionAt(host.m, x)
  {
    ghost var a := host.m;
    var unmounted := TearDownAll(host, vol.volumeId, publishes);
    ghost var s1 := host.m;
    failed := RepublishAll(host, vol, x, publishes, unmounted);
    HandledTrans(host.owner, vol.volumeId, publishes.Keys, publishes.Keys, a, s1, host.m);
    assert publishes.Keys + publishes.Keys == publishes.Keys;
  }

  /** What a recovery that has staged the volume again has brought about, between `a` and `b`: the session
      of the only process started since is at the staging path `x`, unless an exit has taken it away
      again, and the publish paths that have not failed are binds with their own flags, of that session
      or, once it had gone, of none. But if `x` is itself among the publish paths, and has not failed, it
      has been bound over itself, and no session is there. */
  ghost predicate Mended(owner: Owner, a: State, b: State, v: Vol, x: Path, publishes: Publishes, failed: set<Path>, pid: Pid) {
    && OnlyNew(v, a, b, pid) && b.procs[pid].target == x && b.procs[pid].fate == Recorded
    && (x !in publishes ==> Carries(v, x, a, b, pid) && AllBound(owner, b, x, Some(pid), publishes, failed))
    && (x in publishes && x !in failed ==> NoSessionAt(b, x))
  }

  /** Nothing of the volume has been touched but its staging path and its publish paths, and these are
      mended if a process has been started. */
  ghost predicate Recovered(owner: Owner, a: State, b: State, v: Vol, x: Path, publishes: Publishes, failed: set<Path>, r: MountResult) {
    OnlyAmong(owner, v, x, publishes.Keys, a, b) && (r.Started? ==> Mended(owner, a, b, v, x, publishes, failed, r.pid))
  }

  /** The volume that takes the place of another in a recovery. */
  ghost predicate Succeeds(vol: Volume, newVol: Volume, staging: VA.Staging)
    reads vol, newVol
  {
    && vol.volContext.Some? && Renewed(newVol, vol.volumeId, vol.stagedPath, vol.volContext.value, staging, vol.readOnly)
    && newVol.publishPaths == vol.publishPaths
  }

  lemma HasRecovered(owner: Owner, a: State, b: State, c: State, req: MountRequest, publishes: Publishes, failed: set<Path>, r: MountResult)
    requires Inv(a) && Inv(b) && Asked(owner, a, b, req, r)
    requires Handled(owner, req.volumeID, publishes.Keys, b, c) && owner.vol(req.targetPath) == req.volumeID
    requires req.targetPath !in publishes ==> AllBound(owner, c, req.targetPath, SessionAt(b, req.targetPath), publishes, failed)
    requires req.targetPath in publishes && req.targetPath !in failed ==> NoSessionAt(c, req.targetPath)
    ensures Recovered(owner, a, c, req.volumeID, req.targetPath, publishes, failed, r)
  {
    StartedBelow(a);
    OnlyThenAmong(owner, req.volumeID, req.targetPath, publishes.Keys, a, b, c);
    if r.Started? {
      IsMended(owner, a, b, c, req, publishes, failed, r.pid);
    }
  }

  lemma IsMended(owner: Owner, a: State, b: State, c: State, req: MountRequest, publishes: Publishes, failed: set<Path>, pid: Pid)
    requires Inv(b) && Evolves(a.procs, b.procs) && Up(req.volumeID, req, a, b, pid)
    requires Handled(owner, req.volumeID, publishes.Keys, b, c) && owner.vol(req.targetPath) == req.volumeID
    requires req.targetPath !in publishes ==> AllBound(owner, c, req.targetPath, SessionAt(b, req.targetPath), publishes, failed)
    requires req.targetPath in publishes && req.targetPath !in failed ==> NoSessionAt(c, req.targetPath)
    ensures Mended(owner, a, c, req.volumeID, req.targetPath, publishes, failed, pid)
  {
    OnlyNewStays(req.volumeID, a, b, c, pid);
    assert Later(b.procs[pid], c.procs[pid]);
    if req.targetPath !in publishes {
      HandledKeepsUp(owner, req.volumeID, publishes.Keys, a, b, c, req, pid);
      AllBoundToNew(owner, c, req.targetPath, SessionAt(b, req.targetPath), publishes, failed, pid);
    }
  }

  /** Steps 1 to 5. Publish binds are torn down only once the volume is staged again. */
  method RecoverMounts(host: Host, v: Vol, x: Path, context: Context, staging: VA.Staging, readOnly: bool, hasUnmounter: bool, publishes: Publishes)
      returns (vol: Volume?, failed: set<Path>, r: MountResult)
    requires host.Quiet(v) && Stages(host.owner, v, x) && (forall y :: y in publishes ==> host.owner.vol(y) == v)
    modifies host`m, host`remote, host`quota
    ensures host.Quiet(v) && host.remote == old(host.remote)
    ensures vol == null ==> OnlyAt(host.owner, v, x, old(host.m), host.m)
    ensures vol != null ==> fresh(vol) && Renewed(vol, v, x, context, staging, readOnly) && vol.publishPaths == publishes
    ensures vol != null ==> QuotaIs(host.quota, v, VA.CapacityOf(context, staging))
    ensures vol != null ==> Recovered(host.owner, old(host.m), host.m, v, x, publishes, failed, r)
    ensures vol != null ==> (hasUnmounter ==> r.Started?) && (host.reliable ==> failed == {})
    ensures host.Ideal() && CanRestage(old(host.m), v, x, context, staging, hasUnmounter) ==> vol != null
  {
    hide Asked, Recovered, OnlyAt, StagedWith, CanRestage, QuotaIs;
    ghost var a := host.m;
    failed := {};
    vol, r := Restage(host, v, x, context, staging, readOnly, hasUnmounter);
    if vol == null {
      return;
    }
    failed := RebindAll(host, vol, x, publishes, a, RequestFor(v, x, vol.volContext.value, readOnly), r);
  }

  /** Steps 4 and 5, after a mount that was asked for since `a`. */
  method RebindAll(host: Host, vol: Volume, x: Path, publishes: Publishes, ghost a: State, ghost req: MountRequest, ghost r: MountResult) returns (failed: set<Path>)
    requires host.Quiet(vol.volumeId) && req.volumeID == vol.volumeId && req.targetPath == x && vol.publishPaths == map[]
    requires host.owner.vol(x) == vol.volumeId && (forall y :: y in publishes ==> host.owner.vol(y) == vol.volumeId)
    requires Inv(a) && Asked(host.owner, a, host.m, req, r)
    modifies host`m, vol`publishPaths
    ensures host.Quiet(vol.volumeId) && vol.publishPaths == publishes && (host.reliable ==> failed == {})
    ensures Recovered(host.owner, a, host.m, vol.volumeId, x, publishes, failed, r)
  {
    ghost var s1 := host.m;
    failed := Rebind(host, vol, x, publishes);
    HasRecovered(host.owner, a, s1, host.m, req, publishes, failed, r);
  }

  /** Nothing has been done to the mounts. */
  predicate Untried(outcome: Outcome) {
    outcome in {Throttled, Missing, Healthy, NoContext, SkippedStillLive}
  }

  predicate Replaced(outcome: Outcome) {
    outcome in {Partial, Success}
  }

  /** A recovery that has been called off because the mount is still live is an attempt, too. */
  predicate IsAttempt(outcome: Outcome) {
    outcome in {SkippedStillLive, Outcome.Failed, Partial, Success}
  }

  /** One more attempt has been counted for `v`, and the wait after it begins at `time`. */
  predicate Counted(before: RB.Throttle, after: RB.Throttle, v: Vol, time: RB.Time) {
    && v in after && after - {v} == before - {v}
    && after[v].attempts == (if v in before then before[v].attempts + 1 else 1)
    && after[v].notBefore == time + RB.Wait(after[v].attempts)
  }

  method CountAttempt(backoff: RB.Backoff, v: Vol, now: RB.Time)
    modifies backoff
    ensures Counted(old(backoff.entries), backoff.entries, v, now)
  {
    backoff.NoteRecoveryAttempt(v, now);
    assert backoff.entries - {v} == old(backoff.entries) - {v};
  }

  /** The reasons to leave a volume alone: its mount works, there is nothing to stage it from, or it is
      published and its mount is still live. */
  method Hesitate(host: Host, x: Path, context: Option<Context>, publishes: Publishes, late: Lateness) returns (reason: Option<Outcome>)
    ensures reason.None? || reason.value in {Healthy, NoContext, SkippedStillLive}
    ensures reason == Some(Healthy) ==> Working(host.m, x) && !Slow(late, x in host.hung).health
    ensures host.reliable && Working(host.m, x) && !Slow(late, x in host.hung).health ==> reason == Some(Healthy)
    ensures reason == Some(NoContext) <==> reason != Some(Healthy) && context.None?
    ensures reason == Some(SkippedStillLive) ==> publishes != map[] && LooksLive(host.m, x, x in host.cached) && !late.live
    ensures host.reliable && Working(host.m, x) && Slow(late, x in host.hung).health && context.Some? && publishes != map[] && !late.live ==>
              reason == Some(SkippedStillLive)
  {
    var healthy := CheckHealth(host, x, late.health);
    if healthy {
      return Some(Healthy);
    }
    if context.None? {
      return Some(NoContext);
    }
    if publishes != map[] {
      var live := Live(host, x, late.live);
      if live {
        return Some(SkippedStillLive);
      }
    }
    reason := None;
  }

  /** The same, and what it does to the throttle. */
  method HesitateAndCount(ns: NodeServer, v: Vol, x: Path, context: Option<Context>, publishes: Publishes, later: RB.Time, late: Lateness)
      returns (reason: Option<Outcome>)
    modifies ns.backoff
    ensures reason.None? || reason.value in {Healthy, NoContext, SkippedStillLive}
    ensures reason == Some(Healthy) ==> Working(ns.host.m, x) && !Slow(late, x in ns.host.hung).health
    ensures ns.host.reliable && Working(ns.host.m, x) && !Slow(late, x in ns.host.hung).health ==> reason == Some(Healthy)
    ensures reason == Some(NoContext) <==> reason != Some(Healthy) && context.None?
    ensures reason == Some(SkippedStillLive) ==> publishes != map[] && LooksLive(ns.host.m, x, x in ns.host.cached) && !late.live
    ensures ns.host.reliable && Working(ns.host.m, x) && Slow(late, x in ns.host.hung).health && context.Some? && publishes != map[] && !late.live ==>
              reason == Some(SkippedStillLive)
    ensures reason == Some(NoContext) ==> ns.backoff.entries == old(ns.backoff.entries)
    ensures reason == Some(Healthy) ==> ns.backoff.entries == old(ns.backoff.entries) - {v}
    ensures reason.None? || reason == Some(SkippedStillLive) ==> Counted(old(ns.backoff.entries), ns.backoff.entries, v, later)
  {
    reason := Hesitate(ns.host, x, context, publishes, late);
    if reason == Some(Healthy) {
      ns.backoff.ResetRecoveryBackoff(v);
    } else if reason != Some(NoContext) {
      CountAttempt(ns.backoff, v, later);
    }
  }

  /** What the volumes of the plugin are after a recovery of `v` that has taken the place of `vol`. */
  ghost predicate HasReplaced(before: map<Vol, Volume>, after: map<Vol, Volume>, v: Vol, staging: VA.Staging)
    reads before.Values, after.Values
  {
    v in before && v in after && after == before[v := after[v]] && Succeeds(before[v], after[v], staging)
  }

  /** recoverVolume, which looks at the clock twice. The tracked publish paths are the same whatever the
      outcome. */
  method RecoverVolume(ns: NodeServer, v: Vol, now: RB.Time, later: RB.Time, late: Lateness, staging: VA.Staging)
      returns (outcome: Outcome, failed: set<Path>, r: MountResult)
    requires ns.Valid() && ns.host.Quiet(v)
    modifies ns`volumes, ns.host`m, ns.host`remote, ns.host`quota, ns.backoff
    ensures ns.Valid() && ns.host.Quiet(v) && ns.host.remote == old(ns.host.remote)
    ensures ns.Tracked(v) == old(ns.Tracked(v))
    // the outcome
    ensures outcome.Throttled? <==> v in old(ns.backoff.entries) && now < old(ns.backoff.entries)[v].notBefore
    ensures !outcome.Throttled? ==> (outcome.Missing? <==> v !in old(ns.volumes))
    ensures v in old(ns.volumes) ==>
              Justified(outcome, old(ns.host.m), old(ns.volumes[v].stagedPath), old(ns.volumes[v].volContext), old(ns.volumes[v].publishPaths),
                        Slow(late, old(ns.volumes[v].stagedPath) in ns.host.hung), old(ns.volumes[v].stagedPath) in ns.host.cached, ns.host.reliable)
    ensures v in old(ns.volumes) && ns.host.Ideal() && old(ns.volumes[v].volContext.Some?) && !outcome.Throttled? && !outcome.SkippedStillLive?
            && CanRestage(old(ns.host.m), v, old(ns.volumes[v].stagedPath), old(ns.volumes[v].volContext.value), staging, old(ns.volumes[v].hasUnmounter)) ==>
              outcome.Success?
    // the throttle
    ensures outcome in {Throttled, Missing, NoContext} ==> ns.backoff.entries == old(ns.backoff.entries)
    ensures outcome.Healthy? ==> ns.backoff.entries == old(ns.backoff.entries) - {v}
    ensures outcome in {SkippedStillLive, Outcome.Failed, Partial, Success} ==> Counted(old(ns.backoff.entries), ns.backoff.entries, v, later)
    // the mounts and the volumes
    ensures Untried(outcome) ==> ns.host.m == old(ns.host.m)
    ensures outcome.Failed? ==> OnlyAt(ns.host.owner, v, old(ns.volumes)[v].stagedPath, old(ns.host.m), ns.host.m)
    ensures !Replaced(outcome) ==> ns.volumes == old(ns.volumes)
    ensures Replaced(outcome) ==> HasReplaced(old(ns.volumes), ns.volumes, v, staging) && fresh(ns.volumes[v])
    ensures Replaced(outcome) ==> QuotaIs(ns.host.quota, v, VA.CapacityOf(old(ns.volumes)[v].volContext.value, staging))
    ensures Replaced(outcome) && old(ns.volumes)[v].hasUnmounter ==> r.Started?
    ensures Replaced(outcome) ==>
              Recovered(ns.host.owner, old(ns.host.m), ns.host.m, v, old(ns.volumes[v].stagedPath), old(ns.volumes[v].publishPaths), failed, r)
    ensures Replaced(outcome) ==> (outcome.Success? <==> failed == {}) && (ns.host.reliable ==> failed == {})
  {
    hide Recovered, OnlyAt, StagedWith, CanRestage, QuotaIs, Counted;
    outcome, failed, r := Throttled, {}, MountFailed;
    var throttled := ns.backoff.RecoveryThrottled(v, now);
    if throttled {
      return;
    }
    if v !in ns.volumes {
      return Missing, failed, r;
    }
    var vol := ns.volumes[v];
    outcome, failed, r := RecoverKnown(ns, v, vol.stagedPath, vol.volContext, vol.publishPaths, vol.hasUnmounter, later, late, staging);
  }

  /** The volume is there, and its throttle lets it through. */
  method RecoverKnown(ns: NodeServer, v: Vol, x: Path, context: Option<Context>, publishes: Publishes, ghost hasUnmounter: bool,
                      later: RB.Time, late: Lateness, staging: VA.Staging)
      returns (outcome: Outcome, failed: set<Path>, r: MountResult)
    requires ns.Valid() && ns.host.Quiet(v) && v in ns.volumes
    requires x == ns.volumes[v].stagedPath && context == ns.volumes[v].volContext
    requires publishes == ns.volumes[v].publishPaths && hasUnmounter == ns.volumes[v].hasUnmounter
    modifies ns`volumes, ns.host`m, ns.host`remote, ns.host`quota, ns.backoff
    ensures ns.Valid() && ns.host.Quiet(v) && ns.host.remote == old(ns.host.remote)
    ensures ns.Tracked(v) == old(ns.Tracked(v)) && !outcome.Throttled? && !outcome.Missing?
    ensures Justified(outcome, old(ns.host.m), x, context, publishes, Slow(late, x in ns.host.hung), x in ns.host.cached, ns.host.reliable)
    ensures ns.host.Ideal() && context.Some? && !outcome.SkippedStillLive? && CanRestage(old(ns.host.m), v, x, context.value, staging, hasUnmounter) ==>
              outcome.Success?
    ensures outcome.NoContext? ==> ns.backoff.entries == old(ns.backoff.entries)
    ensures outcome.Healthy? ==> ns.backoff.entries == old(ns.backoff.entries) - {v}
    ensures IsAttempt(outcome) ==> Counted(old(ns.backoff.entries), ns.backoff.entries, v, later)
    ensures Untried(outcome) ==> ns.host.m == old(ns.host.m)
    ensures outcome.Failed? ==> OnlyAt(ns.host.owner, v, x, old(ns.host.m), ns.host.m)
    ensures !Replaced(outcome) ==> ns.volumes == old(ns.volumes)
    ensures Replaced(outcome) ==> HasReplaced(old(ns.volumes), ns.volumes, v, staging) && fresh(ns.volumes[v])
    ensures Replaced(outcome) ==> QuotaIs(ns.host.quota, v, VA.CapacityOf(context.value, staging)) && (hasUnmounter ==> r.Started?)
    ensures Replaced(outcome) ==> Recovered(ns.host.owner, old(ns.host.m), ns.host.m, v, x, publishes, failed, r)
    ensures Replaced(outcome) ==> (outcome.Success? <==> failed == {}) && (ns.host.reliable ==> failed == {})
  {
    hide Recovered, OnlyAt, HasReplaced, Working, QuotaIs, Counted, VA.StageContext, VA.CapacityOf, NodeServer.Consistent, NodeServer.Tracked;
    failed, r := {}, MountFailed;
    var reason := HesitateAndCount(ns, v, x, context, publishes, later, late);
    if reason.Some? {
      outcome := reason.value;
    } else {
      outcome, failed, r := Recover(ns, v, staging);
    }
  }

  /** The outcome fits what there was in `s` at the staging path `x`: a volume is called healthy only if its
      mount works, and always if the probe then is in time and no system call fails; without a context nothing
      is tried; a mount is spared only if it looks live and for the sake of publish paths, and always if there are
      any, the mount works, and only the first of the two probes is late. */
  predicate Justified(outcome: Outcome, s: State, x: Path, context: Option<Context>, publishes: Publishes, late: Lateness, cached: bool, reliable: bool) {
    && (outcome.Healthy? ==> Working(s, x) && !late.health)
    && (outcome.NoContext? ==> context.None?)
    && (IsAttempt(outcome) ==> context.Some?)
    && (outcome.SkippedStillLive? ==> publishes != map[] && LooksLive(s, x, cached) && !late.live)
    && (reliable && Working(s, x) && !outcome.Throttled? ==>
          && (!late.health ==> outcome.Healthy?)
          && (late.health && context.Some? && publishes != map[] && !late.live ==> outcome.SkippedStillLive?))
  }

  method Recover(ns: NodeServer, v: Vol, staging: VA.Staging) returns (outcome: Outcome, failed: set<Path>, r: MountResult)
    requires ns.Valid() && ns.host.Quiet(v) && v in ns.volumes && ns.volumes[v].volContext.Some?
    modifies ns`volumes, ns.host`m, ns.host`remote, ns.host`quota
    ensures ns.Valid() && ns.host.Quiet(v) && ns.host.remote == old(ns.host.remote)
    ensures outcome in {Outcome.Failed, Partial, Success} && ns.Tracked(v) == old(ns.Tracked(v))
    ensures outcome.Failed? ==> ns.volumes == old(ns.volumes) && OnlyAt(ns.host.owner, v, old(ns.volumes)[v].stagedPath, old(ns.host.m), ns.host.m)
    ensures Replaced(outcome) ==> HasReplaced(old(ns.volumes), ns.volumes, v, staging) && fresh(ns.volumes[v])
    ensures Replaced(outcome) ==> QuotaIs(ns.host.quota, v, VA.CapacityOf(old(ns.volumes)[v].volContext.value, staging))
    ensures Replaced(outcome) && old(ns.volumes)[v].hasUnmounter ==> r.Started?
    ensures Replaced(outcome) ==>
              Recovered(ns.host.owner, old(ns.host.m), ns.host.m, v, old(ns.volumes[v].stagedPath), old(ns.volumes[v].publishPaths), failed, r)
    ensures Replaced(outcome) ==> (outcome.Success? <==> failed == {}) && (ns.host.reliable ==> failed == {})
    ensures ns.host.Ideal()
            && CanRestage(old(ns.host.m), v, old(ns.volumes[v].stagedPath), old(ns.volumes[v].volContext.value), staging, old(ns.volumes[v].hasUnmounter)) ==>
              outcome.Success?
  {
    hide Recovered, OnlyAt, StagedWith, CanRestage, QuotaIs;
    var newVol;
    var vol := ns.volumes[v];
    newVol, failed, r := RecoverMounts(ns.host, v, vol.stagedPath, vol.volContext.value, staging, vol.readOnly, vol.hasUnmounter, vol.publishPaths);
    if newVol == null {
      return Outcome.Failed, failed, r;
    }
    Replace(ns, v, newVol);
    outcome := if failed == {} then Success else Partial;
  }

  /** Step 6: the new volume takes the place of the old one. */
  method Replace(ns: NodeServer, v: Vol, newVol: Volume)
    requires ns.Valid() && v in ns.volumes && newVol.volumeId == v
    requires newVol.stagedPath == ns.volumes[v].stagedPath && newVol.publishPaths == ns.volumes[v].publishPaths
    modifies ns`volumes
    ensures ns.Valid() && ns.volumes == old(ns.volumes)[v := newVol]
  {
    ns.volumes := ns.volumes[v := newVol];
  }

  // ---- mending publish binds ---------------------------------------------------------------------

  /** The mount at `y`, a path still to be dealt with, has been taken away. */
  lemma ReboundElsewhere(owner: Owner, a: State, b: State, x: Path, src: Option<Pid>, publishes: Publishes, rest: set<Path>, failed: set<Path>, y: Path)
    requires Rebound(owner, a, x, src, publishes, rest, {}, failed) && y in rest && y != x && rest <= publishes.Keys
    requires forall z :: z != y ==> (z in b.table <==> z in a.table) && (z in b.table ==> b.table[z] == a.table[z])
    ensures Rebound(owner, b, x, src, publishes, rest, {}, failed)
  {
    forall z | z in publishes && z !in rest + failed && !owner.stages(z) ensures BoundTo(b, x, src, z, publishes[z]) {
      assert BoundTo(a, x, src, z, publishes[z]);
    }
  }

  /** A mount that worked in `a` is there in `b` as it was. */
  predicate Untouched(a: State, b: State, y: Path) {
    y in a.table && !Dead(a, y) && y in b.table && b.table[y] == a.table[y]
  }

  /** Every publish path is a bind of the session at the staging path with its own flag, or worked
      before and has been left alone. */
  ghost predicate AllSound(owner: Owner, a: State, b: State, x: Path, publishes: Publishes) {
    forall y :: y in publishes && !owner.stages(y) ==> Untouched(a, b, y) || BoundTo(b, x, SessionAt(a, x), y, publishes[y])
  }

  /** A mount that works works since `a`, if nobody has worked on its path. */
  lemma WorksSince(owner: Owner, v: Vol, xs: set<Path>, a: State, b: State, y: Path)
    requires Handled(owner, v, xs, a, b) && owner.vol(y) == v && y !in xs && y in b.table && !Dead(b, y)
    ensures Untouched(a, b, y)
  {
    assert PathKept(v, y, a, b);
    if Dead(a, y) {
      match a.table[y]
      case Fuse(p) => StaysGone(a.procs, b.procs, p);
      case Bind(Some(p), _) => StaysGone(a.procs, b.procs, p);
      case Bind(None, _) =>
    }
  }

  /** The paths `fine` have been found working and left alone; they stay as they are. */
  ghost predicate AllUntouched(owner: Owner, a: State, b: State, fine: set<Path>) {
    forall y :: y in fine && !owner.stages(y) ==> Untouched(a, b, y)
  }

  lemma UntouchedStays(owner: Owner, v: Vol, a: State, b: State, c: State, fine: set<Path>)
    requires AllUntouched(owner, a, b, fine) && Handled(owner, v, {}, b, c) && Separate(owner, c)
    requires forall y :: y in fine ==> owner.vol(y) == v
    ensures AllUntouched(owner, a, c, fine)
  {
    forall y | y in fine && !owner.stages(y) ensures Untouched(a, c, y) {
      assert Untouched(a, b, y);
      BindStays(owner, v, {}, b, c, y);
    }
  }

  /** retryPublishPaths: if the staging mount works, binds that do not are made anew. */
  method RetryPublishPaths(host: Host, vol: Volume) returns (mended: set<Path>)
    requires host.Quiet(vol.volumeId) && host.owner.vol(vol.stagedPath) == vol.volumeId
    requires forall y :: y in vol.publishPaths ==> host.owner.vol(y) == vol.volumeId
    modifies host`m
    ensures host.Quiet(vol.volumeId) && Handled(host.owner, vol.volumeId, vol.publishPaths.Keys, old(host.m), host.m)
    ensures mended <= vol.publishPaths.Keys
    ensures vol.stagedPath !in vol.publishPaths ==>
              AllBound(host.owner, host.m, vol.stagedPath, SessionAt(old(host.m), vol.stagedPath), vol.publishPaths, vol.publishPaths.Keys - mended)
    ensures host.reliable && vol.stagedPath !in vol.publishPaths && Working(old(host.m), vol.stagedPath) && vol.stagedPath !in host.hung ==>
              AllSound(host.owner, old(host.m), host.m, vol.stagedPath, vol.publishPaths)
  {
    mended := {};
    HandledRefl(host.owner, vol.volumeId, vol.publishPaths.Keys, host.m);
    var healthy := CheckPath(host, vol.stagedPath);
    if healthy {
      ghost var fine;
      mended, fine := RetryAll(host, vol);
    }
  }

  /** The loop of retryPublishPaths. `fine` are the paths that needed nothing. */
  method RetryAll(host: Host, vol: Volume) returns (mended: set<Path>, ghost fine: set<Path>)
    requires host.Quiet(vol.volumeId) && host.owner.vol(vol.stagedPath) == vol.volumeId
    requires forall y :: y in vol.publishPaths ==> host.owner.vol(y) == vol.volumeId
    modifies host`m
    ensures host.Quiet(vol.volumeId) && Handled(host.owner, vol.volumeId, vol.publishPaths.Keys, old(host.m), host.m)
    ensures mended <= vol.publishPaths.Keys && fine <= vol.publishPaths.Keys
    ensures vol.stagedPath !in vol.publishPaths ==>
              AllBound(host.owner, host.m, vol.stagedPath, SessionAt(old(host.m), vol.stagedPath), vol.publishPaths, vol.publishPaths.Keys - mended)
    ensures AllUntouched(host.owner, old(host.m), host.m, fine)
    ensures host.reliable ==> mended + fine == vol.publishPaths.Keys
  {
    var publishes := vol.publishPaths;
    mended, fine := {}, {};
    ghost var a, v, x, src := host.m, vol.volumeId, vol.stagedPath, SessionAt(host.m, vol.stagedPath);
    var rest := publishes.Keys;
    assert publishes.Keys - rest == {};
    HandledRefl(host.owner, v, {}, a);
    while rest != {}
      invariant host.Quiet(v) && Handled(host.owner, v, publishes.Keys - rest, a, host.m)
      invariant rest <= publishes.Keys && mended + fine <= publishes.Keys - rest
      invariant x !in publishes ==> Rebound(host.owner, host.m, x, src, publishes, rest, {}, publishes.Keys - rest - mended)
      invariant AllUntouched(host.owner, a, host.m, fine)
      invariant host.reliable ==> mended + fine == publishes.Keys - rest
    {
      var path :| path in rest;
      var repair := RetryOne(host, vol, path, a, src, rest, mended, fine);
      assert publishes.Keys - (rest - {path}) == publishes.Keys - rest + {path};
      rest := rest - {path};
      if repair == Remade {
        mended := mended + {path};
      } else if repair == Fine {
        fine := fine + {path};
      }
    }
    assert publishes.Keys - rest == publishes.Keys;
    assert rest + (publishes.Keys - rest - mended) == publishes.Keys - mended;
  }

  /** What has been done about a publish path: nothing was needed, it was bound again, or neither. */
  datatype Repair = Fine | Remade | Broken

  method RetryOne(host: Host, vol: Volume, path: Path, ghost a: State, ghost src: Option<Pid>, ghost rest: set<Path>, ghost mended: set<Path>,
                  ghost fine: set<Path>) returns (repair: Repair)
    requires host.Quiet(vol.volumeId) && host.owner.vol(vol.stagedPath) == vol.volumeId
    requires forall y :: y in vol.publishPaths ==> host.owner.vol(y) == vol.volumeId
    requires Handled(host.owner, vol.volumeId, vol.publishPaths.Keys - rest, a, host.m) && AllUntouched(host.owner, a, host.m, fine)
    requires path in rest && rest <= vol.publishPaths.Keys && mended + fine <= vol.publishPaths.Keys - rest
    requires vol.stagedPath !in vol.publishPaths ==>
               Rebound(host.owner, host.m, vol.stagedPath, src, vol.publishPaths, rest, {}, vol.publishPaths.Keys - rest - mended)
    modifies host`m
    ensures host.Quiet(vol.volumeId) && Handled(host.owner, vol.volumeId, vol.publishPaths.Keys - rest + {path}, a, host.m)
    ensures AllUntouched(host.owner, a, host.m, if repair.Fine? then fine + {path} else fine)
    ensures vol.stagedPath !in vol.publishPaths ==>
              Rebound(host.owner, host.m, vol.stagedPath, src, vol.publishPaths, rest - {path}, {},
                      vol.publishPaths.Keys - (rest - {path}) - (if repair.Remade? then mended + {path} else mended))
    ensures host.reliable ==> !repair.Broken?
  {
    var v, x, publishes := vol.volumeId, vol.stagedPath, vol.publishPaths;
    ghost var s1, failed := host.m, publishes.Keys - rest - mended;
    Pause(host, v);
    ghost var s2 := host.m;
    if x !in publishes {
      ReboundStays(host.owner, v, s1, s2, x, src, publishes, rest, {}, failed);
    }
    UntouchedStays(host.owner, v, a, s1, s2, fine);
    HandledTrans(host.owner, v, publishes.Keys - rest, {}, a, s1, s2);
    assert publishes.Keys - rest + {} == publishes.Keys - rest;
    repair := MendOne(host, vol, path, src, rest, failed);
    MendedOne(host.owner, v, publishes.Keys - rest, a, s2, host.m, path, fine, repair);
    assert publishes.Keys - (rest - {path}) - (mended + {path}) == failed;
    assert publishes.Keys - (rest - {path}) - mended == failed + {path};
  }

  lemma MendedOne(owner: Owner, v: Vol, xs: set<Path>, a: State, b: State, c: State, path: Path, fine: set<Path>, repair: Repair)
    requires Handled(owner, v, xs, a, b) && Handled(owner, v, {path}, b, c) && owner.vol(path) == v && path !in xs && fine <= xs
    requires forall z :: z != path ==> (z in c.table <==> z in b.table) && (z in c.table ==> c.table[z] == b.table[z])
    requires AllUntouched(owner, a, b, fine) && (repair.Fine? ==> c == b && Working(b, path))
    ensures Handled(owner, v, xs + {path}, a, c) && AllUntouched(owner, a, c, if repair.Fine? then fine + {path} else fine)
  {
    HandledTrans(owner, v, xs, {path}, a, b, c);
    if repair.Fine? {
      WorksSince(owner, v, xs, a, b, path);
    }
    forall y | y in fine && !owner.stages(y) ensures Untouched(a, c, y) {
      assert Untouched(a, b, y);
    }
  }

  method MendOne(host: Host, vol: Volume, path: Path, ghost src: Option<Pid>, ghost rest: set<Path>, ghost failed: set<Path>) returns (repair: Repair)
    requires host.Quiet(vol.volumeId) && path in rest && rest <= vol.publishPaths.Keys && failed !! rest
    requires host.owner.vol(path) == vol.volumeId
    requires vol.stagedPath !in vol.publishPaths ==> Rebound(host.owner, host.m, vol.stagedPath, src, vol.publishPaths, rest, {}, failed)
    modifies host`m
    ensures host.Quiet(vol.volumeId) && Handled(host.owner, vol.volumeId, {path}, old(host.m), host.m)
    ensures forall z :: z != path ==> (z in host.m.table <==> z in old(host.m).table) && (z in host.m.table ==> host.m.table[z] == old(host.m).table[z])
    ensures repair.Fine? ==> host.m == old(host.m) && Working(host.m, path)
    ensures host.reliable ==> !repair.Broken?
    ensures vol.stagedPath !in vol.publishPaths ==>
              Rebound(host.owner, host.m, vol.stagedPath, src, vol.publishPaths, rest - {path}, {}, if repair.Remade? then failed else failed + {path})
  {
    var v, x, publishes := vol.volumeId, vol.stagedPath, vol.publishPaths;
    HandledRefl(host.owner, v, {path}, host.m);
    ghost var a := host.m;
    repair := Fine;
    var healthy := CheckPath(host, path);
    if !healthy {
      repair := Broken;
      var down := TearDownStalePublishBind(host, v, path);
      ghost var s1 := host.m;
      if x !in publishes {
        ReboundElsewhere(host.owner, a, s1, x, src, publishes, rest, failed, path);
      }
      if down {
        var ok := vol.Publish(host, x, path, publishes[path]);
        HandledSame(host.owner, v, path, a, s1, host.m);
        repair := if ok then Remade else Broken;
        if x !in publishes {
          ReboundOneMore(host.owner, s1, host.m, x, src, publishes, rest, {path}, if ok then failed else failed + {path}, path);
        }
        return;
      }
      assert s1.(table := s1.table) == s1;
    }
    if x !in publishes {
      ReboundOneMore(host.owner, host.m, host.m, x, src, publishes, rest, {}, failed + {path}, path);
    }
  }

  // ---- one health check --------------------------------------------------------------------------

  method HasUnhealthyPublishPath(host: Host, vol: Volume) returns (unhealthy: bool)
    ensures !unhealthy ==> forall y :: y in vol.publishPaths ==> Working(host.m, y) && y !in host.hung
    ensures host.reliable && unhealthy ==> exists y :: y in vol.publishPaths && (!Working(host.m, y) || y in host.hung)
  {
    var rest := vol.publishPaths.Keys;
    while rest != {}
      invariant rest <= vol.publishPaths.Keys
      invariant forall y :: y in vol.publishPaths && y !in rest ==> Working(host.m, y) && y !in host.hung
    {
      var path :| path in rest;
      var healthy := CheckPath(host, path);
      if !healthy {
        return true;
      }
      rest := rest - {path};
    }
    unhealthy := false;
  }

  /** performVolumeHealthCheck. The outcome is that of the recovery, if one was tried; a volume without a
      staged path counts as missing. A recovery is tried whenever the mount does not work or the probe is
      late, whatever the system calls answer. */
  method PerformVolumeHealthCheck(ns: NodeServer, v: Vol, now: RB.Time, later: RB.Time, late: Lateness, staging: VA.Staging)
      returns (outcome: Outcome, failed: set<Path>, r: MountResult)
    requires ns.Valid() && ns.host.Quiet(v)
    modifies ns`volumes, ns.host`m, ns.host`remote, ns.host`quota, ns.backoff
    ensures ns.Valid() && ns.host.Quiet(v) && ns.host.remote == old(ns.host.remote)
    // the outcome
    ensures outcome.Missing? <==> v !in old(ns.volumes) || old(ns.volumes[v].stagedPath) == ""
    ensures outcome.Throttled? ==> v in old(ns.backoff.entries) && now < old(ns.backoff.entries)[v].notBefore
    ensures IsAttempt(outcome) ==> v !in old(ns.backoff.entries) || old(ns.backoff.entries)[v].notBefore <= now
    ensures !outcome.Missing? && (!Working(old(ns.host.m), old(ns.volumes[v].stagedPath)) || late.probe || old(ns.volumes[v].stagedPath) in ns.host.hung) ==>
              (outcome.Throttled? <==> v in old(ns.backoff.entries) && now < old(ns.backoff.entries)[v].notBefore)
    ensures !outcome.Missing? && !Working(old(ns.host.m), old(ns.volumes[v].stagedPath)) && !outcome.Throttled? ==>
              if old(ns.volumes[v].volContext.None?) then outcome.NoContext? else outcome in {SkippedStillLive, Outcome.Failed, Partial, Success}
    ensures outcome.SkippedStillLive? ==>
              old(ns.volumes[v].publishPaths) != map[] && !late.live
              && LooksLive(old(ns.host.m), old(ns.volumes[v].stagedPath), old(ns.volumes[v].stagedPath) in ns.host.cached)
    ensures !outcome.Missing? && ns.host.Ideal() && old(ns.volumes[v].volContext.Some?) && !outcome.Throttled? && !outcome.SkippedStillLive?
            && CanRestage(old(ns.host.m), v, old(ns.volumes[v].stagedPath), old(ns.volumes[v].volContext.value), staging, old(ns.volumes[v].hasUnmounter)) ==>
              outcome.Success?
    ensures !outcome.Missing? && ns.host.reliable ==>
              KeptSound(ns.host.owner, old(ns.host.m), ns.host.m, old(ns.volumes[v].stagedPath), old(ns.volumes[v].volContext), old(ns.volumes[v].publishPaths),
                        Slow(late, old(ns.volumes[v].stagedPath) in ns.host.hung), outcome)
    // the throttle
    ensures outcome in {Throttled, Missing, NoContext} ==> ns.backoff.entries == old(ns.backoff.entries)
    ensures outcome.Healthy? ==> ns.backoff.entries == old(ns.backoff.entries) - {v}
    ensures outcome in {SkippedStillLive, Outcome.Failed, Partial, Success} ==> Counted(old(ns.backoff.entries), ns.backoff.entries, v, later)
    // the mounts and the volumes
    ensures Untried(outcome) && !outcome.Healthy? ==> ns.host.m == old(ns.host.m)
    ensures outcome.Healthy? ==> Handled(ns.host.owner, v, old(ns.volumes[v].publishPaths).Keys, old(ns.host.m), ns.host.m)
    ensures outcome.Failed? ==> OnlyAt(ns.host.owner, v, old(ns.volumes[v].stagedPath), old(ns.host.m), ns.host.m)
    ensures !Replaced(outcome) ==> ns.volumes == old(ns.volumes)
    ensures Replaced(outcome) ==> HasReplaced(old(ns.volumes), ns.volumes, v, staging) && fresh(ns.volumes[v])
    ensures Replaced(outcome) ==> QuotaIs(ns.host.quota, v, VA.CapacityOf(old(ns.volumes)[v].volContext.value, staging))
    ensures Replaced(outcome) && old(ns.volumes)[v].hasUnmounter ==> r.Started?
    ensures Replaced(outcome) ==>
              Recovered(ns.host.owner, old(ns.host.m), ns.host.m, v, old(ns.volumes[v].stagedPath), old(ns.volumes[v].publishPaths), failed, r)
    ensures Replaced(outcome) ==> (outcome.Success? <==> failed == {}) && (ns.host.reliable ==> failed == {})
  {
    hide Recovered, HasReplaced, QuotaIs, Counted, AllSound, OnlyAt, Handled, VA.StageContext, VA.CapacityOf, NodeServer.Consistent, Dead;
    outcome, failed, r := Missing, {}, MountFailed;
    if v !in ns.volumes || ns.volumes[v].stagedPath == "" {
      return;
    }
    var healthy := CheckHealth(ns.host, ns.volumes[v].stagedPath, late.probe);
    if healthy {
      MendPublishPaths(ns, v);
      outcome := Healthy;
    } else {
      ghost var publishes := ns.volumes[v].publishPaths;
      outcome, failed, r := RecoverVolume(ns, v, now, later, late, staging);
      HandledRefl(ns.host.owner, v, publishes.Keys, ns.host.m);
    }
  }

  /** A staging mount that works is found working, and the publish paths with it are put in order, if the
      probe is in time. If it is late a working mount is still found working if the next one is not; else a
      published one is spared if the liveness check is in time. */
  ghost predicate KeptSound(owner: Owner, a: State, b: State, x: Path, context: Option<Context>, publishes: Publishes, late: Lateness, outcome: Outcome) {
    Working(a, x) ==>
      && (!late.probe ==> outcome.Healthy? && (x !in publishes ==> AllSound(owner, a, b, x, publishes)))
      && (late.probe && !late.health && !outcome.Throttled? ==> outcome.Healthy?)
      && (late.probe && late.health && context.Some? && publishes != map[] && !late.live && !outcome.Throttled? ==> outcome.SkippedStillLive?)
  }

  /** The staging mount works: the throttle is cleared, and publish binds are mended if they need it. */
  method MendPublishPaths(ns: NodeServer, v: Vol)
    requires ns.Valid() && ns.host.Quiet(v) && v in ns.volumes
    modifies ns.host`m, ns.backoff
    ensures ns.Valid() && ns.host.Quiet(v) && ns.backoff.entries == old(ns.backoff.entries) - {v}
    ensures Handled(ns.host.owner, v, ns.volumes[v].publishPaths.Keys, old(ns.host.m), ns.host.m)
    ensures ns.host.reliable && ns.volumes[v].stagedPath !in ns.volumes[v].publishPaths
            && Working(old(ns.host.m), ns.volumes[v].stagedPath) && ns.volumes[v].stagedPath !in ns.host.hung ==>
              AllSound(ns.host.owner, old(ns.host.m), ns.host.m, ns.volumes[v].stagedPath, ns.volumes[v].publishPaths)
  {
    ns.backoff.ResetRecoveryBackoff(v);
    RetryIfUnhealthy(ns.host, ns.volumes[v]);
  }

  method RetryIfUnhealthy(host: Host, vol: Volume)
    requires host.Quiet(vol.volumeId) && host.owner.vol(vol.stagedPath) == vol.volumeId
    requires forall y :: y in vol.publishPaths ==> host.owner.vol(y) == vol.volumeId
    modifies host`m
    ensures host.Quiet(vol.volumeId) && Handled(host.owner, vol.volumeId, vol.publishPaths.Keys, old(host.m), host.m)
    ensures host.reliable && vol.stagedPath !in vol.publishPaths && Working(old(host.m), vol.stagedPath) && vol.stagedPath !in host.hung ==>
              AllSound(host.owner, old(host.m), host.m, vol.stagedPath, vol.publishPaths)
  {
    HandledRefl(host.owner, vol.volumeId, vol.publishPaths.Keys, host.m);
    var unhealthy := HasUnhealthyPublishPath(host, vol);
    if unhealthy {
      var mended := RetryPublishPaths(host, vol);
    }
  }

  // ---- a volume published at its own staging path --------------------------------------------------

  /** NodePublishVolume accepts a target that is the staging path: something is mounted there, so it
      counts as published and is tracked. The recovery that then succeeds leaves the volume without any
      session at its staging path. */
  method PublishOverStaging(ns: NodeServer, v: Vol, readOnly: bool, now: RB.Time, later: RB.Time, late: Lateness, staging: VA.Staging)
      returns (published: bool, outcome: Outcome)
    requires ns.Valid() && ns.host.Quiet(v) && v != "" && v in ns.volumes && ns.volumes[v].stagedPath != "" && ns.volumes[v].hasUnmounter
    modifies ns, ns.host, ns.backoff, {ns.volumes[v]}`publishPaths
    ensures ns.Valid() && (ns.host.reliable ==> published)
    ensures published && outcome.Success? ==>
              && v in ns.volumes && ns.volumes[v].stagedPath == old(ns.volumes[v].stagedPath)
              && ns.volumes[v].stagedPath in ns.Tracked(v) && NoSessionAt(ns.host.m, ns.volumes[v].stagedPath)
  {
    var x := ns.volumes[v].stagedPath;
    published := PublishAt(ns, v, x, readOnly, staging);
    var failed, r;
    outcome, failed, r := RecoverVolume(ns, v, now, later, late, staging);
  }

  method PublishAt(ns: NodeServer, v: Vol, x: Path, readOnly: bool, staging: VA.Staging) returns (published: bool)
    requires ns.Valid() && ns.host.Quiet(v) && v != "" && v in ns.volumes && x != "" && ns.volumes[v].stagedPath == x && ns.volumes[v].hasUnmounter
    modifies ns, ns.host, {ns.volumes[v]}`publishPaths
    ensures ns.Valid() && ns.host.Quiet(v) && (ns.host.reliable ==> published)
    ensures v in ns.volumes && ns.volumes[v].stagedPath == x && ns.volumes[v].hasUnmounter
    ensures published ==> x in ns.volumes[v].publishPaths
  {
    published := ns.NodePublishVolume(v, x, x, None, staging, readOnly, readOnly);
    if published {
      ReplayAppend(old(ns.history), Published(v, x, readOnly), v);
      assert x in ns.Tracked(v);
    }
  }
}
