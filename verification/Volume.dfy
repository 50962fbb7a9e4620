/** One staged volume of the node plugin: `Volume.Stage`, `Publish`, `Unpublish`, `Unstage`, the
    bookkeeping of publish paths, and `stageNewVolume`. */
module Volumes {
  import opened Wrappers
  import opened MountMachine
  import opened MountSafety
  import opened MountRely
  import opened MountManager
  import opened MountUtil
  import VA = VolumeAttributes

  /** The request the mounter sends to the mount service; the arguments of weed mount are not spelled out. */
  function RequestFor(v: Vol, x: Path, context: Context, readOnly: bool): MountRequest {
    MountRequest(v, x, "/cache/" + v, ["mount"], context, readOnly, "/socket/" + v)
  }

  /** A request without a context is one with an empty context. */
  function Given(base: Option<Context>): Context {
    if base.Some? then base.value else map[]
  }

  /** `context` is what has to be mounted with: `base` with the mutable keys of the document laid over it and
      the capacity written into it. The mount command accepts it. */
  ghost predicate StagedWith(base: Option<Context>, staging: VA.Staging, context: Option<Context>) {
    && context.Some?
    && VA.StageContext(Given(base), staging).Context? && VA.StageContext(Given(base), staging).context == context.value
    && VA.StagedAs(Given(base), staging, context.value) && VA.Stageable(context.value)
  }

  lemma IsStagedWith(base: Option<Context>, staging: VA.Staging, staged: VA.Staged)
    requires staged == VA.StageContext(Given(base), staging) && staged.Context?
    ensures StagedWith(base, staging, Some(staged.context)) && staged.capacity == VA.CapacityOf(Given(base), staging)
  {
    VA.StagedIsLaid(Given(base), staging);
    VA.StagedContextIsSound(Given(base), staging);
  }

  /** The quota is the capacity, if there is one; a capacity of one byte stands for no quota. */
  predicate QuotaIs(quota: map<Vol, int>, v: Vol, capacity: Option<VA.Int64>) {
    capacity.Some? ==> v in quota && quota[v] == if capacity.value == 1 then 0 else capacity.value
  }

  /** The mount service has been asked for `req`, or has not been reached, and has answered `r`. */
  ghost predicate Asked(owner: Owner, a: State, b: State, req: MountRequest, r: MountResult) {
    && OnlyAt(owner, req.volumeID, req.targetPath, a, b)
    && (r.Started? ==> Up(req.volumeID, req, a, b, r.pid))
    && (r.AlreadyMounted? ==> req.volumeID in a.mounts && a.mounts[req.volumeID].req.targetPath == req.targetPath)
  }

  lemma AskedSince(owner: Owner, a: State, b: State, c: State, req: MountRequest, r: MountResult)
    requires Inv(a) && Handled(owner, req.volumeID, {req.targetPath}, a, b) && Asked(owner, b, c, req, r)
    ensures Asked(owner, a, c, req, r)
  {
    HandledThenOnly(owner, req.volumeID, req.targetPath, a, b, c);
    if r.Started? {
      UpSince(owner, req.volumeID, {req.targetPath}, a, b, c, req, r.pid);
    }
  }

  /** A process has been started and runs. */
  predicate IsUp(s: State, r: MountResult) {
    r.Started? && PhaseIs(s.procs, r.pid, Running)
  }

  /** Nobody but Mount makes an entry. */
  lemma NoLiveEntryStays(owner: Owner, v: Vol, xs: set<Path>, a: State, b: State)
    requires Inv(a) && Handled(owner, v, xs, a, b)
    ensures LiveEntry(b, v) ==> LiveEntry(a, v)
  {
    if LiveEntry(b, v) {
      assert EntryOk(a.procs, v, a.mounts[v]);
    }
  }

  class Volume {
    const volumeId: Vol
    var stagedPath: Path
    var hasUnmounter: bool
    var publishPaths: map<Path, bool>  // path to read-only flag
    var volContext: Option<Context>
    var readOnly: bool

    constructor (volumeId: Vol, context: Context, readOnly: bool)
      ensures this.volumeId == volumeId && stagedPath == "" && !hasUnmounter && publishPaths == map[]
      ensures volContext == Some(context) && this.readOnly == readOnly
    {
      this.volumeId := volumeId;
      stagedPath, hasUnmounter, publishPaths, volContext, this.readOnly := "", false, map[], Some(context), readOnly;
    }

    /** rebuildVolumeFromStaging: a volume for a mount that is already there, without an unmounter. */
    constructor Rebuilt(volumeId: Vol, stagingPath: Path, volContext: Option<Context>, readOnly: bool)
      ensures this.volumeId == volumeId && stagedPath == stagingPath && !hasUnmounter && publishPaths == map[]
      ensures this.volContext == volContext && this.readOnly == readOnly
    {
      this.volumeId := volumeId;
      stagedPath, hasUnmounter, publishPaths := stagingPath, false, map[];
      this.volContext, this.readOnly := volContext, readOnly;
    }

    method AddPublishPath(path: Path, readOnly: bool)
      modifies this`publishPaths
      ensures publishPaths == old(publishPaths)[path := readOnly]
    {
      publishPaths := publishPaths[path := readOnly];
    }

    method RemovePublishPath(path: Path)
      modifies this`publishPaths
      ensures publishPaths == old(publishPaths) - {path}
    {
      publishPaths := publishPaths - {path};
    }

    /** A leftover mount is unmounted if it lets itself, then the mounter mounts. */
    method Stage(host: Host, x: Path, context: Context) returns (r: MountResult)
      requires host.Quiet(volumeId) && Stages(host.owner, volumeId, x)
      modifies host`m, this`stagedPath, this`hasUnmounter
      ensures host.Quiet(volumeId) && Asked(host.owner, old(host.m), host.m, RequestFor(volumeId, x, context, readOnly), r)
      ensures r.MountFailed? ==> stagedPath == old(stagedPath) && hasUnmounter == old(hasUnmounter)
      ensures !r.MountFailed? ==> stagedPath == x && hasUnmounter
      ensures host.Ideal() && volumeId != "" && x != "" && !LiveEntry(old(host.m), volumeId) ==> IsUp(host.m, r)
      ensures host.reliable && r.AlreadyMounted? ==> x !in host.m.table
    {
      r := MountAfterClearing(host, x, context);
      if !r.MountFailed? {
        stagedPath, hasUnmounter := x, true;
      }
    }

    method MountAfterClearing(host: Host, x: Path, context: Context) returns (r: MountResult)
      requires host.Quiet(volumeId) && Stages(host.owner, volumeId, x)
      modifies host`m
      ensures host.Quiet(volumeId) && Asked(host.owner, old(host.m), host.m, RequestFor(volumeId, x, context, readOnly), r)
      ensures host.Ideal() && volumeId != "" && x != "" && !LiveEntry(old(host.m), volumeId) ==> IsUp(host.m, r)
      ensures host.reliable && r.AlreadyMounted? ==> x !in host.m.table
    {
      var ok := ClearMount(host, x);
      ghost var s1 := host.m;
      NoLiveEntryStays(host.owner, volumeId, {x}, old(host.m), s1);
      OnlyAtRefl(host.owner, volumeId, x, s1);
      r := MountFailed;
      if ok {
        r := MountVia(host, x, context);
      }
      AskedSince(host.owner, old(host.m), s1, host.m, RequestFor(volumeId, x, context, readOnly), r);
    }

    /** checkMount, and an attempt to unmount what it found. */
    method ClearMount(host: Host, x: Path) returns (ok: bool)
      requires host.Quiet(volumeId)
      modifies host`m
      ensures host.Quiet(volumeId) && Handled(host.owner, volumeId, {x}, old(host.m), host.m)
      ensures host.m == old(host.m).(table := host.m.table) && (host.reliable ==> ok && x !in host.m.table)
    {
      ghost var a := host.m;
      var isMnt := CheckMount(host, volumeId, x);
      ghost var s1 := host.m;
      if isMnt.None? {
        return false;
      }
      ok := true;
      if isMnt.value {
        var unmounted := UnmountPath(host, volumeId, x);
        HandledSame(host.owner, volumeId, x, a, s1, host.m);
      } else {
        assert isMnt == Some(false);
      }
    }

    /** mounter.Mount: building the arguments can fail before the service is asked. */
    method MountVia(host: Host, x: Path, context: Context) returns (r: MountResult)
      requires host.Quiet(volumeId) && Stages(host.owner, volumeId, x)
      modifies host`m
      ensures host.Quiet(volumeId) && Asked(host.owner, old(host.m), host.m, RequestFor(volumeId, x, context, readOnly), r)
      ensures host.Ideal() && volumeId != "" && x != "" && !LiveEntry(old(host.m), volumeId) ==> IsUp(host.m, r)
      ensures r.AlreadyMounted? && x !in old(host.m).table ==> x !in host.m.table
    {
      var built := *;
      if !built && !host.reliable {
        OnlyAtRefl(host.owner, volumeId, x, host.m);
        return MountFailed;
      }
      r := host.Mount(RequestFor(volumeId, x, context, readOnly));
      if r.AlreadyMounted? {
        SparedHandled(host.owner, volumeId, {}, old(host.m), host.m);
        StaysFree(host.owner, volumeId, old(host.m), host.m, x);
      }
    }

    /** A path on which something is mounted is taken for published; otherwise a bind mount. */
    method Publish(host: Host, source: Path, target: Path, readOnly: bool) returns (ok: bool)
      requires host.Quiet(volumeId) && host.owner.vol(target) == volumeId
      modifies host`m
      ensures host.Quiet(volumeId) && Handled(host.owner, volumeId, {target}, old(host.m), host.m)
      ensures ok ==>
                var free := old(host.m).(table := old(host.m).table - {target});
                || (target in old(host.m).table && host.m == old(host.m))
                || host.m == free.(table := free.table[target := Bound(free, source, readOnly)])
      ensures !ok ==> host.m == old(host.m) || host.m == old(host.m).(table := old(host.m).table - {target})
      ensures host.reliable ==> ok
    {
      ghost var a := host.m;
      var isMnt := CheckMount(host, volumeId, target);
      if isMnt.None? {
        return false;
      }
      if isMnt.value {
        return true;
      }
      assert isMnt == Some(false);
      ghost var s1 := host.m;
      assert s1.table == a.table - {target};
      ok := BindMount(host, volumeId, source, target, readOnly);
      HandledSame(host.owner, volumeId, target, a, s1, host.m);
    }

    method Unpublish(host: Host, target: Path) returns (ok: bool)
      requires host.Quiet(volumeId)
      modifies host`m
      ensures host.Quiet(volumeId) && Handled(host.owner, volumeId, {target}, old(host.m), host.m)
      ensures (ok ==> target !in host.m.table) && (host.reliable ==> ok)
    {
      ok := CleanupMountPoint(host, volumeId, target);
    }

    /** Through the mount service if the volume has an unmounter, else by force. */
    method Unstage(host: Host, x: Path) returns (ok: bool)
      requires host.Quiet(volumeId) && host.owner.vol(x) == volumeId
      modifies host`m
      ensures host.Quiet(volumeId) && Handled(host.owner, volumeId, {x}, old(host.m), host.m)
      ensures ok && hasUnmounter ==> volumeId !in host.m.mounts
      ensures ok ==> x !in host.m.table
      ensures host.reliable && !hasUnmounter ==> ok
      ensures host.Ideal() && hasUnmounter && volumeId != "" ==> volumeId !in host.m.mounts && (ok <==> x !in host.m.table)
    {
      if !hasUnmounter {
        ok := CleanupMountPoint(host, volumeId, x);
        return;
      }
      ok := UnmountViaService(host, volumeId);
      HandledMore(host.owner, volumeId, {x}, old(host.m), host.m);
      if ok {
        // os.Remove does not remove a directory on which something is mounted; a directory that
        // does not exist counts as removed.
        ok := *;
        ok := (ok || host.reliable) && x !in host.m.table;
      }
    }
  }

  /** The mount service is asked to give the mount of the volume up. */
  method UnmountViaService(host: Host, v: Vol) returns (ok: bool)
    requires host.Quiet(v)
    modifies host`m
    ensures host.Quiet(v) && Handled(host.owner, v, {}, old(host.m), host.m)
    ensures (ok ==> v !in host.m.mounts) && (host.smooth && v != "" ==> ok)
  {
    ok := host.Unmount(v);
    SparedHandled(host.owner, v, {}, old(host.m), host.m);
  }

  /** The context to mount with. */
  method EffectiveContext(base: Context, staging: VA.Staging) returns (staged: VA.Staged)
    ensures staged == VA.StageContext(base, staging)
  {
    if staging.doc.CorruptDoc? {
      return VA.Refused;
    }
    var effective := base;
    if staging.doc.params != map[] {
      effective := VA.MergePersistedVolumeAttributes(effective, staging.doc.params);
    }
    var values := VA.ValidateConstrainedParameterValues(effective);
    if !values {
      return VA.Refused;
    }
    var combo := VA.ValidateWritebackDlmCombo(effective);
    if !combo {
      return VA.Refused;
    }
    match VA.ResolveCapacity(staging.capacity, effective)
    case None => staged := VA.Refused;
    case Some(None) => staged := VA.Context(effective, None);
    case Some(Some(n)) => staged := VA.Context(effective[VA.CAPACITY := VA.FormatInt(n)], Some(n));
  }

  /** stageNewVolume: merge and check the parameters, mount, set the quota. `staging` is what the store and
      the orchestrator answer. Without a volume the staging path may be left in any state, but the rest of
      the volume is untouched; there is one if nothing fails, the parameters are not refused, and the mount
      service has no live entry. If it has one for the path, the answer is a success without a new process, but
      the mount has been taken away before. */
  method StageNewVolume(host: Host, v: Vol, x: Path, base: Option<Context>, staging: VA.Staging, readOnly: bool) returns (vol: Volume?, r: MountResult)
    requires host.Quiet(v) && Stages(host.owner, v, x)
    modifies host`m, host`quota
    ensures host.Quiet(v) && OnlyAt(host.owner, v, x, old(host.m), host.m)
    ensures vol != null ==>
              && fresh(vol) && vol.volumeId == v && vol.stagedPath == x && vol.hasUnmounter && vol.publishPaths == map[] && vol.readOnly == readOnly
              && StagedWith(base, staging, vol.volContext) && !r.MountFailed?
              && Asked(host.owner, old(host.m), host.m, RequestFor(v, x, vol.volContext.value, readOnly), r)
              && QuotaIs(host.quota, v, VA.CapacityOf(Given(base), staging))
    ensures host.Ideal() && v != "" && x != "" && !LiveEntry(old(host.m), v) && VA.StageContext(Given(base), staging).Context? ==>
              vol != null && IsUp(host.m, r)
    ensures host.reliable && vol != null && !r.Started? ==> x !in host.m.table
  {
    OnlyAtRefl(host.owner, v, x, host.m);
    vol, r := null, MountFailed;
    var staged := EffectiveContext(Given(base), staging);
    if staged.Refused? {
      return;
    }
    IsStagedWith(base, staging, staged);
    var mounterBuilt := *;
    if !mounterBuilt && !host.reliable {
      return;
    }
    vol, r := StageWith(host, v, x, staged, readOnly);
  }

  method StageWith(host: Host, v: Vol, x: Path, staged: VA.Staged, readOnly: bool) returns (vol: Volume?, r: MountResult)
    requires host.Quiet(v) && Stages(host.owner, v, x) && staged.Context?
    modifies host`m, host`quota
    ensures host.Quiet(v) && OnlyAt(host.owner, v, x, old(host.m), host.m)
    ensures vol != null ==>
              && fresh(vol) && vol.volumeId == v && vol.stagedPath == x && vol.hasUnmounter && vol.publishPaths == map[] && vol.readOnly == readOnly
              && vol.volContext == Some(staged.context) && !r.MountFailed?
              && Asked(host.owner, old(host.m), host.m, RequestFor(v, x, staged.context, readOnly), r)
              && QuotaIs(host.quota, v, staged.capacity)
    ensures host.Ideal() && v != "" && x != "" && !LiveEntry(old(host.m), v) ==> vol != null && IsUp(host.m, r)
    ensures host.reliable && vol != null && !r.Started? ==> x !in host.m.table
  {
    vol := new Volume(v, staged.context, readOnly);
    assert host.Quiet(v);
    r := StageAndSetQuota(host, vol, x, staged);
    if r.MountFailed? {
      vol := null;
    }
  }

  /** Stage, then the quota; if that fails the volume is unstaged again. */
  method StageAndSetQuota(host: Host, vol: Volume, x: Path, staged: VA.Staged) returns (r: MountResult)
    requires host.Quiet(vol.volumeId) && Stages(host.owner, vol.volumeId, x) && staged.Context?
    modifies host`m, host`quota, vol`stagedPath, vol`hasUnmounter
    ensures host.Quiet(vol.volumeId) && OnlyAt(host.owner, vol.volumeId, x, old(host.m), host.m)
    ensures !r.MountFailed? ==> vol.stagedPath == x && vol.hasUnmounter && QuotaIs(host.quota, vol.volumeId, staged.capacity)
    ensures Asked(host.owner, old(host.m), host.m, RequestFor(vol.volumeId, x, staged.context, vol.readOnly), r)
    ensures host.Ideal() && vol.volumeId != "" && x != "" && !LiveEntry(old(host.m), vol.volumeId) ==> IsUp(host.m, r)
    ensures host.reliable && r.AlreadyMounted? ==> x !in host.m.table
  {
    ghost var a := host.m;
    StartedBelow(a);
    r := vol.Stage(host, x, staged.context);
    if !r.MountFailed? && staged.capacity.Some? {
      var quotaSet := SetQuota(host, vol.volumeId, staged.capacity.value);
      if !quotaSet {
        ghost var s1 := host.m;
        var unstaged := vol.Unstage(host, x);
        OnlyThenHandled(host.owner, vol.volumeId, x, a, s1, host.m);
        r := MountFailed;
      }
    }
  }

  /** Volume.Quota: one byte stands for no quota. */
  method SetQuota(host: Host, v: Vol, capacity: VA.Int64) returns (ok: bool)
    modifies host`quota
    ensures ok ==> QuotaIs(host.quota, v, Some(capacity))
    ensures host.quota - {v} == old(host.quota) - {v} && (host.reliable ==> ok)
  {
    ok := *;
    ok := ok || host.reliable;
    if ok {
      host.quota := host.quota[v := if capacity == 1 then 0 else capacity];
      assert host.quota - {v} == old(host.quota) - {v};
    }
  }
}
