/** Restarts of the node plugin in the middle of its work. What it tracked is gone with its memory, and is
    found again in the mount table. */
module PluginRestart {
  import opened Wrappers
  import opened MountMachine
  import opened MountSafety
  import opened MountRely
  import opened MountManager
  import opened MountUtil
  import MountInfo
  import opened MountSelection
  import opened Volumes
  import opened NodeServers
  import opened Restore
  import NodeRun
  import RB = RecoveryBackoff
  import VA = VolumeAttributes

  // ---- one restart -------------------------------------------------------------------------------

  /** What is found for a volume are paths of the volume. */
  ghost predicate OwnPaths(owner: Owner, mountInfo: string, answers: Vol -> Answers) {
    forall w, x, y :: Stages(owner, w, x) && y in PathsFound(x, mountInfo, answers(w)) ==> owner.vol(y) == w
  }

  ghost function Found(volumes: map<Vol, Volume>): map<Vol, map<Path, bool>>
    reads volumes.Values
  {
    map w | w in volumes :: volumes[w].publishPaths
  }

  /** The new process starts with the volumes it has found. */
  method Install(ns: NodeServer, volumes: map<Vol, Volume>)
    requires ns.host.Valid()
    requires forall w :: w in volumes ==> volumes[w].volumeId == w && Stages(ns.host.owner, w, volumes[w].stagedPath)
    requires forall w, y :: w in volumes && y in volumes[w].publishPaths ==> ns.host.owner.vol(y) == w
    modifies ns`volumes, ns`history
    ensures ns.Valid() && ns.volumes == volumes && ns.history == old(ns.history) + [Restarted(Found(volumes))]
  {
    ns.volumes := volumes;
    ghost var e := Restarted(Found(volumes));
    forall w ensures Replay(ns.history + [e], w) == ns.Tracked(w) {
      ReplayAppend(ns.history, e, w);
    }
    ns.history := ns.history + [e];
  }

  lemma FoundAreOwn(owner: Owner, s: State, mountInfo: string, answers: Vol -> Answers, volumes: map<Vol, Volume>)
    requires WellRestored(owner, s, mountInfo, answers, volumes) && OwnPaths(owner, mountInfo, answers)
    ensures forall w :: w in volumes ==> volumes[w].volumeId == w && Stages(owner, w, volumes[w].stagedPath)
    ensures forall w, y :: w in volumes && y in volumes[w].publishPaths ==> owner.vol(y) == w
  {
  }

  ghost function RecordIn(volumes: map<Vol, Volume>, v: Vol): Option<Record>
    reads volumes.Values
  {
    if v in volumes then Some(RecordOf(volumes[v])) else None
  }

  /** A volume that could be rebuilt is back as it was, its publish paths included, unless there was trouble. */
  ghost predicate Unharmed(s: State, lost: Option<Record>, found: Option<Record>, trouble: bool, rows: seq<MountInfo.KernelMount>, mountInfo: string) {
    lost.Some? && Rebuildable(s, lost.value) && Faithful(s, rows, mountInfo) && !trouble ==> found == lost
  }

  method FindVolumes(ns: NodeServer, v: Vol, mountInfo: string, reached: bool, answers: Vol -> Answers, ghost rows: seq<MountInfo.KernelMount>)
      returns (volumes: map<Vol, Volume>)
    requires ns.Valid() && ns.host.Quiet(v) && OwnPaths(ns.host.owner, mountInfo, answers)
    modifies ns.host`m
    ensures ns.host.Quiet(v) && Handled(ns.host.owner, v, {}, old(ns.host.m), ns.host.m)
    ensures forall w :: w in volumes ==> fresh(volumes[w]) && volumes[w].volumeId == w && Stages(ns.host.owner, w, volumes[w].stagedPath)
    ensures forall w, y :: w in volumes && y in volumes[w].publishPaths ==> ns.host.owner.vol(y) == w
    ensures Unharmed(ns.host.m, RecordIn(ns.volumes, v), RecordIn(volumes, v), !reached || answers(v) != NO_TROUBLE, rows, mountInfo)
  {
    ghost var lost := RecordIn(ns.volumes, v);
    ghost var nothing := Record(v, "", false, None, false, map[]);
    volumes := RestoreVolumes(ns.host, v, mountInfo, reached, answers, rows, if lost.Some? then lost.value else nothing);
    CalmStays(v, old(ns.host.m), ns.host.m);
    SparedHandled(ns.host.owner, v, {}, old(ns.host.m), ns.host.m);
    FoundAreOwn(ns.host.owner, ns.host.m, mountInfo, answers, volumes);
  }

  method Reload(ns: NodeServer, v: Vol, mountInfo: string, reached: bool, answers: Vol -> Answers, ghost rows: seq<MountInfo.KernelMount>)
    requires ns.Valid() && ns.host.Quiet(v) && OwnPaths(ns.host.owner, mountInfo, answers)
    modifies ns`volumes, ns`history, ns.host`m
    ensures ns.Valid() && ns.host.Quiet(v) && Handled(ns.host.owner, v, {}, old(ns.host.m), ns.host.m)
    ensures (forall w :: w in ns.volumes ==> fresh(ns.volumes[w])) && ns.history == old(ns.history) + [Restarted(Found(ns.volumes))]
    ensures Unharmed(ns.host.m, old(RecordIn(ns.volumes, v)), RecordIn(ns.volumes, v), !reached || answers(v) != NO_TROUBLE, rows, mountInfo)
  {
    var volumes := FindVolumes(ns, v, mountInfo, reached, answers, rows);
    ghost var found := RecordIn(volumes, v);
    Install(ns, volumes);
    assert RecordIn(ns.volumes, v) == found;
  }

  /** The plugin goes down and comes up again, with a fresh throttle. Whatever it finds, the publish paths it
      then tracks are what the history says, in which the restart is an event; a live volume that tracked
      exactly the binds of its session has not been harmed. */
  method Restart(ns: NodeServer, v: Vol, mountInfo: string, reached: bool, answers: Vol -> Answers, ghost rows: seq<MountInfo.KernelMount>)
    requires ns.Valid() && ns.host.Quiet(v) && OwnPaths(ns.host.owner, mountInfo, answers)
    modifies ns`volumes, ns`history, ns.host`m, ns.backoff
    ensures ns.Valid() && ns.host.Quiet(v) && Handled(ns.host.owner, v, {}, old(ns.host.m), ns.host.m)
    ensures (forall w :: w in ns.volumes ==> fresh(ns.volumes[w])) && ns.history == old(ns.history) + [Restarted(Found(ns.volumes))]
    ensures Unharmed(ns.host.m, old(RecordIn(ns.volumes, v)), RecordIn(ns.volumes, v), !reached || answers(v) != NO_TROUBLE, rows, mountInfo)
    ensures ns.backoff.entries == map[]
  {
    ghost var lost := RecordIn(ns.volumes, v);
    ns.backoff.entries := map[];
    assert RecordIn(ns.volumes, v) == lost;
    Reload(ns, v, mountInfo, reached, answers, rows);
  }

  /** Whole runs with restarts: what the kernel shows and what goes wrong is different at each. After any of
      them the tracked publish paths are what the history says, and no volume has lost data. */
  method RunWithRestarts(ns: NodeServer, restarts: seq<(string, bool, Vol -> Answers)>)
    requires ns.Valid() && forall i :: 0 <= i < |restarts| ==> OwnPaths(ns.host.owner, restarts[i].0, restarts[i].2)
    modifies ns, ns.host, ns.backoff, ns.volumes.Values`publishPaths
    ensures ns.Valid() && ns.host.remote == old(ns.host.remote) && old(ns.history) <= ns.history
  {
    hide Unharmed, NodeServer.Consistent, NodeRun.From, RB.Spaced;
    ghost var known := ns.volumes.Values;
    for i := 0 to |restarts|
      invariant ns.Valid() && ns.host.remote == old(ns.host.remote) && old(ns.history) <= ns.history
      invariant forall v :: v in ns.volumes ==> ns.volumes[v] in known || fresh(ns.volumes[v])
    {
      var trace := NodeRun.AnyRun(ns);
      var v: Vol := *;
      if Calm(ns.host.m, v) {
        var (mountInfo, reached, answers) := restarts[i];
        ghost var rows: seq<MountInfo.KernelMount> := *;
        Restart(ns, v, mountInfo, reached, answers, rows);
      }
    }
  }

  // ---- what makes a volume survive one -----------------------------------------------------------

  /** Kubelet names staging paths differently from publish targets. */
  ghost predicate KubeletNames(owner: Owner) {
    forall y :: IsKubeletTarget(y) ==> !owner.stages(y)
  }

  /** Among the paths of the volume, the tracked ones are the kubelet targets that show session `pid`. */
  ghost predicate TracksOwn(owner: Owner, v: Vol, x: Path, s: State, pid: Pid, publishes: Publishes) {
    && (forall y :: owner.vol(y) == v && y != x && IsKubeletTarget(y) && SessionAt(s, y) == Some(pid) ==> y in publishes)
    && (forall y :: y in publishes ==>
          owner.vol(y) == v && y != x && IsKubeletTarget(y) && y in s.table && s.table[y] == Bind(Some(pid), publishes[y]))
  }

  /** The session is seen at paths of the volume only: at the staging path `x`, at kubelet targets, or under
      other names. */
  ghost predicate OwnBinds(owner: Owner, v: Vol, x: Path, s: State, pid: Pid) {
    forall y :: SessionAt(s, y) == Some(pid) ==> owner.vol(y) == v && (y == x || IsKubeletTarget(y) || NamedOtherwise(y))
  }

  /** The volume has been up since `a`; as long as its session is there, the binds are tracked. */
  ghost predicate Serves(owner: Owner, req: MountRequest, a: State, s: State, pid: Pid, publishes: Publishes) {
    && Evolves(a.procs, s.procs) && Up(req.volumeID, req, a, s, pid)
    && (req.targetPath in s.table ==> TracksOwn(owner, req.volumeID, req.targetPath, s, pid, publishes))
  }

  /** Work on `xs` leaves the other publish targets alone. */
  lemma TracksTheRest(owner: Owner, v: Vol, x: Path, xs: set<Path>, b: State, c: State, pid: Pid, publishes: Publishes)
    requires KubeletNames(owner) && Separate(owner, c) && Handled(owner, v, xs, b, c) && TracksOwn(owner, v, x, b, pid, publishes)
    requires forall y :: y in xs ==> y !in c.table
    ensures TracksOwn(owner, v, x, c, pid, publishes - xs)
  {
    forall y | owner.vol(y) == v && y !in xs && IsKubeletTarget(y)
      ensures SessionAt(c, y) == SessionAt(b, y) && (y in b.table ==> y in c.table && c.table[y] == b.table[y])
    {
      BindStays(owner, v, xs, b, c, y);
    }
    forall y | owner.vol(y) == v && y != x && IsKubeletTarget(y) && SessionAt(c, y) == Some(pid) ensures y in publishes - xs {
      assert y in c.table;
    }
  }

  lemma ServesOn(owner: Owner, req: MountRequest, xs: set<Path>, a: State, b: State, c: State, pid: Pid, publishes: Publishes)
    requires KubeletNames(owner) && Inv(b) && Separate(owner, c) && owner.vol(req.targetPath) == req.volumeID && req.targetPath !in xs
    requires Serves(owner, req, a, b, pid, publishes) && Handled(owner, req.volumeID, xs, b, c) && (forall y :: y in xs ==> y !in c.table)
    ensures Serves(owner, req, a, c, pid, publishes - xs)
  {
    EvolvesTrans(a.procs, b.procs, c.procs);
    HandledKeepsUp(owner, req.volumeID, xs, a, b, c, req, pid);
    assert PathKept(req.volumeID, req.targetPath, b, c);
    if req.targetPath in c.table {
      TracksTheRest(owner, req.volumeID, req.targetPath, xs, b, c, pid, publishes);
    }
  }

  lemma ServesStill(owner: Owner, req: MountRequest, a: State, b: State, c: State, pid: Pid, publishes: Publishes)
    requires KubeletNames(owner) && Inv(b) && Separate(owner, c) && owner.vol(req.targetPath) == req.volumeID
    requires Serves(owner, req, a, b, pid, publishes) && Handled(owner, req.volumeID, {}, b, c)
    ensures Serves(owner, req, a, c, pid, publishes)
  {
    ServesOn(owner, req, {}, a, b, c, pid, publishes);
    assert publishes - {} == publishes;
  }

  lemma TracksOneMore(owner: Owner, v: Vol, x: Path, s: State, pid: Pid, publishes: Publishes, target: Path, readOnly: bool)
    requires TracksOwn(owner, v, x, s, pid, publishes) && x in s.table && s.table[x] == Fuse(pid)
    requires owner.vol(target) == v && IsKubeletTarget(target) && target != x
    ensures TracksOwn(owner, v, x, s.(table := s.table[target := Bound(s, x, readOnly)]), pid, publishes[target := readOnly])
  {
    var after := s.(table := s.table[target := Bound(s, x, readOnly)]);
    forall y | y != target ensures SessionAt(after, y) == SessionAt(s, y) {
    }
  }

  lemma ServesAfterPublish(owner: Owner, req: MountRequest, a: State, s: State, pid: Pid, history: seq<Event>, target: Path, readOnly: bool)
    requires Inv(s) && owner.vol(req.targetPath) == req.volumeID && Serves(owner, req, a, s, pid, Replay(history, req.volumeID))
    requires owner.vol(target) == req.volumeID && IsKubeletTarget(target) && target != req.targetPath
    ensures var after := s.(table := s.table[target := Bound(s, req.targetPath, readOnly)]);
            Serves(owner, req, a, after, pid, Replay(history + [Published(req.volumeID, target, readOnly)], req.volumeID))
  {
    var mnt, publishes := Bound(s, req.targetPath, readOnly), Replay(history, req.volumeID);
    ReplayAppend(history, Published(req.volumeID, target, readOnly), req.volumeID);
    HandledTable(owner, req.volumeID, target, s, Some(mnt));
    HandledKeepsUp(owner, req.volumeID, {target}, a, s, Apply(s, Kernel(target, Some(mnt))), req, pid);
    if req.targetPath in s.table {
      TracksOneMore(owner, req.volumeID, req.targetPath, s, pid, publishes, target, readOnly);
    }
  }

  lemma ServesAfterUnpublish(owner: Owner, req: MountRequest, a: State, b: State, c: State, pid: Pid, history: seq<Event>, target: Path)
    requires KubeletNames(owner) && Inv(b) && Separate(owner, c) && owner.vol(req.targetPath) == req.volumeID && req.targetPath != target
    requires Serves(owner, req, a, b, pid, Replay(history, req.volumeID)) && Handled(owner, req.volumeID, {target}, b, c) && target !in c.table
    ensures Serves(owner, req, a, c, pid, Replay(history + [Unpublished(req.volumeID, target)], req.volumeID))
  {
    ReplayAppend(history, Unpublished(req.volumeID, target), req.volumeID);
    ServesOn(owner, req, {target}, a, b, c, pid, Replay(history, req.volumeID));
  }

  /** While the process runs and no abandoned one has taken its session away, the volume can be rebuilt. */
  lemma ServingIsRebuildable(owner: Owner, a: State, s: State, vol: Record, pid: Pid)
    requires Inv(s) && vol.volumeId != "" && vol.stagedPath != "" && vol.hasUnmounter && vol.volContext.Some?
    requires Serves(owner, RequestFor(vol.volumeId, vol.stagedPath, vol.volContext.value, vol.readOnly), a, s, pid, vol.publishPaths)
    requires s.procs[pid].phase == Running && (forall q :: !TakenBy(vol.volumeId, vol.stagedPath, a, s, q)) && OwnBinds(owner, vol.volumeId, vol.stagedPath, s, pid)
    ensures Rebuildable(s, vol)
  {
    StagedIsRebuildable(a, s, vol, pid);
  }

  // ---- a volume from its staging to the next restart ---------------------------------------------

  /** The plugin has the volume of `req`, and it serves. */
  ghost predicate InService(ns: NodeServer, req: MountRequest, a: State, pid: Pid)
    reads ns, ns.volumes.Values, ns.host`m
  {
    && ns.Valid() && ns.host.Quiet(req.volumeID) && KubeletNames(ns.host.owner)
    && req.volumeID != "" && req.targetPath != "" && req.volumeID in ns.volumes && ns.volumes[req.volumeID].stagedPath == req.targetPath
    && Serves(ns.host.owner, req, a, ns.host.m, pid, Replay(ns.history, req.volumeID))
  }

  /** A target at which nothing is mounted is published. */
  method ServeAt(ns: NodeServer, v: Vol, target: Path, readOnly: bool, ghost req: MountRequest, ghost a: State, ghost pid: Pid) returns (ok: bool)
    requires InService(ns, req, a, pid) && req.volumeID == v
    requires ns.host.owner.vol(target) == v && IsKubeletTarget(target) && target != req.targetPath && target != "" && target !in ns.host.m.table
    modifies ns, ns.host, {ns.volumes[v]}`publishPaths
    ensures ns.Valid() && ns.host.Quiet(v) && ns.volumes == old(ns.volumes) && ns.host.remote == old(ns.host.remote)
    ensures ok ==> Serves(ns.host.owner, req, a, ns.host.m, pid, Replay(ns.history, v))
    ensures old(ns.history) <= ns.history && (ns.host.reliable ==> ok)
  {
    ghost var s1, history := ns.host.m, ns.history;
    ok := ns.NodePublishVolume(v, ns.volumes[v].stagedPath, target, None, VA.Staging(VA.CorruptDoc, None), readOnly, readOnly);
    if ok {
      ServesAfterPublish(ns.host.owner, req, a, s1, pid, history, target, readOnly);
    }
  }

  method Unserve(ns: NodeServer, v: Vol, target: Path, ghost req: MountRequest, ghost a: State, ghost pid: Pid) returns (ok: bool)
    requires InService(ns, req, a, pid) && req.volumeID == v && target != req.targetPath && target != ""
    modifies ns, ns.host, {ns.volumes[v]}`publishPaths
    ensures ns.Valid() && ns.host.Quiet(v) && ns.volumes == old(ns.volumes) && ns.host.remote == old(ns.host.remote)
    ensures ok ==> Serves(ns.host.owner, req, a, ns.host.m, pid, Replay(ns.history, v))
    ensures old(ns.history) <= ns.history && (ns.host.reliable ==> ok)
  {
    assert ns.host.owner.vol(req.targetPath) == v;
    hide Serves, NodeServer.Consistent;
    ghost var s1, history := ns.host.m, ns.history;
    ok := ns.NodeUnpublishVolume(v, target);
    if ok {
      ServesAfterUnpublish(ns.host.owner, req, a, s1, ns.host.m, pid, history, target);
    }
  }

  /** Others have their turn. */
  method Meanwhile(ns: NodeServer, v: Vol, ghost req: MountRequest, ghost a: State, ghost pid: Pid)
    requires InService(ns, req, a, pid) && req.volumeID == v
    modifies ns.host`m
    ensures ns.Valid() && ns.host.Quiet(v) && Serves(ns.host.owner, req, a, ns.host.m, pid, Replay(ns.history, v))
  {
    ghost var s1, publishes := ns.host.m, Replay(ns.history, v);
    Pause(ns.host, v);
    ServesStill(ns.host.owner, req, a, s1, ns.host.m, pid, publishes);
  }

  /** Kubelet publishes the volume at free targets and unpublishes it, as often as it likes, until a call
      fails. */
  method Serve(ns: NodeServer, v: Vol, ghost req: MountRequest, ghost a: State, ghost pid: Pid) returns (ok: bool)
    requires InService(ns, req, a, pid) && req.volumeID == v
    modifies ns, ns.host, {ns.volumes[v]}`publishPaths
    ensures ns.Valid() && ns.host.Quiet(v) && ns.volumes == old(ns.volumes) && ns.host.remote == old(ns.host.remote)
    ensures ok ==> InService(ns, req, a, pid)
    ensures old(ns.history) <= ns.history && (ns.host.reliable ==> ok)
  {
    hide Serves, Handled, NodeServer.Consistent;
    ok := true;
    var n: nat := *;
    while n > 0 && ok
      invariant ns.Valid() && ns.host.Quiet(v) && ns.volumes == old(ns.volumes) && ns.host.remote == old(ns.host.remote)
      invariant ok ==> Serves(ns.host.owner, req, a, ns.host.m, pid, Replay(ns.history, v))
      invariant old(ns.history) <= ns.history && (ns.host.reliable ==> ok)
    {
      Meanwhile(ns, v, req, a, pid);
      var kubelet: string, uid: string, volume: string, publish: bool, readOnly: bool := *, *, *, *, *;
      var target := KubeletTarget(kubelet, uid, volume);
      if target != ns.volumes[v].stagedPath && IsTargetOf(target, kubelet, uid, volume) {
        if !publish {
          ok := Unserve(ns, v, target, req, a, pid);
        } else if ns.host.owner.vol(target) == v && target !in ns.host.m.table {
          ok := ServeAt(ns, v, target, readOnly, req, a, pid);
        }
      }
      n := n - 1;
    }
  }

  /** No path shows the session of a process that does not exist. */
  ghost predicate NoFuture(s: State) {
    forall y :: SessionAt(s, y).Some? ==> SessionAt(s, y).value < s.nextPid
  }

  lemma StagedServes(owner: Owner, req: MountRequest, a: State, b: State, pid: Pid)
    requires NoFuture(a) && OnlyAt(owner, req.volumeID, req.targetPath, a, b) && Up(req.volumeID, req, a, b, pid)
    ensures Serves(owner, req, a, b, pid, map[])
  {
    forall y | owner.vol(y) == req.volumeID && y != req.targetPath ensures SessionAt(b, y) != Some(pid) {
      assert PathKept(req.volumeID, y, a, b);
      assert SessionAt(b, y).Some? ==> SessionAt(b, y) == SessionAt(a, y);
    }
  }

  /** The volume was staged for `req`. */
  predicate IsStagedFor(vol: Volume, req: MountRequest)
    reads vol
  {
    && vol.volumeId == req.volumeID && vol.stagedPath == req.targetPath && vol.hasUnmounter && vol.volContext.Some?
    && req == RequestFor(vol.volumeId, vol.stagedPath, vol.volContext.value, vol.readOnly)
  }

  method StageForService(ns: NodeServer, v: Vol, x: Path, context: Option<Context>, staging: VA.Staging, readOnly: bool)
      returns (ok: bool, ghost req: MountRequest, ghost pid: Pid)
    requires ns.Valid() && ns.host.Quiet(v) && Stages(ns.host.owner, v, x) && v != "" && x != "" && v !in ns.volumes
    requires KubeletNames(ns.host.owner) && NoFuture(ns.host.m)
    modifies ns`volumes, ns.host`m, ns.host`remote, ns.host`quota
    ensures ns.Valid() && ns.host.Quiet(v) && ns.host.remote == old(ns.host.remote)
    ensures ok ==> req.volumeID == v && req.targetPath == x && req.readOnly == readOnly
    ensures ok ==> v in ns.volumes && fresh(ns.volumes[v]) && IsStagedFor(ns.volumes[v], req)
    ensures ok ==> InService(ns, req, old(ns.host.m), pid)
  {
    hide QuotaIs, CanTakeUp, VA.StageContext, VA.StagedAs, VA.Stageable, TracksOwn;
    ghost var a := ns.host.m;
    assert ns.Tracked(v) == map[];
    var staged, r := ns.NodeStageVolume(v, x, context, staging, readOnly);
    ok := staged && ns.volumes[v].hasUnmounter && r.Started?;
    if ok {
      req, pid := RequestFor(v, x, ns.volumes[v].volContext.value, readOnly), r.pid;
      StagedServes(ns.host.owner, req, a, ns.host.m, pid);
    } else {
      req, pid := RequestFor(v, x, map[], readOnly), 0;
    }
  }

  /** Nothing stands in the way of the volume: its process runs, no abandoned one has taken its session away
      since `a`, the session is at paths of the volume only, and the mount table is read as it is. */
  ghost predicate Undisturbed(owner: Owner, v: Vol, x: Path, a: State, s: State, pid: Pid, rows: seq<MountInfo.KernelMount>, mountInfo: string) {
    && PhaseIs(s.procs, pid, Running) && (forall q :: !TakenBy(v, x, a, s, q))
    && OwnBinds(owner, v, x, s, pid) && Faithful(s, rows, mountInfo)
  }

  lemma RequestSays(vol: Record)
    requires vol.volContext.Some?
    ensures var req := RequestFor(vol.volumeId, vol.stagedPath, vol.volContext.value, vol.readOnly);
            req.volumeID == vol.volumeId && req.targetPath == vol.stagedPath
  {
  }

  /** From `b`, before the restart, to `c`, after it. */
  lemma RestartFindsVolume(owner: Owner, req: MountRequest, a: State, b: State, c: State, pid: Pid, lost: Record, found: Option<Record>,
                           rows: seq<MountInfo.KernelMount>, mountInfo: string)
    requires KubeletNames(owner) && Inv(b) && Inv(c) && Separate(owner, c) && owner.vol(req.targetPath) == req.volumeID
    requires Serves(owner, req, a, b, pid, lost.publishPaths) && Handled(owner, req.volumeID, {}, b, c)
    requires lost.volumeId != "" && lost.stagedPath != "" && lost.hasUnmounter && lost.volContext.Some?
    requires req == RequestFor(lost.volumeId, lost.stagedPath, lost.volContext.value, lost.readOnly)
    requires Undisturbed(owner, req.volumeID, req.targetPath, a, c, pid, rows, mountInfo)
    requires Unharmed(c, Some(lost), found, false, rows, mountInfo)
    ensures found == Some(lost)
  {
    ServesStill(owner, req, a, b, c, pid, lost.publishPaths);
    RequestSays(lost);
    ServingIsRebuildable(owner, a, c, lost, pid);
  }

  method StageAndServe(ns: NodeServer, v: Vol, x: Path, context: Option<Context>, staging: VA.Staging, readOnly: bool)
      returns (ok: bool, ghost req: MountRequest, ghost pid: Pid)
    requires ns.Valid() && ns.host.Quiet(v) && Stages(ns.host.owner, v, x) && v != "" && x != "" && v !in ns.volumes
    requires KubeletNames(ns.host.owner) && NoFuture(ns.host.m)
    modifies ns, ns.host
    ensures ns.Valid() && ns.host.Quiet(v) && ns.host.remote == old(ns.host.remote) && old(ns.history) <= ns.history
    ensures ok ==> req.volumeID == v && req.targetPath == x && req.readOnly == readOnly && v in ns.volumes && IsStagedFor(ns.volumes[v], req)
    ensures ok ==> InService(ns, req, old(ns.host.m), pid)
  {
    ghost var a := ns.host.m;
    ok, req, pid := StageForService(ns, v, x, context, staging, readOnly);
    if ok {
      ok := Serve(ns, v, req, a, pid);
    }
  }

  /** The restart of the plugin while it has the volume in service. */
  method RestartInService(ns: NodeServer, v: Vol, mountInfo: string, answers: Vol -> Answers, ghost rows: seq<MountInfo.KernelMount>,
                          ghost req: MountRequest, ghost a: State, ghost pid: Pid)
    requires InService(ns, req, a, pid) && req.volumeID == v && IsStagedFor(ns.volumes[v], req) && OwnPaths(ns.host.owner, mountInfo, answers)
    modifies ns`volumes, ns`history, ns.host`m, ns.backoff
    ensures ns.Valid() && ns.history == old(ns.history) + [Restarted(Found(ns.volumes))]
    ensures answers(v) == NO_TROUBLE && Undisturbed(ns.host.owner, v, req.targetPath, a, ns.host.m, pid, rows, mountInfo) ==>
              RecordIn(ns.volumes, v) == old(RecordIn(ns.volumes, v))
  {
    ghost var b, lost := ns.host.m, RecordOf(ns.volumes[v]);
    assert Serves(ns.host.owner, req, a, b, pid, lost.publishPaths);
    Restart(ns, v, mountInfo, true, answers, rows);
    if answers(v) == NO_TROUBLE && Undisturbed(ns.host.owner, v, req.targetPath, a, ns.host.m, pid, rows, mountInfo) {
      RestartFindsVolume(ns.host.owner, req, a, b, ns.host.m, pid, lost, RecordIn(ns.volumes, v), rows, mountInfo);
    }
  }

  /** A volume is staged, then published at free kubelet targets and unpublished as often as kubelet likes,
      while everything else goes on; then the plugin restarts. If every call succeeded and nothing stood in
      the way, the volume is there again as it was staged, and what is tracked for it is what the calls
      before the restart add up to. */
  method StageServeRestart(ns: NodeServer, v: Vol, x: Path, context: Option<Context>, staging: VA.Staging, readOnly: bool,
                           mountInfo: string, answers: Vol -> Answers, ghost rows: seq<MountInfo.KernelMount>)
      returns (ok: bool, ghost pid: Pid, ghost before: seq<Event>)
    requires ns.Valid() && ns.host.Quiet(v) && Stages(ns.host.owner, v, x) && v != "" && x != "" && v !in ns.volumes
    requires KubeletNames(ns.host.owner) && NoFuture(ns.host.m) && OwnPaths(ns.host.owner, mountInfo, answers)
    modifies ns, ns.host, ns.backoff
    ensures ns.Valid() && ns.host.remote == old(ns.host.remote) && old(ns.history) <= before
    ensures ns.history == if ok then before + [Restarted(Found(ns.volumes))] else before
    ensures ok && answers(v) == NO_TROUBLE && Undisturbed(ns.host.owner, v, x, old(ns.host.m), ns.host.m, pid, rows, mountInfo) ==>
              v in ns.volumes && ns.volumes[v].stagedPath == x && ns.volumes[v].readOnly == readOnly && ns.Tracked(v) == Replay(before, v)
  {
    ghost var a, req: MountRequest := ns.host.m, *;
    ok, req, pid := StageAndServe(ns, v, x, context, staging, readOnly);
    before := ns.history;
    if ok {
      assert ns.Tracked(v) == Replay(before, v);
      ghost var lost := RecordIn(ns.volumes, v);
      assert lost.Some? && lost.value.stagedPath == x && lost.value.readOnly == readOnly && lost.value.publishPaths == Replay(before, v);
      RestartInService(ns, v, mountInfo, answers, rows, req, a, pid);
    }
  }
}
