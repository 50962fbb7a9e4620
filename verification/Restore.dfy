/** Restarting the node plugin: its map of volumes is rebuilt from the mount service's listing and the
    kernel's mount table. */
module Restore {
  import opened Wrappers
  import opened MountMachine
  import opened MountSafety
  import opened MountRely
  import opened MountManager
  import opened MountUtil
  import opened MountInfo
  import opened MountSelection
  import opened Volumes

  // ---- what the kernel shows ---------------------------------------------------------------------

  /** The entries show every mount of the table once. The device tells the sessions apart, from one
      another and from everything else that is mounted. */
  ghost predicate Shows(s: State, entries: seq<MountInfoEntry>) {
    && OneMountPerPath(entries)
    && (forall path :: path in s.table ==> exists i :: 0 <= i < |entries| && entries[i].mountPoint == path)
    && (forall i :: 0 <= i < |entries| && SessionAt(s, entries[i].mountPoint).Some? ==>
          entries[i].device != "" && IsSessionType(entries[i].fstype))
    && (forall i :: 0 <= i < |entries| && entries[i].mountPoint in s.table && s.table[entries[i].mountPoint].Bind? ==>
          entries[i].readOnly == s.table[entries[i].mountPoint].readOnly)
    && (forall i, j :: 0 <= i < |entries| && 0 <= j < |entries| && SessionAt(s, entries[i].mountPoint).Some? ==>
          (entries[i].device == entries[j].device <==> SessionAt(s, entries[i].mountPoint) == SessionAt(s, entries[j].mountPoint)))
  }

  /** `mountInfo` is what the kernel prints for `rows`, which show the mounts of `s`. */
  ghost predicate Faithful(s: State, rows: seq<KernelMount>, mountInfo: string) {
    && mountInfo == Print(rows)
    && (forall i :: 0 <= i < |rows| ==> WellFormed(rows[i]) && |Line(rows[i])| < MAX_SCAN_TOKEN_SIZE)
    && Shows(s, VisibleAll(rows))
  }

  /** The publish paths are exactly the kubelet targets, other than the staging path `x`, at which session `pid`
      is seen, and each is a bind with the flag that is tracked. If the session is seen anywhere else, the
      path is not called "mount". */
  ghost predicate TracksItsBinds(s: State, x: Path, pid: Pid, publishes: map<Path, bool>) {
    && (forall y :: y in publishes <==> y != x && SessionAt(s, y) == Some(pid) && IsKubeletTarget(y))
    && (forall y :: y in publishes ==> s.table[y] == Bind(Some(pid), publishes[y]))
    && (forall y :: y != x && SessionAt(s, y) == Some(pid) && !IsKubeletTarget(y) ==> NamedOtherwise(y))
  }

  lemma EntryFor(s: State, entries: seq<MountInfoEntry>, path: Path) returns (i: nat)
    requires Shows(s, entries) && path in s.table
    ensures i < |entries| && entries[i].mountPoint == path
  {
    i :| 0 <= i < |entries| && entries[i].mountPoint == path;
  }

  /** The device at the staging path singles out the binds of its session. */
  lemma DeviceFindsBinds(s: State, entries: seq<MountInfoEntry>, x: Path, pid: Pid, publishes: map<Path, bool>)
    requires Shows(s, entries) && x in s.table && s.table[x] == Fuse(pid) && TracksItsBinds(s, x, pid, publishes)
    ensures DeviceAt(entries, x) != "" && Filtered(entries, DeviceAt(entries, x), x) == publishes
  {
    var k := EntryFor(s, entries, x);
    DeviceOfLast(entries, x);
    var device := DeviceAt(entries, x);
    var found := Filtered(entries, device, x);
    forall y, flag: bool ensures Maps(found, y, flag) <==> Maps(publishes, y, flag) {
      FilteredIff(entries, device, x, y, flag);
      if Maps(publishes, y, flag) {
        var i := EntryFor(s, entries, y);
        TargetsAreRecognised(y);
        SessionTypeIsFuse(entries[i].fstype);
        assert LastSelected(entries, device, x, y, i);
      }
      if Maps(found, y, flag) {
        var i :| LastSelected(entries, device, x, y, i) && entries[i].readOnly == flag;
        assert SessionAt(s, y) == Some(pid);
        if NamedOtherwise(y) {
          OtherNamesAreNotPublishPaths(y);
        }
      }
    }
    SameMap(found, publishes);
  }

  lemma SameMap(a: map<Path, bool>, b: map<Path, bool>)
    requires forall y, flag: bool :: Maps(a, y, flag) <==> Maps(b, y, flag)
    ensures a == b
  {
    forall y ensures y in a <==> y in b
             ensures y in a && y in b ==> a[y] == b[y]
    {
      if y in a {
        assert Maps(a, y, a[y]);
      }
      if y in b {
        assert Maps(b, y, b[y]);
      }
    }
  }

  // ---- restoring ---------------------------------------------------------------------------------

  /** What can go wrong for one volume: the check of the staging path may fail although something is
      mounted there, no unmounter may be to be had, and either read of mountinfo may fail. */
  datatype Answers = Answers(live: bool, unmounterBuilt: bool, firstRead: bool, secondRead: bool)

  const NO_TROUBLE := Answers(true, true, true, true)

  predicate Adoptable(s: State, info: MountManager.MountInfo, answers: Answers) {
    && info.volumeID != "" && info.targetPath != ""
    && answers.live && info.targetPath in s.table && answers.unmounterBuilt
  }

  /** The publish paths the mount table yields, or none if it cannot be searched. */
  function PathsFound(stagingPath: Path, mountInfo: string, answers: Answers): map<Path, bool> {
    var entries := ParseLines(Scan(mountInfo).lines);
    var device := DeviceAt(entries, stagingPath);
    if answers.firstRead && answers.secondRead && !Scan(mountInfo).tooLong && device != ""
    then Filtered(entries, device, stagingPath) else map[]
  }

  predicate RestoredFrom(info: MountManager.MountInfo, mountInfo: string, answers: Answers, vol: Volume)
    reads vol
  {
    && vol.volumeId == info.volumeID && vol.stagedPath == info.targetPath && vol.hasUnmounter
    && vol.volContext == Some(info.volumeContext) && vol.readOnly == info.readOnly
    && vol.publishPaths == PathsFound(info.targetPath, mountInfo, answers)
  }

  /** restoreVolume. `mountInfo` is what /proc/self/mountinfo holds. */
  method RestoreVolume(host: Host, info: MountManager.MountInfo, mountInfo: string, answers: Answers) returns (vol: Volume?)
    ensures vol != null <==> Adoptable(host.m, info, answers)
    ensures vol != null ==> fresh(vol) && RestoredFrom(info, mountInfo, answers, vol)
  {
    if info.volumeID == "" || info.targetPath == "" {
      return null;
    }
    if !(answers.live && info.targetPath in host.m.table) {
      return null;
    }
    if !answers.unmounterBuilt {
      return null;
    }
    var paths := FindPublishPaths(info.targetPath, mountInfo, answers);
    vol := new Volume.Rebuilt(info.volumeID, info.targetPath, Some(info.volumeContext), info.readOnly);
    vol.hasUnmounter := true;
    AddAll(vol, paths);
  }

  method AddAll(vol: Volume, paths: map<Path, bool>)
    requires vol.publishPaths == map[]
    modifies vol`publishPaths
    ensures vol.publishPaths == paths
  {
    var rest := paths.Keys;
    while rest != {}
      invariant rest <= paths.Keys && vol.publishPaths == map y | y in paths && y !in rest :: paths[y]
    {
      var path :| path in rest;
      vol.AddPublishPath(path, paths[path]);
      rest := rest - {path};
    }
  }

  /** getMountDevice, then findPublishPathsByDevice. */
  method FindPublishPaths(stagingPath: Path, mountInfo: string, answers: Answers) returns (paths: map<Path, bool>)
    ensures paths == PathsFound(stagingPath, mountInfo, answers)
  {
    var device := GetMountDevice(if answers.firstRead then Some(mountInfo) else None, stagingPath);
    if device.None? || !answers.secondRead {
      return map[];
    }
    var entries, tooLong := ParseMountInfo(mountInfo);
    if tooLong {
      return map[];
    }
    paths := FilterPublishPaths(entries, device.value, stagingPath);
  }

  // ---- the restart as a whole --------------------------------------------------------------------

  /** What is staged and published, and with what parameters. */
  datatype Record = Record(volumeId: Vol, stagedPath: Path, hasUnmounter: bool, volContext: Option<Context>, readOnly: bool,
                           publishPaths: map<Path, bool>)

  function RecordOf(vol: Volume): Record
    reads vol
  {
    Record(vol.volumeId, vol.stagedPath, vol.hasUnmounter, vol.volContext, vol.readOnly, vol.publishPaths)
  }

  /** A live volume as stageNewVolume leaves it, with its publish paths bound. */
  ghost predicate Rebuildable(s: State, vol: Record) {
    && vol.volumeId != "" && vol.stagedPath != "" && vol.hasUnmounter && vol.volContext.Some? && vol.volumeId in s.mounts
    && s.mounts[vol.volumeId].req == RequestFor(vol.volumeId, vol.stagedPath, vol.volContext.value, vol.readOnly)
    && !Gone(s.procs, s.mounts[vol.volumeId].pid)
    && vol.stagedPath in s.table && s.table[vol.stagedPath] == Fuse(s.mounts[vol.volumeId].pid)
    && TracksItsBinds(s, vol.stagedPath, s.mounts[vol.volumeId].pid, vol.publishPaths)
  }

  /** A volume as stageNewVolume leaves it: its session is up, and no abandoned process of the volume can
      have taken it away. While the process runs, the manager has its entry and the mount is there; so
      a plugin that goes down while the publish paths are bound can be rebuilt. */
  lemma StagedIsRebuildable(a: State, s: State, vol: Record, pid: Pid)
    requires Inv(s) && vol.volumeId != "" && vol.stagedPath != "" && vol.hasUnmounter && vol.volContext.Some?
    requires Up(vol.volumeId, RequestFor(vol.volumeId, vol.stagedPath, vol.volContext.value, vol.readOnly), a, s, pid)
    requires s.procs[pid].phase == Running && forall q :: !TakenBy(vol.volumeId, vol.stagedPath, a, s, q)
    ensures Rebuildable(s, vol) <==> TracksItsBinds(s, vol.stagedPath, pid, vol.publishPaths)
  {
    assert ProcOk(s.mounts, s.threads, pid, s.procs[pid]);
  }

  /** Publishing keeps the publish paths those that are bound: a free publish target becomes a bind with
      the flag that is tracked for it. */
  lemma PublishKeepsTrack(s: State, x: Path, pid: Pid, publishes: map<Path, bool>, target: Path, readOnly: bool)
    requires x in s.table && s.table[x] == Fuse(pid) && TracksItsBinds(s, x, pid, publishes)
    requires target !in s.table && target != x && IsKubeletTarget(target)
    ensures TracksItsBinds(s.(table := s.table[target := Bound(s, x, readOnly)]), x, pid, publishes[target := readOnly])
  {
    var after := s.(table := s.table[target := Bound(s, x, readOnly)]);
    forall y ensures SessionAt(after, y) == if y == target then Some(pid) else SessionAt(s, y) {
    }
  }

  /** So does unpublishing. */
  lemma UnpublishKeepsTrack(s: State, x: Path, pid: Pid, publishes: map<Path, bool>, target: Path)
    requires TracksItsBinds(s, x, pid, publishes) && target != x
    ensures TracksItsBinds(s.(table := s.table - {target}), x, pid, publishes - {target})
  {
    var after := s.(table := s.table - {target});
    forall y ensures SessionAt(after, y) == if y == target then None else SessionAt(s, y) {
    }
  }

  lemma RestoredIsSame(s: State, mountInfo: string, rows: seq<KernelMount>, lost: Record, vol: Volume)
    requires Rebuildable(s, lost) && Faithful(s, rows, mountInfo)
    requires RestoredFrom(InfoOf(s.mounts[lost.volumeId]), mountInfo, NO_TROUBLE, vol)
    ensures RecordOf(vol) == lost
  {
    ParsePrint(rows);
    DeviceFindsBinds(s, VisibleAll(rows), lost.stagedPath, s.mounts[lost.volumeId].pid, lost.publishPaths);
  }

  ghost predicate Listable(s: State, infos: seq<MountManager.MountInfo>, n: nat, answers: Vol -> Answers, ids: set<Vol>)
    requires n <= |infos|
  {
    forall w :: w in ids ==> exists i :: 0 <= i < n && infos[i].volumeID == w && Adoptable(s, infos[i], answers(w))
  }

  lemma OneMoreListed(s: State, infos: seq<MountManager.MountInfo>, i: nat, answers: Vol -> Answers, ids: set<Vol>)
    requires i < |infos| && Listable(s, infos, i, answers, ids)
    ensures Listable(s, infos, i + 1, answers, if Adoptable(s, infos[i], answers(infos[i].volumeID)) then ids + {infos[i].volumeID} else ids)
  {
    forall w | w in ids ensures exists j :: 0 <= j < i + 1 && infos[j].volumeID == w && Adoptable(s, infos[j], answers(w)) {
      var j :| 0 <= j < i && infos[j].volumeID == w && Adoptable(s, infos[j], answers(w));
    }
  }

  /** The new map holds exactly the volumes among the first `n` listed that can be adopted, as they are
      listed. */
  ghost predicate AllRestored(s: State, infos: seq<MountManager.MountInfo>, n: nat, mountInfo: string, answers: Vol -> Answers, volumes: map<Vol, Volume>)
    requires n <= |infos|
    reads volumes.Values
  {
    && (forall i :: 0 <= i < n && Adoptable(s, infos[i], answers(infos[i].volumeID)) ==>
          infos[i].volumeID in volumes && RestoredFrom(infos[i], mountInfo, answers(infos[i].volumeID), volumes[infos[i].volumeID]))
    && Listable(s, infos, n, answers, volumes.Keys)
  }

  /** What one more listed mount adds. */
  lemma OneMoreRestored(s: State, infos: seq<MountManager.MountInfo>, i: nat, mountInfo: string, answers: Vol -> Answers,
                        volumes: map<Vol, Volume>, vol: Volume?)
    requires i < |infos| && (forall j :: 0 <= j < i ==> infos[j].volumeID != infos[i].volumeID)
    requires AllRestored(s, infos, i, mountInfo, answers, volumes)
    requires vol != null <==> Adoptable(s, infos[i], answers(infos[i].volumeID))
    requires vol != null ==> RestoredFrom(infos[i], mountInfo, answers(infos[i].volumeID), vol)
    ensures AllRestored(s, infos, i + 1, mountInfo, answers, if vol == null then volumes else volumes[infos[i].volumeID := vol])
  {
    OneMoreListed(s, infos, i, answers, volumes.Keys);
    if vol != null {
      assert volumes[infos[i].volumeID := vol].Keys == volumes.Keys + {infos[i].volumeID};
    }
  }

  /** Every volume in the map has been rebuilt from an entry of its own. */
  ghost predicate WellRestored(owner: Owner, s: State, mountInfo: string, answers: Vol -> Answers, volumes: map<Vol, Volume>)
    reads volumes.Values
  {
    forall w :: w in volumes ==>
      && volumes[w].volumeId == w && volumes[w].stagedPath in s.table && Stages(owner, w, volumes[w].stagedPath)
      && volumes[w].publishPaths == PathsFound(volumes[w].stagedPath, mountInfo, answers(w))
  }

  lemma ListedIsStaged(owner: Owner, a: State, info: MountManager.MountInfo)
    requires Inv(a) && Separate(owner, a) && Listed(a, info)
    ensures Stages(owner, info.volumeID, info.targetPath)
  {
    assert EntryOk(a.procs, info.volumeID, a.mounts[info.volumeID]);
  }

  lemma AllAreWellRestored(owner: Owner, a: State, s: State, infos: seq<MountManager.MountInfo>, mountInfo: string,
                           answers: Vol -> Answers, volumes: map<Vol, Volume>)
    requires Inv(a) && Separate(owner, a) && (forall i :: 0 <= i < |infos| ==> Listed(a, infos[i]))
    requires AllRestored(s, infos, |infos|, mountInfo, answers, volumes)
    ensures WellRestored(owner, s, mountInfo, answers, volumes)
  {
    forall w | w in volumes
      ensures volumes[w].volumeId == w && volumes[w].stagedPath in s.table && Stages(owner, w, volumes[w].stagedPath)
      ensures volumes[w].publishPaths == PathsFound(volumes[w].stagedPath, mountInfo, answers(w))
    {
      var i :| 0 <= i < |infos| && infos[i].volumeID == w && Adoptable(s, infos[i], answers(w));
      assert RestoredFrom(infos[i], mountInfo, answers(w), volumes[w]);
      ListedIsStaged(owner, a, infos[i]);
    }
  }

  /** restoreVolumes. A live volume `v` of the plugin that went down is back as it was, if the mount
      service and the mount table could be read. */
  method RestoreVolumes(host: Host, v: Vol, mountInfo: string, reached: bool, answers: Vol -> Answers,
                        ghost rows: seq<KernelMount>, ghost lost: Record) returns (volumes: map<Vol, Volume>)
    requires host.Valid() && lost.volumeId == v
    modifies host`m
    ensures host.Valid() && Rely(host.owner, v, old(host.m), host.m)
    ensures (forall w :: w in volumes ==> fresh(volumes[w])) && WellRestored(host.owner, host.m, mountInfo, answers, volumes)
    ensures !reached ==> volumes == map[]
    ensures reached && answers(v) == NO_TROUBLE && Rebuildable(host.m, lost) && Faithful(host.m, rows, mountInfo) ==>
              v in volumes && RecordOf(volumes[v]) == lost
  {
    if !reached {
      RelyRefl(host.owner, v, host.m);
      return map[];
    }
    var infos := host.List(v);
    volumes := RestoreListed(host, infos, mountInfo, answers);
    ghost var s := host.m;
    AllAreWellRestored(host.owner, old(host.m), s, infos, mountInfo, answers, volumes);
    if answers(v) == NO_TROUBLE && Rebuildable(s, lost) && Faithful(s, rows, mountInfo) {
      assert old(host.m).mounts[v] == s.mounts[v];
      var i :| 0 <= i < |infos| && infos[i] == InfoOf(s.mounts[v]);
      assert Adoptable(s, infos[i], answers(infos[i].volumeID));
      RestoredIsSame(s, mountInfo, rows, lost, volumes[v]);
    }
  }

  method RestoreListed(host: Host, infos: seq<MountManager.MountInfo>, mountInfo: string, answers: Vol -> Answers)
      returns (volumes: map<Vol, Volume>)
    requires forall i, j :: 0 <= i < j < |infos| ==> infos[i].volumeID != infos[j].volumeID
    ensures (forall w :: w in volumes ==> fresh(volumes[w])) && AllRestored(host.m, infos, |infos|, mountInfo, answers, volumes)
  {
    volumes := map[];
    for i := 0 to |infos|
      invariant forall w :: w in volumes ==> fresh(volumes[w])
      invariant AllRestored(host.m, infos, i, mountInfo, answers, volumes)
    {
      var info := infos[i];
      var vol := RestoreVolume(host, info, mountInfo, answers(info.volumeID));
      OneMoreRestored(host.m, infos, i, mountInfo, answers, volumes, vol);
      if vol != null {
        volumes := volumes[info.volumeID := vol];
      }
    }
  }
}
