/** Picking mounts out of a parsed mountinfo table: the device at a path, and the kubelet publish
    binds of a device. */
module MountSelection {
  import opened Wrappers
  import opened Strings
  import opened MountInfo

  // ---- the device of a mount ---------------------------------------------------------------------

  /** The last entry for the path decides. */
  function DeviceAt(entries: seq<MountInfoEntry>, path: string): string {
    if entries == [] then ""
    else
      var e := entries[|entries| - 1];
      if e.mountPoint == path then e.device else DeviceAt(entries[..|entries| - 1], path)
  }

  method GetMountDevice(mountInfo: Option<string>, path: string) returns (device: Option<string>)
    ensures mountInfo.None? || Scan(mountInfo.value).tooLong ==> device.None?
    ensures mountInfo.Some? && !Scan(mountInfo.value).tooLong ==>
              var d := DeviceAt(ParseLines(Scan(mountInfo.value).lines), path);
              device == if d == "" then None else Some(d)
  {
    if mountInfo.None? {
      return None;
    }
    var entries, tooLong := ParseMountInfo(mountInfo.value);
    if tooLong {
      return None;
    }
    var best := MountInfoEntry("", "", "", "", false);
    for i := 0 to |entries|
      invariant best.mountPoint == path || best.mountPoint == ""
      invariant best.device == DeviceAt(entries[..i], path)
    {
      var e := entries[i];
      assert entries[..i + 1][..i] == entries[..i];
      if e.mountPoint == path && |e.mountPoint| >= |best.mountPoint| {
        best := e;
      }
    }
    assert entries[..|entries|] == entries;
    device := if best.device == "" then None else Some(best.device);
  }

  // ---- kubelet publish paths ---------------------------------------------------------------------

  predicate IsFuseFS(fstype: string) {
    "fuse" <= fstype && fstype != "fusectl"
  }

  predicate Contains(s: string, t: string) {
    t <= s || (s != "" && Contains(s[1..], t))
  }

  function StripSlashes(path: string): string {
    if path != "" && path[|path| - 1] == '/' then StripSlashes(path[..|path| - 1]) else path
  }

  /** filepath.Base */
  function Base(path: string): string {
    if path == "" then "."
    else
      var stripped := StripSlashes(path);
      if stripped == "" then "/"
      else
        var parts := Split(stripped, '/');
        parts[|parts| - 1]
  }

  /** The part after the first one called "pods" that is not the last. */
  function PodUID(parts: seq<string>): string {
    if |parts| < 2 then ""
    else if parts[0] == "pods" then parts[1]
    else PodUID(parts[1..])
  }

  method ExtractPodUID(publishPath: string) returns (uid: string)
    ensures uid == PodUID(Split(publishPath, '/'))
  {
    var parts := Split(publishPath, '/');
    for i := 0 to |parts|
      invariant PodUID(parts[i..]) == PodUID(parts)
    {
      if parts[i] == "pods" && i + 1 < |parts| {
        return parts[i + 1];
      }
      assert parts[i..][1..] == parts[i + 1..];
    }
    uid := "";
  }

  const CSI_DIRECTORY := "/" + "volumes/kubernetes.io~csi/"

  predicate IsCSIPublishPath(path: string) {
    Base(path) == "mount" && PodUID(Split(path, '/')) != "" && Contains(path, CSI_DIRECTORY)
  }

  predicate Selected(e: MountInfoEntry, device: string, stagingPath: string) {
    e.device == device && IsFuseFS(e.fstype) && e.mountPoint != stagingPath && IsCSIPublishPath(e.mountPoint)
  }

  function Filtered(entries: seq<MountInfoEntry>, device: string, stagingPath: string): map<string, bool> {
    if entries == [] then map[]
    else
      var e, before := entries[|entries| - 1], Filtered(entries[..|entries| - 1], device, stagingPath);
      if Selected(e, device, stagingPath) then before[e.mountPoint := e.readOnly] else before
  }

  method FilterPublishPaths(entries: seq<MountInfoEntry>, device: string, stagingPath: string) returns (paths: map<string, bool>)
    ensures paths == Filtered(entries, device, stagingPath)
  {
    paths := map[];
    for i := 0 to |entries|
      invariant paths == Filtered(entries[..i], device, stagingPath)
    {
      var e := entries[i];
      assert entries[..i + 1][..i] == entries[..i];
      if e.device != device || !IsFuseFS(e.fstype) {
        continue;
      }
      if e.mountPoint == stagingPath || !IsCSIPublishPath(e.mountPoint) {
        continue;
      }
      paths := paths[e.mountPoint := e.readOnly];
    }
    assert entries[..|entries|] == entries;
  }

  // ---- what is selected --------------------------------------------------------------------------

  ghost predicate OneMountPerPath(entries: seq<MountInfoEntry>) {
    forall i, j :: 0 <= i < j < |entries| ==> entries[i].mountPoint != entries[j].mountPoint
  }

  predicate Maps(paths: map<string, bool>, path: string, readOnly: bool) {
    path in paths && paths[path] == readOnly
  }

  /** Entry `i` is selected and for `path`, and no later one is. */
  ghost predicate LastSelected(entries: seq<MountInfoEntry>, device: string, stagingPath: string, path: string, i: int) {
    && 0 <= i < |entries| && Selected(entries[i], device, stagingPath) && entries[i].mountPoint == path
    && forall j :: i < j < |entries| && entries[j].mountPoint == path ==> !Selected(entries[j], device, stagingPath)
  }

  lemma LastSelectedBefore(entries: seq<MountInfoEntry>, device: string, stagingPath: string, path: string, i: int)
    requires entries != [] && !(Selected(entries[|entries| - 1], device, stagingPath) && entries[|entries| - 1].mountPoint == path)
    ensures LastSelected(entries, device, stagingPath, path, i) <==> LastSelected(entries[..|entries| - 1], device, stagingPath, path, i)
  {
    assert forall j :: 0 <= j < |entries| - 1 ==> entries[..|entries| - 1][j] == entries[j];
  }

  /** Exactly the paths of selected mounts come out, each with the flag of the last. */
  lemma {:induction false} FilteredIff(entries: seq<MountInfoEntry>, device: string, stagingPath: string, path: string, readOnly: bool)
    ensures Maps(Filtered(entries, device, stagingPath), path, readOnly) <==>
            exists i :: LastSelected(entries, device, stagingPath, path, i) && entries[i].readOnly == readOnly
  {
    if entries != [] {
      var n := |entries| - 1;
      FilteredIff(entries[..n], device, stagingPath, path, readOnly);
      if Selected(entries[n], device, stagingPath) && entries[n].mountPoint == path {
        assert LastSelected(entries, device, stagingPath, path, n);
      } else {
        forall i ensures LastSelected(entries, device, stagingPath, path, i) <==> LastSelected(entries[..n], device, stagingPath, path, i) {
          LastSelectedBefore(entries, device, stagingPath, path, i);
        }
        assert forall i :: 0 <= i < n ==> entries[..n][i] == entries[i];
      }
    }
  }

  /** The device is that of the last entry for the path, and empty if there is none. */
  lemma {:induction false} DeviceOfLast(entries: seq<MountInfoEntry>, path: string)
    ensures forall i :: 0 <= i < |entries| && entries[i].mountPoint == path && (forall j :: i < j < |entries| ==> entries[j].mountPoint != path) ==>
              DeviceAt(entries, path) == entries[i].device
    ensures (forall i :: 0 <= i < |entries| ==> entries[i].mountPoint != path) ==> DeviceAt(entries, path) == ""
  {
    if entries != [] {
      var n := |entries| - 1;
      DeviceOfLast(entries[..n], path);
      assert forall i :: 0 <= i < n ==> entries[..n][i] == entries[i];
    }
  }

  lemma {:induction false} ContainsMiddle(a: string, t: string, b: string)
    ensures Contains(a + t + b, t)
  {
    if a == "" {
      assert a + t + b == t + b;
    } else {
      ContainsMiddle(a[1..], t, b);
      assert (a + t + b)[1..] == a[1..] + t + b;
    }
  }

  lemma {:induction false} PodUIDAfter(before: seq<string>, uid: string, after: seq<string>)
    requires "pods" !in before
    ensures PodUID(before + ["pods", uid] + after) == uid
  {
    var parts := before + ["pods", uid] + after;
    if before != [] {
      PodUIDAfter(before[1..], uid, after);
      assert parts[1..] == before[1..] + ["pods", uid] + after;
    }
  }

  lemma BaseOfChild(directory: string, name: string)
    requires name != "" && '/' !in name
    ensures Base(directory + "/" + name) == name
  {
    var path := directory + "/" + name;
    assert path[|path| - 1] == name[|name| - 1];
    SplitAppend(directory, '/', name);
    FindNone(name, '/');
  }

  lemma PodOfPath(kubelet: string, uid: string, rest: string)
    requires "pods" !in Split(kubelet, '/') && '/' !in uid
    ensures PodUID(Split(kubelet + "/" + "pods" + "/" + uid + "/" + rest, '/')) == uid
  {
    var pods := kubelet + "/" + "pods";
    var pod := pods + "/" + uid;
    SplitAppend(pod, '/', rest);
    SplitAppend(pods, '/', uid);
    SplitAppend(kubelet, '/', "pods");
    FindNone(uid, '/');
    FindNone("pods", '/');
    PodUIDAfter(Split(kubelet, '/'), uid, Split(rest, '/'));
    Pair(Split(kubelet, '/'), "pods", uid);
  }

  lemma Pair(before: seq<string>, a: string, b: string)
    ensures before + [a] + [b] == before + [a, b]
  {
  }

  /** The publish target kubelet uses for a volume of a pod. */
  function KubeletTarget(kubelet: string, uid: string, volume: string): string {
    kubelet + "/" + "pods" + "/" + uid + CSI_DIRECTORY + volume + "/" + "mount"
  }

  predicate IsTargetOf(path: string, kubelet: string, uid: string, volume: string) {
    "pods" !in Split(kubelet, '/') && uid != "" && '/' !in uid && path == KubeletTarget(kubelet, uid, volume)
  }

  ghost predicate IsKubeletTarget(path: string) {
    exists kubelet, uid, volume :: IsTargetOf(path, kubelet, uid, volume)
  }

  /** It is recognised, and the pod with it. */
  lemma KubeletTargetIsPublishPath(kubelet: string, uid: string, volume: string)
    requires "pods" !in Split(kubelet, '/') && uid != "" && '/' !in uid
    ensures IsCSIPublishPath(KubeletTarget(kubelet, uid, volume))
    ensures PodUID(Split(KubeletTarget(kubelet, uid, volume), '/')) == uid
  {
    var pod := kubelet + "/" + "pods" + "/" + uid;
    var csi := "volumes/kubernetes.io~csi/";
    BaseOfChild(pod + CSI_DIRECTORY + volume, "mount");
    ContainsMiddle(pod, CSI_DIRECTORY, volume + "/" + "mount");
    PodOfPath(kubelet, uid, csi + volume + "/" + "mount");
    Regroup(pod, CSI_DIRECTORY, volume, "/", "mount");
    RegroupFirst(pod, "/", csi, volume, "/", "mount");
  }

  lemma RegroupFirst(a: string, b: string, c: string, d: string, e: string, f: string)
    ensures a + (b + c) + d + e + f == a + b + (c + d + e + f)
  {
  }

  /** The last part of the path is not "mount", as in every staging path. */
  ghost predicate NamedOtherwise(path: string) {
    exists directory, name :: IsNamed(path, directory, name) && name != "mount"
  }

  predicate IsNamed(path: string, directory: string, name: string) {
    path == directory + "/" + name && name != "" && '/' !in name
  }

  /** Such a path is not recognised. */
  lemma OtherNamesAreNotPublishPaths(path: string)
    requires NamedOtherwise(path)
    ensures !IsCSIPublishPath(path) && !IsKubeletTarget(path)
  {
    var directory, name :| IsNamed(path, directory, name) && name != "mount";
    BaseOfChild(directory, name);
    if IsKubeletTarget(path) {
      TargetsAreRecognised(path);
    }
  }

  lemma TargetsAreRecognised(path: string)
    requires IsKubeletTarget(path)
    ensures IsCSIPublishPath(path)
  {
    var kubelet, uid, volume :| IsTargetOf(path, kubelet, uid, volume);
    KubeletTargetIsPublishPath(kubelet, uid, volume);
  }

  predicate IsAt(s: string, t: string, i: int) {
    0 <= i <= |s| - |t| && s[i..i + |t|] == t
  }

  /** `t` is somewhere in `s`. */
  lemma ContainsIff(s: string, t: string)
    ensures Contains(s, t) <==> exists i :: IsAt(s, t, i)
  {
    if Contains(s, t) {
      var i := PlaceOf(s, t);
    }
    forall i | IsAt(s, t, i) ensures Contains(s, t) {
      assert s == s[..i] + t + s[i + |t|..];
      ContainsMiddle(s[..i], t, s[i + |t|..]);
    }
  }

  lemma {:induction false} PlaceOf(s: string, t: string) returns (i: nat)
    requires Contains(s, t)
    ensures IsAt(s, t, i)
  {
    if t <= s {
      i := 0;
    } else {
      var j := PlaceOf(s[1..], t);
      i := j + 1;
      assert s[1..][j..j + |t|] == s[i..i + |t|];
    }
  }

  /** Part `i` is called "pods", as no part before it is, and `uid` comes next. */
  predicate IsPodAt(parts: seq<string>, uid: string, i: int) {
    0 <= i < |parts| - 1 && parts[i] == "pods" && parts[i + 1] == uid && "pods" !in parts[..i]
  }

  lemma PodFurtherOn(parts: seq<string>, uid: string, i: int)
    requires parts != [] && parts[0] != "pods"
    ensures IsPodAt(parts, uid, i) <==> IsPodAt(parts[1..], uid, i - 1)
  {
    if 0 < i < |parts| - 1 {
      assert parts[..i] == [parts[0]] + parts[1..][..i - 1];
    }
  }

  lemma PodAtOnce(parts: seq<string>, uid: string, i: int)
    requires |parts| >= 2 && parts[0] == "pods"
    ensures IsPodAt(parts, uid, i) <==> i == 0 && uid == parts[1]
  {
    if 0 < i < |parts| {
      assert parts[..i][0] == "pods";
    }
  }

  lemma {:induction false} PodUIDIff(parts: seq<string>, uid: string)
    requires uid != ""
    ensures PodUID(parts) == uid <==> exists i :: IsPodAt(parts, uid, i)
  {
    if |parts| >= 2 {
      if parts[0] == "pods" {
        PodAtOnce(parts, uid, 0);
        forall i | IsPodAt(parts, uid, i) ensures uid == parts[1] {
          PodAtOnce(parts, uid, i);
        }
      } else {
        PodUIDIff(parts[1..], uid);
        forall i ensures IsPodAt(parts, uid, i) <==> IsPodAt(parts[1..], uid, i - 1) {
          PodFurtherOn(parts, uid, i);
        }
        forall i | IsPodAt(parts[1..], uid, i) ensures IsPodAt(parts, uid, i + 1) {
          PodFurtherOn(parts, uid, i + 1);
        }
      }
    }
  }

  lemma NamesAPodIff(parts: seq<string>)
    ensures PodUID(parts) != "" <==> exists uid, i :: uid != "" && IsPodAt(parts, uid, i)
  {
    if PodUID(parts) != "" {
      PodUIDIff(parts, PodUID(parts));
    }
    forall uid, i | uid != "" && IsPodAt(parts, uid, i) ensures PodUID(parts) == uid {
      PodUIDIff(parts, uid);
    }
  }

  /** Exactly the paths called "mount", somewhere under the directory of CSI volumes, that name a pod. */
  lemma PublishPathIff(path: string, directory: string, name: string)
    requires IsNamed(path, directory, name)
    ensures IsCSIPublishPath(path) <==>
              && name == "mount" && (exists i :: IsAt(path, "/" + "volumes/kubernetes.io~csi/", i))
              && (exists uid, i :: uid != "" && IsPodAt(Split(path, '/'), uid, i))
  {
    BaseOfChild(directory, name);
    assert CSI_DIRECTORY == "/" + "volumes/kubernetes.io~csi/";
    ContainsIff(path, "/" + "volumes/kubernetes.io~csi/");
    NamesAPodIff(Split(path, '/'));
    assert IsCSIPublishPath(path) <==> name == "mount" && PodUID(Split(path, '/')) != "" && Contains(path, CSI_DIRECTORY);
  }

  // ---- what the restart finds --------------------------------------------------------------------

  /** What the kernel shows of a weed session: the type "fuse", or "fuse" with a subtype. */
  predicate IsSessionType(fstype: string) {
    fstype == "fuse" || "fuse." <= fstype
  }

  lemma SessionTypeIsFuse(fstype: string)
    requires IsSessionType(fstype)
    ensures IsFuseFS(fstype)
  {
    if "fuse." <= fstype {
      assert fstype[4] == '.' && "fusectl"[4] == 'c';
      assert fstype[..4] == "fuse";
    }
  }

  /** A bind of a session at a kubelet target is found by the device of the session, with its flag. */
  lemma KubeletBindIsFound(entries: seq<MountInfoEntry>, i: nat, stagingPath: string)
    requires OneMountPerPath(entries) && i < |entries| && IsSessionType(entries[i].fstype)
    requires IsKubeletTarget(entries[i].mountPoint) && entries[i].mountPoint != stagingPath
    ensures Maps(Filtered(entries, entries[i].device, stagingPath), entries[i].mountPoint, entries[i].readOnly)
  {
    TargetsAreRecognised(entries[i].mountPoint);
    SessionTypeIsFuse(entries[i].fstype);
    FilteredIff(entries, entries[i].device, stagingPath, entries[i].mountPoint, entries[i].readOnly);
    assert LastSelected(entries, entries[i].device, stagingPath, entries[i].mountPoint, i);
  }

  /** Nothing is found that has another device, has another type, is the staging path, or is called
      otherwise; the control file system of FUSE has another type. */
  lemma OthersAreNotFound(entries: seq<MountInfoEntry>, i: nat, device: string, stagingPath: string)
    requires OneMountPerPath(entries) && i < |entries|
    requires
      || entries[i].device != device
      || entries[i].fstype == "fusectl" || !("fuse" <= entries[i].fstype)
      || entries[i].mountPoint == stagingPath || NamedOtherwise(entries[i].mountPoint)
    ensures entries[i].mountPoint !in Filtered(entries, device, stagingPath)
  {
    var path := entries[i].mountPoint;
    if NamedOtherwise(path) {
      OtherNamesAreNotPublishPaths(path);
    }
    FilteredIff(entries, device, stagingPath, path, true);
    FilteredIff(entries, device, stagingPath, path, false);
    assert forall j :: 0 <= j < |entries| && entries[j].mountPoint == path ==> j == i;
  }
}
