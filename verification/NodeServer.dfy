/** The node plugin: the CSI calls that stage, publish, unpublish and unstage a volume. Calls about one
    volume do not overlap; the mount service, weed processes and everything about other volumes go
    on all the time. */
module NodeServers {
  import opened Wrappers
  import opened MountMachine
  import opened MountSafety
  import opened MountRely
  import opened MountManager
  import opened MountUtil
  import opened Volumes
  import RB = RecoveryBackoff
  import VA = VolumeAttributes

  type Publishes = map<Path, bool>  // publish path to read-only flag

  // ---- the history of successful calls -----------------------------------------------------------

  /** A call that has succeeded, or a restart that has found the publish paths `found`. */
  datatype Event =
    | Published(vol: Vol, path: Path, readOnly: bool)
    | Unpublished(vol: Vol, path: Path)
    | Unstaged(vol: Vol)
    | Restarted(found: map<Vol, map<Path, bool>>)

  function After(before: Publishes, e: Event, v: Vol): Publishes {
    match e
    case Published(w, path, readOnly) => if w == v then before[path := readOnly] else before
    case Unpublished(w, path) => if w == v then before - {path} else before
    case Unstaged(w) => if w == v then map[] else before
    case Restarted(found) => if v in found then found[v] else map[]
  }

  /** The publish paths of `v` that the events so far add up to. */
  function Replay(history: seq<Event>, v: Vol): Publishes {
    if history == [] then map[]
    else After(Replay(history[..|history| - 1], v), history[|history| - 1], v)
  }

  lemma ReplayAppend(history: seq<Event>, e: Event, v: Vol)
    ensures Replay(history + [e], v) == After(Replay(history, v), e, v)
  {
    assert (history + [e])[..|history|] == history;
  }

  /** The event decides whether `path` is tracked for `v`. */
  predicate About(e: Event, v: Vol, path: Path) {
    match e
    case Published(w, y, _) => w == v && y == path
    case Unpublished(w, y) => w == v && y == path
    case Unstaged(w) => w == v
    case Restarted(_) => true
  }

  /** The event published `path` with this flag, or found it published so. */
  predicate Gives(e: Event, v: Vol, path: Path, readOnly: bool) {
    || e == Published(v, path, readOnly)
    || (e.Restarted? && v in e.found && path in e.found[v] && e.found[v][path] == readOnly)
  }

  /** `path` was given this flag by an event after which no other was about it. */
  ghost predicate LastGiven(history: seq<Event>, v: Vol, path: Path, readOnly: bool) {
    exists i :: 0 <= i < |history| && Gives(history[i], v, path, readOnly)
                && forall j :: i < j < |history| ==> !About(history[j], v, path)
  }

  lemma LastGivenStays(history: seq<Event>, e: Event, v: Vol, path: Path, readOnly: bool)
    requires !About(e, v, path)
    ensures LastGiven(history + [e], v, path, readOnly) <==> LastGiven(history, v, path, readOnly)
  {
    var longer := history + [e];
    assert forall i :: 0 <= i < |history| ==> longer[i] == history[i];
    if LastGiven(history, v, path, readOnly) {
      var i :| 0 <= i < |history| && Gives(history[i], v, path, readOnly) && forall j :: i < j < |history| ==> !About(history[j], v, path);
      assert Gives(longer[i], v, path, readOnly);
    }
    if LastGiven(longer, v, path, readOnly) {
      var i :| 0 <= i < |longer| && Gives(longer[i], v, path, readOnly) && forall j :: i < j < |longer| ==> !About(longer[j], v, path);
      assert Gives(history[i], v, path, readOnly);
    }
  }

  /** What the history dictates: a path is tracked with a flag exactly if the last event that was about it
      published it with that flag, or found it published so. */
  lemma {:induction false} ReplayIff(history: seq<Event>, v: Vol, path: Path, readOnly: bool)
    ensures (path in Replay(history, v) && Replay(history, v)[path] == readOnly) <==> LastGiven(history, v, path, readOnly)
  {
    if history != [] {
      var n := |history| - 1;
      ReplayIff(history[..n], v, path, readOnly);
      if About(history[n], v, path) {
        assert Gives(history[n], v, path, readOnly) ==> LastGiven(history, v, path, readOnly);
      } else {
        LastGivenStays(history[..n], history[n], v, path, readOnly);
        assert history == history[..n] + [history[n]];
      }
    }
  }

  // ---- the node plugin ---------------------------------------------------------------------------

  lemma FreeTarget(s: State, target: Path)
    ensures target !in s.table ==> s.(table := s.table - {target}) == s
  {
    if target !in s.table {
      assert s.table - {target} == s.table;
    }
  }

  predicate StagedAt(vol: Volume, x: Path, readOnly: bool)
    reads vol
  {
    vol.stagedPath == x && vol.publishPaths == map[] && vol.readOnly == readOnly
  }

  /** The volume has the context of the request if its mount has been adopted, and else the one staged from
      it. */
  ghost predicate ContextTaken(vol: Volume, context: Option<Context>, staging: VA.Staging)
    reads vol`hasUnmounter, vol`volContext
  {
    if vol.hasUnmounter then StagedWith(context, staging, vol.volContext) else vol.volContext == context
  }

  /** How a volume was taken up between `a` and `b`: without an unmounter, its mount worked and nothing
      has been touched; with one, the mount service has been asked to mount the context staged from the
      request and has answered `r`, a success. */
  ghost predicate TakenUp(owner: Owner, a: State, b: State, vol: Volume, context: Option<Context>, staging: VA.Staging, r: MountResult)
    reads vol
  {
    && ContextTaken(vol, context, staging)
    && if !vol.hasUnmounter then
         b == a && Working(b, vol.stagedPath)
       else
         && !r.MountFailed?
         && Asked(owner, a, b, RequestFor(vol.volumeId, vol.stagedPath, vol.volContext.value, vol.readOnly), r)
  }

  /** Taking the volume up has to succeed if nothing fails: there is a working mount to adopt, or there is no
      live entry in the way of a new one and the parameters are not refused. */
  predicate CanTakeUp(s: State, v: Vol, x: Path, hung: bool, context: Option<Context>, staging: VA.Staging) {
    v != "" && x != "" && ((Working(s, x) && !hung) || (!LiveEntry(s, v) && VA.StageContext(Given(context), staging).Context?))
  }

  /** A volume the plugin does not know: a mount that works is adopted as it is, anything else is
      cleaned up (by NodeStageVolume only if there is something to clean up) and staged anew. */
  method AdoptOrStage(host: Host, v: Vol, x: Path, context: Option<Context>, staging: VA.Staging, readOnly: bool, statFirst: bool)
      returns (vol: Volume?, r: MountResult)
    requires host.Quiet(v) && Stages(host.owner, v, x)
    modifies host`m, host`remote, host`quota
    ensures host.Quiet(v) && host.remote == old(host.remote) && OnlyAt(host.owner, v, x, old(host.m), host.m)
    ensures vol != null ==> fresh(vol) && vol.volumeId == v && StagedAt(vol, x, readOnly)
    ensures vol != null ==> TakenUp(host.owner, old(host.m), host.m, vol, context, staging, r)
    ensures vol != null && vol.hasUnmounter ==> QuotaIs(host.quota, v, VA.CapacityOf(Given(context), staging))
    ensures host.reliable && Working(old(host.m), x) && x !in host.hung ==> vol != null && !vol.hasUnmounter
    ensures vol != null && !vol.hasUnmounter ==> x !in host.hung
    ensures host.reliable && vol != null && vol.hasUnmounter && !r.Started? ==> x !in host.m.table
    ensures host.Ideal() && CanTakeUp(old(host.m), v, x, x in host.hung, context, staging) ==> vol != null && (vol.hasUnmounter ==> IsUp(host.m, r))
  {
    OnlyAtRefl(host.owner, v, x, host.m);
    r := MountFailed;
    var healthy := IsStagingPathHealthy(host, x);
    if healthy {
      vol := new Volume.Rebuilt(v, x, context, readOnly);
      return;
    }
    var cleaned := CleanIfStale(host, v, x, statFirst);
    ghost var s1 := host.m;
    vol := null;
    OnlyAtRefl(host.owner, v, x, s1);
    if cleaned {
      NoLiveEntryStays(host.owner, v, {x}, old(host.m), s1);
      vol, r := StageNewVolume(host, v, x, context, staging, readOnly);
      if vol != null {
        AskedSince(host.owner, old(host.m), s1, host.m, RequestFor(v, x, vol.volContext.value, readOnly), r);
      }
    }
    HandledThenOnly(host.owner, v, x, old(host.m), s1, host.m);
  }

  method CleanIfStale(host: Host, v: Vol, x: Path, statFirst: bool) returns (ok: bool)
    requires host.Quiet(v) && host.owner.vol(x) == v
    modifies host`m, host`remote
    ensures host.Quiet(v) && host.remote == old(host.remote) && Handled(host.owner, v, {x}, old(host.m), host.m)
    ensures (ok && (host.reliable || !statFirst) ==> x !in host.m.table) && (host.reliable ==> ok)
  {
    Pause(host, v);
    HandledMore(host.owner, v, {x}, old(host.m), host.m);
    if statFirst {
      var stat := Stat(host, x);
      if !(stat == Exists || stat == NotConnected) {
        return true;
      }
    }
    ghost var s1 := host.m;
    ok := CleanupStaleStagingPath(host, v, x);
    HandledSame(host.owner, v, x, old(host.m), s1, host.m);
  }

  class NodeServer {
    const host: Host
    const backoff: RB.Backoff
    var volumes: map<Vol, Volume>
    ghost var history: seq<Event>

    constructor (host: Host)
      requires host.Valid()
      ensures Valid() && this.host == host && fresh(backoff) && volumes == map[] && history == []
    {
      this.host := host;
      backoff := new RB.Backoff();
      volumes := map[];
      history := [];
    }

    /** The publish paths tracked for `v`. */
    ghost function Tracked(v: Vol): Publishes
      reads this`volumes, volumes.Values
    {
      if v in volumes then volumes[v].publishPaths else map[]
    }

    /** Paths belong to their volume, and the tracked publish paths are what the history says. */
    ghost predicate Consistent()
      reads this, volumes.Values
    {
      && (forall v :: v in volumes ==> volumes[v].volumeId == v && Stages(host.owner, v, volumes[v].stagedPath))
      && (forall v, y :: v in volumes && y in volumes[v].publishPaths ==> host.owner.vol(y) == v)
      && (forall v :: Tracked(v) == Replay(history, v))
    }

    ghost predicate Valid()
      reads this, volumes.Values, host`m
    {
      host.Valid() && Consistent()
    }

    // ---- staging and publishing ------------------------------------------------------------------

    /** A volume nothing is published from takes its place in the map. */
    method Adopt(v: Vol, vol: Volume)
      requires Valid() && Tracked(v) == map[]
      requires vol.volumeId == v && Stages(host.owner, v, vol.stagedPath) && vol.publishPaths == map[]
      modifies this`volumes
      ensures Valid() && volumes == old(volumes)[v := vol]
    {
      volumes := volumes[v := vol];
    }

    /** A volume the plugin does not know is taken up: by NodeStageVolume, or by the self-healing of
        NodePublishVolume. */
    method TakeUp(v: Vol, x: Path, context: Option<Context>, staging: VA.Staging, readOnly: bool, statFirst: bool) returns (ok: bool, r: MountResult)
      requires Valid() && host.Quiet(v) && Stages(host.owner, v, x) && v !in volumes
      modifies this`volumes, host`m, host`remote, host`quota
      ensures Valid() && host.Quiet(v) && host.remote == old(host.remote) && OnlyAt(host.owner, v, x, old(host.m), host.m)
      ensures !ok ==> volumes == old(volumes)
      ensures ok ==> v in volumes && fresh(volumes[v]) && StagedAt(volumes[v], x, readOnly) && volumes == old(volumes)[v := volumes[v]]
      ensures ok ==> TakenUp(host.owner, old(host.m), host.m, volumes[v], context, staging, r)
      ensures ok && volumes[v].hasUnmounter ==> QuotaIs(host.quota, v, VA.CapacityOf(Given(context), staging))
      ensures host.reliable && Working(old(host.m), x) && x !in host.hung ==> ok && !volumes[v].hasUnmounter
      ensures host.reliable && ok && volumes[v].hasUnmounter && !r.Started? ==> x !in host.m.table
      ensures host.Ideal() && CanTakeUp(old(host.m), v, x, x in host.hung, context, staging) ==> ok && (volumes[v].hasUnmounter ==> IsUp(host.m, r))
    {
      var vol;
      vol, r := AdoptOrStage(host, v, x, context, staging, readOnly, statFirst);
      if vol == null {
        return false, r;
      }
      Adopt(v, vol);
      assert volumes[v] == vol;
      ok := true;
    }

    /** NodeStageVolume: one path of the node at most is touched, the staging path. A volume the plugin knows
        counts as staged. If the mount service has a live entry for the path, a mount that has not been adopted
        is taken away, nothing is started, and the answer is a success all the same. */
    method NodeStageVolume(v: Vol, x: Path, context: Option<Context>, staging: VA.Staging, readOnly: bool) returns (ok: bool, r: MountResult)
      requires Valid() && host.Quiet(v) && Stages(host.owner, v, x)
      modifies this`volumes, host`m, host`remote, host`quota
      ensures Valid() && host.Quiet(v) && host.remote == old(host.remote) && OnlyAt(host.owner, v, x, old(host.m), host.m)
      ensures v in old(volumes) || !ok ==> volumes == old(volumes)
      ensures v in old(volumes) || v == "" || x == "" ==> host.m == old(host.m) && (ok <==> v != "" && x != "")
      ensures ok && v !in old(volumes) ==> v in volumes && fresh(volumes[v]) && StagedAt(volumes[v], x, readOnly) && volumes == old(volumes)[v := volumes[v]]
      ensures ok && v !in old(volumes) ==> TakenUp(host.owner, old(host.m), host.m, volumes[v], context, staging, r)
      ensures ok && v !in old(volumes) && volumes[v].hasUnmounter ==> QuotaIs(host.quota, v, VA.CapacityOf(Given(context), staging))
      ensures host.reliable && v != "" && x != "" && v !in old(volumes) && Working(old(host.m), x) && x !in host.hung ==>
                ok && !volumes[v].hasUnmounter
      ensures host.reliable && ok && v !in old(volumes) && volumes[v].hasUnmounter && !r.Started? ==> x !in host.m.table
      ensures host.Ideal() && v !in old(volumes) && CanTakeUp(old(host.m), v, x, x in host.hung, context, staging) ==>
                ok && (volumes[v].hasUnmounter ==> IsUp(host.m, r))
    {
      OnlyAtRefl(host.owner, v, x, host.m);
      r := MountFailed;
      if v == "" || x == "" {
        return false, r;
      }
      if v in volumes {
        return true, r;
      }
      ok, r := TakeUp(v, x, context, staging, readOnly, true);
    }

    /** NodePublishVolume: a volume the plugin does not know is taken up first, and stays so even if the bind
        fails. */
    method NodePublishVolume(v: Vol, x: Path, target: Path, context: Option<Context>, staging: VA.Staging, volumeReadOnly: bool, readOnly: bool)
        returns (ok: bool)
      requires Valid() && host.Quiet(v) && Stages(host.owner, v, x) && host.owner.vol(target) == v
      modifies this, host`m, host`remote, host`quota, (if v in volumes then {volumes[v]} else {})`publishPaths
      ensures Valid() && host.Quiet(v) && host.remote == old(host.remote)
      ensures v in old(volumes) || v !in volumes ==> volumes == old(volumes)
      ensures v !in volumes ==> !ok
      ensures v !in old(volumes) && v in volumes ==>
                fresh(volumes[v]) && volumes == old(volumes)[v := volumes[v]]
                && volumes[v].stagedPath == x && volumes[v].readOnly == volumeReadOnly && ContextTaken(volumes[v], context, staging)
      ensures history == if ok then old(history) + [Published(v, target, readOnly)] else old(history)
      ensures ok ==> target in host.m.table
      ensures host.reliable && v in old(volumes) && v != "" && x != "" && target != "" ==> ok
      ensures host.reliable && Working(old(host.m), x) && x !in host.hung && v != "" && x != "" && target != "" ==> ok
      ensures host.Ideal() && CanTakeUp(old(host.m), v, x, x in host.hung, context, staging) && target != "" ==> ok
      ensures ok && v in old(volumes) && target !in old(host.m).table ==>
                host.m == old(host.m).(table := old(host.m).table[target := Bound(old(host.m), x, readOnly)])
      ensures ok && target != x && target !in old(host.m).table ==>
                target in host.m.table && host.m.table[target] == Bound(host.m, x, readOnly)
    {
      hide Working, LiveEntry, ContextTaken, VA.StageContext, Consistent;
      if v == "" || x == "" || target == "" {
        return false;
      }
      ok := TakeUpIfUnknown(v, x, target, context, staging, volumeReadOnly);
      if ok {
        ok := PublishTracked(v, x, target, readOnly);
      }
    }

    /** The self-healing of NodePublishVolume. */
    method TakeUpIfUnknown(v: Vol, x: Path, ghost target: Path, context: Option<Context>, staging: VA.Staging, readOnly: bool) returns (ok: bool)
      requires Valid() && host.Quiet(v) && Stages(host.owner, v, x) && host.owner.vol(target) == v
      modifies this`volumes, host`m, host`remote, host`quota
      ensures Valid() && host.Quiet(v) && host.remote == old(host.remote)
      ensures ok <==> v in volumes
      ensures v in old(volumes) || !ok ==> volumes == old(volumes)
      ensures v in old(volumes) ==> host.m == old(host.m)
      ensures v !in old(volumes) && ok ==>
                fresh(volumes[v]) && volumes == old(volumes)[v := volumes[v]]
                && volumes[v].stagedPath == x && volumes[v].readOnly == readOnly && ContextTaken(volumes[v], context, staging)
      ensures target != x && target !in old(host.m).table ==> target !in host.m.table
      ensures host.reliable && Working(old(host.m), x) && x !in host.hung ==> ok
      ensures host.Ideal() && CanTakeUp(old(host.m), v, x, x in host.hung, context, staging) ==> ok
    {
      ok := true;
      if v !in volumes {
        ghost var a, r := host.m, MountFailed;
        ok, r := TakeUp(v, x, context, staging, readOnly, false);
        assert target != x ==> PathKept(v, target, a, host.m);
      }
    }

    method PublishTracked(v: Vol, x: Path, target: Path, readOnly: bool) returns (ok: bool)
      requires Valid() && host.Quiet(v) && host.owner.vol(target) == v && v in volumes
      modifies this`history, host`m, {volumes[v]}`publishPaths
      ensures Valid() && host.Quiet(v)
      ensures history == if ok then old(history) + [Published(v, target, readOnly)] else old(history)
      ensures (ok ==> target in host.m.table) && (host.reliable ==> ok)
      ensures ok && target !in old(host.m).table ==>
                host.m == old(host.m).(table := old(host.m).table[target := Bound(old(host.m), x, readOnly)])
    {
      FreeTarget(host.m, target);
      ok := volumes[v].Publish(host, x, target, readOnly);
      if ok {
        volumes[v].AddPublishPath(target, readOnly);
        Append(Published(v, target, readOnly));
      }
    }

    /** Bookkeeping of the specification: the call has succeeded. */
    ghost method Append(e: Event)
      requires host.Valid()
      requires forall v :: v in volumes ==> volumes[v].volumeId == v && Stages(host.owner, v, volumes[v].stagedPath)
      requires forall v, y :: v in volumes && y in volumes[v].publishPaths ==> host.owner.vol(y) == v
      requires forall v :: Tracked(v) == After(Replay(history, v), e, v)
      modifies this`history
      ensures Valid() && history == old(history) + [e]
    {
      forall v ensures Replay(history + [e], v) == Tracked(v) {
        ReplayAppend(history, e, v);
      }
      history := history + [e];
    }

    method NodeUnpublishVolume(v: Vol, target: Path) returns (ok: bool)
      requires Valid() && host.Quiet(v)
      modifies this`history, host`m, (if v in volumes then {volumes[v]} else {})`publishPaths
      ensures Valid() && host.Quiet(v) && Handled(host.owner, v, {target}, old(host.m), host.m)
      ensures history == if ok then old(history) + [Unpublished(v, target)] else old(history)
      ensures ok && (v in old(volumes) || host.reliable) ==> target !in host.m.table
      ensures (host.reliable || v !in volumes) && v != "" && target != "" ==> ok
    {
      HandledRefl(host.owner, v, {target}, host.m);
      if v == "" || target == "" {
        return false;
      }
      if v !in volumes {
        var cleaned := CleanupMountPoint(host, v, target);
        ok := true;
      } else {
        ok := volumes[v].Unpublish(host, target);
        if ok {
          volumes[v].RemovePublishPath(target);
        }
      }
      if ok {
        Append(Unpublished(v, target));
      }
    }

    /** A staging path of a volume the plugin does not know is only cleaned up, as far as that goes. */
    method Release(v: Vol, x: Path) returns (ok: bool)
      requires Valid() && host.Quiet(v) && host.owner.vol(x) == v
      modifies host`m
      ensures Valid() && host.Quiet(v)
      ensures v !in volumes ==> ok && (host.reliable ==> x !in host.m.table)
      ensures ok && v in volumes ==> x !in host.m.table && (volumes[v].hasUnmounter ==> v !in host.m.mounts)
      ensures host.reliable && v in volumes && !volumes[v].hasUnmounter ==> ok
      ensures host.Ideal() && v != "" && v in volumes && volumes[v].hasUnmounter ==> v !in host.m.mounts && (ok <==> x !in host.m.table)
    {
      ok := true;
      if v !in volumes {
        var cleaned := CleanupMountPoint(host, v, x);
      } else {
        ok := volumes[v].Unstage(host, x);
      }
    }

    method NodeUnstageVolume(v: Vol, x: Path) returns (ok: bool)
      requires Valid() && host.Quiet(v) && host.owner.vol(x) == v
      modifies this, host`m, backoff
      ensures Valid() && host.Quiet(v)
      ensures backoff.entries == if ok then old(backoff.entries) - {v} else old(backoff.entries)
      ensures history == if ok then old(history) + [Unstaged(v)] else old(history)
      ensures volumes == if ok then old(volumes) - {v} else old(volumes)
      ensures ok && (v in old(volumes) || host.reliable) ==> x !in host.m.table
      ensures ok && v in old(volumes) && old(volumes[v].hasUnmounter) ==> v !in host.m.mounts
      ensures v != "" && x != "" && v !in old(volumes) ==> ok
      ensures host.reliable && v != "" && x != "" && v in old(volumes) && !old(volumes[v].hasUnmounter) ==> ok
      ensures host.Ideal() && v != "" && x != "" && v in old(volumes) && old(volumes[v].hasUnmounter) ==>
                v !in host.m.mounts && (ok <==> x !in host.m.table)
    {
      if v == "" || x == "" {
        return false;
      }
      ok := Release(v, x);
      if ok {
        Forget(v);
        backoff.ResetRecoveryBackoff(v);
      }
    }

    method Forget(v: Vol)
      requires Valid()
      modifies this
      ensures Valid() && volumes == old(volumes) - {v} && history == old(history) + [Unstaged(v)]
    {
      volumes := volumes - {v};
      Append(Unstaged(v));
    }
  }
}
