/** Whole runs of the node plugin: CSI calls and health checks of any volumes in any order, between
    which the mount service, weed processes and calls about other volumes take any steps. */
module NodeRun {
  import opened Wrappers
  import opened MountMachine
  import opened MountRely
  import opened MountManager
  import opened Volumes
  import opened NodeServers
  import opened HealthMonitor
  import RB = RecoveryBackoff
  import VA = VolumeAttributes

  /** `answers` is what the store and the orchestrator answer if the volume is staged. */
  datatype Job =
    | Stage(vol: Vol, staging: Path, context: Option<Context>, answers: VA.Staging, readOnly: bool)
    | Publish(vol: Vol, staging: Path, target: Path, context: Option<Context>, answers: VA.Staging, volumeReadOnly: bool, readOnly: bool)
    | Unpublish(vol: Vol, target: Path)
    | Unstage(vol: Vol, staging: Path)
    | Check(vol: Vol, now: int, later: int, late: Lateness, answers: VA.Staging)

  /** What a job has done to the map of volumes: nothing new, a working mount has been adopted, a volume has
      been staged, or there was a check with this outcome. */
  datatype Effect = Kept | Adopted | Staged | Checked(outcome: Outcome)

  datatype Report = Report(job: Job, ok: bool, effect: Effect)

  type Trace = seq<Report>

  /** Kubelet names paths of the volume only, and the clock does not go back. */
  predicate Owned(owner: Owner, job: Job) {
    && (job.Stage? || job.Publish? || job.Unstage? ==> Stages(owner, job.vol, job.staging))
    && (job.Publish? ==> owner.vol(job.target) == job.vol)
    && (job.Check? ==> job.now <= job.later)
  }

  // ---- what a run adds up to ---------------------------------------------------------------------

  /** The event of a call that has succeeded; the health monitor causes none. */
  function Success(job: Job): seq<Event> {
    match job
    case Publish(v, _, target, _, _, _, readOnly) => [Published(v, target, readOnly)]
    case Unpublish(v, target) => [Unpublished(v, target)]
    case Unstage(v, _) => [Unstaged(v)]
    case _ => []
  }

  function Successes(trace: Trace): seq<Event> {
    if trace == [] then []
    else
      var last := trace[|trace| - 1];
      Successes(trace[..|trace| - 1]) + if last.ok then Success(last.job) else []
  }

  /** The times at which recoveries of a volume have been attempted since it was last found healthy or
      unstaged. */
  function AttemptsAfter(before: seq<RB.Time>, done: Report, v: Vol): seq<RB.Time> {
    if done.job.vol != v then before
    else if done.job.Check? && done.effect.Checked? then
      if IsAttempt(done.effect.outcome) then before + [done.job.later]
      else if done.effect.outcome.Healthy? then [] else before
    else if done.job.Unstage? && done.ok then [] else before
  }

  function Attempts(trace: Trace, v: Vol): seq<RB.Time> {
    if trace == [] then []
    else AttemptsAfter(Attempts(trace[..|trace| - 1], v), trace[|trace| - 1], v)
  }

  /** Where the context of a volume comes from: what it was first staged from or adopted with, and what the
      store and the orchestrator have answered at every staging since. */
  datatype Origin = Origin(context: Option<Context>, stagings: seq<VA.Staging>)

  function OriginAfter(before: Option<Origin>, done: Report, v: Vol): Option<Origin> {
    if done.job.vol != v then before
    else match done.effect
         case Kept => if done.job.Unstage? && done.ok then None else before
         case Adopted => if done.job.Stage? || done.job.Publish? then Some(Origin(done.job.context, [])) else before
         case Staged => if done.job.Stage? || done.job.Publish? then Some(Origin(Some(Given(done.job.context)), [done.job.answers])) else before
         case Checked(outcome) =>
           if done.job.Check? && Replaced(outcome) && before.Some?
           then Some(Origin(before.value.context, before.value.stagings + [done.job.answers])) else before
  }

  function OriginOf(start: map<Vol, Option<Context>>, trace: Trace, v: Vol): Option<Origin> {
    if trace == [] then if v in start then Some(Origin(start[v], [])) else None
    else OriginAfter(OriginOf(start, trace[..|trace| - 1], v), trace[|trace| - 1], v)
  }

  lemma OneMore(start: map<Vol, Option<Context>>, trace: Trace, done: Report)
    ensures Successes(trace + [done]) == Successes(trace) + if done.ok then Success(done.job) else []
    ensures forall v :: Attempts(trace + [done], v) == AttemptsAfter(Attempts(trace, v), done, v)
    ensures forall v :: OriginOf(start, trace + [done], v) == OriginAfter(OriginOf(start, trace, v), done, v)
  {
    assert (trace + [done])[..|trace|] == trace;
  }

  /** None of the stagings was refused, and the context is what they have made of the first one. */
  ghost predicate From(context: Option<Context>, origin: Origin) {
    if origin.context.None? then context.None? && origin.stagings == []
    else
      && context == Some(VA.Restages(origin.context.value, origin.stagings))
      && forall i :: 0 <= i < |origin.stagings| ==>
           VA.StageContext(VA.Restages(origin.context.value, origin.stagings[..i]), origin.stagings[i]).Context?
  }

  lemma FromOneMore(context: Context, origin: Origin, answers: VA.Staging)
    requires From(Some(context), origin) && VA.StageContext(context, answers).Context?
    ensures From(Some(VA.StageContext(context, answers).context), Origin(origin.context, origin.stagings + [answers]))
  {
    var longer := origin.stagings + [answers];
    assert longer[..|origin.stagings|] == origin.stagings;
    forall i | 0 <= i < |longer| ensures VA.StageContext(VA.Restages(origin.context.value, longer[..i]), longer[i]).Context? {
      if i < |origin.stagings| {
        assert longer[..i] == origin.stagings[..i];
      }
    }
  }

  lemma FromItself(context: Option<Context>)
    ensures From(context, Origin(context, []))
  {
  }

  /** The contexts of the volumes are those of their origins. */
  ghost predicate AllFrom(contexts: map<Vol, Option<Context>>, start: map<Vol, Option<Context>>, trace: Trace) {
    forall v :: (v in contexts <==> OriginOf(start, trace, v).Some?) && (v in contexts ==> From(contexts[v], OriginOf(start, trace, v).value))
  }

  /** What `done` has done to the contexts. */
  ghost predicate ContextStep(before: map<Vol, Option<Context>>, after: map<Vol, Option<Context>>, done: Report) {
    var v := done.job.vol;
    && before - {v} == after - {v}
    && match done.effect
       case Kept => if done.job.Unstage? && done.ok then v !in after else before == after
       case Adopted => (done.job.Stage? || done.job.Publish?) && v in after && after[v] == done.job.context
       case Staged => (done.job.Stage? || done.job.Publish?) && v in after && StagedWith(done.job.context, done.job.answers, after[v])
       case Checked(outcome) =>
         && done.job.Check?
         && if Replaced(outcome) then v in before && before[v].Some? && v in after && StagedWith(before[v], done.job.answers, after[v])
            else before == after
  }

  lemma ElsewhereSame(before: map<Vol, Option<Context>>, after: map<Vol, Option<Context>>, v: Vol, w: Vol)
    requires before - {v} == after - {v} && w != v
    ensures (w in before <==> w in after) && (w in before ==> before[w] == after[w])
  {
    assert w in before <==> w in before - {v};
    assert w in after <==> w in after - {v};
  }

  lemma AllFromOneMore(before: map<Vol, Option<Context>>, after: map<Vol, Option<Context>>, start: map<Vol, Option<Context>>, trace: Trace, done: Report)
    requires AllFrom(before, start, trace) && ContextStep(before, after, done)
    ensures AllFrom(after, start, trace + [done])
  {
    OneMore(start, trace, done);
    var v := done.job.vol;
    forall w ensures (w in after <==> OriginOf(start, trace + [done], w).Some?) && (w in after ==> From(after[w], OriginOf(start, trace + [done], w).value)) {
      if w != v {
        ElsewhereSame(before, after, v, w);
      } else if done.effect.Adopted? {
        FromItself(done.job.context);
      } else if done.effect.Staged? {
        var given := Given(done.job.context);
        FromItself(Some(given));
        FromOneMore(given, Origin(Some(given), []), done.job.answers);
        assert [] + [done.job.answers] == [done.job.answers];
      } else if done.effect.Checked? && Replaced(done.effect.outcome) {
        FromOneMore(before[v].value, OriginOf(start, trace, v).value, done.job.answers);
      }
    }
  }

  /** What `done` has done to the throttle. */
  ghost predicate ThrottleStep(before: RB.Throttle, after: RB.Throttle, done: Report) {
    var v := done.job.vol;
    if done.job.Check? && done.effect.Checked? then
      if IsAttempt(done.effect.outcome) then
        Counted(before, after, v, done.job.later) && (v in before ==> before[v].notBefore <= done.job.now <= done.job.later)
      else after == if done.effect.outcome.Healthy? then before - {v} else before
    else after == if done.job.Unstage? && done.ok then before - {v} else before
  }

  /** The attempts are spaced by the doubling waits, and the wait after the last is not over before its end. */
  ghost predicate Paced(entries: RB.Throttle, v: Vol, times: seq<RB.Time>) {
    && RB.Spaced(times)
    && (times != [] ==> v in entries && entries[v].attempts >= |times| && entries[v].notBefore >= times[|times| - 1] + RB.Wait(|times|))
  }

  lemma PacedOneMore(before: RB.Throttle, after: RB.Throttle, trace: Trace, done: Report, v: Vol)
    requires Paced(before, v, Attempts(trace, v)) && ThrottleStep(before, after, done)
    ensures Paced(after, v, AttemptsAfter(Attempts(trace, v), done, v))
  {
    var times := Attempts(trace, v);
    if done.job.vol != v {
      assert v in before <==> v in before - {done.job.vol};
      assert v in after <==> v in after - {done.job.vol};
    } else if done.job.Check? && done.effect.Checked? && IsAttempt(done.effect.outcome) {
      RB.WaitGrows(|times| + 1, after[v].attempts);
    }
  }

  // ---- one job -----------------------------------------------------------------------------------

  ghost function ContextsOf(volumes: map<Vol, Volume>): map<Vol, Option<Context>>
    reads volumes.Values`volContext
  {
    map v | v in volumes :: volumes[v].volContext
  }

  lemma ContextsWith(volumes: map<Vol, Volume>, v: Vol, vol: Volume)
    ensures ContextsOf(volumes[v := vol]) == ContextsOf(volumes)[v := vol.volContext]
  {
  }

  lemma ContextsWithout(volumes: map<Vol, Volume>, v: Vol)
    ensures ContextsOf(volumes - {v}) == ContextsOf(volumes) - {v}
  {
  }

  lemma OneContext(before: map<Vol, Option<Context>>, v: Vol, context: Option<Context>)
    ensures before[v := context] - {v} == before - {v}
  {
  }

  method Do(ns: NodeServer, job: Job) returns (done: Report)
    requires ns.Valid() && ns.host.Quiet(job.vol) && Owned(ns.host.owner, job)
    modifies ns, ns.host, ns.backoff, (if job.vol in ns.volumes then {ns.volumes[job.vol]} else {})`publishPaths
    ensures ns.Valid() && ns.host.remote == old(ns.host.remote) && done.job == job
    ensures ns.history == old(ns.history) + if done.ok then Success(job) else []
    ensures ContextStep(old(ContextsOf(ns.volumes)), ContextsOf(ns.volumes), done)
    ensures ThrottleStep(old(ns.backoff.entries), ns.backoff.entries, done)
    ensures forall w :: w in ns.volumes ==> (w in old(ns.volumes) && ns.volumes[w] == old(ns.volumes)[w]) || fresh(ns.volumes[w])
  {
    if job.Check? {
      done := DoCheck(ns, job);
    } else if job.Stage? || job.Publish? {
      done := DoIn(ns, job);
    } else {
      done := DoOut(ns, job);
    }
  }

  method DoCheck(ns: NodeServer, job: Job) returns (done: Report)
    requires ns.Valid() && ns.host.Quiet(job.vol) && Owned(ns.host.owner, job) && job.Check?
    modifies ns`volumes, ns.host, ns.backoff
    ensures ns.Valid() && ns.host.remote == old(ns.host.remote) && done.job == job && done.effect.Checked?
    ensures ContextStep(old(ContextsOf(ns.volumes)), ContextsOf(ns.volumes), done)
    ensures ThrottleStep(old(ns.backoff.entries), ns.backoff.entries, done)
    ensures forall w :: w in ns.volumes ==> (w in old(ns.volumes) && ns.volumes[w] == old(ns.volumes)[w]) || fresh(ns.volumes[w])
  {
    hide Recovered, QuotaIs, Counted, KeptSound, CanRestage, VA.StageContext, VA.CapacityOf, StagedWith, Host.Valid, NodeServer.Consistent;
    var v := job.vol;
    ghost var volumes, before := ns.volumes, ContextsOf(ns.volumes);
    var outcome, failed, r := PerformVolumeHealthCheck(ns, v, job.now, job.later, job.late, job.answers);
    done := Report(job, true, Checked(outcome));
    if Replaced(outcome) {
      ContextsWith(volumes, v, ns.volumes[v]);
      OneContext(before, v, ns.volumes[v].volContext);
    }
  }

  /** What has become of the volume that the call is about. */
  function EffectOn(known: bool, after: map<Vol, Volume>, v: Vol): Effect
    reads after.Values
  {
    if known || v !in after then Kept else if after[v].hasUnmounter then Staged else Adopted
  }

  method DoIn(ns: NodeServer, job: Job) returns (done: Report)
    requires ns.Valid() && ns.host.Quiet(job.vol) && Owned(ns.host.owner, job) && (job.Stage? || job.Publish?)
    modifies ns, ns.host, (if job.vol in ns.volumes then {ns.volumes[job.vol]} else {})`publishPaths
    ensures ns.Valid() && ns.host.remote == old(ns.host.remote) && done.job == job && !done.effect.Checked?
    ensures ns.history == old(ns.history) + if done.ok then Success(job) else []
    ensures ContextStep(old(ContextsOf(ns.volumes)), ContextsOf(ns.volumes), done)
    ensures forall w :: w in ns.volumes ==> (w in old(ns.volumes) && ns.volumes[w] == old(ns.volumes)[w]) || fresh(ns.volumes[w])
  {
    hide QuotaIs, CanTakeUp, VA.StageContext, VA.CapacityOf, StagedWith, OnlyAt, Host.Valid, NodeServer.Consistent;
    ghost var volumes, before := ns.volumes, ContextsOf(ns.volumes);
    var ok, known := false, job.vol in ns.volumes;
    match job {
      case Stage(v, x, context, answers, readOnly) =>
        var r;
        ok, r := ns.NodeStageVolume(v, x, context, answers, readOnly);
      case Publish(v, x, target, context, answers, volumeReadOnly, readOnly) =>
        ok := ns.NodePublishVolume(v, x, target, context, answers, volumeReadOnly, readOnly);
    }
    done := Report(job, ok, EffectOn(known, ns.volumes, job.vol));
    if !known && job.vol in ns.volumes {
      ContextsWith(volumes, job.vol, ns.volumes[job.vol]);
      OneContext(before, job.vol, ns.volumes[job.vol].volContext);
    }
  }

  method DoOut(ns: NodeServer, job: Job) returns (done: Report)
    requires ns.Valid() && ns.host.Quiet(job.vol) && Owned(ns.host.owner, job) && (job.Unpublish? || job.Unstage?)
    modifies ns, ns.host, ns.backoff, (if job.vol in ns.volumes then {ns.volumes[job.vol]} else {})`publishPaths
    ensures ns.Valid() && ns.host.remote == old(ns.host.remote) && done.job == job && done.effect.Kept?
    ensures ns.history == old(ns.history) + if done.ok then Success(job) else []
    ensures ContextStep(old(ContextsOf(ns.volumes)), ContextsOf(ns.volumes), done)
    ensures ThrottleStep(old(ns.backoff.entries), ns.backoff.entries, done)
    ensures forall w :: w in ns.volumes ==> w in old(ns.volumes) && ns.volumes[w] == old(ns.volumes)[w]
  {
    hide Host.Valid, NodeServer.Consistent;
    ghost var volumes := ns.volumes;
    var ok;
    match job {
      case Unpublish(v, target) =>
        ok := ns.NodeUnpublishVolume(v, target);
      case Unstage(v, x) =>
        ok := ns.NodeUnstageVolume(v, x);
    }
    done := Report(job, ok, Kept);
    ContextsWithout(volumes, job.vol);
  }

  // ---- runs --------------------------------------------------------------------------------------

  /** The contexts and the throttle are what the run says. */
  ghost predicate Agrees(contexts: map<Vol, Option<Context>>, entries: RB.Throttle, start: map<Vol, Option<Context>>, trace: Trace) {
    AllFrom(contexts, start, trace) && forall v :: Paced(entries, v, Attempts(trace, v))
  }

  lemma AgreesOneMore(before: map<Vol, Option<Context>>, after: map<Vol, Option<Context>>, entries: RB.Throttle, entries': RB.Throttle,
                      start: map<Vol, Option<Context>>, trace: Trace, done: Report)
    requires Agrees(before, entries, start, trace)
    requires ContextStep(before, after, done) && ThrottleStep(entries, entries', done)
    ensures Agrees(after, entries', start, trace + [done])
  {
    OneMore(start, trace, done);
    AllFromOneMore(before, after, start, trace, done);
    forall v ensures Paced(entries', v, Attempts(trace + [done], v)) {
      PacedOneMore(entries, entries', trace, done, v);
    }
  }

  /** Others have their turn, and then, unless a call about the volume is in progress, one job is done. */
  method Turn(ns: NodeServer, trace: Trace, ghost start: map<Vol, Option<Context>>, ghost earlier: seq<Event>) returns (longer: Trace)
    requires ns.Valid() && ns.history == earlier + Successes(trace) && Agrees(ContextsOf(ns.volumes), ns.backoff.entries, start, trace)
    modifies ns, ns.host, ns.backoff, ns.volumes.Values`publishPaths
    ensures ns.Valid() && ns.host.remote == old(ns.host.remote)
    ensures ns.history == earlier + Successes(longer) && Agrees(ContextsOf(ns.volumes), ns.backoff.entries, start, longer)
    ensures forall w :: w in ns.volumes ==> (w in old(ns.volumes) && ns.volumes[w] == old(ns.volumes)[w]) || fresh(ns.volumes[w])
  {
    hide ContextStep, ThrottleStep, Agrees, NodeServer.Consistent;
    var v: Vol, job: Job := *, *;
    longer := trace;
    ns.host.Others(v);
    if Calm(ns.host.m, job.vol) && Owned(ns.host.owner, job) {
      ghost var before, entries := ContextsOf(ns.volumes), ns.backoff.entries;
      var done := Do(ns, job);
      longer := trace + [done];
      OneMore(start, trace, done);
      AgreesOneMore(before, ContextsOf(ns.volumes), entries, ns.backoff.entries, start, trace, done);
    }
  }

  /** After any run the tracked publish paths of every volume are what the successful calls add up to, and no
      volume has lost data. The context of every volume is what the stagings since it was taken up have made
      of the first one. The attempts at recovering a volume, between which it has neither been found healthy
      nor unstaged, are spaced by the doubling waits. */
  method AnyRun(ns: NodeServer) returns (trace: Trace)
    requires ns.Valid()
    modifies ns, ns.host, ns.backoff, ns.volumes.Values`publishPaths
    ensures ns.Valid() && ns.host.remote == old(ns.host.remote)
    ensures ns.history == old(ns.history) + Successes(trace) && forall v :: ns.Tracked(v) == Replay(ns.history, v)
    ensures forall v :: v in ns.volumes <==> OriginOf(old(ContextsOf(ns.volumes)), trace, v).Some?
    ensures forall v :: v in ns.volumes ==> From(ns.volumes[v].volContext, OriginOf(old(ContextsOf(ns.volumes)), trace, v).value)
    ensures forall v :: RB.Spaced(Attempts(trace, v))
    ensures forall v :: v in ns.volumes ==> ns.volumes[v] in old(ns.volumes.Values) || fresh(ns.volumes[v])
  {
    trace := [];
    var n: nat := *;
    ghost var known, start := ns.volumes.Values, ContextsOf(ns.volumes);
    forall v | v in start ensures From(start[v], Origin(start[v], [])) {
      FromItself(start[v]);
    }
    while n > 0
      invariant ns.Valid() && ns.host.remote == old(ns.host.remote)
      invariant ns.history == old(ns.history) + Successes(trace) && Agrees(ContextsOf(ns.volumes), ns.backoff.entries, start, trace)
      invariant forall v :: v in ns.volumes ==> ns.volumes[v] in known || fresh(ns.volumes[v])
    {
      trace := Turn(ns, trace, start, old(ns.history));
      n := n - 1;
    }
    assert forall v :: v in ns.volumes ==> ContextsOf(ns.volumes)[v] == ns.volumes[v].volContext;
    forall v ensures RB.Spaced(Attempts(trace, v)) {
      assert Paced(ns.backoff.entries, v, Attempts(trace, v));
    }
  }
}
