/** One system call at a time for everybody who asks: the statfs probes of the node plugin, and the
    collector of volume statistics. A probe is registered under its key until its system call has
    returned; whoever asks meanwhile waits for it. Any number of callers, probes and resets take their
    steps in any order. */
module SingleFlight {

  type Key = seq<string>  // a path, or a volume and a path
  type Id = nat           // probes are numbered in the order of their creation
  type Caller = nat

  /** Created: registered, its goroutine has not made the system call yet. Dropped: the goroutine has
      removed the map entry. Closed: `done` is closed. */
  datatype Stage = Created | Blocked | Returned(result: string) | Dropped(result: string) | Closed(result: string)

  datatype Probe = Probe(key: Key, stage: Stage)

  datatype Call = Waiting(id: Id) | Answered(id: Id, result: string) | TimedOut(id: Id)

  datatype State = State(table: map<Key, Id>, probes: map<Id, Probe>, next: Id, calls: map<Caller, Call>)

  const INIT := State(map[], map[], 0, map[])

  /** How a finished probe leaves the map: statfs probes compare, the collector does not. */
  datatype Removal = CompareAndDelete | Delete

  datatype Step =
    | Ask(c: Caller, key: Key)              // LoadOrStore
    | Start(id: Id)                         // the system call begins
    | Return(id: Id, result: string)        // and ends
    | Drop(id: Id)                          // CompareAndDelete, or Delete
    | Close(id: Id)                         // close(done)
    | Receive(c: Caller)                    // <-done
    | GiveUp(c: Caller)                     // the caller's time is up
    | Reset(key: Key)                       // the mount at the path has been detached or replaced

  predicate Enabled(s: State, step: Step) {
    match step
    case Ask(c, _) => c !in s.calls
    case Start(id) => id in s.probes && s.probes[id].stage.Created?
    case Return(id, _) => id in s.probes && s.probes[id].stage.Blocked?
    case Drop(id) => id in s.probes && s.probes[id].stage.Returned?
    case Close(id) => id in s.probes && s.probes[id].stage.Dropped?
    case Receive(c) => c in s.calls && s.calls[c].Waiting? && s.calls[c].id in s.probes && s.probes[s.calls[c].id].stage.Closed?
    case GiveUp(c) => c in s.calls && s.calls[c].Waiting?
    case Reset(_) => true
  }

  function SetStage(s: State, id: Id, stage: Stage): State
    requires id in s.probes
  {
    s.(probes := s.probes[id := Probe(s.probes[id].key, stage)])
  }

  function Removed(removal: Removal, table: map<Key, Id>, key: Key, id: Id): map<Key, Id> {
    if removal.Delete? || (key in table && table[key] == id) then table - {key} else table
  }

  function Apply(removal: Removal, s: State, step: Step): State
    requires Enabled(s, step)
  {
    match step
    case Ask(c, key) =>
      if key in s.table then s.(calls := s.calls[c := Waiting(s.table[key])])
      else State(s.table[key := s.next], s.probes[s.next := Probe(key, Created)], s.next + 1, s.calls[c := Waiting(s.next)])
    case Start(id) => SetStage(s, id, Blocked)
    case Return(id, result) => SetStage(s, id, Returned(result))
    case Drop(id) => SetStage(s, id, Dropped(s.probes[id].stage.result)).(table := Removed(removal, s.table, s.probes[id].key, id))
    case Close(id) => SetStage(s, id, Closed(s.probes[id].stage.result))
    case Receive(c) => s.(calls := s.calls[c := Answered(s.calls[c].id, s.probes[s.calls[c].id].stage.result)])
    case GiveUp(c) => s.(calls := s.calls[c := TimedOut(s.calls[c].id)])
    case Reset(key) => s.(table := s.table - {key})
  }

  ghost predicate IsRun(removal: Removal, states: seq<State>, steps: seq<Step>) {
    && |states| == |steps| + 1 && states[0] == INIT
    && forall i :: 0 <= i < |steps| ==> Enabled(states[i], steps[i]) && states[i + 1] == Apply(removal, states[i], steps[i])
  }

  // ---- what every run keeps ----------------------------------------------------------------------

  predicate Finished(stage: Stage) {
    stage.Dropped? || stage.Closed?
  }

  ghost predicate Inv(s: State) {
    && (forall id :: id in s.probes ==> id < s.next)
    && (forall k :: k in s.table ==> s.table[k] in s.probes && s.probes[s.table[k]].key == k && !Finished(s.probes[s.table[k]].stage))
    && (forall c :: c in s.calls ==> s.calls[c].id in s.probes)
    && (forall c :: c in s.calls && s.calls[c].Answered? ==> s.probes[s.calls[c].id].stage == Closed(s.calls[c].result))
  }

  lemma StepKeepsInv(removal: Removal, s: State, step: Step)
    requires Inv(s) && Enabled(s, step)
    ensures Inv(Apply(removal, s, step))
  {
    var s' := Apply(removal, s, step);
    forall k | k in s'.table
      ensures s'.table[k] in s'.probes && s'.probes[s'.table[k]].key == k && !Finished(s'.probes[s'.table[k]].stage)
    {
      if k in s.table {
        assert s.table[k] in s.probes && s.probes[s.table[k]].key == k;
      }
    }
  }

  lemma {:induction false} RunKeepsInv(removal: Removal, states: seq<State>, steps: seq<Step>, n: nat)
    requires IsRun(removal, states, steps) && n < |states|
    ensures Inv(states[n])
  {
    if n > 0 {
      RunKeepsInv(removal, states, steps, n - 1);
      StepKeepsInv(removal, states[n - 1], steps[n - 1]);
    }
  }

  /** A registered probe has not been closed, and when every probe has finished nothing is registered. */
  lemma RegisteredIsInFlight(removal: Removal, states: seq<State>, steps: seq<Step>, n: nat)
    requires IsRun(removal, states, steps) && n < |states|
    ensures forall k :: k in states[n].table ==> states[n].table[k] in states[n].probes && !Finished(states[n].probes[states[n].table[k]].stage)
    ensures (forall id :: id in states[n].probes ==> states[n].probes[id].stage.Closed?) ==> states[n].table == map[]
  {
    RunKeepsInv(removal, states, steps, n);
    if forall id :: id in states[n].probes ==> states[n].probes[id].stage.Closed? {
      assert states[n].table.Keys == {};
    }
  }

  // ---- results are not older than the last reset -------------------------------------------------

  /** After a reset in step `i` only probes created since are registered under the key. */
  lemma {:induction false} RegisteredSinceReset(removal: Removal, states: seq<State>, steps: seq<Step>, i: nat, j: nat)
    requires IsRun(removal, states, steps) && i < j < |states| && steps[i].Reset?
    ensures steps[i].key in states[j].table ==> states[i].next <= states[j].table[steps[i].key]
    decreases j
  {
    if j > i + 1 {
      NextGrows(removal, states, steps, i, j - 1);
      RegisteredSinceReset(removal, states, steps, i, j - 1);
    }
  }

  lemma {:induction false} NextGrows(removal: Removal, states: seq<State>, steps: seq<Step>, i: nat, j: nat)
    requires IsRun(removal, states, steps) && i <= j < |states|
    ensures states[i].next <= states[j].next
    decreases j
  {
    if i < j {
      NextGrows(removal, states, steps, i, j - 1);
    }
  }

  /** A call keeps the probe it got when it asked. */
  lemma {:induction false} CallKeepsProbe(removal: Removal, states: seq<State>, steps: seq<Step>, c: Caller, j: nat, k: nat)
    requires IsRun(removal, states, steps) && j <= k < |states| && c in states[j].calls
    ensures c in states[k].calls && states[k].calls[c].id == states[j].calls[c].id
    decreases k
  {
    if j < k {
      CallKeepsProbe(removal, states, steps, c, j, k - 1);
    }
  }

  predicate Started(stage: Stage) {
    !stage.Created?
  }

  predicate HasResult(stage: Stage, result: string) {
    (stage.Returned? || stage.Dropped? || stage.Closed?) && stage.result == result
  }

  lemma ResultStays(removal: Removal, s: State, step: Step, id: Id, result: string)
    requires Enabled(s, step) && id in Apply(removal, s, step).probes && HasResult(Apply(removal, s, step).probes[id].stage, result)
    requires step != Return(id, result)
    ensures id in s.probes && HasResult(s.probes[id].stage, result)
  {
  }

  lemma ReturnWasStarted(s: State, id: Id, result: string)
    requires Enabled(s, Return(id, result))
    ensures id in s.probes && Started(s.probes[id].stage)
  {
  }

  /** A result comes from a system call that was made and has returned since the state in which its
      probe did not exist. */
  lemma {:induction false} ResultIsFromARecentCall(removal: Removal, states: seq<State>, steps: seq<Step>, i: nat, k: nat, id: Id, result: string)
      returns (start: nat, end: nat)
    requires IsRun(removal, states, steps) && i <= k < |states| && id !in states[i].probes
    requires id in states[k].probes && HasResult(states[k].probes[id].stage, result)
    ensures i <= start < end < k && steps[start] == Start(id) && steps[end] == Return(id, result)
    decreases k
  {
    assert states[k] == Apply(removal, states[k - 1], steps[k - 1]);
    if steps[k - 1] == Return(id, result) {
      ReturnWasStarted(states[k - 1], id, result);
      start := StartOf(removal, states, steps, i, k - 1, id);
      end := k - 1;
    } else {
      ResultStays(removal, states[k - 1], steps[k - 1], id, result);
      start, end := ResultIsFromARecentCall(removal, states, steps, i, k - 1, id, result);
    }
  }

  lemma {:induction false} StartOf(removal: Removal, states: seq<State>, steps: seq<Step>, i: nat, k: nat, id: Id) returns (start: nat)
    requires IsRun(removal, states, steps) && i <= k < |states| && id !in states[i].probes
    requires id in states[k].probes && Started(states[k].probes[id].stage)
    ensures i <= start < k && steps[start] == Start(id)
    decreases k
  {
    assert states[k] == Apply(removal, states[k - 1], steps[k - 1]);
    if steps[k - 1] == Start(id) {
      start := k - 1;
    } else {
      start := StartOf(removal, states, steps, i, k - 1, id);
    }
  }

  /** Whoever asks after the mount at a path has been replaced, and the probe reset, is never told about
      the old mount: the answer is that of a system call made after the reset. */
  lemma AnswersAreFresh(removal: Removal, states: seq<State>, steps: seq<Step>, i: nat, j: nat, k: nat) returns (start: nat, end: nat)
    requires IsRun(removal, states, steps) && i < j < k < |states|
    requires steps[i].Reset? && steps[j].Ask? && steps[j].key == steps[i].key
    requires steps[j].c in states[k].calls && states[k].calls[steps[j].c].Answered?
    ensures i < start < end < k
    ensures steps[start] == Start(states[k].calls[steps[j].c].id)
    ensures steps[end] == Return(states[k].calls[steps[j].c].id, states[k].calls[steps[j].c].result)
  {
    var c, key := steps[j].c, steps[j].key;
    NextGrows(removal, states, steps, i, j);
    RegisteredSinceReset(removal, states, steps, i, j);
    CallKeepsProbe(removal, states, steps, c, j + 1, k);
    RunKeepsInv(removal, states, steps, i);
    RunKeepsInv(removal, states, steps, k);
    assert states[j + 1] == Apply(removal, states[j], steps[j]);
    assert states[i + 1].probes == states[i].probes;
    start, end := ResultIsFromARecentCall(removal, states, steps, i + 1, k, states[k].calls[c].id, states[k].calls[c].result);
  }

  // ---- how many system calls can hang ------------------------------------------------------------

  function Resets(steps: seq<Step>, key: Key): nat {
    if steps == [] then 0
    else Resets(steps[..|steps| - 1], key) + if steps[|steps| - 1] == Reset(key) then 1 else 0
  }

  predicate Registered(s: State, id: Id) {
    id in s.probes && s.probes[id].key in s.table && s.table[s.probes[id].key] == id
  }

  /** Probes under way that a reset has cut off from the map. */
  function Orphans(s: State, key: Key): set<Id> {
    set id | id in s.probes && s.probes[id].key == key && !Finished(s.probes[id].stage) && !Registered(s, id)
  }

  function BlockedCalls(s: State, key: Key): set<Id> {
    set id | id in s.probes && s.probes[id].key == key && s.probes[id].stage.Blocked?
  }

  lemma StepOrphans(s: State, step: Step, key: Key)
    requires Inv(s) && Enabled(s, step)
    ensures var s' := Apply(CompareAndDelete, s, step);
            Orphans(s', key) <= Orphans(s, key) + if step == Reset(key) && key in s.table then {s.table[key]} else {}
  {
  }

  lemma Cardinality(a: set<Id>, b: set<Id>)
    requires a <= b
    ensures |a| <= |b|
  {
    assert b == a + (b - a) && a !! (b - a);
  }

  lemma {:induction false} OrphansBound(states: seq<State>, steps: seq<Step>, n: nat, key: Key)
    requires IsRun(CompareAndDelete, states, steps) && n < |states|
    ensures |Orphans(states[n], key)| <= Resets(steps[..n], key)
  {
    if n > 0 {
      OrphansBound(states, steps, n - 1, key);
      RunKeepsInv(CompareAndDelete, states, steps, n - 1);
      var s, step := states[n - 1], steps[n - 1];
      StepOrphans(s, step, key);
      var extra := if step == Reset(key) && key in s.table then {s.table[key]} else {};
      Cardinality(Orphans(states[n], key), Orphans(s, key) + extra);
      assert steps[..n][..n - 1] == steps[..n - 1];
    }
  }

  /** However often a hung mount is probed, no more than one system call hangs for every reset, and one
      more. */
  lemma HungCallsBound(states: seq<State>, steps: seq<Step>, n: nat, key: Key)
    requires IsRun(CompareAndDelete, states, steps) && n < |states|
    ensures |BlockedCalls(states[n], key)| <= 1 + Resets(steps[..n], key)
  {
    var s := states[n];
    OrphansBound(states, steps, n, key);
    var registered := if key in s.table then {s.table[key]} else {};
    Cardinality(BlockedCalls(s, key), Orphans(s, key) + registered);
  }

  /** An entry leaves the map by a reset of its key or by the completion of its own probe: the orphan
      of a reset never takes the entry of a newer probe. */
  lemma EntryLeaves(s: State, step: Step, key: Key)
    requires Inv(s) && Enabled(s, step) && key in s.table
    ensures var s' := Apply(CompareAndDelete, s, step);
            !(key in s'.table && s'.table[key] == s.table[key]) <==> step == Reset(key) || step == Drop(s.table[key])
  {
  }

  /** Comparing is what it takes: with a plain delete the orphan removes the newer entry. */
  lemma PlainDeleteTakesANewerEntry() returns (states: seq<State>, steps: seq<Step>)
    ensures IsRun(Delete, states, steps) && |steps| == 6
    ensures steps[5] == Drop(0) && ["/p"] in states[5].table && states[5].table[["/p"]] == 1 && states[6].table == map[]
    ensures 1 in states[6].probes && states[6].probes[1].stage == Created
  {
    var k := ["/p"];
    steps := [Ask(0, k), Start(0), Reset(k), Ask(1, k), Return(0, "ENOTCONN"), Drop(0)];
    var s1 := Apply(Delete, INIT, steps[0]);
    var s2 := Apply(Delete, s1, steps[1]);
    var s3 := Apply(Delete, s2, steps[2]);
    var s4 := Apply(Delete, s3, steps[3]);
    var s5 := Apply(Delete, s4, steps[4]);
    var s6 := Apply(Delete, s5, steps[5]);
    states := [INIT, s1, s2, s3, s4, s5, s6];
  }

  // ---- the collector of volume statistics, which never resets ------------------------------------

  ghost predicate NoResets(steps: seq<Step>) {
    forall i :: 0 <= i < |steps| ==> !steps[i].Reset?
  }

  /** Without resets every probe under way is registered. */
  lemma {:induction false} NoOrphans(removal: Removal, states: seq<State>, steps: seq<Step>, n: nat)
    requires IsRun(removal, states, steps) && NoResets(steps) && n < |states|
    ensures forall id :: id in states[n].probes && !Finished(states[n].probes[id].stage) ==> Registered(states[n], id)
  {
    if n > 0 {
      NoOrphans(removal, states, steps, n - 1);
      RunKeepsInv(removal, states, steps, n - 1);
      assert states[n] == Apply(removal, states[n - 1], steps[n - 1]);
    }
  }

  /** So there is never more than one read for a volume and a path. */
  lemma OneReadAtATime(removal: Removal, states: seq<State>, steps: seq<Step>, n: nat, p: Id, q: Id)
    requires IsRun(removal, states, steps) && NoResets(steps) && n < |states|
    requires p in states[n].probes && q in states[n].probes && states[n].probes[p].key == states[n].probes[q].key
    requires !Finished(states[n].probes[p].stage) && !Finished(states[n].probes[q].stage)
    ensures p == q
  {
    NoOrphans(removal, states, steps, n);
  }

  /** And a plain delete does what comparing would have done. */
  lemma PlainDeleteSuffices(states: seq<State>, steps: seq<Step>)
    requires NoResets(steps)
    ensures IsRun(Delete, states, steps) <==> IsRun(CompareAndDelete, states, steps)
  {
    if IsRun(Delete, states, steps) {
      SameRun(Delete, CompareAndDelete, states, steps);
    }
    if IsRun(CompareAndDelete, states, steps) {
      SameRun(CompareAndDelete, Delete, states, steps);
    }
  }

  lemma SameRun(removal: Removal, other: Removal, states: seq<State>, steps: seq<Step>)
    requires IsRun(removal, states, steps) && NoResets(steps)
    ensures IsRun(other, states, steps)
  {
    forall i | 0 <= i < |steps| ensures Enabled(states[i], steps[i]) && states[i + 1] == Apply(other, states[i], steps[i]) {
      NoOrphans(removal, states, steps, i);
      if steps[i].Drop? {
        assert Registered(states[i], steps[i].id);
      }
    }
  }
}
