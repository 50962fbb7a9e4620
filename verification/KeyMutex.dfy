/** One lock per volume, handed out by a map: `keyMutex` of the mount service, which only ever
    grows, and `KeyMutex` of the node plugin, which also lets an entry be deleted.

    A caller first looks the lock up (`Get`), later locks that very object, later unlocks it.
    Between the look-up and the lock anything can happen, so the state keeps which lock object
    every caller is holding on to. */
module KeyMutex {

  type Key = string
  type LockId = nat // identity of a mutex object
  type Tid = nat   // one call of Mount, Unmount, or a node RPC

  /** `refs` maps a caller to the key it asked for and the lock object it was handed. */
  datatype State = State(mutexes: map<Key, LockId>, nextLock: LockId, owner: map<LockId, Tid>, refs: map<Tid, (Key, LockId)>)

  const EMPTY := State(map[], 0, map[], map[])

  datatype Step =
    | Get(t: Tid, key: Key)
    | Lock(t: Tid)
    | Unlock(t: Tid)
    | Remove(key: Key)  // only `KeyMutex` of the node plugin has this one

  predicate Enabled(s: State, step: Step) {
    match step
    case Get(t, _) => t !in s.refs
    case Lock(t) => t in s.refs && s.refs[t].1 !in s.owner
    case Unlock(t) => Holds(s, t)
    case Remove(_) => true
  }

  /** LoadOrStore: the lock in the map, or a new one that goes into the map. */
  function DoGet(s: State, t: Tid, key: Key): State {
    if key in s.mutexes then s.(refs := s.refs[t := (key, s.mutexes[key])])
    else s.(mutexes := s.mutexes[key := s.nextLock], nextLock := s.nextLock + 1, refs := s.refs[t := (key, s.nextLock)])
  }

  function DoLock(s: State, t: Tid): State
    requires t in s.refs
  {
    s.(owner := s.owner[s.refs[t].1 := t])
  }

  function DoUnlock(s: State, t: Tid): State
    requires t in s.refs
  {
    s.(owner := s.owner - {s.refs[t].1}, refs := s.refs - {t})
  }

  function Apply(s: State, step: Step): State
    requires Enabled(s, step)
  {
    match step
    case Get(t, key) => DoGet(s, t, key)
    case Lock(t) => DoLock(s, t)
    case Unlock(t) => DoUnlock(s, t)
    case Remove(key) => s.(mutexes := s.mutexes - {key})
  }

  predicate Holds(s: State, t: Tid) {
    t in s.refs && s.refs[t].1 in s.owner && s.owner[s.refs[t].1] == t
  }

  predicate HoldsKey(s: State, t: Tid, key: Key) {
    Holds(s, t) && s.refs[t].0 == key
  }

  ghost predicate MutualExclusion(s: State) {
    forall t, u :: Holds(s, t) && Holds(s, u) && s.refs[t].0 == s.refs[u].0 ==> t == u
  }

  /** Somebody still has the lock object of `key` in hand, locked or not yet. */
  ghost predicate Referenced(s: State, key: Key) {
    exists t :: t in s.refs && s.refs[t].0 == key
  }

  /** Every reference agrees with the map: two callers of one key share one lock object. */
  ghost predicate Inv(s: State) {
    && (forall k :: k in s.mutexes ==> s.mutexes[k] < s.nextLock)
    && (forall t :: t in s.refs ==> s.refs[t].1 < s.nextLock)
    && (forall t :: t in s.refs ==> s.refs[t].0 in s.mutexes && s.mutexes[s.refs[t].0] == s.refs[t].1)
    && (forall l :: l in s.owner ==> s.owner[l] in s.refs && s.refs[s.owner[l]].1 == l)
    && (forall j, k :: j in s.mutexes && k in s.mutexes && s.mutexes[j] == s.mutexes[k] ==> j == k)
  }

  /** Deleting a lock is harmless exactly while nobody references it. */
  ghost predicate Careful(s: State, step: Step) {
    step.Remove? ==> !Referenced(s, step.key)
  }

  lemma GetKeepsInv(s: State, t: Tid, key: Key)
    requires Inv(s) && t !in s.refs
    ensures Inv(DoGet(s, t, key))
  {
  }

  lemma LockKeepsInv(s: State, t: Tid)
    requires Inv(s) && t in s.refs && s.refs[t].1 !in s.owner
    ensures Inv(DoLock(s, t))
  {
  }

  lemma UnlockKeepsInv(s: State, t: Tid)
    requires Inv(s) && Holds(s, t)
    ensures Inv(DoUnlock(s, t))
  {
  }

  lemma RemoveKeepsInv(s: State, key: Key)
    requires Inv(s) && !Referenced(s, key)
    ensures Inv(Apply(s, Remove(key)))
  {
    forall t | t in s.refs ensures s.refs[t].0 != key {
    }
  }

  lemma StepKeepsInv(s: State, step: Step)
    requires Inv(s) && Enabled(s, step) && Careful(s, step)
    ensures Inv(Apply(s, step))
  {
    match step
    case Get(t, key) => GetKeepsInv(s, t, key);
    case Lock(t) => LockKeepsInv(s, t);
    case Unlock(t) => UnlockKeepsInv(s, t);
    case Remove(key) => RemoveKeepsInv(s, key);
  }

  /** The states of a run, first to last, when every step was enabled where it was taken. */
  ghost predicate Run(s: State, steps: seq<Step>, end: State)
    decreases |steps|
  {
    if steps == [] then s == end
    else Enabled(s, steps[0]) && Run(Apply(s, steps[0]), steps[1..], end)
  }

  ghost predicate CarefulRun(s: State, steps: seq<Step>)
    decreases |steps|
  {
    steps != [] && Enabled(s, steps[0]) ==> Careful(s, steps[0]) && CarefulRun(Apply(s, steps[0]), steps[1..])
  }

  lemma {:induction false} CarefulRunKeepsInv(s: State, steps: seq<Step>, end: State)
    requires Inv(s) && Run(s, steps, end) && CarefulRun(s, steps)
    ensures Inv(end)
    decreases |steps|
  {
    if steps != [] {
      StepKeepsInv(s, steps[0]);
      CarefulRunKeepsInv(Apply(s, steps[0]), steps[1..], end);
    }
  }

  lemma {:induction false} GrowOnlyRunIsCareful(s: State, steps: seq<Step>)
    requires forall i :: 0 <= i < |steps| ==> !steps[i].Remove?
    ensures CarefulRun(s, steps)
    decreases |steps|
  {
    if steps != [] && Enabled(s, steps[0]) {
      GrowOnlyRunIsCareful(Apply(s, steps[0]), steps[1..]);
    }
  }

  /** The lock map of the mount service: any number of callers, any interleaving, at most one
      holder per key. */
  lemma GrowOnlyMutualExclusion(steps: seq<Step>, end: State)
    requires Run(EMPTY, steps, end)
    requires forall i :: 0 <= i < |steps| ==> !steps[i].Remove?
    ensures Inv(end) && MutualExclusion(end)
  {
    GrowOnlyRunIsCareful(EMPTY, steps);
    CarefulRunKeepsInv(EMPTY, steps, end);
  }

  /** Why the mount service never deletes a lock. In ANY state in which somebody holds the lock
      of `key`, deleting it lets the next caller in beside the holder. */
  lemma RemovingAHeldLockAdmitsASecondHolder(s: State, key: Key, holder: Tid, next: Tid)
    requires Inv(s) && HoldsKey(s, holder, key) && next !in s.refs
    ensures exists end ::
              && Run(s, [Remove(key), Get(next, key), Lock(next)], end)
              && HoldsKey(end, holder, key) && HoldsKey(end, next, key) && holder != next
  {
    var s1 := Apply(s, Remove(key));
    var s2 := Apply(s1, Get(next, key));
    var s3 := Apply(s2, Lock(next));
    var steps := [Remove(key), Get(next, key), Lock(next)];
    assert steps[1..] == [Get(next, key), Lock(next)];
    assert steps[1..][1..] == [Lock(next)];
    assert Run(s3, [], s3);
    assert Run(s2, [Lock(next)], s3) by { assert [Lock(next)][1..] == []; }
    assert Run(s, steps, s3);
  }

  /** A number that no goroutine has. */
  lemma UnusedTid(used: set<Tid>) returns (t: Tid)
    ensures t !in used
  {
    t := 0;
    var rest := used;
    while rest != {}
      invariant forall u :: u in used && u !in rest ==> u < t
    {
      var u :| u in rest;
      t := if u < t then t else u + 1;
      rest := rest - {u};
    }
  }

  /** However the run goes on without further deletions, there are no two holders of a key. */
  ghost predicate StaysExclusive(s: State) {
    forall steps: seq<Step>, end: State :: (forall i :: 0 <= i < |steps| ==> !steps[i].Remove?) && Run(s, steps, end) ==> MutualExclusion(end)
  }

  lemma RunOfTwo(s: State, first: Step, second: Step)
    requires Enabled(s, first) && Enabled(Apply(s, first), second)
    ensures Run(s, [first, second], Apply(Apply(s, first), second))
  {
    var end := Apply(Apply(s, first), second);
    assert [first, second][1..] == [second] && [second][1..] == [];
    assert Run(end, [], end) && Run(Apply(s, first), [second], end);
  }

  lemma RunOfThree(s: State, first: Step, second: Step, third: Step)
    requires Enabled(s, first) && Enabled(Apply(s, first), second) && Enabled(Apply(Apply(s, first), second), third)
    ensures Run(s, [first, second, third], Apply(Apply(Apply(s, first), second), third))
  {
    RunOfTwo(Apply(s, first), second, third);
    assert [first, second, third][1..] == [second, third];
  }

  /** The lock of `key` has been deleted while `t` had it in hand. A newcomer gets another one and locks
      it beside the holder; if nobody holds the old lock, `t` then locks that. */
  lemma TwoHolders(s: State, key: Key, t: Tid, next: Tid)
    requires Inv(s) && t in s.refs && s.refs[t].0 == key && next !in s.refs
    ensures !StaysExclusive(Apply(s, Remove(key)))
  {
    var s1 := Apply(s, Remove(key));
    var s2 := Apply(Apply(s1, Get(next, key)), Lock(next));
    var lock := s.refs[t].1;
    if lock in s.owner {
      RunOfTwo(s1, Get(next, key), Lock(next));
      assert HoldsKey(s2, s.owner[lock], key) && HoldsKey(s2, next, key);
    } else {
      RunOfThree(s1, Get(next, key), Lock(next), Lock(t));
      var s3 := Apply(s2, Lock(t));
      assert HoldsKey(s3, t, key) && HoldsKey(s3, next, key);
    }
  }

  /** When RemoveMutex is harmless: deleting the lock of `key` admits no second holder of any key, in any
      run, if and only if nobody has that lock in hand. */
  lemma RemoveIsSafeIffUnreferenced(s: State, key: Key)
    requires Inv(s)
    ensures StaysExclusive(Apply(s, Remove(key))) <==> !Referenced(s, key)
  {
    if Referenced(s, key) {
      var t :| t in s.refs && s.refs[t].0 == key;
      var next := UnusedTid(s.refs.Keys);
      TwoHolders(s, key, t, next);
    } else {
      RemoveKeepsInv(s, key);
      var s1 := Apply(s, Remove(key));
      forall steps: seq<Step>, end: State | (forall i :: 0 <= i < |steps| ==> !steps[i].Remove?) && Run(s1, steps, end) ensures MutualExclusion(end) {
        GrowOnlyRunIsCareful(s1, steps);
        CarefulRunKeepsInv(s1, steps, end);
      }
    }
  }

  /** `get` of the mount service and `GetMutex`/`RemoveMutex` of the node plugin, on the map they
      share with every other caller. `Get` is LoadOrStore. */
  class LockMap {
    var mutexes: map<Key, LockId>
    var nextLock: LockId

    ghost predicate Mirrors(s: State) reads this {
      mutexes == s.mutexes && nextLock == s.nextLock
    }

    constructor ()
      ensures Mirrors(EMPTY)
    {
      mutexes, nextLock := map[], 0;
    }

    method Get(key: Key, ghost s: State, ghost t: Tid) returns (lock: LockId)
      requires Mirrors(s) && Enabled(s, Step.Get(t, key))
      modifies this
      ensures Mirrors(Apply(s, Step.Get(t, key)))
      ensures Apply(s, Step.Get(t, key)).refs[t] == (key, lock)
    {
      if key !in mutexes {
        mutexes := mutexes[key := nextLock];
        nextLock := nextLock + 1;
      }
      lock := mutexes[key];
    }

    method RemoveMutex(key: Key, ghost s: State)
      requires Mirrors(s)
      modifies this
      ensures Mirrors(Apply(s, Remove(key)))
    {
      mutexes := mutexes - {key};
    }
  }
}
