/** How often one volume may be recovered: the wait doubles with every attempt, up to half an hour, and
    at most one check of a volume is under way at a time. Times and durations are in nanoseconds. */
module RecoveryBackoff {

  type Vol = string
  type Time = int

  newtype int64 = x: int | -0x8000_0000_0000_0000 <= x < 0x8000_0000_0000_0000

  const MINUTE: int64 := 60_000_000_000
  const BASE: int64 := 1 * MINUTE
  const MAX: int64 := 30 * MINUTE
  const MAX_SHIFT: nat := 20

  // ---- the wait ----------------------------------------------------------------------------------

  function Pow2(n: nat): (p: nat)
    ensures p >= 1
  {
    if n == 0 then 1 else 2 * Pow2(n - 1)
  }

  /** Two's complement: what does not fit into 64 bits is lost. */
  function Wrap(x: int): int64 {
    ((x + 0x8000_0000_0000_0000) % 0x1_0000_0000_0000_0000 - 0x8000_0000_0000_0000) as int64
  }

  function ShiftLeft(x: int64, shift: nat): int64 {
    Wrap(x as int * Pow2(shift))
  }

  function Min(a: int, b: int): int {
    if a <= b then a else b
  }

  /** The wait after attempt `n`, without any limit on the size of numbers. */
  function Wait(n: nat): int
    requires n >= 1
  {
    Min(BASE as int * Pow2(n - 1), MAX as int)
  }

  lemma {:induction false} Pow2Grows(m: nat, n: nat)
    requires m <= n
    ensures Pow2(m) <= Pow2(n)
  {
    if m < n {
      Pow2Grows(m, n - 1);
    }
  }

  lemma Pow2Values()
    ensures Pow2(4) == 16 && Pow2(5) == 32 && Pow2(20) == 0x10_0000
  {
    assert Pow2(4) == 16;
    assert Pow2(8) == 256;
    assert Pow2(12) == 0x1000;
    assert Pow2(16) == 0x1_0000;
  }

  function CappedShift(n: nat): nat
    requires n >= 1
  {
    if n - 1 > MAX_SHIFT then MAX_SHIFT else n - 1
  }

  /** The shifted duration never overflows. */
  lemma ShiftIsExact(shift: nat)
    requires shift <= MAX_SHIFT
    ensures ShiftLeft(BASE, shift) as int == BASE as int * Pow2(shift)
  {
    Pow2Values();
    Pow2Grows(shift, MAX_SHIFT);
    assert BASE as int * Pow2(shift) <= BASE as int * 0x10_0000 < 0x8000_0000_0000_0000;
  }

  /** And capping the shift does not shorten the wait. */
  lemma CappedShiftIsEnough(n: nat)
    requires n >= 1
    ensures Min(ShiftLeft(BASE, CappedShift(n)) as int, MAX as int) == Wait(n)
  {
    ShiftIsExact(CappedShift(n));
    Pow2Values();
    Pow2Grows(CappedShift(n), n - 1);
  }

  method WaitAfter(attempts: nat) returns (wait: int64)
    requires attempts >= 1
    ensures wait as int == Wait(attempts)
  {
    var shift := attempts - 1;
    if shift > MAX_SHIFT {
      shift := MAX_SHIFT;
    }
    wait := ShiftLeft(BASE, shift);
    if wait > MAX {
      wait := MAX;
    }
    CappedShiftIsEnough(attempts);
  }

  // ---- the throttle ------------------------------------------------------------------------------

  datatype Entry = Entry(attempts: nat, notBefore: Time)

  type Throttle = map<Vol, Entry>

  predicate IsThrottled(entries: Throttle, v: Vol, now: Time) {
    v in entries && now < entries[v].notBefore
  }

  /** One more attempt, at `now`. */
  function Noted(entries: Throttle, v: Vol, now: Time): Throttle {
    var attempts := if v in entries then entries[v].attempts + 1 else 1;
    entries[v := Entry(attempts, now + Wait(attempts))]
  }

  class Backoff {
    var entries: Throttle

    constructor ()
      ensures entries == map[]
    {
      entries := map[];
    }

    method RecoveryThrottled(v: Vol, now: Time) returns (throttled: bool)
      ensures throttled == IsThrottled(entries, v, now)
    {
      if v !in entries {
        return false;
      }
      throttled := now < entries[v].notBefore;
    }

    method NoteRecoveryAttempt(v: Vol, now: Time)
      modifies this
      ensures entries == Noted(old(entries), v, now)
    {
      var attempts := 1;
      if v in entries {
        attempts := entries[v].attempts + 1;
      }
      var wait := WaitAfter(attempts);
      entries := entries[v := Entry(attempts, now + wait as int)];
    }

    method ResetRecoveryBackoff(v: Vol)
      modifies this
      ensures entries == old(entries) - {v}
    {
      entries := entries - {v};
    }
  }

  // ---- sweeps, checks and attempts ---------------------------------------------------------------

  type Gid = nat

  /** A check goroutine: before the throttle, past it, and after it has noted its attempt. */
  datatype Loc = Begun | Admitted | Attempted

  datatype Check = Check(vol: Vol, at: Loc)

  /** `attempts` are the times at which recoveries of a volume have been attempted since the throttle
      was last cleared. */
  datatype State = State(active: set<Vol>, checks: map<Gid, Check>, entries: Throttle, now: Time, attempts: map<Vol, seq<Time>>)

  datatype Step =
    | Tick(later: Time)
    | Launch(g: Gid, vol: Vol)  // a sweep; LoadOrStore on activeRecoveries
    | Admit(g: Gid)             // recoverVolume is not throttled
    | Attempt(g: Gid)           // noteRecoveryAttempt
    | Finish(g: Gid)            // whatever the outcome
    | Clear(vol: Vol)           // the volume was seen healthy, or has been unstaged

  function AttemptsOf(s: State, v: Vol): seq<Time> {
    if v in s.attempts then s.attempts[v] else []
  }

  predicate Enabled(s: State, step: Step) {
    match step
    case Tick(later) => s.now <= later
    case Launch(g, vol) => g !in s.checks && vol !in s.active
    case Admit(g) => g in s.checks && s.checks[g].at.Begun? && !IsThrottled(s.entries, s.checks[g].vol, s.now)
    case Attempt(g) => g in s.checks && s.checks[g].at.Admitted?
    case Finish(g) => g in s.checks
    case Clear(_) => true
  }

  function Apply(s: State, step: Step): State
    requires Enabled(s, step)
  {
    match step
    case Tick(later) => s.(now := later)
    case Launch(g, vol) => s.(active := s.active + {vol}, checks := s.checks[g := Check(vol, Begun)])
    case Admit(g) => s.(checks := s.checks[g := s.checks[g].(at := Admitted)])
    case Attempt(g) =>
      var v := s.checks[g].vol;
      s.(checks := s.checks[g := Check(v, Attempted)], entries := Noted(s.entries, v, s.now),
         attempts := s.attempts[v := AttemptsOf(s, v) + [s.now]])
    case Finish(g) => s.(active := s.active - {s.checks[g].vol}, checks := s.checks - {g})
    case Clear(v) => s.(entries := s.entries - {v}, attempts := s.attempts - {v})
  }

  /** At most one check of a volume is under way. */
  ghost predicate OneCheck(s: State) {
    && (forall g :: g in s.checks ==> s.checks[g].vol in s.active)
    && (forall g, h :: g in s.checks && h in s.checks && s.checks[g].vol == s.checks[h].vol ==> g == h)
  }

  ghost predicate Spaced(times: seq<Time>) {
    forall i :: 0 < i < |times| ==> times[i] >= times[i - 1] + Wait(i)
  }

  /** The throttle of one volume is what its attempts make it. */
  ghost predicate VolumeInv(s: State, v: Vol) {
    var times := AttemptsOf(s, v);
    && Spaced(times)
    && (times == [] ==> v !in s.entries)
    && (times != [] ==> times[|times| - 1] <= s.now && v in s.entries && s.entries[v] == Entry(|times|, times[|times| - 1] + Wait(|times|)))
    && (forall g :: g in s.checks && s.checks[g] == Check(v, Admitted) && v in s.entries ==> s.entries[v].notBefore <= s.now)
  }

  ghost predicate Inv(s: State) {
    OneCheck(s) && forall v :: VolumeInv(s, v)
  }

  const INIT := State({}, map[], map[], 0, map[])

  lemma StepKeepsInv(s: State, step: Step)
    requires Inv(s) && Enabled(s, step)
    ensures Inv(Apply(s, step))
  {
    var s' := Apply(s, step);
    forall v ensures VolumeInv(s', v) {
      StepKeepsVolumeInv(s, step, v);
    }
  }

  lemma AttemptKeepsVolumeInv(s: State, g: Gid, v: Vol)
    requires OneCheck(s) && VolumeInv(s, v) && Enabled(s, Step.Attempt(g)) && s.checks[g].vol == v
    ensures VolumeInv(Apply(s, Step.Attempt(g)), v)
  {
    var times := AttemptsOf(s, v);
    assert AttemptsOf(Apply(s, Step.Attempt(g)), v) == times + [s.now];
    assert s.checks[g] == Check(v, Admitted);
  }

  lemma StepKeepsVolumeInv(s: State, step: Step, v: Vol)
    requires OneCheck(s) && VolumeInv(s, v) && Enabled(s, step)
    ensures VolumeInv(Apply(s, step), v)
  {
    match step
    case Attempt(g) =>
      if s.checks[g].vol == v {
        AttemptKeepsVolumeInv(s, g, v);
      }
    case _ =>
  }

  /** The throttle alone does not do it. Two checks of a volume that has no entry, both at their
      beginning, are both admitted, and attempt two recoveries without any wait. */
  lemma TwoChecksBeatTheThrottle(s: State, v: Vol, g: Gid, h: Gid) returns (t: State)
    requires g in s.checks && h in s.checks && g != h && s.checks[g] == Check(v, Begun) && s.checks[h] == Check(v, Begun)
    requires VolumeInv(s, v) && v !in s.entries
    ensures Enabled(s, Admit(g)) && Enabled(Apply(s, Admit(g)), Admit(h))
    ensures var both := Apply(Apply(s, Admit(g)), Admit(h));
            Enabled(both, Step.Attempt(g)) && Enabled(Apply(both, Step.Attempt(g)), Step.Attempt(h))
            && t == Apply(Apply(both, Step.Attempt(g)), Step.Attempt(h))
    ensures AttemptsOf(t, v) == [s.now, s.now] && !VolumeInv(t, v)
  {
    var both := Apply(Apply(s, Admit(g)), Admit(h));
    t := Apply(Apply(both, Step.Attempt(g)), Step.Attempt(h));
    assert Pow2(0) == 1;
    var times := AttemptsOf(t, v);
    assert times == [s.now, s.now] && times[1] < times[0] + Wait(1);
  }

  ghost predicate IsRun(states: seq<State>, steps: seq<Step>) {
    && |states| == |steps| + 1 && states[0] == INIT
    && forall i :: 0 <= i < |steps| ==> Enabled(states[i], steps[i]) && states[i + 1] == Apply(states[i], steps[i])
  }

  lemma {:induction false} RunKeepsInv(states: seq<State>, steps: seq<Step>, n: nat)
    requires IsRun(states, steps) && n < |states|
    ensures Inv(states[n])
  {
    if n > 0 {
      RunKeepsInv(states, steps, n - 1);
      StepKeepsInv(states[n - 1], steps[n - 1]);
    }
  }

  // ---- how far attempts are apart ----------------------------------------------------------------

  /** The waits after attempts 1 to n - 1. */
  function TotalWait(n: nat): int
    requires n >= 1
  {
    if n == 1 then 0 else TotalWait(n - 1) + Wait(n - 1)
  }

  lemma WaitGrows(m: nat, n: nat)
    requires 1 <= m <= n
    ensures Wait(m) <= Wait(n)
  {
    Pow2Grows(m - 1, n - 1);
  }

  /** Any `n` consecutive attempts, the first of them number `i`. */
  lemma {:induction false} SpacedSpan(times: seq<Time>, i: nat, n: nat)
    requires Spaced(times) && n >= 1 && i + n <= |times|
    ensures times[i + n - 1] - times[i] >= TotalWait(n)
  {
    if n > 1 {
      SpacedSpan(times, i, n - 1);
      WaitGrows(n - 1, i + n - 1);
    }
  }

  /** From the sixth attempt on the wait is half an hour. */
  lemma {:induction false} TotalWaitInMinutes(n: nat)
    requires n >= 6
    ensures TotalWait(n) == (31 + 30 * (n - 6)) * MINUTE as int
  {
    Pow2Values();
    if n == 6 {
      assert Pow2(0) == 1 && Pow2(1) == 2 && Pow2(2) == 4 && Pow2(3) == 8;
      assert TotalWait(3) == 3 * MINUTE as int;
      assert TotalWait(5) == 15 * MINUTE as int;
    } else {
      TotalWaitInMinutes(n - 1);
      Pow2Grows(5, n - 2);
    }
  }

  /** In every run, any `n` consecutive attempts at recovering a volume between which the throttle has not
      been cleared are spaced by the doubling waits. */
  lemma AttemptsAreSpaced(states: seq<State>, steps: seq<Step>, k: nat, v: Vol, i: nat, n: nat)
    requires IsRun(states, steps) && k < |states| && n >= 1 && i + n <= |AttemptsOf(states[k], v)|
    ensures AttemptsOf(states[k], v)[i + n - 1] - AttemptsOf(states[k], v)[i] >= TotalWait(n)
    ensures n >= 6 ==> AttemptsOf(states[k], v)[i + n - 1] - AttemptsOf(states[k], v)[i] >= (31 + 30 * (n - 6)) * MINUTE as int
  {
    RunKeepsInv(states, steps, k);
    assert VolumeInv(states[k], v);
    SpacedSpan(AttemptsOf(states[k], v), i, n);
    if n >= 6 {
      TotalWaitInMinutes(n);
    }
  }
}
