/** The teardown of a deleted S3Configuration ends, whatever others do in the meantime. */
module S3Teardown {
  import opened Options
  import opened S3Validation
  import opened S3Lifecycle
  import opened S3LifecycleSafety

  // ---------- how much is left to do ----------

  /** The worker is in a deletion pass over the configuration. */
  predicate At(s: State, n: string) {
    s.pc.Dying? && s.pc.name == n
  }

  /** The ManifestWork is gone, under deletion, or neither. */
  function WorkRank(s: State, n: string): nat {
    if n !in s.works then 0 else if s.works[n] == Terminating then 1 else 2
  }

  /** The stages from here to the end of a deletion pass that does not have to wait. */
  function PassRank(s: State, n: string): nat {
    if !At(s, n) then 7
    else match s.pc.stage
      case CheckPolicies => 6
      case RemoveProfile => 5
      case DeleteWork => 4
      case ListUsers => 3
      case DeleteAddOn => 2
      case RemoveFinalizer => 1
  }

  function ToDo(s: State, n: string): nat {
    8 * WorkRank(s, n) + PassRank(s, n)
  }

  /** The configuration is stored and under deletion, no DRPolicy blocks it, and no pass that began before its
      deletion is still at it. */
  ghost predicate Doomed(s: State, n: string, uid: nat) {
    && Inv(s) && Has(s, n, uid) && s.configs[n].deleting && Unused(s.configs[n].clusters, s.policies)
    && !(s.pc.Live? && s.pc.name == n)
  }

  // ---------- the steps meanwhile ----------

  ghost predicate OthersStep(s: State, s': State) {
    Create(s, s') || Delete(s, s') || ChangePolicies(s, s') || WorkAgent(s, s')
  }

  /** Anything but an abort of a deletion pass over `n`. Users create and delete configurations and change
      policies, the work agent applies and collects ManifestWorks, and the worker also visits others. */
  ghost predicate Goes(s: State, s': State, n: string) {
    OthersStep(s, s') || (WorkerStep(s, s') && (At(s, n) ==> Current(s) && s' == DyingStep(s)))
  }

  /** A step of the worker at `n`, or to it. */
  predicate Works(s: State, s': State, n: string) {
    s'.pc != s.pc && (At(s, n) || At(s', n))
  }

  /** The pass has found the ManifestWork still under deletion, and ends to be repeated. */
  predicate Waits(s: State, s': State, n: string) {
    At(s, n) && s.pc.stage == DeleteWork && WorkRank(s, n) == 1 && s'.pc == Idle
  }

  /** Nobody else brings the teardown back. */
  lemma OthersNeverRaise(s: State, s': State, n: string, uid: nat)
    requires Doomed(s, n, uid) && OthersStep(s, s')
    ensures WorkRank(s', n) <= WorkRank(s, n) && PassRank(s', n) == PassRank(s, n) && !Works(s, s', n)
  {
  }

  lemma WorkerElsewhere(s: State, s': State, n: string, uid: nat)
    requires Doomed(s, n, uid) && WorkerStep(s, s') && !At(s, n) && Has(s', n, uid)
    ensures WorkRank(s', n) == WorkRank(s, n)
    ensures if At(s', n) then ToDo(s', n) + 1 == ToDo(s, n) else ToDo(s', n) == ToDo(s, n) && !Works(s, s', n)
  {
  }

  /** A step at `n` brings it nearer to its end, unless it waits for the ManifestWork. */
  lemma WorkerAt(s: State, n: string, uid: nat)
    requires Doomed(s, n, uid) && At(s, n) && Has(DyingStep(s), n, uid)
    ensures var s' := DyingStep(s);
      && WorkRank(s', n) <= WorkRank(s, n) && Works(s, s', n)
      && (if Waits(s, s', n) then ToDo(s', n) == ToDo(s, n) + 3 else ToDo(s', n) < ToDo(s, n))
  {
  }

  /** Every step: the ManifestWork never comes back, and what is left to do falls with the worker's steps at
      `n`, and rises by three only where one of them has to wait. */
  lemma GoesOn(s: State, s': State, n: string, uid: nat)
    requires Doomed(s, n, uid) && Goes(s, s', n) && Has(s', n, uid)
    ensures WorkRank(s', n) <= WorkRank(s, n)
    ensures Works(s, s', n) && !Waits(s, s', n) ==> ToDo(s', n) < ToDo(s, n)
    ensures ToDo(s', n) <= ToDo(s, n) + (if Works(s, s', n) && Waits(s, s', n) then 3 else 0)
  {
    if OthersStep(s, s') {
      OthersNeverRaise(s, s', n, uid);
    } else if At(s, n) {
      WorkerAt(s, n, uid);
    } else {
      WorkerElsewhere(s, s', n, uid);
    }
  }

  lemma StaysDoomed(s: State, s': State, n: string, uid: nat)
    requires Doomed(s, n, uid) && Goes(s, s', n) && Has(s', n, uid) && Unused(s'.configs[n].clusters, s'.policies)
    ensures Doomed(s', n, uid)
  {
    NextKeeps(s, s');
    OnlyTheLastStepRemoves(s, s', n);
  }

  // ---------- whole runs ----------

  ghost predicate GoesAt(run: seq<State>, i: nat, n: string)
    requires i + 1 < |run|
  {
    Goes(run[i], run[i + 1], n)
  }

  /** A stretch of a run during which the configuration is still stored and never blocked. */
  ghost predicate Stretch(run: seq<State>, n: string, uid: nat) {
    && run != [] && Doomed(run[0], n, uid)
    && (forall i :: 0 <= i < |run| ==> Has(run[i], n, uid) && Unused(run[i].configs[n].clusters, run[i].policies))
    && forall i :: 0 <= i < |run| - 1 ==> GoesAt(run, i, n)
  }

  /** The worker's steps at `n` that do not have to wait, and those that do. */
  function Worked(run: seq<State>, n: string): nat {
    if |run| <= 1 then 0
    else
      Worked(run[..|run| - 1], n)
      + (if Works(run[|run| - 2], run[|run| - 1], n) && !Waits(run[|run| - 2], run[|run| - 1], n) then 1 else 0)
  }

  function Waited(run: seq<State>, n: string): nat {
    if |run| <= 1 then 0
    else
      Waited(run[..|run| - 1], n)
      + (if Works(run[|run| - 2], run[|run| - 1], n) && Waits(run[|run| - 2], run[|run| - 1], n) then 1 else 0)
  }

  lemma StretchShortens(run: seq<State>, n: string, uid: nat)
    requires Stretch(run, n, uid) && |run| > 1
    ensures Stretch(run[..|run| - 1], n, uid)
  {
    var init := run[..|run| - 1];
    forall i | 0 <= i < |init| - 1 ensures GoesAt(init, i, n) {
      assert GoesAt(run, i, n);
    }
  }

  /** However the steps of others, of the work agent and of the worker interleave: while the configuration is
      stored, the worker's steps at it are bounded by what was left to do and by how often it had to wait. */
  lemma {:induction false} TeardownIsBounded(run: seq<State>, n: string, uid: nat)
    requires Stretch(run, n, uid)
    ensures Doomed(run[|run| - 1], n, uid)
    ensures WorkRank(run[|run| - 1], n) <= WorkRank(run[0], n)
    ensures Worked(run, n) + ToDo(run[|run| - 1], n) <= ToDo(run[0], n) + 3 * Waited(run, n)
    ensures WorkRank(run[0], n) == 0 ==> Waited(run, n) == 0
  {
    if |run| > 1 {
      var init := run[..|run| - 1];
      StretchShortens(run, n, uid);
      TeardownIsBounded(init, n, uid);
      var s, s' := run[|run| - 2], run[|run| - 1];
      assert GoesAt(run, |run| - 2, n);
      GoesOn(s, s', n, uid);
      StaysDoomed(s, s', n, uid);
    }
  }

  /** So the worker takes at most 22 steps at it that do not wait, besides three for each time it had to wait;
      and once the ManifestWork has been collected it never waits and six such steps are all it can take. The
      seventh takes the configuration away. */
  lemma TeardownEnds(run: seq<State>, n: string, uid: nat)
    requires Stretch(run, n, uid)
    ensures Worked(run, n) <= 22 + 3 * Waited(run, n)
    ensures n !in run[0].works ==> Waited(run, n) == 0 && Worked(run, n) <= 6
  {
    TeardownIsBounded(run, n, uid);
    assert PassRank(run[|run| - 1], n) >= 1;
  }

  // ---------- it can always go on ----------

  /** The next thing that happens to a doomed configuration when nothing else does. */
  function Advance(s: State, n: string): State
    requires n in s.configs && (s.pc == Idle || (At(s, n) && Current(s)))
  {
    if n in s.works && s.works[n] == Terminating then s.(works := s.works - {n})
    else if s.pc == Idle then Begin(s, n)
    else DyingStep(s)
  }

  /** Every such step is a step forward. */
  lemma AdvanceProgresses(s: State, n: string, uid: nat)
    requires Doomed(s, n, uid) && (s.pc == Idle || At(s, n))
    ensures Goes(s, Advance(s, n), n)
    ensures Has(Advance(s, n), n, uid) ==>
      && Doomed(Advance(s, n), n, uid) && ToDo(Advance(s, n), n) < ToDo(s, n)
      && (Advance(s, n).pc == Idle || At(Advance(s, n), n))
  {
    var s' := Advance(s, n);
    if n in s.works && s.works[n] == Terminating {
      assert WorkAgent(s, s');
    }
    if Has(s', n, uid) {
      StaysDoomed(s, s', n, uid);
    }
  }

  lemma GoesBefore(s: State, rest: seq<State>, n: string)
    requires rest != [] && Goes(s, rest[0], n) && forall i :: 0 <= i < |rest| - 1 ==> GoesAt(rest, i, n)
    ensures forall i :: 0 <= i < |rest| ==> GoesAt([s] + rest, i, n)
  {
    forall i | 0 <= i < |rest| ensures GoesAt([s] + rest, i, n) {
      assert i > 0 ==> GoesAt(rest, i - 1, n);
    }
  }

  /** From every moment on the teardown can be carried to its end by the work agent and the worker alone. */
  lemma {:induction false} TeardownFinishes(s: State, n: string, uid: nat) returns (run: seq<State>)
    requires Doomed(s, n, uid) && (s.pc == Idle || At(s, n))
    ensures |run| > 1 && run[0] == s && !Has(run[|run| - 1], n, uid)
    ensures forall i :: 0 <= i < |run| - 1 ==> GoesAt(run, i, n)
    decreases ToDo(s, n)
  {
    AdvanceProgresses(s, n, uid);
    var s' := Advance(s, n);
    if Has(s', n, uid) {
      var rest := TeardownFinishes(s', n, uid);
      GoesBefore(s, rest, n);
      run := [s] + rest;
    } else {
      GoesBefore(s, [s'], n);
      run := [s] + [s'];
    }
  }
}
