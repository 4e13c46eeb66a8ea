/** A live S3Configuration can always become Ready: the worker and the work agent alone carry it there. */
module S3Setup {
  import opened Options
  import opened S3Lifecycle
  import opened S3LifecycleSafety

  /** The configuration is stored and live, and the worker is at it or idle. */
  predicate At(s: State, n: string) {
    && n in s.configs && !s.configs[n].deleting && !s.configs[n].ready
    && (s.pc == Idle || (s.pc.Live? && s.pc.name == n))
  }

  ghost predicate Pending(s: State, n: string) {
    Inv(s) && At(s, n)
  }

  /** What the stage of a pass says about the configuration. */
  predicate Fits(s: State, n: string) {
    At(s, n) && (s.pc.Live? ==>
      && Current(s) && (s.pc.todo == AddFinalizer <==> !s.configs[n].finalizer)
      && (s.pc.todo == EnsureAddOn || s.pc.todo == EnsureWork ==> s.configs[n].provider.Some?))
  }

  lemma PendingFits(s: State, n: string)
    requires Pending(s, n)
    ensures Fits(s, n)
  {
  }

  /** Ready, with its profile in the Ramen config, and if internal with the addon and an applied ManifestWork. */
  ghost predicate SetUp(s: State, n: string) {
    && n in s.configs && s.configs[n].ready && !s.configs[n].deleting && s.configs[n].finalizer && n in s.profiles
    && (s.configs[n].provider.Some? ==> s.configs[n].provider.value in s.addons && n in s.works && s.works[n] == Applied)
  }

  /** What a pass has made sure of by the stage it is at. */
  ghost predicate Prepared(s: State, n: string)
    requires n in s.configs
  {
    s.pc.Live? && s.pc.name == n ==>
      var c := s.configs[n]; var todo := s.pc.todo;
      && (c.provider.Some? && todo in {EnsureWork, AddProfile, SetReady} ==> c.provider.value in s.addons)
      && (c.provider.Some? && todo in {AddProfile, SetReady} ==> n in s.works && s.works[n] == Applied)
      && (todo == SetReady ==> n in s.profiles)
  }

  /** A ManifestWork is under deletion, missing, not yet applied, or applied. */
  function WorkRank(s: State, n: string): nat {
    if n !in s.works then 2
    else match s.works[n]
      case Terminating => 3
      case Applying => 1
      case Applied => 0
  }

  function StageRank(s: State): nat {
    if !s.pc.Live? then 7
    else match s.pc.todo
      case AddFinalizer => 6
      case CheckUnique => 6
      case EnsureAddOn => 5
      case EnsureWork => 4
      case AddProfile => 3
      case SetReady => 2
  }

  function ToDo(s: State, n: string): nat
    requires n in s.configs
  {
    (if s.configs[n].finalizer then 0 else 100) + 10 * WorkRank(s, n) + StageRank(s)
  }

  /** The next thing that happens when nobody else acts: the work agent finishes what it is at before the worker
      looks at the ManifestWork. */
  function Advance(s: State, n: string): State
    requires Fits(s, n)
  {
    if s.pc == Idle then Begin(s, n)
    else if s.pc.todo == EnsureWork && n in s.works && s.works[n] != Applied then
      s.(works := if s.works[n] == Applying then s.works[n := Applied] else s.works - {n})
    else LiveStep(s)
  }

  lemma AdvanceIsStep(s: State, n: string)
    requires Fits(s, n)
    ensures WorkerStep(s, Advance(s, n)) || WorkAgent(s, Advance(s, n))
  {
    if s.pc.Live? && s.pc.todo == EnsureWork && n in s.works && s.works[n] != Applied {
      assert WorkAgent(s, Advance(s, n));
    }
  }

  lemma AdvanceLowers(s: State, n: string)
    requires Fits(s, n) && Prepared(s, n)
    ensures var s' := Advance(s, n);
      SetUp(s', n) || (At(s', n) && Prepared(s', n) && ToDo(s', n) < ToDo(s, n))
  {
  }

  /** Every such step is a step forward. */
  lemma AdvanceProgresses(s: State, n: string)
    requires Pending(s, n) && Prepared(s, n)
    ensures Fits(s, n)
    ensures var s' := Advance(s, n);
      SetUp(s', n) || (Pending(s', n) && Prepared(s', n) && ToDo(s', n) < ToDo(s, n))
  {
    PendingFits(s, n);
    AdvanceIsStep(s, n);
    AdvanceLowers(s, n);
    NextKeeps(s, Advance(s, n));
  }

  ghost predicate GoesAt(run: seq<State>, i: nat)
    requires i + 1 < |run|
  {
    WorkerStep(run[i], run[i + 1]) || WorkAgent(run[i], run[i + 1])
  }

  lemma GoesBefore(s: State, rest: seq<State>)
    requires rest != [] && (WorkerStep(s, rest[0]) || WorkAgent(s, rest[0])) && forall i :: 0 <= i < |rest| - 1 ==> GoesAt(rest, i)
    ensures forall i :: 0 <= i < |rest| ==> GoesAt([s] + rest, i)
  {
    forall i | 0 <= i < |rest| ensures GoesAt([s] + rest, i) {
      assert i > 0 ==> GoesAt(rest, i - 1);
    }
  }

  lemma {:induction false} Finishes(s: State, n: string) returns (run: seq<State>)
    requires Pending(s, n) && Prepared(s, n)
    ensures |run| > 1 && run[0] == s && SetUp(run[|run| - 1], n)
    ensures forall i :: 0 <= i < |run| - 1 ==> GoesAt(run, i)
    decreases ToDo(s, n)
  {
    AdvanceProgresses(s, n);
    AdvanceIsStep(s, n);
    var s' := Advance(s, n);
    if SetUp(s', n) {
      GoesBefore(s, [s']);
      run := [s] + [s'];
    } else {
      var rest := Finishes(s', n);
      GoesBefore(s, rest);
      run := [s] + rest;
    }
  }

  /** From every reachable state in which no pass is under way, a live configuration can be made Ready by steps of the
      worker and the work agent alone. */
  lemma SetupFinishes(s: State, n: string) returns (run: seq<State>)
    requires Inv(s) && s.pc == Idle && n in s.configs && !s.configs[n].deleting && !s.configs[n].ready
    ensures |run| > 1 && run[0] == s && SetUp(run[|run| - 1], n)
    ensures forall i :: 0 <= i < |run| - 1 ==> GoesAt(run, i)
  {
    run := Finishes(s, n);
  }
}
