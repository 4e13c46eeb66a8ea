/** What a delete before the first reconcile does to the addon: the configuration has no finalizer yet, so it
    is gone at once and nothing is cleaned up. */
module S3EarlyDeletion {
  import opened Options
  import opened S3Lifecycle
  import opened S3LifecycleSafety

  /** A configuration without finalizer can be deleted early. */
  predicate Fresh(s: State, n: string) {
    n in s.configs && !s.configs[n].finalizer
  }

  /** It vanishes; a pass that was about to give it the finalizer fails on it. */
  function EarlyDeleted(s: State, n: string): State {
    s.(configs := s.configs - {n}, pc := if s.pc != Idle && s.pc.name == n then Idle else s.pc)
  }

  /** The configuration is about to disappear with the next step of its deletion pass. */
  predicate Leaving(s: State, n: string) {
    s.pc.Dying? && s.pc.name == n && s.pc.stage == RemoveFinalizer
  }

  /** The condition under which an early delete is harmless: the provider has no addon, or somebody else uses
      it who is not just about to disappear. */
  predicate Harmless(s: State, n: string)
    requires n in s.configs
  {
    var p := s.configs[n].provider;
    p.Some? && p.value in s.addons ==>
      exists m <- s.configs :: m != n && s.configs[m].provider == p && !Leaving(s, m)
  }

  /** Right after an early delete every addon is used if and only if the provider has none or is used by
      another configuration. */
  lemma UsedAfterwardsIff(s: State, n: string)
    requires Inv(s) && Fresh(s, n)
    ensures AddOnsAreUsed(EarlyDeleted(s, n)) <==>
            (s.configs[n].provider.Some? && s.configs[n].provider.value in s.addons ==>
               UsedByOther(s, s.configs[n].provider.value, n))
  {
    var s' := EarlyDeleted(s, n);
    if s.configs[n].provider.Some? && s.configs[n].provider.value in s.addons {
      var p := s.configs[n].provider.value;
      if AddOnsAreUsed(s') {
        var m :| m in s'.configs && s'.configs[m].provider == Some(p);
        assert m in s.configs;
      }
    }
    if s.configs[n].provider.Some? ==> s.configs[n].provider.value !in s.addons || UsedByOther(s, s.configs[n].provider.value, n) {
      forall p <- s'.addons ensures exists m <- s'.configs :: s'.configs[m].provider == Some(p) {
        var m :| m in s.configs && s.configs[m].provider == Some(p) && m != n;
        assert m in s'.configs;
      }
    }
  }

  /** An early delete keeps the invariant of the life cycle, and with it all that follows from it, if and only
      if it is harmless. */
  lemma EarlyDeleteKeepsIff(s: State, n: string)
    requires Inv(s) && Fresh(s, n)
    ensures Inv(EarlyDeleted(s, n)) <==> Harmless(s, n)
  {
    if Harmless(s, n) {
      HarmlessKeeps(s, n);
    } else {
      HarmfulOrphans(s, n);
    }
  }

  lemma HarmlessKeeps(s: State, n: string)
    requires Inv(s) && Fresh(s, n) && Harmless(s, n)
    ensures Inv(EarlyDeleted(s, n))
  {
    var s' := EarlyDeleted(s, n);
    var p := s.configs[n].provider;
    if p.Some? && p.value in s.addons {
      var m :| m in s.configs && m != n && s.configs[m].provider == p && !Leaving(s, m);
      assert UsedByOther(s, p.value, n);
    }
    UsedAfterwardsIff(s, n);
    if s'.pc.Dying? && s'.pc.stage == RemoveFinalizer {
      UserStaysBeside(s, n);
    }
  }

  /** What a user can check beforehand: another configuration that is not under deletion uses the provider. */
  lemma LiveUserSuffices(s: State, n: string, m: string)
    requires Inv(s) && Fresh(s, n) && m in s.configs && m != n
    requires s.configs[m].provider == s.configs[n].provider && !s.configs[m].deleting
    ensures Harmless(s, n) && Inv(EarlyDeleted(s, n)) && AddOnsAreUsed(EarlyDeleted(s, n))
  {
    HarmlessKeeps(s, n);
  }

  lemma UserStaysBeside(s: State, n: string)
    requires Inv(s) && Fresh(s, n) && Harmless(s, n) && s.pc.Dying? && s.pc.stage == RemoveFinalizer && s.pc.name != n
    ensures var s', c := EarlyDeleted(s, n), s.configs[s.pc.name];
      c.provider.Some? && c.provider.value in s'.addons ==> UsedByOther(s', c.provider.value, s.pc.name)
  {
    var s', d := EarlyDeleted(s, n), s.pc.name;
    var p := s.configs[d].provider;
    if p.Some? && p.value in s.addons {
      var m :| m in s.configs && m != d && s.configs[m].provider == p;
      if m == n {
        var k :| k in s.configs && k != n && s.configs[k].provider == p && !Leaving(s, k);
        assert k in s'.configs;
      } else {
        assert m in s'.configs;
      }
    }
  }

  /** A harmful one leaves an addon that nobody uses, at once or with the worker's next step. */
  lemma HarmfulOrphans(s: State, n: string)
    requires Inv(s) && Fresh(s, n) && !Harmless(s, n)
    ensures !Inv(EarlyDeleted(s, n))
    ensures var s' := EarlyDeleted(s, n);
      !AddOnsAreUsed(s') || (s'.pc.Dying? && Current(s') && !AddOnsAreUsed(DyingStep(s')))
  {
    var s' := EarlyDeleted(s, n);
    var p := s.configs[n].provider.value;
    if AddOnsAreUsed(s') {
      var m :| m in s'.configs && s'.configs[m].provider == Some(p);
      assert m in s.configs && Leaving(s, m);
      assert forall k <- s'.configs :: s'.configs[k].provider == Some(p) ==> k in s.configs && Leaving(s, k);
      assert Current(s') && p in DyingStep(s').addons;
      assert !UsedByOther(s', p, m);
    }
  }

  // ---------- runs with early deletes ----------

  ghost predicate EarlyDelete(s: State, s': State) {
    exists n <- s.configs :: Fresh(s, n) && s' == EarlyDeleted(s, n)
  }

  ghost predicate AnyNext(s: State, s': State) {
    Next(s, s') || EarlyDelete(s, s')
  }

  ghost predicate AnyStepAt(run: seq<State>, i: nat)
    requires i + 1 < |run|
  {
    AnyNext(run[i], run[i + 1])
  }

  /** Users may delete whenever they like. */
  ghost predicate AnyRun(run: seq<State>) {
    run != [] && Init(run[0]) && forall i :: 0 <= i < |run| - 1 ==> AnyStepAt(run, i)
  }

  ghost predicate AllHarmless(run: seq<State>) {
    forall i, n :: 0 <= i < |run| - 1 && Fresh(run[i], n) && run[i + 1] == EarlyDeleted(run[i], n) ==> Harmless(run[i], n)
  }

  /** As long as every early delete is harmless, every addon is used and the whole invariant holds. */
  lemma {:induction false} HarmlessRunsKeep(run: seq<State>, k: nat)
    requires AnyRun(run) && AllHarmless(run) && k < |run|
    ensures Inv(run[k])
  {
    if k > 0 {
      HarmlessRunsKeep(run, k - 1);
      var s, s' := run[k - 1], run[k];
      assert AnyStepAt(run, k - 1);
      if Next(s, s') {
        NextKeeps(s, s');
      } else {
        var n :| n in s.configs && Fresh(s, n) && s' == EarlyDeleted(s, n);
        HarmlessKeeps(s, n);
      }
    }
  }

  /** Over whole runs the two are the same. */
  lemma HarmlessIff(run: seq<State>)
    requires AnyRun(run)
    ensures AllHarmless(run) <==> forall k :: 0 <= k < |run| ==> Inv(run[k])
  {
    if AllHarmless(run) {
      forall k | 0 <= k < |run| ensures Inv(run[k]) {
        HarmlessRunsKeep(run, k);
      }
    }
    if forall k :: 0 <= k < |run| ==> Inv(run[k]) {
      forall i, n | 0 <= i < |run| - 1 && Fresh(run[i], n) && run[i + 1] == EarlyDeleted(run[i], n)
        ensures Harmless(run[i], n)
      {
        assert Inv(run[i]) && Inv(run[i + 1]);
        EarlyDeleteKeepsIff(run[i], n);
      }
    }
  }

  lemma StepStays(run: seq<State>, s: State, i: nat)
    requires i + 1 < |run| && AnyStepAt(run, i)
    ensures AnyStepAt(run + [s], i)
  {
    assert (run + [s])[i] == run[i] && (run + [s])[i + 1] == run[i + 1];
  }

  lemma LastStep(run: seq<State>, s: State)
    requires run != [] && AnyNext(run[|run| - 1], s)
    ensures AnyStepAt(run + [s], |run| - 1)
  {
    assert (run + [s])[|run| - 1] == run[|run| - 1] && (run + [s])[|run|] == s;
  }

  lemma RunExtends(run: seq<State>, s: State)
    requires AnyRun(run) && AnyNext(run[|run| - 1], s)
    ensures AnyRun(run + [s])
  {
    assert (run + [s])[0] == run[0];
    LastStep(run, s);
    forall i | 0 <= i < |run| - 1 ensures AnyStepAt(run + [s], i) {
      StepStays(run, s, i);
    }
  }

  /** Wherever a run allows a harmful early delete, it can go on to a state with an addon that nobody uses. */
  lemma HarmfulDeleteOrphans(run: seq<State>, n: string) returns (longer: seq<State>)
    requires AnyRun(run) && Inv(run[|run| - 1]) && Fresh(run[|run| - 1], n) && !Harmless(run[|run| - 1], n)
    ensures AnyRun(longer) && run < longer && longer[|run|] == EarlyDeleted(run[|run| - 1], n)
    ensures !AddOnsAreUsed(longer[|longer| - 1])
  {
    var s' := EarlyDeleted(run[|run| - 1], n);
    HarmfulOrphans(run[|run| - 1], n);
    RunExtends(run, s');
    longer := run + [s'];
    if AddOnsAreUsed(s') {
      assert WorkerStep(s', DyingStep(s'));
      RunExtends(longer, DyingStep(s'));
      longer := longer + [DyingStep(s')];
    }
  }

  // ---------- it happens ----------

  /** The state `s` can be reached; proofs need not look at how. */
  ghost predicate Reachable(s: State) {
    Inv(s) && exists run: seq<State> :: AnyRun(run) && run[0] == START && run[|run| - 1] == s
  }

  lemma Go(s: State, s': State)
    requires Reachable(s) && Next(s, s')
    ensures Reachable(s')
  {
    var run: seq<State> :| AnyRun(run) && run[0] == START && run[|run| - 1] == s;
    NextKeeps(s, s');
    RunExtends(run, s');
    assert (run + [s'])[0] == START && (run + [s'])[|run + [s']| - 1] == s';
  }

  lemma LiveGoes(s: State, s': State)
    requires Reachable(s) && s.pc.Live? && Current(s) && s' == LiveStep(s)
    ensures Reachable(s')
  {
    Go(s, s');
  }

  lemma DyingGoes(s: State, s': State)
    requires Reachable(s) && s.pc.Dying? && Current(s) && s' == DyingStep(s)
    ensures Reachable(s')
  {
    Go(s, s');
  }

  lemma WorkerAborts(s: State)
    requires Reachable(s)
    ensures Reachable(s.(pc := Idle))
  {
    Go(s, s.(pc := Idle));
  }

  lemma WorkerBegins(s: State, n: string)
    requires Reachable(s) && s.pc == Idle && n in s.configs
    ensures Reachable(Begin(s, n))
  {
    Go(s, Begin(s, n));
  }

  function Created(s: State, n: string, clusters: seq<string>, provider: Option<string>): State {
    s.(configs := s.configs[n := Config(s.nextUid, clusters, provider, false, false, false)], nextUid := s.nextUid + 1)
  }

  lemma UserCreates(s: State, n: string, clusters: seq<string>, provider: Option<string>)
    requires Reachable(s) && n !in s.configs && clusters != []
    ensures Reachable(Created(s, n, clusters, provider))
  {
    assert Create(s, Created(s, n, clusters, provider));
    Go(s, Created(s, n, clusters, provider));
  }

  const START := State(map[], 0, [], {}, map[], {}, Idle, {})

  lemma StartIsReachable()
    ensures Reachable(START)
  {
    assert AnyRun([START]) && [START][0] == START && [START][|[START]| - 1] == START;
  }

  /** Two configurations on one provider, each with a cluster of its own. */
  datatype Example = Example(a: string, b: string, provider: string, aCluster: string, bCluster: string)

  predicate Proper(x: Example) {
    x.a != x.b && x.aCluster != x.bCluster
  }

  function One(x: Example, finalizer: bool, addons: set<string>, pc: Pc): State {
    State(map[x.a := Config(0, [x.aCluster], Some(x.provider), finalizer, false, false)], 1, [], {}, map[], addons, pc, {})
  }

  /** The first configuration is created and gets its finalizer. */
  lemma FirstIsHeld(x: Example)
    ensures Reachable(One(x, true, {}, Idle))
  {
    StartIsReachable();
    UserCreates(START, x.a, [x.aCluster], Some(x.provider));
    WorkerBegins(One(x, false, {}, Idle), x.a);
    LiveGoes(One(x, false, {}, Live(x.a, 0, AddFinalizer)), One(x, true, {}, Idle));
  }

  /** In a second pass, which is then aborted, it gets the addon. */
  lemma FirstGetsAddOn(x: Example)
    ensures Reachable(One(x, true, {x.provider}, Idle))
  {
    FirstIsHeld(x);
    var p := x.provider;
    WorkerBegins(One(x, true, {}, Idle), x.a);
    LiveGoes(One(x, true, {}, Live(x.a, 0, CheckUnique)), One(x, true, {}, Live(x.a, 0, EnsureAddOn)));
    LiveGoes(One(x, true, {}, Live(x.a, 0, EnsureAddOn)), One(x, true, {p}, Live(x.a, 0, EnsureWork)));
    WorkerAborts(One(x, true, {p}, Live(x.a, 0, EnsureWork)));
  }

  function Two(x: Example, pc: Pc, cleaned: set<nat>): State {
    State(
      map[x.a := Config(0, [x.aCluster], Some(x.provider), true, true, false),
          x.b := Config(1, [x.bCluster], Some(x.provider), false, false, false)],
      2, [], {}, map[], {x.provider}, pc, cleaned)
  }

  /** The second configuration is created and the first is deleted. */
  lemma FirstIsDeleted(x: Example)
    requires Proper(x)
    ensures Reachable(Two(x, Idle, {}))
  {
    FirstGetsAddOn(x);
    var s := One(x, true, {x.provider}, Idle);
    UserCreates(s, x.b, [x.bCluster], Some(x.provider));
    s := Created(s, x.b, [x.bCluster], Some(x.provider));
    assert s.configs[x.a := s.configs[x.a].(deleting := true)] == Two(x, Idle, {}).configs;
    assert Delete(s, Two(x, Idle, {}));
    Go(s, Two(x, Idle, {}));
  }

  /** The deletion pass of the first, up to its look for other users. */
  lemma FirstIsCleanedUp(x: Example)
    requires Proper(x)
    ensures Reachable(Two(x, Dying(x.a, 0, ListUsers), {0}))
  {
    FirstIsDeleted(x);
    WorkerBegins(Two(x, Idle, {}), x.a);
    DyingGoes(Two(x, Dying(x.a, 0, CheckPolicies), {}), Two(x, Dying(x.a, 0, RemoveProfile), {}));
    DyingGoes(Two(x, Dying(x.a, 0, RemoveProfile), {}), Two(x, Dying(x.a, 0, DeleteWork), {0}));
    DyingGoes(Two(x, Dying(x.a, 0, DeleteWork), {0}), Two(x, Dying(x.a, 0, ListUsers), {0}));
  }

  /** It finds the second and so leaves the addon alone. */
  lemma SecondKeepsAddOn(x: Example)
    requires Proper(x)
    ensures Reachable(Two(x, Dying(x.a, 0, RemoveFinalizer), {0}))
  {
    FirstIsCleanedUp(x);
    var s := Two(x, Dying(x.a, 0, ListUsers), {0});
    assert s.configs[x.b].provider == Some(x.provider);
    assert UsedByOther(s, x.provider, x.a);
    DyingGoes(s, Two(x, Dying(x.a, 0, RemoveFinalizer), {0}));
  }

  /** The second one is deleted before its first reconcile. The provider is used by another configuration at that moment,
      but that one is leaving: when it is gone, the addon is still there and nobody uses it. */
  lemma EarlyDeletionOrphansAddOn(x: Example) returns (run: seq<State>)
    requires Proper(x)
    ensures AnyRun(run) && run[0] == START && !AddOnsAreUsed(run[|run| - 1])
  {
    SecondKeepsAddOn(x);
    var s := Two(x, Dying(x.a, 0, RemoveFinalizer), {0});
    var before: seq<State> :| AnyRun(before) && before[0] == START && before[|before| - 1] == s;
    run := HarmfulDeleteOrphans(before, x.b);
  }
}
