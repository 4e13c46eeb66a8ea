/** What holds over every run of the S3Configuration life cycle. */
module S3LifecycleSafety {
  import opened Options
  import opened S3Validation
  import opened S3Lifecycle

  // ---------- the invariant ----------

  ghost predicate SoundConfigs(s: State) {
    && (forall n <- s.configs :: s.configs[n].uid < s.nextUid && (s.configs[n].deleting ==> s.configs[n].finalizer))
    && (forall m <- s.configs, n <- s.configs :: s.configs[m].uid == s.configs[n].uid ==> m == n)
  }

  ghost predicate SoundPc(s: State) {
    match s.pc
    case Idle => true
    case Live(n, u, todo) =>
      && Current(s) && u !in s.cleaned
      && (if todo == AddFinalizer then !s.configs[n].deleting && !s.configs[n].finalizer else s.configs[n].finalizer)
      && (todo == EnsureAddOn || todo == EnsureWork ==> s.configs[n].provider.Some?)
    case Dying(n, u, stage) => Current(s) && s.configs[n].deleting && DyingSound(s, n, u, stage)
  }

  /** What a deletion pass has made sure of by the time it reaches a stage. */
  ghost predicate DyingSound(s: State, n: string, u: nat, stage: DyingStage)
    requires n in s.configs
  {
    && (stage != CheckPolicies && stage != RemoveProfile ==> u in s.cleaned)
    && (stage == ListUsers || stage == DeleteAddOn || stage == RemoveFinalizer ==> n !in s.works)
    && (stage == DeleteAddOn ==>
          s.configs[n].provider.Some? && forall m <- s.configs ::
            m != n && s.configs[m].provider == s.configs[n].provider ==> !s.configs[m].ready)
    && (stage == RemoveFinalizer && s.configs[n].provider.Some? && s.configs[n].provider.value in s.addons ==>
          UsedByOther(s, s.configs[n].provider.value, n))
  }

  /** From the first clean-up pass on, a configuration's profile is not in the Ramen config. */
  ghost predicate CleanedIsClean(s: State) {
    && (forall u <- s.cleaned :: u < s.nextUid)
    && (forall n <- s.configs :: s.configs[n].uid in s.cleaned ==> s.configs[n].deleting && n !in s.profiles)
  }

  ghost predicate WorksBelong(s: State) {
    forall n <- s.works :: n in s.configs && s.configs[n].provider.Some? && s.configs[n].finalizer
  }

  /** A provider has the addon only if some stored internal configuration uses it. */
  ghost predicate AddOnsAreUsed(s: State) {
    forall p <- s.addons :: exists n <- s.configs :: s.configs[n].provider == Some(p)
  }

  ghost predicate Inv(s: State) {
    SoundConfigs(s) && SoundPc(s) && CleanedIsClean(s) && WorksBelong(s) && AddOnsAreUsed(s)
  }

  /** A configuration may be changed in everything but its provider, and none is lost. */
  lemma UsersStay(s: State, s': State)
    requires AddOnsAreUsed(s) && s'.addons == s.addons
    requires forall n <- s.configs :: n in s'.configs && s'.configs[n].provider == s.configs[n].provider
    ensures AddOnsAreUsed(s')
    ensures forall p, n :: UsedByOther(s, p, n) ==> UsedByOther(s', p, n)
  {
  }

  lemma EnsureAddOnKeeps(s: State)
    requires Inv(s) && s.pc.Live? && s.pc.todo == EnsureAddOn
    ensures Inv(LiveStep(s))
  {
    var s' := LiveStep(s);
    forall p <- s'.addons ensures exists n <- s'.configs :: s'.configs[n].provider == Some(p) {
      if p in s.addons {
        var n :| n in s.configs && s.configs[n].provider == Some(p);
        assert n in s'.configs;
      } else {
        assert s'.configs[s.pc.name].provider == Some(p);
      }
    }
  }

  lemma AddFinalizerKeeps(s: State)
    requires Inv(s) && s.pc.Live? && s.pc.todo == AddFinalizer
    ensures Inv(LiveStep(s))
  {
    UsersStay(s, LiveStep(s));
  }

  lemma SetReadyKeeps(s: State)
    requires Inv(s) && s.pc.Live? && s.pc.todo == SetReady
    ensures Inv(LiveStep(s))
  {
    UsersStay(s, LiveStep(s));
  }

  lemma LiveStepKeeps(s: State)
    requires Inv(s) && s.pc.Live?
    ensures Inv(LiveStep(s))
  {
    if s.pc.todo == EnsureAddOn {
      EnsureAddOnKeeps(s);
    } else if s.pc.todo == AddFinalizer {
      AddFinalizerKeeps(s);
    } else if s.pc.todo == SetReady {
      SetReadyKeeps(s);
    } else {
      UsersStay(s, LiveStep(s));
    }
  }

  lemma DyingStepKeeps(s: State)
    requires Inv(s) && s.pc.Dying?
    ensures Inv(DyingStep(s))
  {
    var s' := DyingStep(s);
    match s.pc.stage
    case RemoveFinalizer => LastStepKeeps(s);
    case DeleteAddOn =>
      assert AddOnsAreUsed(s');
    case _ => UsersStay(s, s');
  }

  lemma LastStepKeeps(s: State)
    requires Inv(s) && s.pc.Dying? && s.pc.stage == RemoveFinalizer
    ensures Inv(DyingStep(s))
  {
    var s', n := DyingStep(s), s.pc.name;
    forall p <- s'.addons ensures exists m <- s'.configs :: s'.configs[m].provider == Some(p) {
      if s.configs[n].provider == Some(p) {
        assert UsedByOther(s, p, n);
        var m :| m in s.configs && m != n && s.configs[m].provider == Some(p);
        assert m in s'.configs;
      } else {
        var m :| m in s.configs && s.configs[m].provider == Some(p);
        assert m in s'.configs;
      }
    }
  }

  lemma WorkerKeeps(s: State, s': State)
    requires Inv(s) && WorkerStep(s, s')
    ensures Inv(s')
  {
    if s' == s.(pc := Idle) {
      UsersStay(s, s');
    } else if s.pc.Live? {
      LiveStepKeeps(s);
    } else if s.pc.Dying? {
      DyingStepKeeps(s);
    } else {
      UsersStay(s, s');
    }
  }

  lemma CreateKeeps(s: State, s': State)
    requires Inv(s) && Create(s, s')
    ensures Inv(s')
  {
    UsersStay(s, s');
  }

  lemma DeleteKeeps(s: State, s': State)
    requires Inv(s) && Delete(s, s')
    ensures Inv(s')
  {
    UsersStay(s, s');
  }

  lemma OthersKeep(s: State, s': State)
    requires Inv(s) && (ChangePolicies(s, s') || WorkAgent(s, s'))
    ensures Inv(s')
  {
    UsersStay(s, s');
  }

  /** A step of the worker touches only what belongs to the configuration it is at, and of that configuration's object
      only finalizer and readiness. */
  lemma WorkerTouchesOwn(s: State, s': State, m: string, p: string)
    requires WorkerStep(s, s')
    ensures s'.policies == s.policies && s'.nextUid == s.nextUid
    ensures s.pc == Idle || m != s.pc.name ==>
      && (m in s'.configs <==> m in s.configs) && (m in s.configs ==> s'.configs[m] == s.configs[m])
      && (m in s'.works <==> m in s.works) && (m in s.works ==> s'.works[m] == s.works[m])
      && (m in s'.profiles <==> m in s.profiles)
    ensures m in s.configs && m in s'.configs ==>
      s'.configs[m] == s.configs[m].(finalizer := s'.configs[m].finalizer, ready := s'.configs[m].ready)
    ensures (p in s'.addons) != (p in s.addons) ==> Current(s) && s.configs[s.pc.name].provider == Some(p)
  {
  }

  lemma NextKeeps(s: State, s': State)
    requires Inv(s) && Next(s, s')
    ensures Inv(s')
  {
    if WorkerStep(s, s') {
      WorkerKeeps(s, s');
    } else if Create(s, s') {
      CreateKeeps(s, s');
    } else if Delete(s, s') {
      DeleteKeeps(s, s');
    } else {
      OthersKeep(s, s');
    }
  }

  lemma {:induction false} RunKeeps(run: seq<State>, k: nat)
    requires Run(run) && k < |run|
    ensures Inv(run[k])
  {
    if k > 0 {
      RunKeeps(run, k - 1);
      assert StepAt(run, k - 1);
      NextKeeps(run[k - 1], run[k]);
    }
  }

  // ---------- the order of the teardown ----------

  /** This very configuration is stored. */
  predicate Has(s: State, n: string, uid: nat) {
    n in s.configs && s.configs[n].uid == uid
  }

  /** Configurations keep what a user wrote into them, and their deletion mark. */
  ghost predicate Kept(s: State, s': State, n: string) {
    && n in s.configs && Has(s', n, s.configs[n].uid)
    && s'.configs[n].clusters == s.configs[n].clusters && s'.configs[n].provider == s.configs[n].provider
    && (s.configs[n].deleting ==> s'.configs[n].deleting)
  }

  lemma LiveStepRemovesNone(s: State, n: string)
    requires Inv(s) && s.pc.Live? && n in s.configs
    ensures Kept(s, LiveStep(s), n)
  {
  }

  lemma DyingStepRemovesOne(s: State, n: string)
    requires Inv(s) && s.pc.Dying? && n in s.configs
    ensures Kept(s, DyingStep(s), n) || s.pc == Dying(n, s.configs[n].uid, RemoveFinalizer)
  {
  }

  /** Only the last step of a deletion pass takes a configuration away. */
  lemma OnlyTheLastStepRemoves(s: State, s': State, n: string)
    requires Inv(s) && Next(s, s') && n in s.configs
    ensures Kept(s, s', n) || s.pc == Dying(n, s.configs[n].uid, RemoveFinalizer)
  {
    if WorkerStep(s, s') {
      if s.pc.Live? {
        LiveStepRemovesNone(s, n);
      } else if s.pc.Dying? {
        DyingStepRemovesOne(s, n);
      }
    }
  }

  /** At some moment up to `k` no DRPolicy used any cluster of the configuration, which was already
      marked for deletion. */
  ghost predicate SawUnused(run: seq<State>, k: nat, n: string, c: Config)
    requires k < |run|
  {
    exists m :: 0 <= m <= k && Has(run[m], n, c.uid) && run[m].configs[n].deleting && Unused(c.clusters, run[m].policies)
  }

  predicate PastPolicies(pc: Pc) {
    pc.Dying? && pc.stage != CheckPolicies
  }

  lemma PassPastPolicies(s: State)
    requires Inv(s) && s.pc.Dying? && PastPolicies(DyingStep(s).pc)
    ensures DyingStep(s).pc.name == s.pc.name && DyingStep(s).pc.uid == s.pc.uid
    ensures s.pc.stage != RemoveFinalizer
    ensures PastPolicies(s.pc) || Unused(s.configs[s.pc.name].clusters, s.policies)
  {
  }

  lemma BeforePastPolicies(s: State, s': State)
    requires Inv(s) && Next(s, s') && PastPolicies(s'.pc) && Current(s')
    ensures s.pc.Dying? && s.pc.name == s'.pc.name && s.pc.uid == s'.pc.uid && Kept(s, s', s.pc.name)
    ensures PastPolicies(s.pc) || Unused(s.configs[s.pc.name].clusters, s.policies)
  {
    if s'.pc == s.pc {
      OnlyTheLastStepRemoves(s, s', s.pc.name);
    } else {
      PassPastPolicies(s);
      DyingStepRemovesOne(s, s.pc.name);
    }
  }

  lemma SawUnusedStays(run: seq<State>, k: nat, l: nat, n: string, c: Config, d: Config)
    requires k <= l < |run| && SawUnused(run, k, n, c) && c.uid == d.uid && c.clusters == d.clusters
    ensures SawUnused(run, l, n, d)
  {
  }

  lemma {:induction false} PolicyCheckCameFirst(run: seq<State>, k: nat)
    requires Run(run) && k < |run| && PastPolicies(run[k].pc) && Current(run[k])
    ensures SawUnused(run, k, run[k].pc.name, Spec(run[k]))
  {
    RunKeeps(run, k - 1);
    var s, s' := run[k - 1], run[k];
    assert StepAt(run, k - 1);
    BeforePastPolicies(s, s');
    assert Current(s);
    if PastPolicies(s.pc) {
      PolicyCheckCameFirst(run, k - 1);
    } else {
      assert 0 <= k - 1 <= k - 1 && Has(s, s.pc.name, s.pc.uid);
    }
    SawUnusedStays(run, k - 1, k, s.pc.name, Spec(s), Spec(s'));
  }

  /** A configuration that has been reconciled leaves the store only under deletion, after a listing of the
      DRPolicies made under that deletion showed none on its clusters, with its profile out of the Ramen
      config and its ManifestWork gone. */
  lemma RemovedLast(run: seq<State>, k: nat, n: string)
    requires Run(run) && k + 1 < |run| && n in run[k].configs && !Has(run[k + 1], n, run[k].configs[n].uid)
    ensures run[k].configs[n].deleting && n !in run[k].profiles && n !in run[k].works
    ensures SawUnused(run, k, n, run[k].configs[n])
  {
    RunKeeps(run, k);
    assert StepAt(run, k);
    OnlyTheLastStepRemoves(run[k], run[k + 1], n);
    PolicyCheckCameFirst(run, k);
  }

  lemma {:induction false} CleanedGrows(run: seq<State>, i: nat, j: nat)
    requires Run(run) && i <= j < |run|
    ensures run[i].cleaned <= run[j].cleaned
  {
    if i < j {
      CleanedGrows(run, i, j - 1);
      assert StepAt(run, j - 1);
    }
  }

  /** From the first clean-up pass on, the profile of a configuration stays out of the Ramen config for as
      long as the configuration is stored. */
  lemma ProfileStaysOut(run: seq<State>, i: nat, j: nat)
    requires Run(run) && i < j < |run|
    requires run[i].pc.Dying? && Current(run[i]) && run[i].pc.stage == RemoveProfile && run[i + 1] == DyingStep(run[i])
    requires Has(run[j], run[i].pc.name, run[i].pc.uid)
    ensures run[i].pc.name !in run[j].profiles
  {
    RunKeeps(run, i);
    CleanedGrows(run, i + 1, j);
    RunKeeps(run, j);
  }

  // ---------- the addon ----------

  /** A provider has the addon only while some stored configuration uses the provider. */
  lemma AddOnOnlyIfUsed(run: seq<State>, k: nat, p: string)
    requires Run(run) && k < |run| && p in run[k].addons
    ensures exists n <- run[k].configs :: run[k].configs[n].provider == Some(p)
  {
    RunKeeps(run, k);
  }

  /** The addon is never deleted under a configuration that is or was Ready and is not itself deleted. */
  lemma AddOnKeptForReady(run: seq<State>, k: nat, p: string, n: string)
    requires Run(run) && k + 1 < |run| && p in run[k].addons && p !in run[k + 1].addons
    requires n in run[k].configs && run[k].configs[n].provider == Some(p) && run[k].configs[n].ready
    ensures run[k].configs[n].deleting
  {
    RunKeeps(run, k);
    assert StepAt(run, k);
    assert run[k].pc.Dying? && run[k].pc.stage == DeleteAddOn;
  }
}
