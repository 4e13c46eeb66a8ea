/** The S3Configuration reconciler as code: every API call it makes is a step of the life cycle, with
    anything that others do in between. */
module S3Reconciler {
  import opened Options
  import opened S3Validation
  import opened S3Lifecycle
  import opened S3LifecycleSafety

  /** The steps of users and of the work agent. */
  ghost predicate OthersStep(s: State, s': State) {
    Create(s, s') || Delete(s, s') || ChangePolicies(s, s') || WorkAgent(s, s')
  }

  lemma StepStays(trace: seq<State>, s: State, i: nat)
    requires i + 1 < |trace| && StepAt(trace, i)
    ensures StepAt(trace + [s], i)
  {
    assert (trace + [s])[i] == trace[i] && (trace + [s])[i + 1] == trace[i + 1];
  }

  lemma LastStep(trace: seq<State>, s: State)
    requires trace != [] && Next(trace[|trace| - 1], s)
    ensures StepAt(trace + [s], |trace| - 1)
  {
    assert (trace + [s])[|trace| - 1] == trace[|trace| - 1] && (trace + [s])[|trace|] == s;
  }

  lemma RunExtends(trace: seq<State>, s: State)
    requires Run(trace) && Next(trace[|trace| - 1], s)
    ensures Run(trace + [s])
  {
    assert (trace + [s])[0] == trace[0];
    LastStep(trace, s);
    forall i | 0 <= i < |trace| - 1 ensures StepAt(trace + [s], i) {
      StepStays(trace, s, i);
    }
  }

  /** How a pass ends. */
  datatype Outcome =
    | NothingToDo | FinalizerAdded
    | Rejected | WorkPending | SecretMissing | ClustersTaken | Complete
    | Blocked | WorkTerminating | Removed

  function ClusterLists(configs: map<string, Config>): map<string, seq<string>> {
    map n <- configs :: configs[n].clusters
  }

  /** Uses a provider: what the clean-up looks for in its listing. */
  method FindOtherUser(configs: map<string, Config>, provider: string, name: string) returns (found: bool)
    ensures found <==> exists n <- configs :: n != name && configs[n].provider == Some(provider)
  {
    var left := configs.Keys;
    while left != {}
      invariant left <= configs.Keys
      invariant forall n <- configs :: n !in left && n != name ==> configs[n].provider != Some(provider)
      decreases left
    {
      var n :| n in left;
      left := left - {n};
      if n == name {
        continue;
      }
      if configs[n].provider == Some(provider) {
        return true;
      }
    }
    return false;
  }

  class S3ConfigurationReconciler {
    var configs: map<string, Config>
    var policies: seq<DRPolicy>
    var profiles: set<string>
    var works: map<string, Work>
    var addons: set<string>
    ghost var nextUid: nat
    ghost var pc: Pc
    ghost var cleaned: set<nat>
    ghost var trace: seq<State>

    ghost function Now(): State
      reads this
    {
      State(configs, nextUid, policies, profiles, works, addons, pc, cleaned)
    }

    /** The trace is a run, and ends here. */
    ghost predicate Traced()
      reads this
    {
      Run(trace) && trace[|trace| - 1] == Now() && Inv(Now())
    }

    constructor ()
      ensures Traced() && Init(Now()) && trace == [Now()] && pc == Idle
    {
      configs, policies, profiles, works, addons := map[], [], {}, map[], {};
      nextUid, pc, cleaned := 0, Idle, {};
      new;
      trace := [Now()];
    }

    /** Takes note of a step that has just been made. */
    ghost method Note(was: State)
      requires Run(trace) && trace[|trace| - 1] == was && Inv(was) && Next(was, Now())
      modifies this`trace
      ensures Traced() && trace == old(trace) + [Now()]
    {
      NextKeeps(was, Now());
      RunExtends(trace, Now());
      trace := trace + [Now()];
    }

    /** The configuration the pass is at, as it was read: its spec cannot have changed. */
    ghost predicate At(c: Config)
      reads this
    {
      Current(Now()) && Spec(Now()).clusters == c.clusters && Spec(Now()).provider == c.provider
    }

    /** Whatever others do before the next API call; callers know no more of it than this. */
    method Others(ghost c: Config)
      requires Traced() && (pc != Idle ==> At(c))
      modifies this
      ensures Traced() && old(trace) <= trace && pc == old(pc) && cleaned == old(cleaned)
      ensures profiles == old(profiles) && addons == old(addons)
      ensures forall i :: |old(trace)| - 1 <= i < |trace| - 1 ==> OthersStep(trace[i], trace[i + 1])
      ensures pc != Idle ==> At(c)
    {
    }

    /** The pass ends here, with an error or to be repeated later. */
    ghost method Stop()
      requires Traced()
      modifies this`pc, this`trace
      ensures Traced() && old(trace) <= trace && pc == Idle
    {
      ghost var was := Now();
      pc := Idle;
      Note(was);
    }

    method CheckPolicies(name: string, c: Config) returns (unused: bool)
      requires Traced() && At(c) && pc == Dying(name, c.uid, DyingStage.CheckPolicies)
      modifies this
      ensures Traced() && old(trace) <= trace
      ensures unused <==> Unused(c.clusters, policies)
      ensures if unused then At(c) && pc == Dying(name, c.uid, RemoveProfile) else pc == Idle
    {
      Others(c);
      ghost var was := Now();
      unused := ValidateNoDRPolicyUsesClusters(c.clusters, policies);
      pc := if unused then Dying(name, c.uid, RemoveProfile) else Idle;
      Note(was);
    }

    method RemoveS3Profile(name: string, c: Config)
      requires Traced() && At(c) && pc == Dying(name, c.uid, RemoveProfile)
      modifies this
      ensures Traced() && old(trace) <= trace && At(c) && name !in profiles
      ensures pc == Dying(name, c.uid, if c.provider.Some? then DeleteWork else RemoveFinalizer)
    {
      Others(c);
      ghost var was := Now();
      profiles := profiles - {name};
      cleaned := cleaned + {c.uid};
      pc := Dying(name, c.uid, if c.provider.Some? then DeleteWork else RemoveFinalizer);
      Note(was);
    }

    method DeleteManifestWork(name: string, c: Config) returns (gone: bool)
      requires Traced() && At(c) && c.provider.Some? && pc == Dying(name, c.uid, DeleteWork)
      modifies this
      ensures Traced() && old(trace) <= trace
      ensures profiles == old(profiles)
      ensures if gone then At(c) && name !in works && pc == Dying(name, c.uid, ListUsers)
        else pc == Idle && name in works && works[name] == Terminating
    {
      Others(c);
      ghost var was := Now();
      gone := name !in works;
      if !gone {
        works := works[name := Terminating];
        pc := Idle;
      } else {
        pc := Dying(name, c.uid, ListUsers);
      }
      Note(was);
    }

    method DropFinalizer(name: string, c: Config)
      requires Traced() && At(c) && pc == Dying(name, c.uid, RemoveFinalizer)
      modifies this
      ensures Traced() && old(trace) <= trace && pc == Idle && name !in configs && profiles == old(profiles)
    {
      Others(c);
      ghost var was := Now();
      configs := configs - {name};
      pc := Idle;
      Note(was);
    }

    method CleanupInternalS3(name: string, c: Config) returns (gone: bool)
      requires Traced() && At(c) && c.provider.Some? && pc == Dying(name, c.uid, DeleteWork)
      modifies this
      ensures Traced() && old(trace) <= trace && profiles == old(profiles)
      ensures if gone then At(c) && pc == Dying(name, c.uid, RemoveFinalizer)
        else pc == Idle && name in works && works[name] == Terminating
    {
      gone := DeleteManifestWork(name, c);
      if gone {
        var used := CleanupManagedClusterAddOn(name, c);
      }
    }

    method DeletionPhase(name: string, c: Config) returns (o: Outcome)
      requires Traced() && At(c) && pc == Dying(name, c.uid, DyingStage.CheckPolicies)
      modifies this
      ensures Traced() && old(trace) <= trace && pc == Idle
      ensures o.Blocked? || o.WorkTerminating? || o.Removed?
      ensures o.Blocked? ==> !Unused(c.clusters, policies)
      ensures o.WorkTerminating? ==> c.provider.Some? && name in works && works[name] == Terminating && name !in profiles
      ensures o.Removed? ==> name !in configs && name !in profiles
    {
      var unused := CheckPolicies(name, c);
      if !unused {
        return Blocked;
      }
      RemoveS3Profile(name, c);
      if c.provider.Some? {
        var gone := CleanupInternalS3(name, c);
        if !gone {
          return WorkTerminating;
        }
      }
      DropFinalizer(name, c);
      return Removed;
    }

    /** At some moment from position `since` on no other stored configuration used the provider. */
    ghost predicate WasUnused(since: nat, name: string, c: Config)
      requires c.provider.Some?
      reads this
    {
      exists i :: since <= i < |trace| && !UsedByOther(trace[i], c.provider.value, name)
    }

    /** The addon is deleted exactly if the listing shows no other user; `used` says which. */
    method CleanupManagedClusterAddOn(name: string, c: Config) returns (used: bool)
      requires Traced() && At(c) && c.provider.Some? && pc == Dying(name, c.uid, ListUsers)
      modifies this
      ensures Traced() && old(trace) <= trace && At(c) && pc == Dying(name, c.uid, RemoveFinalizer)
      ensures profiles == old(profiles)
      ensures used ==> addons == old(addons) && UsedByOther(Now(), c.provider.value, name)
      ensures !used ==> addons == old(addons) - {c.provider.value} && WasUnused(|old(trace)|, name, c)
    {
      Others(c);
      ghost var was := Now();
      used := FindOtherUser(configs, c.provider.value, name);
      pc := Dying(name, c.uid, if used then RemoveFinalizer else DeleteAddOn);
      Note(was);
      ghost var k := |trace| - 1;
      assert UsedByOther(trace[k], c.provider.value, name) <==> used;
      if !used {
        DeleteManagedClusterAddOn(name, c);
        assert !UsedByOther(trace[k], c.provider.value, name);
      }
    }

    method DeleteManagedClusterAddOn(name: string, c: Config)
      requires Traced() && At(c) && c.provider.Some? && pc == Dying(name, c.uid, DeleteAddOn)
      modifies this
      ensures Traced() && old(trace) <= trace && At(c) && pc == Dying(name, c.uid, RemoveFinalizer)
      ensures profiles == old(profiles) && addons == old(addons) - {c.provider.value}
    {
      Others(c);
      ghost var was := Now();
      addons := addons - {c.provider.value};
      pc := Dying(name, c.uid, RemoveFinalizer);
      Note(was);
    }

    // ---------- a live configuration ----------

    method AddFinalizer(name: string, c: Config)
      requires Traced() && At(c) && pc == Live(name, c.uid, LiveStage.AddFinalizer)
      modifies this
      ensures Traced() && old(trace) <= trace && pc == Idle && name in configs && configs[name].finalizer
    {
      Others(c);
      ghost var was := Now();
      configs := configs[name := configs[name].(finalizer := true)];
      pc := Idle;
      Note(was);
    }

    /** At some moment from position `since` on the configuration shared no cluster with any stored one. */
    ghost predicate WasAlone(since: nat, name: string, c: Config)
      reads this
    {
      exists i :: since <= i < |trace| && Alone(name, c.clusters, ClusterLists(trace[i].configs))
    }

    method CheckUniqueness(name: string, c: Config) returns (ok: bool)
      requires Traced() && At(c) && pc == Live(name, c.uid, CheckUnique)
      modifies this
      ensures Traced() && old(trace) <= trace
      ensures ok <==> Alone(name, c.clusters, ClusterLists(configs))
      ensures ok ==> WasAlone(|old(trace)|, name, c)
      ensures if ok then At(c) && pc == Live(name, c.uid, if c.provider.Some? then EnsureAddOn else AddProfile) else pc == Idle
    {
      Others(c);
      ghost var was := Now();
      ok := CheckStored(name, c.clusters, ClusterLists(configs));
      pc := if !ok then Idle else Live(name, c.uid, if c.provider.Some? then EnsureAddOn else AddProfile);
      Note(was);
      assert trace[|trace| - 1].configs == configs;
    }

    method EnsureManagedClusterAddOn(name: string, c: Config)
      requires Traced() && At(c) && c.provider.Some? && pc == Live(name, c.uid, EnsureAddOn)
      modifies this
      ensures Traced() && old(trace) <= trace && At(c) && pc == Live(name, c.uid, EnsureWork)
      ensures c.provider.value in addons
    {
      Others(c);
      ghost var was := Now();
      addons := addons + {c.provider.value};
      pc := Live(name, c.uid, EnsureWork);
      Note(was);
    }

    method EnsureOBCManifestWork(name: string, c: Config) returns (applied: bool)
      requires Traced() && At(c) && pc == Live(name, c.uid, EnsureWork)
      modifies this
      ensures Traced() && old(trace) <= trace
      ensures addons == old(addons)
      ensures name in works && (applied <==> works[name] == Applied)
      ensures if applied then At(c) && pc == Live(name, c.uid, AddProfile) else pc == Idle
    {
      Others(c);
      ghost var was := Now();
      if name !in works {
        works := works[name := Applying];
      }
      applied := works[name] == Applied;
      pc := if applied then Live(name, c.uid, AddProfile) else Idle;
      assert works == was.works[name := works[name]];
      Note(was);
    }

    method AddS3Profile(name: string, c: Config)
      requires Traced() && At(c) && pc == Live(name, c.uid, AddProfile)
      modifies this
      ensures Traced() && old(trace) <= trace && At(c) && pc == Live(name, c.uid, SetReady)
      ensures name in profiles && addons == old(addons)
    {
      Others(c);
      ghost var was := Now();
      profiles := profiles + {name};
      pc := Live(name, c.uid, SetReady);
      Note(was);
    }

    method UpdateStatusReady(name: string, c: Config)
      requires Traced() && At(c) && pc == Live(name, c.uid, SetReady)
      modifies this
      ensures Traced() && old(trace) <= trace && pc == Idle
      ensures name in configs && (configs[name].ready || configs[name].deleting)
      ensures profiles == old(profiles) && addons == old(addons)
    {
      Others(c);
      ghost var was := Now();
      if !configs[name].deleting {
        configs := configs[name := configs[name].(ready := true)];
      }
      pc := Idle;
      Note(was);
    }

    method ReconcileInternalS3Type(name: string, c: Config) returns (applied: bool)
      requires Traced() && At(c) && c.provider.Some? && pc == Live(name, c.uid, EnsureAddOn)
      modifies this
      ensures Traced() && old(trace) <= trace && c.provider.value in addons
      ensures name in works && (applied <==> works[name] == Applied)
      ensures if applied then At(c) && pc == Live(name, c.uid, AddProfile) else pc == Idle
    {
      EnsureManagedClusterAddOn(name, c);
      applied := EnsureOBCManifestWork(name, c);
    }

    /** What a configuration that went through has. */
    ghost predicate SetUp(name: string, c: Config)
      reads this
    {
      && name in profiles && (c.provider.Some? ==> c.provider.value in addons)
      && name in configs && (configs[name].ready || configs[name].deleting)
    }

    method AddProfileAndFinish(name: string, c: Config, clustersOk: bool) returns (o: Outcome)
      requires Traced() && At(c) && pc == Live(name, c.uid, AddProfile)
      requires c.provider.Some? ==> c.provider.value in addons
      modifies this
      ensures Traced() && old(trace) <= trace && pc == Idle
      ensures o == if clustersOk then Complete else ClustersTaken
      ensures clustersOk ==> SetUp(name, c)
    {
      AddS3Profile(name, c);
      if !clustersOk {
        Stop();
        return ClustersTaken;
      }
      UpdateStatusReady(name, c);
      return Complete;
    }

    /** `secretOk` and `clustersOk`: the bucket's secret is there and valid, and the DRClusters can be taken over. */
    method ConfigurePhase(name: string, c: Config, secretOk: bool, clustersOk: bool)
      returns (o: Outcome)
      requires Traced() && At(c) && pc == Live(name, c.uid, CheckUnique)
      modifies this
      ensures Traced() && old(trace) <= trace && pc == Idle
      ensures o.Rejected? || o.WorkPending? || o.SecretMissing? || o.ClustersTaken? || o.Complete?
      ensures if o.Rejected? then !Alone(name, c.clusters, ClusterLists(configs)) else WasAlone(|old(trace)|, name, c)
      ensures o.WorkPending? ==> c.provider.Some? && name in works && works[name] != Applied
      ensures o.SecretMissing? ==> !secretOk
      ensures o.ClustersTaken? ==> secretOk && !clustersOk
      ensures o.Complete? ==> secretOk && clustersOk && SetUp(name, c)
    {
      var ok := CheckUniqueness(name, c);
      if !ok {
        return Rejected;
      }
      if c.provider.Some? {
        var applied := ReconcileInternalS3Type(name, c);
        if !applied {
          return WorkPending;
        }
      }
      if !secretOk {
        Stop();
        return SecretMissing;
      }
      o := AddProfileAndFinish(name, c, clustersOk);
    }

    /** One pass: whatever others do meanwhile, what it does is a piece of a run of the life cycle, so all that
        is proved of runs holds of it. */
    method Reconcile(name: string, secretOk: bool, clustersOk: bool) returns (o: Outcome)
      requires Traced() && pc == Idle
      modifies this
      ensures Traced() && old(trace) <= trace && pc == Idle
      ensures o.NothingToDo? ==> Now() == old(Now()) && (name in configs ==> configs[name].deleting && !configs[name].finalizer)
      ensures o.FinalizerAdded? ==> name in configs && configs[name].finalizer
      ensures o.Removed? ==> name !in configs && name !in profiles
      ensures o.Complete? ==> name in profiles && name in configs && (configs[name].ready || configs[name].deleting)
    {
      if name !in configs {
        return NothingToDo;
      }
      var c := configs[name];
      ghost var was := Now();
      if c.deleting {
        if !c.finalizer {
          return NothingToDo;
        }
        pc := Dying(name, c.uid, DyingStage.CheckPolicies);
        Note(was);
        o := DeletionPhase(name, c);
      } else if !c.finalizer {
        pc := Live(name, c.uid, LiveStage.AddFinalizer);
        Note(was);
        AddFinalizer(name, c);
        return FinalizerAdded;
      } else {
        pc := Live(name, c.uid, CheckUnique);
        Note(was);
        o := ConfigurePhase(name, c, secretOk, clustersOk);
      }
    }
  }
}
