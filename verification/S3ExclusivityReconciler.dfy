/** The passes of S3Exclusivity as code: the check, the take-over of the DRClusters and the final phase, with any
    number of other passes and users acting between two API calls. */
module S3ExclusivityReconciler {
  import opened Options
  import opened S3Validation
  import opened S3Exclusivity

  lemma StepStays(trace: seq<State>, s: State, i: nat)
    requires i + 1 < |trace| && StepAt(trace, i)
    ensures StepAt(trace + [s], i)
  {
    assert (trace + [s])[i] == trace[i] && (trace + [s])[i + 1] == trace[i + 1];
  }

  lemma LastStep(trace: seq<State>, s: State)
    requires trace != [] && Next(trace[|trace| - 1], s)
    ensures StepAt(trace + [s], |trace| - 1)
  {
    assert (trace + [s])[|trace| - 1] == trace[|trace| - 1] && (trace + [s])[|trace|] == s;
  }

  lemma RunExtends(trace: seq<State>, s: State)
    requires Run(trace) && Next(trace[|trace| - 1], s)
    ensures Run(trace + [s])
  {
    assert (trace + [s])[0] == trace[0];
    LastStep(trace, s);
    forall i | 0 <= i < |trace| - 1 ensures StepAt(trace + [s], i) {
      StepStays(trace, s, i);
    }
  }

  function ClusterLists(configs: map<string, Config>): map<string, seq<string>> {
    map n <- configs :: configs[n].clusters
  }

  lemma AcceptsIffAlone(s: State, p: Pass)
    ensures Accepts(s, p) <==> Alone(p.name, p.clusters, ClusterLists(s.configs))
  {
    if Alone(p.name, p.clusters, ClusterLists(s.configs)) {
      forall n <- s.configs | n != p.name ensures Disjoint(p.clusters, s.configs[n].clusters) {
        assert n in ClusterLists(s.configs);
      }
    }
  }

  /** The cluster's DRCluster is under this configuration and names it as its profile. */
  predicate Taken(s: State, cluster: string, owner: Owner) {
    cluster in s.drClusters
    && s.drClusters[cluster].controller == Some(owner) && s.drClusters[cluster].profile == owner.name
  }

  ghost predicate TakenIn(trace: seq<State>, since: nat, cluster: string, owner: Owner) {
    exists i :: since <= i < |trace| && Taken(trace[i], cluster, owner)
  }

  class S3ConfigurationReconciler {
    var configs: map<string, Config>
    var drClusters: DRClusters
    /** The UID the server gives to the next configuration. */
    var nextUid: nat
    ghost var passes: map<nat, Pass>
    ghost var trace: seq<State>

    ghost function Now(): State
      reads this
    {
      State(configs, nextUid, passes, drClusters)
    }

    /** The trace is a run, and ends here. */
    ghost predicate Traced()
      reads this
    {
      Run(trace) && trace[|trace| - 1] == Now() && Inv(Now())
    }

    constructor (drClusters: DRClusters)
      requires forall c <- drClusters :: drClusters[c].controller == None
      ensures Traced() && trace == [Now()] && this.drClusters == drClusters
    {
      configs, this.drClusters := map[], drClusters;
      nextUid, passes := 0, map[];
      new;
      trace := [Now()];
    }

    /** Takes note of a step that has just been made. */
    ghost method Note(was: State)
      requires Run(trace) && trace[|trace| - 1] == was && Inv(was) && Next(was, Now())
      modifies this`trace
      ensures Traced() && trace == old(trace) + [Now()]
    {
      NextKeeps(was, Now());
      RunExtends(trace, Now());
      trace := trace + [Now()];
    }

    /** Whatever happens besides pass `w`: other passes, users, other writers of DRClusters. */
    method Besides(ghost w: nat)
      requires Traced() && w in passes
      modifies this
      ensures Traced() && old(trace) <= trace && w in passes && passes[w] == old(passes)[w]
    {
    }

    /** A write of the phase succeeds only on the object that the pass has read. */
    method WritePhase(name: string, uid: nat, ready: Option<nat>)
      modifies this`configs
      ensures forall p: Pass :: p.name == name && p.uid == uid ==> configs == WithPhase(old(Now()), p, ready)
    {
      if name in configs && configs[name].uid == uid {
        configs := configs[name := configs[name].(ready := ready)];
      }
    }

    /** The list is checked against the stored configurations; a failure is written as the phase. */
    method CheckUniqueness(ghost w: nat, name: string, uid: nat, clusters: seq<string>) returns (ok: bool, v: nat)
      requires Traced() && w in passes && passes[w] == Pass(name, uid, clusters, None, 0)
      modifies this
      ensures Traced() && old(trace) <= trace
      ensures if ok then w in passes && passes[w] == Pass(name, uid, clusters, Some(v), 0) else w !in passes
      ensures ok <==> Alone(name, clusters, ClusterLists(configs))
      ensures !ok ==> name in configs && configs[name].uid == uid ==> configs[name].ready.None?
    {
      Besides(w);
      ghost var was := Now();
      ok := CheckStored(name, clusters, ClusterLists(configs));
      AcceptsIffAlone(was, passes[w]);
      v := nextUid;
      if ok {
        passes := passes[w := Pass(name, uid, clusters, Some(v), 0)];
      } else {
        WritePhase(name, uid, None);
        passes := passes - {w};
      }
      assert Check(was, Now(), w);
      assert ClusterLists(configs) == ClusterLists(was.configs);
      Note(was);
    }

    /** One DRCluster of the list. */
    method EnsureDrCluster(ghost w: nat, name: string, uid: nat, clusters: seq<string>, ghost v: nat, k: nat)
      returns (ok: bool)
      requires Traced() && w in passes && passes[w] == Pass(name, uid, clusters, Some(v), k) && k < |clusters|
      modifies this
      ensures Traced() && old(trace) <= trace
      ensures if ok then w in passes && passes[w] == Pass(name, uid, clusters, Some(v), k + 1) else w !in passes
      ensures ok ==> Taken(Now(), clusters[k], Owner(name, uid))
      ensures ok ==> |trace| > 1 && TookOver(trace[|trace| - 2].drClusters, drClusters, clusters[k], Owner(name, uid))
                     && drClusters - {clusters[k]} == trace[|trace| - 2].drClusters - {clusters[k]}
      ensures !ok ==> name in configs && configs[name].uid == uid ==> configs[name].ready.None?
      ensures !ok ==> !MayControl(drClusters, clusters[k], Owner(name, uid))
    {
      Besides(w);
      ghost var was := Now();
      var owner := Owner(name, uid);
      ok := MayControl(drClusters, clusters[k], owner);
      if ok {
        drClusters := drClusters[clusters[k] := TakenOver(drClusters, clusters[k], owner)];
        passes := passes[w := Pass(name, uid, clusters, Some(v), k + 1)];
      } else {
        WritePhase(name, uid, None);
        passes := passes - {w};
      }
      assert TakeOver(was, Now(), w);
      Note(was);
    }

    /** At some moment from position `since` on the cluster's DRCluster was taken over. */
    ghost predicate WasTaken(since: nat, cluster: string, owner: Owner)
      reads this
    {
      TakenIn(trace, since, cluster, owner)
    }

    method EnsureDrClusters(ghost w: nat, name: string, uid: nat, clusters: seq<string>, ghost v: nat) returns (ok: bool)
      requires Traced() && w in passes && passes[w] == Pass(name, uid, clusters, Some(v), 0)
      modifies this
      ensures Traced() && old(trace) <= trace
      ensures if ok then w in passes && passes[w] == Pass(name, uid, clusters, Some(v), |clusters|) else w !in passes
      ensures ok ==> forall c <- clusters :: WasTaken(|old(trace)| - 1, c, Owner(name, uid))
    {
      for k := 0 to |clusters|
        invariant Traced() && old(trace) <= trace
        invariant w in passes && passes[w] == Pass(name, uid, clusters, Some(v), k)
        invariant forall i :: 0 <= i < k ==> WasTaken(|old(trace)| - 1, clusters[i], Owner(name, uid))
      {
        ghost var before := trace;
        ok := EnsureDrCluster(w, name, uid, clusters, v, k);
        if !ok {
          return;
        }
        TakenStays(before, k, |old(trace)| - 1, clusters, Owner(name, uid));
      }
      ok := true;
    }

    lemma TakenStays(before: seq<State>, k: nat, since: nat, clusters: seq<string>, owner: Owner)
      requires Traced() && before <= trace && k < |clusters| && since < |before|
      requires Taken(Now(), clusters[k], owner)
      requires forall i :: 0 <= i < k ==> TakenIn(before, since, clusters[i], owner)
      ensures forall i :: 0 <= i <= k ==> WasTaken(since, clusters[i], owner)
    {
      assert trace[|trace| - 1] == Now();
      forall i | 0 <= i < k ensures WasTaken(since, clusters[i], owner) {
        var j :| since <= j < |before| && Taken(before[j], clusters[i], owner);
        assert trace[j] == before[j];
      }
    }

    method SetReady(ghost w: nat, name: string, uid: nat, clusters: seq<string>, v: nat) returns (ready: bool)
      requires Traced() && w in passes && passes[w] == Pass(name, uid, clusters, Some(v), |clusters|)
      modifies this
      ensures Traced() && old(trace) <= trace && w !in passes
      ensures ready <==> name in configs && configs[name].uid == uid
      ensures ready ==> configs[name].ready == Some(v)
    {
      Besides(w);
      ghost var was := Now();
      WritePhase(name, uid, Some(v));
      ready := name in configs && configs[name].uid == uid;
      passes := passes - {w};
      assert Finish(was, Now(), w);
      Note(was);
    }

    /** A pass, one of any number at the same time: whatever the others do, it is part of a run, so no two stored
        configurations that share a cluster are ever both Ready. A pass that makes its configuration Ready has taken
        over every DRCluster of the list. */
    method Reconcile(ghost w: nat, name: string) returns (ready: bool, ghost uid: nat, ghost clusters: seq<string>)
      requires Traced() && w !in passes
      modifies this
      ensures Traced() && old(trace) <= trace && w !in passes
      ensures name in old(configs) ==> uid == old(configs)[name].uid && clusters == old(configs)[name].clusters
      ensures ready ==> name in configs && configs[name].uid == uid && configs[name].ready.Some?
      ensures ready ==> forall c <- clusters :: WasTaken(|old(trace)|, c, Owner(name, uid))
    {
      uid, clusters := 0, [];
      if name !in configs {
        return false, uid, clusters;
      }
      var c := configs[name];
      uid, clusters := c.uid, c.clusters;
      ghost var was := Now();
      passes := passes[w := Pass(name, c.uid, c.clusters, None, 0)];
      assert Start(was, Now(), w);
      Note(was);
      var ok, v := CheckUniqueness(w, name, c.uid, c.clusters);
      if !ok {
        return false, uid, clusters;
      }
      ok := EnsureDrClusters(w, name, c.uid, c.clusters, v);
      if !ok {
        return false, uid, clusters;
      }
      ready := SetReady(w, name, c.uid, c.clusters, v);
    }
  }
}
