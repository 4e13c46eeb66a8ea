/** Cluster exclusivity under concurrency: any number of passes over S3Configurations run at once,
    checking and writing in separate steps, while users create and delete configurations. */
module S3Exclusivity {
  import opened Options
  import opened S3Validation

  /** A stored configuration. The UID orders configurations by creation, and the cluster list never
      changes. `ready` is `Some(v)` if the phase is Ready thanks to a check made when `v` UIDs had been
      handed out. */
  datatype Config = Config(uid: nat, clusters: seq<string>, ready: Option<nat>)

  /** A pass in flight: `checked` as above, `next` the next DRCluster to take over. */
  datatype Pass = Pass(name: string, uid: nat, clusters: seq<string>, checked: Option<nat>, next: nat)

  datatype State = State(configs: map<string, Config>, nextUid: nat, passes: map<nat, Pass>, drClusters: DRClusters)

  /** The check a pass makes on its listing, see ValidateManagedClustersUniqueness. */
  ghost predicate Accepts(s: State, p: Pass) {
    && NoDuplicates(p.clusters)
    && forall n <- s.configs :: n != p.name ==> Disjoint(p.clusters, s.configs[n].clusters)
  }

  /** Writing a phase succeeds only on the object that was read. */
  function WithPhase(s: State, p: Pass, ready: Option<nat>): map<string, Config> {
    if p.name in s.configs && s.configs[p.name].uid == p.uid then
      s.configs[p.name := s.configs[p.name].(ready := ready)]
    else s.configs
  }

  ghost predicate Start(s: State, s': State, w: nat) {
    exists n <- s.configs ::
      s' == s.(passes := s.passes[w := Pass(n, s.configs[n].uid, s.configs[n].clusters, None, 0)])
  }

  ghost predicate Check(s: State, s': State, w: nat) {
    w in s.passes && s.passes[w].checked == None &&
    var p := s.passes[w];
    if Accepts(s, p) then s' == s.(passes := s.passes[w := p.(checked := Some(s.nextUid))])
    else s' == s.(passes := s.passes - {w}, configs := WithPhase(s, p, None))
  }

  ghost predicate TakeOver(s: State, s': State, w: nat) {
    w in s.passes && s.passes[w].checked.Some? && s.passes[w].next < |s.passes[w].clusters| &&
    var p := s.passes[w];
    var cluster, owner := p.clusters[p.next], Owner(p.name, p.uid);
    if MayControl(s.drClusters, cluster, owner) then
      s' == s.(drClusters := s.drClusters[cluster := TakenOver(s.drClusters, cluster, owner)],
               passes := s.passes[w := p.(next := p.next + 1)])
    else s' == s.(passes := s.passes - {w}, configs := WithPhase(s, p, None))
  }

  ghost predicate Finish(s: State, s': State, w: nat) {
    w in s.passes && s.passes[w].checked.Some? && s.passes[w].next == |s.passes[w].clusters| &&
    s' == s.(passes := s.passes - {w}, configs := WithPhase(s, s.passes[w], s.passes[w].checked))
  }

  /** An error or a crash: the pass is gone, a Failed or Pending phase may have been written. */
  ghost predicate Abort(s: State, s': State, w: nat) {
    w in s.passes &&
    (s' == s.(passes := s.passes - {w}) || s' == s.(passes := s.passes - {w}, configs := WithPhase(s, s.passes[w], None)))
  }

  ghost predicate Create(s: State, s': State, n: string, clusters: seq<string>) {
    n !in s.configs &&
    s' == s.(configs := s.configs[n := Config(s.nextUid, clusters, None)], nextUid := s.nextUid + 1)
  }

  ghost predicate Remove(s: State, s': State, n: string) {
    n in s.configs && s' == s.(configs := s.configs - {n})
  }

  /** Others leave the profile and the controller of a controlled DRCluster alone; they may delete it,
      and do as they like with DRClusters that no configuration controls. */
  ghost predicate TouchDRClusters(s: State, s': State) {
    && s' == s.(drClusters := s'.drClusters)
    && forall c <- s'.drClusters :: s'.drClusters[c].controller.Some? ==>
         && c in s.drClusters && s.drClusters[c].controller == s'.drClusters[c].controller
         && s.drClusters[c].profile == s'.drClusters[c].profile
  }

  ghost predicate Next(s: State, s': State) {
    || (exists w :: Start(s, s', w) || Check(s, s', w) || TakeOver(s, s', w) || Finish(s, s', w) || Abort(s, s', w))
    || (exists n, clusters :: Create(s, s', n, clusters))
    || (exists n :: Remove(s, s', n))
    || TouchDRClusters(s, s')
  }

  ghost predicate Init(s: State) {
    s.configs == map[] && s.passes == map[] && forall c <- s.drClusters :: s.drClusters[c].controller == None
  }

  ghost predicate StepAt(run: seq<State>, i: nat)
    requires i + 1 < |run|
  {
    Next(run[i], run[i + 1])
  }

  ghost predicate Run(run: seq<State>) {
    run != [] && Init(run[0]) && forall i :: 0 <= i < |run| - 1 ==> StepAt(run, i)
  }

  // ---------- the invariant ----------

  /** The configuration was checked after it was created, and shares no cluster with any other that
      existed at the check. */
  ghost predicate CheckedAt(s: State, name: string, uid: nat, clusters: seq<string>, v: nat) {
    && uid < v <= s.nextUid
    && forall n <- s.configs :: n != name && s.configs[n].uid < v ==> Disjoint(clusters, s.configs[n].clusters)
  }

  ghost predicate SoundPass(s: State, p: Pass) {
    && p.uid < s.nextUid && p.next <= |p.clusters|
    && (forall n <- s.configs :: s.configs[n].uid == p.uid ==> n == p.name && s.configs[n].clusters == p.clusters)
    && (p.checked.Some? ==> CheckedAt(s, p.name, p.uid, p.clusters, p.checked.value))
  }

  ghost predicate SoundConfig(s: State, n: string, c: Config) {
    && c.uid < s.nextUid
    && (c.ready.Some? ==> CheckedAt(s, n, c.uid, c.clusters, c.ready.value))
  }

  ghost predicate SoundDRCluster(s: State, cluster: string, d: DRCluster) {
    d.controller.Some? ==>
      && d.profile == d.controller.value.name && d.controller.value.uid < s.nextUid
      && forall n <- s.configs :: s.configs[n].uid == d.controller.value.uid ==>
           n == d.controller.value.name && cluster in s.configs[n].clusters
  }

  ghost predicate Inv(s: State) {
    && (forall n <- s.configs :: SoundConfig(s, n, s.configs[n]))
    && (forall w <- s.passes :: SoundPass(s, s.passes[w]))
    && (forall c <- s.drClusters :: SoundDRCluster(s, c, s.drClusters[c]))
    && (forall m <- s.configs, n <- s.configs :: s.configs[m].uid == s.configs[n].uid ==> m == n)
  }

  /** Apart from phases, configurations only disappear or are created with a new UID. */
  ghost predicate Grows(s: State, s': State) {
    && s.nextUid <= s'.nextUid
    && forall n <- s'.configs :: s'.configs[n].uid < s.nextUid ==>
         n in s.configs && s.configs[n].uid == s'.configs[n].uid && s.configs[n].clusters == s'.configs[n].clusters
  }

  lemma CheckedStays(s: State, s': State, name: string, uid: nat, clusters: seq<string>, v: nat)
    requires Grows(s, s') && CheckedAt(s, name, uid, clusters, v)
    ensures CheckedAt(s', name, uid, clusters, v)
  {
  }

  lemma PassStays(s: State, s': State, p: Pass)
    requires Grows(s, s') && SoundPass(s, p)
    ensures SoundPass(s', p)
  {
  }

  lemma ConfigStays(s: State, s': State, n: string, c: Config)
    requires Grows(s, s') && SoundConfig(s, n, c)
    ensures SoundConfig(s', n, c)
  {
  }

  lemma DRClusterStays(s: State, s': State, cluster: string, d: DRCluster)
    requires Grows(s, s') && SoundDRCluster(s, cluster, d)
    ensures SoundDRCluster(s', cluster, d)
  {
  }

  /** Everything a step leaves as it is stays sound; what it adds has to be shown sound. */
  lemma StepStays(s: State, s': State)
    requires Inv(s) && Grows(s, s')
    requires forall n <- s'.configs :: (n in s.configs && s.configs[n] == s'.configs[n]) || SoundConfig(s', n, s'.configs[n])
    requires forall w <- s'.passes :: (w in s.passes && s.passes[w] == s'.passes[w]) || SoundPass(s', s'.passes[w])
    requires forall c <- s'.drClusters :: (c in s.drClusters && s.drClusters[c] == s'.drClusters[c]) || SoundDRCluster(s', c, s'.drClusters[c])
    requires forall m <- s'.configs, n <- s'.configs :: s'.configs[m].uid == s'.configs[n].uid ==> m == n
    ensures Inv(s')
  {
    forall n <- s'.configs ensures SoundConfig(s', n, s'.configs[n]) {
      if n in s.configs && s.configs[n] == s'.configs[n] { ConfigStays(s, s', n, s.configs[n]); }
    }
    forall w <- s'.passes ensures SoundPass(s', s'.passes[w]) {
      if w in s.passes && s.passes[w] == s'.passes[w] { PassStays(s, s', s.passes[w]); }
    }
    forall c <- s'.drClusters ensures SoundDRCluster(s', c, s'.drClusters[c]) {
      if c in s.drClusters && s.drClusters[c] == s'.drClusters[c] { DRClusterStays(s, s', c, s.drClusters[c]); }
    }
  }

  lemma PhaseKeeps(s: State, s': State, w: nat, ready: Option<nat>)
    requires Inv(s) && w in s.passes && (ready == None || ready == s.passes[w].checked)
    requires s' == s.(passes := s.passes - {w}, configs := WithPhase(s, s.passes[w], ready))
    ensures Inv(s')
  {
    var p := s.passes[w];
    if p.name in s.configs && s.configs[p.name].uid == p.uid {
      var c := s.configs[p.name].(ready := ready);
      if ready.Some? {
        CheckedStays(s, s', p.name, p.uid, p.clusters, ready.value);
      }
      assert SoundConfig(s', p.name, c);
    }
    StepStays(s, s');
  }

  lemma PassStepKeeps(s: State, s': State, w: nat)
    requires Inv(s)
    requires Start(s, s', w) || Check(s, s', w) || TakeOver(s, s', w) || Finish(s, s', w) || Abort(s, s', w)
    ensures Inv(s')
  {
    if Start(s, s', w) {
      StepStays(s, s');
    } else if s'.passes == s.passes - {w} {
      if s' == s.(passes := s.passes - {w}) {
        StepStays(s, s');
      } else if s'.configs == WithPhase(s, s.passes[w], None) {
        PhaseKeeps(s, s', w, None);
      } else {
        PhaseKeeps(s, s', w, s.passes[w].checked);
      }
    } else if Check(s, s', w) {
      StepStays(s, s');
    } else {
      TakeOverKeeps(s, s', w);
    }
  }

  lemma TakeOverKeeps(s: State, s': State, w: nat)
    requires Inv(s) && TakeOver(s, s', w) && w in s'.passes
    ensures Inv(s')
  {
    var p := s.passes[w];
    var cluster := p.clusters[p.next];
    assert SoundDRCluster(s', cluster, s'.drClusters[cluster]);
    StepStays(s, s');
  }

  lemma NextKeeps(s: State, s': State)
    requires Inv(s) && Next(s, s')
    ensures Inv(s')
  {
    if w :| Start(s, s', w) || Check(s, s', w) || TakeOver(s, s', w) || Finish(s, s', w) || Abort(s, s', w) {
      PassStepKeeps(s, s', w);
    } else if n, clusters :| Create(s, s', n, clusters) {
      StepStays(s, s');
    } else if n :| Remove(s, s', n) {
      StepStays(s, s');
    } else {
      StepStays(s, s');
    }
  }

  lemma {:induction false} RunKeeps(run: seq<State>)
    requires Run(run)
    ensures Inv(run[|run| - 1])
  {
    if |run| > 1 {
      var init := run[..|run| - 1];
      forall i | 0 <= i < |init| - 1 ensures StepAt(init, i) {
        assert StepAt(run, i);
      }
      RunKeeps(init);
      assert StepAt(run, |run| - 2);
      NextKeeps(run[|run| - 2], run[|run| - 1]);
    }
  }

  // ---------- what every run guarantees ----------

  /** Two stored configurations that share a cluster are never both Ready. */
  lemma NeverBothReady(run: seq<State>, m: string, n: string)
    requires Run(run)
    requires var s := run[|run| - 1];
      m in s.configs && n in s.configs && m != n && s.configs[m].ready.Some? && s.configs[n].ready.Some?
    ensures var s := run[|run| - 1];
      Disjoint(s.configs[m].clusters, s.configs[n].clusters)
  {
    RunKeeps(run);
    var s := run[|run| - 1];
    assert SoundConfig(s, m, s.configs[m]) && SoundConfig(s, n, s.configs[n]);
    if s.configs[m].uid < s.configs[n].uid {
      assert Disjoint(s.configs[n].clusters, s.configs[m].clusters);
    }
  }

  /** A DRCluster controlled by a stored configuration names it as its S3 profile and is in its list. */
  lemma ControlledDRClusters(run: seq<State>, cluster: string, n: string)
    requires Run(run)
    requires var s := run[|run| - 1];
      && cluster in s.drClusters && n in s.configs
      && s.drClusters[cluster].controller.Some? && s.drClusters[cluster].controller.value.uid == s.configs[n].uid
    ensures var s := run[|run| - 1];
      s.drClusters[cluster].profile == n && cluster in s.configs[n].clusters
  {
    RunKeeps(run);
    var s := run[|run| - 1];
    assert SoundDRCluster(s, cluster, s.drClusters[cluster]);
  }
}
