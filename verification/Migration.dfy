/** The upgrade from MirrorPeers that managed S3 themselves: their DRClusters are grouped by S3 profile and
    an S3Configuration is created for each group. A run may stop at any API call and is then repeated. */
module Migration {
  import opened Options
  import opened S3Validation
  import opened Sequences

  // ---------- data ----------

  /** An owner reference, by kind and name. */
  datatype OwnerRef = OwnerRef(kind: string, name: string)

  datatype OwnedDRCluster = OwnedDRCluster(profile: string, owners: seq<OwnerRef>)

  type DRClusters = map<string, OwnedDRCluster>

  /** A MirrorPeer with the clusters of its items; the API server keeps them distinct. */
  datatype Peer = Peer(name: string, clusters: seq<string>)

  datatype S3Config = S3Config(managedClusters: seq<string>, provider: string, namespace: string, from: string)

  type S3Configs = map<string, S3Config>

  datatype AddOnConfig = AddOnConfig(namespace: string, installNamespace: string)

  // ---------- the groups ----------

  /** The clusters of the list that have a DRCluster with this profile, in order. */
  function Group(clusters: seq<string>, drs: DRClusters, profile: string): seq<string> {
    if clusters == [] then []
    else
      (if clusters[0] in drs && drs[clusters[0]].profile == profile then [clusters[0]] else [])
      + Group(clusters[1..], drs, profile)
  }

  lemma {:induction false} GroupHolds(clusters: seq<string>, drs: DRClusters, profile: string)
    ensures forall c :: c in Group(clusters, drs, profile) <==> c in clusters && c in drs && drs[c].profile == profile
    ensures NoDuplicates(clusters) ==> NoDuplicates(Group(clusters, drs, profile))
  {
    if clusters != [] {
      GroupHolds(clusters[1..], drs, profile);
      assert forall c :: c in clusters <==> c == clusters[0] || c in clusters[1..];
      assert forall i :: 0 < i < |clusters| ==> clusters[i] == clusters[1..][i - 1];
    }
  }

  lemma {:induction false} GroupAppend(clusters: seq<string>, c: string, drs: DRClusters, profile: string)
    ensures Group(clusters + [c], drs, profile) ==
            Group(clusters, drs, profile) + (if c in drs && drs[c].profile == profile then [c] else [])
  {
    if clusters == [] {
      assert [] + [c] == [c];
    } else {
      GroupAppend(clusters[1..], c, drs, profile);
      TailOfSum(clusters, [c]);
      SumIsAssociative(
        if clusters[0] in drs && drs[clusters[0]].profile == profile then [clusters[0]] else [],
        Group(clusters[1..], drs, profile),
        if c in drs && drs[c].profile == profile then [c] else []);
    }
  }

  /** Grouping depends on the profiles only. */
  lemma {:induction false} GroupStays(clusters: seq<string>, drs: DRClusters, drs': DRClusters, profile: string)
    requires SameProfiles(drs, drs')
    ensures Group(clusters, drs, profile) == Group(clusters, drs', profile)
  {
    if clusters != [] {
      GroupStays(clusters[1..], drs, drs', profile);
    }
  }

  predicate SameProfiles(drs: DRClusters, drs': DRClusters) {
    drs.Keys == drs'.Keys && forall c <- drs :: drs[c].profile == drs'[c].profile
  }

  /** The map has exactly the non-empty groups. */
  ghost predicate IsGrouping(groups: map<string, seq<string>>, clusters: seq<string>, drs: DRClusters) {
    && (forall p :: p in groups <==> Group(clusters, drs, p) != [])
    && (forall p <- groups :: groups[p] == Group(clusters, drs, p))
  }

  function Members(groups: map<string, seq<string>>, profile: string): seq<string> {
    if profile in groups then groups[profile] else []
  }

  lemma GroupingMembers(groups: map<string, seq<string>>, clusters: seq<string>, drs: DRClusters)
    ensures IsGrouping(groups, clusters, drs) <==>
            (forall p <- groups :: groups[p] != []) && forall p :: Members(groups, p) == Group(clusters, drs, p)
  {
    if (forall p <- groups :: groups[p] != []) && forall p :: Members(groups, p) == Group(clusters, drs, p) {
      forall p ensures p in groups <==> Group(clusters, drs, p) != [] {
        assert Members(groups, p) == Group(clusters, drs, p);
      }
      forall p <- groups ensures groups[p] == Group(clusters, drs, p) {
        assert Members(groups, p) == Group(clusters, drs, p);
      }
    }
  }

  lemma GroupingGrows(groups: map<string, seq<string>>, clusters: seq<string>, drs: DRClusters, c: string)
    requires IsGrouping(groups, clusters, drs)
    ensures var grown := if c !in drs then groups
                         else groups[drs[c].profile := Members(groups, drs[c].profile) + [c]];
      IsGrouping(grown, clusters + [c], drs)
  {
    var grown := if c !in drs then groups else groups[drs[c].profile := Members(groups, drs[c].profile) + [c]];
    GroupingMembers(groups, clusters, drs);
    forall p ensures Members(grown, p) == Group(clusters + [c], drs, p) {
      assert Members(groups, p) == Group(clusters, drs, p);
      GroupAppend(clusters, c, drs, p);
    }
    GroupingMembers(grown, clusters + [c], drs);
  }

  method GroupByProfile(clusters: seq<string>, drs: DRClusters) returns (groups: map<string, seq<string>>)
    ensures IsGrouping(groups, clusters, drs)
  {
    groups := map[];
    for i := 0 to |clusters|
      invariant IsGrouping(groups, clusters[..i], drs)
    {
      var c := clusters[i];
      assert clusters[..i + 1] == clusters[..i] + [c];
      GroupingGrows(groups, clusters[..i], drs, c);
      if c !in drs {
        continue;
      }
      var profile := drs[c].profile;
      groups := groups[profile := Members(groups, profile) + [c]];
    }
    assert clusters[..|clusters|] == clusters;
  }

  // ---------- runs ----------

  datatype State = State(configs: S3Configs, drs: DRClusters)

  predicate Owned(d: OwnedDRCluster, peer: Peer) {
    OwnerRef("MirrorPeer", peer.name) in d.owners
  }

  /** `d'` is `d` with at most the first reference to the MirrorPeer taken out. */
  ghost predicate Released(d: OwnedDRCluster, d': OwnedDRCluster, peer: Peer) {
    || d' == d
    || exists i :: 0 <= i < |d.owners| && d.owners[i] == OwnerRef("MirrorPeer", peer.name)
                   && OwnerRef("MirrorPeer", peer.name) !in d.owners[..i]
                   && d' == d.(owners := d.owners[..i] + d.owners[i + 1..])
  }

  /** Of some of these clusters, the DRClusters have lost a reference to the MirrorPeer. */
  ghost predicate Releasing(drs: DRClusters, drs': DRClusters, peer: Peer, clusters: seq<string>) {
    && SameProfiles(drs, drs')
    && (forall c <- drs :: Released(drs[c], drs'[c], peer))
    && (forall c <- drs :: drs[c] != drs'[c] ==> c in clusters)
  }

  /** Every group of the MirrorPeer has its configuration. */
  predicate Covered(configs: S3Configs, drs: DRClusters, peer: Peer) {
    forall c <- peer.clusters :: c in drs ==> drs[c].profile in configs
  }

  /** What a run may do, wherever it stops: existing configurations stay, new ones are whole groups, and a
      DRCluster is released only when all groups have their configurations. */
  ghost predicate Attempt(s: State, s': State, peer: Peer) {
    && (forall n <- s.configs :: n in s'.configs && s'.configs[n] == s.configs[n])
    && (forall n <- s'.configs :: n in s.configs ||
          (n != "" && s'.configs[n].from == peer.name && s'.configs[n].managedClusters == Group(peer.clusters, s.drs, n)
           && s'.configs[n].managedClusters != []))
    && Releasing(s.drs, s'.drs, peer, peer.clusters)
    && (s.drs != s'.drs ==> Covered(s'.configs, s.drs, peer))
  }

  /** A run that went through. */
  ghost predicate Completed(s: State, peer: Peer) {
    Covered(s.configs, s.drs, peer)
  }

  /** What the API server sees to: every MirrorPeer has two items on different clusters, and names are unique. */
  predicate WellFormed(peers: seq<Peer>) {
    && (forall p <- peers :: |p.clusters| == 2 && NoDuplicates(p.clusters))
    && forall i, j :: 0 <= i < |peers| && 0 <= j < |peers| && peers[i].name == peers[j].name ==> peers[i] == peers[j]
  }

  /** Any number of runs for any MirrorPeers, one after the other, from a hub without S3Configurations. */
  ghost predicate Runs(peers: seq<Peer>, states: seq<State>) {
    && |states| == |peers| + 1 && states[0].configs == map[]
    && WellFormed(peers)
    && forall i :: 0 <= i < |peers| ==> Attempt(states[i], states[i + 1], peers[i])
  }

  /** Every configuration is a group of the MirrorPeer that made it. */
  ghost predicate WholeGroups(peers: seq<Peer>, s: State) {
    forall n <- s.configs :: n != "" && s.configs[n].managedClusters != [] && exists p <- peers ::
      p.name == s.configs[n].from && s.configs[n].managedClusters == Group(p.clusters, s.drs, n)
  }

  lemma AttemptKeeps(peers: seq<Peer>, s: State, s': State, peer: Peer)
    requires WholeGroups(peers, s) && Attempt(s, s', peer) && peer in peers
    ensures WholeGroups(peers, s')
  {
    forall n <- s'.configs
      ensures n != "" && s'.configs[n].managedClusters != [] && exists p <- peers ::
        p.name == s'.configs[n].from && s'.configs[n].managedClusters == Group(p.clusters, s'.drs, n)
    {
      var p: Peer;
      if n in s.configs {
        p :| p in peers && p.name == s.configs[n].from && s.configs[n].managedClusters == Group(p.clusters, s.drs, n);
      } else {
        p := peer;
      }
      GroupStays(p.clusters, s.drs, s'.drs, n);
    }
  }

  lemma {:induction false} RunsKeep(peers: seq<Peer>, states: seq<State>, k: nat)
    requires Runs(peers, states) && k < |states|
    ensures WholeGroups(peers, states[k])
  {
    if k > 0 {
      RunsKeep(peers, states, k - 1);
      assert peers[k - 1] in peers && Attempt(states[k - 1], states[k], peers[k - 1]);
      AttemptKeeps(peers, states[k - 1], states[k], peers[k - 1]);
    }
  }

  /** Configurations made by whatever MirrorPeers in whatever runs have duplicate-free cluster lists and share
      no cluster, so each of them passes the uniqueness check. */
  lemma MigratedConfigsPass(peers: seq<Peer>, states: seq<State>, k: nat, n: string, all: seq<Listed>)
    requires Runs(peers, states) && k < |states| && n in states[k].configs
    requires forall l <- all :: l.name in states[k].configs && l.clusters == states[k].configs[l.name].managedClusters
    ensures Exclusive(n, states[k].configs[n].managedClusters, all)
  {
    RunsKeep(peers, states, k);
    var s := states[k];
    var p :| p in peers && p.name == s.configs[n].from && s.configs[n].managedClusters == Group(p.clusters, s.drs, n);
    GroupHolds(p.clusters, s.drs, n);
    forall l <- all | l.name != n ensures Disjoint(s.configs[n].managedClusters, l.clusters) {
      var q :| q in peers && q.name == s.configs[l.name].from
               && s.configs[l.name].managedClusters == Group(q.clusters, s.drs, l.name);
      GroupHolds(q.clusters, s.drs, l.name);
    }
  }

  /** Once a run for a MirrorPeer has gone through, a cluster of its that has a DRCluster is managed by the
      configuration named after its profile and by no other, exactly if the MirrorPeer that made this
      configuration also has the cluster. */
  lemma ManagedIffMakerHasIt(peers: seq<Peer>, states: seq<State>, k: nat, peer: Peer, maker: Peer, c: string)
    requires Runs(peers, states) && k < |states| && peer in peers && maker in peers
    requires Completed(states[k], peer) && c in peer.clusters && c in states[k].drs
    ensures var s, profile := states[k], states[k].drs[c].profile;
      && profile in s.configs && profile != ""
      && (forall n <- s.configs :: c in s.configs[n].managedClusters ==> n == profile)
      && (s.configs[profile].from == maker.name ==> (c in s.configs[profile].managedClusters <==> c in maker.clusters))
  {
    RunsKeep(peers, states, k);
    var s, profile := states[k], states[k].drs[c].profile;
    var m :| m in peers && m.name == s.configs[profile].from
             && s.configs[profile].managedClusters == Group(m.clusters, s.drs, profile);
    GroupHolds(m.clusters, s.drs, profile);
    forall n <- s.configs | c in s.configs[n].managedClusters ensures n == profile {
      var q :| q in peers && q.name == s.configs[n].from && s.configs[n].managedClusters == Group(q.clusters, s.drs, n);
      GroupHolds(q.clusters, s.drs, n);
    }
  }

  /** With one MirrorPeer, any number of partial runs and then a complete one put the cluster of each DRCluster
      it found into exactly one configuration, the one named after its profile. */
  lemma OnePeerMigratesAll(peers: seq<Peer>, states: seq<State>, k: nat, peer: Peer, c: string)
    requires Runs(peers, states) && k < |states| && peer in peers && forall p <- peers :: p == peer
    requires Completed(states[k], peer) && c in peer.clusters && c in states[k].drs
    ensures var s := states[k];
      forall n <- s.configs :: c in s.configs[n].managedClusters <==> n == s.drs[c].profile
    ensures states[k].drs[c].profile in states[k].configs
  {
    RunsKeep(peers, states, k);
    ManagedIffMakerHasIt(peers, states, k, peer, peer, c);
  }

  lemma {:induction false} RunsSameProfiles(peers: seq<Peer>, states: seq<State>, k: nat)
    requires Runs(peers, states) && k < |states|
    ensures SameProfiles(states[0].drs, states[k].drs)
  {
    if k > 0 {
      RunsSameProfiles(peers, states, k - 1);
      assert Attempt(states[k - 1], states[k], peers[k - 1]);
    }
  }

  /** A sequence of runs for MirrorPeers among `all`, up to a moment when one for `peer` has gone through. */
  ghost predicate Reaches(all: seq<Peer>, drs: DRClusters, peer: Peer, peers: seq<Peer>, states: seq<State>, k: nat) {
    && Runs(peers, states) && k < |states| && states[0].drs == drs && (forall q <- peers :: q in all)
    && peer in peers && Completed(states[k], peer)
  }

  /** In whatever order and number they are run: once a run for `peer` has gone through, its cluster is managed. */
  ghost predicate AlwaysManaged(all: seq<Peer>, drs: DRClusters, peer: Peer, c: string)
    requires c in drs
  {
    forall peers: seq<Peer>, states: seq<State>, k: nat ::
      Reaches(all, drs, peer, peers, states, k) ==> Manages(states[k].configs, drs[c].profile, c)
  }

  predicate Manages(configs: S3Configs, profile: string, c: string) {
    profile in configs && c in configs[profile].managedClusters
  }

  /** Every MirrorPeer with a DRCluster of this profile has the cluster. */
  predicate AllHave(all: seq<Peer>, drs: DRClusters, profile: string, c: string) {
    forall m <- all :: Group(m.clusters, drs, profile) != [] ==> c in m.clusters
  }

  /** The condition one can check beforehand: the cluster is managed in every order if and only if every
      MirrorPeer that has any DRCluster of its profile has the cluster too. */
  lemma AlwaysManagedIff(all: seq<Peer>, drs: DRClusters, peer: Peer, c: string)
    requires WellFormed(all) && peer in all && c in peer.clusters && c in drs
    requires forall d <- drs :: drs[d].profile != ""
    ensures AlwaysManaged(all, drs, peer, c) <==> AllHave(all, drs, drs[c].profile, c)
  {
    if AllHave(all, drs, drs[c].profile, c) {
      forall peers: seq<Peer>, states: seq<State>, k: nat | Reaches(all, drs, peer, peers, states, k)
        ensures Manages(states[k].configs, drs[c].profile, c)
      {
        ManagedIfAllHave(all, peers, states, k, peer, c);
      }
    } else {
      LostIfNotAllHave(all, drs, peer, c);
    }
  }

  lemma LostIfNotAllHave(all: seq<Peer>, drs: DRClusters, peer: Peer, c: string)
    requires WellFormed(all) && peer in all && c in peer.clusters && c in drs
    requires forall d <- drs :: drs[d].profile != ""
    requires !AllHave(all, drs, drs[c].profile, c)
    ensures !AlwaysManaged(all, drs, peer, c)
  {
    var m :| m in all && Group(m.clusters, drs, drs[c].profile) != [] && c !in m.clusters;
    var peers := [m, peer];
    assert peers[0] == m && peers[1] == peer;
    var states := FirstTakesAll(drs, m, peer, c);
    assert Reaches(all, drs, peer, peers, states, 2);
    assert !Manages(states[2].configs, drs[c].profile, c);
  }

  lemma ManagedIfAllHave(all: seq<Peer>, peers: seq<Peer>, states: seq<State>, k: nat, peer: Peer, c: string)
    requires Runs(peers, states) && k < |states| && (forall q <- peers :: q in all)
    requires peer in peers && c in peer.clusters && c in states[0].drs && Completed(states[k], peer)
    requires AllHave(all, states[0].drs, states[0].drs[c].profile, c)
    ensures Manages(states[k].configs, states[0].drs[c].profile, c)
  {
    RunsKeep(peers, states, k);
    RunsSameProfiles(peers, states, k);
    var s, profile := states[k], states[0].drs[c].profile;
    var m :| m in peers && m.name == s.configs[profile].from
             && s.configs[profile].managedClusters == Group(m.clusters, s.drs, profile);
    GroupStays(m.clusters, states[0].drs, s.drs, profile);
    GroupHolds(m.clusters, s.drs, profile);
  }

  /** What a complete run makes of the configurations, the buckets aside. */
  function Made(configs: S3Configs, drs: DRClusters, peer: Peer): S3Configs {
    configs + map c: string | c in peer.clusters && c in drs && drs[c].profile !in configs
                :: drs[c].profile := S3Config(Group(peer.clusters, drs, drs[c].profile), "", "", peer.name)
  }

  lemma MadeIsComplete(configs: S3Configs, drs: DRClusters, peer: Peer)
    requires forall d <- drs :: drs[d].profile != ""
    ensures Attempt(State(configs, drs), State(Made(configs, drs, peer), drs), peer)
    ensures Covered(Made(configs, drs, peer), drs, peer)
  {
    var made := Made(configs, drs, peer);
    forall n <- made | n !in configs
      ensures n != "" && made[n].from == peer.name && made[n].managedClusters == Group(peer.clusters, drs, n)
      ensures made[n].managedClusters != []
    {
      var c :| c in peer.clusters && c in drs && drs[c].profile == n;
      GroupHolds(peer.clusters, drs, n);
    }
  }

  lemma TwoRuns(first: Peer, second: Peer, s0: State, s1: State, s2: State)
    requires WellFormed([first, second]) && s0.configs == map[]
    requires Attempt(s0, s1, first) && Attempt(s1, s2, second)
    ensures Runs([first, second], [s0, s1, s2])
  {
    var peers, states := [first, second], [s0, s1, s2];
    forall i | 0 <= i < |peers| ensures Attempt(states[i], states[i + 1], peers[i]) {
    }
  }

  lemma StaysOut(drs: DRClusters, first: Peer, peer: Peer, c: string)
    requires c in drs && c !in first.clusters && Group(first.clusters, drs, drs[c].profile) != []
    ensures forall n <- Made(Made(map[], drs, first), drs, peer) :: c !in Made(Made(map[], drs, first), drs, peer)[n].managedClusters
  {
    var one := Made(map[], drs, first);
    var two := Made(one, drs, peer);
    GroupHolds(first.clusters, drs, drs[c].profile);
    var d := Group(first.clusters, drs, drs[c].profile)[0];
    assert d in Group(first.clusters, drs, drs[c].profile);
    assert drs[c].profile in one;
    forall n <- two ensures c !in two[n].managedClusters {
      if n in one {
        GroupHolds(first.clusters, drs, n);
      } else {
        GroupHolds(peer.clusters, drs, n);
      }
    }
  }

  /** One complete run for a MirrorPeer without the cluster, then one for the MirrorPeer that has it. */
  lemma FirstTakesAll(drs: DRClusters, first: Peer, peer: Peer, c: string) returns (states: seq<State>)
    requires WellFormed([first, peer]) && forall d <- drs :: drs[d].profile != ""
    requires c in drs && c !in first.clusters && Group(first.clusters, drs, drs[c].profile) != []
    ensures Runs([first, peer], states) && |states| == 3 && states[0].drs == drs && states[2].drs == drs
    ensures Completed(states[2], first) && Completed(states[2], peer)
    ensures forall n <- states[2].configs :: c !in states[2].configs[n].managedClusters
  {
    var one := Made(map[], drs, first);
    var two := Made(one, drs, peer);
    MadeIsComplete(map[], drs, first);
    MadeIsComplete(one, drs, peer);
    TwoRuns(first, peer, State(map[], drs), State(one, drs), State(two, drs));
    StaysOut(drs, first, peer, c);
    states := [State(map[], drs), State(one, drs), State(two, drs)];
  }

  /** So with several MirrorPeers a cluster can be lost: of two that have one profile in common the second finds
      the configuration made, and its clusters stay out, although both runs went through. */
  lemma SharedProfileLosesACluster(a: string, b: string, c: string, d: string, profile: string)
    returns (peers: seq<Peer>, states: seq<State>)
    requires NoDuplicates([a, b, c, d]) && profile != ""
    ensures Runs(peers, states) && |peers| == 2 && peers[0].clusters == [a, b] && peers[1].clusters == [c, d]
    ensures var s := states[2];
      && Completed(s, peers[0]) && Completed(s, peers[1]) && c in s.drs && d in s.drs
      && forall n <- s.configs :: c !in s.configs[n].managedClusters
  {
    var all := [a, b, c, d];
    assert all[0] != all[1] && all[2] != all[3] && all[0] != all[2] && all[1] != all[2];
    var drs := map x: string | x in all :: OwnedDRCluster(profile, []);
    var first, second := Peer("x", [a, b]), Peer("y", [c, d]);
    assert first.name[0] != second.name[0];
    assert a in all && c in all && d in all;
    GroupHolds(first.clusters, drs, profile);
    assert first.clusters[0] == a && second.clusters[0] == c;
    peers := [first, second];
    states := FirstTakesAll(drs, first, second, c);
  }

  lemma StaysOwned(s: State, s': State, other: Peer, peer: Peer, c: string)
    requires Attempt(s, s', other) && other.name != peer.name && c in s.drs && Owned(s.drs[c], peer)
    ensures Owned(s'.drs[c], peer)
  {
  }

  lemma CoveredStays(s: State, s': State, other: Peer, peer: Peer)
    requires Attempt(s, s', other) && Covered(s.configs, s.drs, peer)
    ensures Covered(s'.configs, s'.drs, peer)
  {
  }

  /** A DRCluster is without its MirrorPeer as an owner, and so safe from the garbage collector, only once
      every cluster of that MirrorPeer that has a DRCluster has the configuration of its profile. */
  lemma {:induction false} ReleasedOnlyWhenCovered(peers: seq<Peer>, states: seq<State>, k: nat, peer: Peer, c: string)
    requires Runs(peers, states) && k < |states| && peer in peers
    requires c in states[0].drs && Owned(states[0].drs[c], peer)
    ensures c in states[k].drs && (Owned(states[k].drs[c], peer) || Completed(states[k], peer))
  {
    if k > 0 {
      ReleasedOnlyWhenCovered(peers, states, k - 1, peer, c);
      var s, s' := states[k - 1], states[k];
      assert Attempt(s, s', peers[k - 1]);
      if Completed(s, peer) {
        CoveredStays(s, s', peers[k - 1], peer);
      } else if peers[k - 1].name != peer.name {
        StaysOwned(s, s', peers[k - 1], peer, c);
      }
    }
  }

  // ---------- the code ----------

  /** The first addon on one of the clusters says where the bucket is; a client whose provider is another
      cluster has none, and the configuration is then created without a provider. */
  function BucketPlace(addons: seq<AddOnConfig>, clusters: seq<string>): AddOnConfig {
    if addons == [] then AddOnConfig("", "")
    else if addons[0].namespace in clusters then addons[0]
    else BucketPlace(addons[1..], clusters)
  }

  lemma {:induction false} BucketPlaceIsFirst(addons: seq<AddOnConfig>, clusters: seq<string>)
    requires "" !in clusters
    ensures var b := BucketPlace(addons, clusters);
      if b.namespace == "" then b.installNamespace == "" && forall a <- addons :: a.namespace !in clusters
      else exists i :: 0 <= i < |addons| && addons[i] == b && b.namespace in clusters
                       && forall j :: 0 <= j < i ==> addons[j].namespace !in clusters
  {
    if addons != [] && addons[0].namespace !in clusters {
      var rest, b := addons[1..], BucketPlace(addons, clusters);
      BucketPlaceIsFirst(rest, clusters);
      if b.namespace != "" {
        var i :| 0 <= i < |rest| && rest[i] == b && forall j :: 0 <= j < i ==> rest[j].namespace !in clusters;
        assert addons[i + 1] == b && forall j :: 0 < j < i + 1 ==> addons[j] == rest[j - 1];
      }
    }
  }

  method FindBucketPlace(addons: seq<AddOnConfig>, clusters: seq<string>) returns (provider: string, namespace: string)
    requires "" !in clusters
    ensures AddOnConfig(provider, namespace) == BucketPlace(addons, clusters)
  {
    provider, namespace := "", "";
    for i := 0 to |addons|
      invariant provider == "" && namespace == ""
      invariant BucketPlace(addons, clusters) == BucketPlace(addons[i..], clusters)
    {
      assert addons[i..][1..] == addons[i + 1..];
      for j := 0 to |clusters|
        invariant provider == "" && namespace == ""
        invariant addons[i].namespace !in clusters[..j]
      {
        if addons[i].namespace == clusters[j] {
          provider, namespace := addons[i].namespace, addons[i].installNamespace;
          break;
        }
      }
      assert clusters[..|clusters|] == clusters;
      if provider != "" {
        break;
      }
    }
  }

  /** Of these clusters, each DRCluster that was owned by the MirrorPeer has lost one reference to it;
      nothing else has changed. */
  ghost predicate AllReleased(drs: DRClusters, drs': DRClusters, peer: Peer, clusters: seq<string>) {
    Releasing(drs, drs', peer, clusters) &&
    forall c <- clusters :: c in drs && Owned(drs[c], peer) ==> drs'[c] != drs[c]
  }

  lemma ReleasingMore(drs: DRClusters, drs': DRClusters, peer: Peer, some: seq<string>, more: seq<string>)
    requires Releasing(drs, drs', peer, some) && forall c <- some :: c in more
    ensures Releasing(drs, drs', peer, more)
  {
  }

  lemma ReleaseOne(d0: DRClusters, d1: DRClusters, d: OwnedDRCluster, peer: Peer, done: seq<string>, c: string)
    requires Releasing(d0, d1, peer, done) && c in d1 && c !in done && Released(d1[c], d, peer)
    ensures Releasing(d0, d1[c := d], peer, done + [c])
    ensures AllReleased(d0, d1, peer, done) && (Owned(d1[c], peer) ==> d != d1[c]) ==>
              AllReleased(d0, d1[c := d], peer, done + [c])
  {
  }

  lemma ReleaseFirst(d: OwnedDRCluster, i: nat, peer: Peer)
    requires i < |d.owners| && d.owners[i] == OwnerRef("MirrorPeer", peer.name)
    requires OwnerRef("MirrorPeer", peer.name) !in d.owners[..i]
    ensures Released(d, d.(owners := d.owners[..i] + d.owners[i + 1..]), peer)
  {
  }

  class MirrorPeerReconciler {
    var configs: S3Configs
    var drs: DRClusters

    constructor (c: S3Configs, d: DRClusters)
      ensures configs == c && drs == d
    {
      configs, drs := c, d;
    }

    /** Any API call may fail. */
    method ApiFails() returns (failed: bool) {
      failed := *;
    }

    /** `addons` is what GetConfig says, if it has the client information it needs. */
    method CreateS3ConfigForProfile(peer: Peer, profile: string, clusters: seq<string>, addons: Option<seq<AddOnConfig>>)
      returns (ok: bool)
      requires "" !in clusters
      modifies `configs
      ensures ok ==> profile in configs && profile != ""
      ensures configs == old(configs) ||
        (profile != "" && profile !in old(configs) && addons.Some? &&
         var b := BucketPlace(addons.value, clusters);
         configs == old(configs)[profile := S3Config(clusters, b.namespace, b.installNamespace, peer.name)])
    {
      var failed := ApiFails();
      if failed || profile == "" {
        return false;
      }
      if profile in configs {
        return true;
      }
      if addons.None? {
        return false;
      }
      var provider, namespace := FindBucketPlace(addons.value, clusters);
      failed := ApiFails();
      if failed {
        return false;
      }
      configs := configs[profile := S3Config(clusters, provider, namespace, peer.name)];
      return true;
    }

    /** One after another, in no particular order. */
    method CreateForGroups(peer: Peer, groups: map<string, seq<string>>, addons: Option<seq<AddOnConfig>>) returns (ok: bool)
      requires forall p <- groups :: "" !in groups[p]
      modifies `configs
      ensures forall n <- old(configs) :: n in configs && configs[n] == old(configs)[n]
      ensures forall n <- configs :: n !in old(configs) ==>
                n != "" && n in groups && configs[n].managedClusters == groups[n] && configs[n].from == peer.name
      ensures ok ==> forall p <- groups :: p in configs
    {
      var left := groups.Keys;
      while left != {}
        invariant left <= groups.Keys
        invariant forall n <- old(configs) :: n in configs && configs[n] == old(configs)[n]
        invariant forall n <- configs :: n !in old(configs) ==>
                    n != "" && n in groups && configs[n].managedClusters == groups[n] && configs[n].from == peer.name
        invariant forall p <- groups :: p in left || p in configs
        decreases left
      {
        var p :| p in left;
        ok := CreateS3ConfigForProfile(peer, p, groups[p], addons);
        if !ok {
          return;
        }
        left := left - {p};
      }
      ok := true;
    }

    method ReleaseDRCluster(peer: Peer, cluster: string) returns (ok: bool)
      requires cluster in drs
      modifies `drs
      ensures cluster in drs && drs == old(drs)[cluster := drs[cluster]]
      ensures Released(old(drs)[cluster], drs[cluster], peer)
      ensures ok && Owned(old(drs)[cluster], peer) ==> drs[cluster] != old(drs)[cluster]
    {
      var owners := drs[cluster].owners;
      for i := 0 to |owners|
        invariant drs == old(drs) && OwnerRef("MirrorPeer", peer.name) !in owners[..i]
      {
        if owners[i] == OwnerRef("MirrorPeer", peer.name) {
          var failed := ApiFails();
          if !failed {
            ReleaseFirst(drs[cluster], i, peer);
            drs := drs[cluster := drs[cluster].(owners := owners[..i] + owners[i + 1..])];
          }
          return !failed;
        }
      }
      return true;
    }

    method ReleaseDRClusters(peer: Peer) returns (ok: bool)
      requires NoDuplicates(peer.clusters)
      modifies `drs
      ensures Releasing(old(drs), drs, peer, peer.clusters)
      ensures ok ==> AllReleased(old(drs), drs, peer, peer.clusters)
    {
      for i := 0 to |peer.clusters|
        invariant AllReleased(old(drs), drs, peer, peer.clusters[..i])
      {
        var c := peer.clusters[i];
        assert peer.clusters[..i + 1] == peer.clusters[..i] + [c];
        if c in drs {
          ghost var before := drs;
          ok := ReleaseDRCluster(peer, c);
          ReleaseOne(old(drs), before, drs[c], peer, peer.clusters[..i], c);
          ReleasingMore(old(drs), drs, peer, peer.clusters[..i + 1], peer.clusters);
          if !ok {
            return;
          }
        }
      }
      assert peer.clusters[..|peer.clusters|] == peer.clusters;
      ok := true;
    }

    /** A run for one MirrorPeer: it either goes through or stops somewhere, and both are an attempt. */
    method CreateS3Configuration(peer: Peer, manageS3: bool, addons: Option<seq<AddOnConfig>>) returns (ok: bool)
      requires NoDuplicates(peer.clusters) && "" !in peer.clusters
      modifies this
      ensures Attempt(State(old(configs), old(drs)), State(configs, drs), peer)
      ensures ok && manageS3 ==> Completed(State(configs, drs), peer) && AllReleased(old(drs), drs, peer, peer.clusters)
    {
      if !manageS3 {
        return true;
      }
      var failed := ApiFails();
      if failed {
        return false;
      }
      var groups := GroupByProfile(peer.clusters, drs);
      forall p <- groups ensures "" !in groups[p] {
        GroupHolds(peer.clusters, drs, p);
      }
      ok := CreateForGroups(peer, groups, addons);
      if !ok {
        return;
      }
      forall c <- peer.clusters | c in drs ensures drs[c].profile in configs {
        GroupHolds(peer.clusters, drs, drs[c].profile);
      }
      ok := ReleaseDRClusters(peer);
    }
  }
}
