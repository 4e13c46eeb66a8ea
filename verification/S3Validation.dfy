/** The checks an S3Configuration goes through and the DRClusters it takes over, as loops over listings. */
module S3Validation {
  import opened Options

  /** What the checks look at: a stored configuration's name and its immutable cluster list. */
  datatype Listed = Listed(name: string, clusters: seq<string>)

  datatype DRPolicy = DRPolicy(name: string, clusters: seq<string>)

  predicate NoDuplicates(cs: seq<string>) {
    forall i, j :: 0 <= i < j < |cs| ==> cs[i] != cs[j]
  }

  predicate Disjoint(cs: seq<string>, ds: seq<string>) {
    forall c <- cs :: c !in ds
  }

  /** The rule: no cluster twice in the list, and none in the list of another configuration. */
  predicate Exclusive(name: string, clusters: seq<string>, all: seq<Listed>) {
    NoDuplicates(clusters) && forall l <- all :: l.name != name ==> Disjoint(clusters, l.clusters)
  }

  method ValidateManagedClustersUniqueness(name: string, clusters: seq<string>, all: seq<Listed>) returns (ok: bool)
    ensures ok <==> Exclusive(name, clusters, all)
    ensures ok ==> forall i, j :: 0 <= i < j < |clusters| ==> clusters[i] != clusters[j]
    ensures ok ==> forall l <- all, c <- clusters :: l.name != name ==> c !in l.clusters
    ensures !ok ==> (exists i, j :: 0 <= i < j < |clusters| && clusters[i] == clusters[j])
                    || exists l <- all, c <- clusters :: l.name != name && c in l.clusters
  {
    var clusterSet: map<string, bool> := map[];
    for i := 0 to |clusters|
      invariant forall c :: c in clusterSet <==> c in clusters[..i]
      invariant forall c <- clusterSet :: clusterSet[c]
      invariant NoDuplicates(clusters[..i])
    {
      if clusters[i] in clusterSet && clusterSet[clusters[i]] {
        var j :| 0 <= j < i && clusters[..i][j] == clusters[i];
        assert clusters[j] == clusters[i];
        return false;
      }
      assert clusters[..i + 1] == clusters[..i] + [clusters[i]];
      clusterSet := clusterSet[clusters[i] := true];
    }
    assert clusters[..|clusters|] == clusters;

    var usedClusters: map<string, string> := map[];
    for i := 0 to |all|
      invariant forall c :: c in usedClusters <==> exists k :: 0 <= k < i && all[k].name != name && c in all[k].clusters
    {
      if all[i].name == name {
        continue;
      }
      var before := usedClusters;
      for j := 0 to |all[i].clusters|
        invariant forall c :: c in usedClusters <==> c in before || c in all[i].clusters[..j]
      {
        usedClusters := usedClusters[all[i].clusters[j] := all[i].name];
      }
      assert all[i].clusters[..|all[i].clusters|] == all[i].clusters;
    }

    var conflicts: seq<string> := [];
    for i := 0 to |clusters|
      invariant conflicts == [] <==> forall k :: 0 <= k < i ==> clusters[k] !in usedClusters
    {
      if clusters[i] in usedClusters {
        conflicts := conflicts + [clusters[i]];
      }
    }
    return |conflicts| == 0;
  }

  /** The same rule over the stored configurations, given as their cluster lists by name. */
  predicate Alone(name: string, clusters: seq<string>, stored: map<string, seq<string>>) {
    NoDuplicates(clusters) && forall n <- stored :: n != name ==> Disjoint(clusters, stored[n])
  }

  method ListConfigurations(stored: map<string, seq<string>>) returns (all: seq<Listed>)
    ensures forall l <- all :: l.name in stored && l.clusters == stored[l.name]
    ensures forall n <- stored :: Listed(n, stored[n]) in all
  {
    all := [];
    var left := stored.Keys;
    while left != {}
      invariant left <= stored.Keys
      invariant forall l <- all :: l.name in stored && l.clusters == stored[l.name]
      invariant forall n <- stored :: n in left || Listed(n, stored[n]) in all
      decreases left
    {
      var n :| n in left;
      all := all + [Listed(n, stored[n])];
      left := left - {n};
    }
  }

  /** The check on a fresh listing decides the rule. */
  method CheckStored(name: string, clusters: seq<string>, stored: map<string, seq<string>>) returns (ok: bool)
    ensures ok <==> Alone(name, clusters, stored)
  {
    var all := ListConfigurations(stored);
    ok := ValidateManagedClustersUniqueness(name, clusters, all);
    if ok {
      forall n <- stored | n != name ensures Disjoint(clusters, stored[n]) {
        assert Listed(n, stored[n]) in all;
      }
    }
  }

  /** No DRPolicy names any of the clusters. */
  predicate Unused(clusters: seq<string>, policies: seq<DRPolicy>) {
    forall p <- policies :: Disjoint(p.clusters, clusters)
  }

  method ValidateNoDRPolicyUsesClusters(clusters: seq<string>, policies: seq<DRPolicy>) returns (ok: bool)
    ensures ok <==> Unused(clusters, policies)
    ensures ok <==> forall p <- policies, c <- clusters :: c !in p.clusters
  {
    for i := 0 to |policies|
      invariant forall k :: 0 <= k < i ==> Disjoint(policies[k].clusters, clusters)
    {
      for j := 0 to |policies[i].clusters|
        invariant forall k :: 0 <= k < j ==> policies[i].clusters[k] !in clusters
      {
        for k := 0 to |clusters|
          invariant policies[i].clusters[j] !in clusters[..k]
        {
          if policies[i].clusters[j] == clusters[k] {
            assert policies[i] in policies && policies[i].clusters[j] in policies[i].clusters;
            return false;
          }
        }
        assert clusters[..|clusters|] == clusters;
      }
    }
    return true;
  }

  // ---------- DRClusters ----------

  /** The controlling configuration, by name and UID. */
  datatype Owner = Owner(name: string, uid: nat)

  /** `rest` is everything of the spec besides the S3 profile. */
  datatype DRCluster = DRCluster(controller: Option<Owner>, profile: string, rest: string)

  type DRClusters = map<string, DRCluster>

  /** It may not be taken from a controller of another name. */
  predicate MayControl(m: DRClusters, cluster: string, owner: Owner) {
    cluster in m && m[cluster].controller.Some? ==> m[cluster].controller.value.name == owner.name
  }

  function TakenOver(m: DRClusters, cluster: string, owner: Owner): DRCluster {
    var found := if cluster in m then m[cluster] else DRCluster(None, "", "");
    found.(controller := Some(owner), profile := owner.name)
  }

  function Ensured(m: DRClusters, clusters: seq<string>, owner: Owner): (DRClusters, bool)
    decreases |clusters|
  {
    if clusters == [] then (m, true)
    else if !MayControl(m, clusters[0], owner) then (m, false)
    else Ensured(m[clusters[0] := TakenOver(m, clusters[0], owner)], clusters[1..], owner)
  }

  /** The DRCluster is controlled by the configuration and names it as its profile; the rest of what was stored, if
      anything was, is as before. */
  predicate TookOver(m: DRClusters, m': DRClusters, c: string, owner: Owner) {
    && c in m' && m'[c].controller == Some(owner) && m'[c].profile == owner.name
    && m'[c].rest == (if c in m then m[c].rest else "")
  }

  /** Success means every cluster of the list is now controlled by the configuration, names it as its profile and is
      otherwise as it was; and it is had exactly if none of them is under a configuration of another name. Whatever
      happens, a DRCluster under such a configuration, or not in the list, is left as it is. */
  lemma {:induction false} EnsuredControls(m: DRClusters, clusters: seq<string>, owner: Owner)
    ensures var (m', ok) := Ensured(m, clusters, owner);
      && (ok <==> forall c <- clusters :: c in m && m[c].controller.Some? ==> m[c].controller.value.name == owner.name)
      && (ok ==> forall c <- clusters :: TookOver(m, m', c, owner))
      && (forall c <- m :: c in m' && (!MayControl(m, c, owner) || c !in clusters ==> m'[c] == m[c]))
      && (forall c <- m' :: (c in m && m'[c] == m[c]) || (c in clusters && TookOver(m, m', c, owner)))
    decreases |clusters|
  {
    if clusters != [] && MayControl(m, clusters[0], owner) {
      var m1 := m[clusters[0] := TakenOver(m, clusters[0], owner)];
      EnsuredControls(m1, clusters[1..], owner);
      assert forall c :: c in clusters <==> c == clusters[0] || c in clusters[1..];
      var m' := Ensured(m, clusters, owner).0;
      assert m'[clusters[0]] == m1[clusters[0]] || TookOver(m1, m', clusters[0], owner);
    }
  }

  class DRClusterClient {
    var drClusters: DRClusters

    constructor (m: DRClusters)
      ensures drClusters == m
    {
      drClusters := m;
    }

    method EnsureDrClusters(clusters: seq<string>, owner: Owner) returns (ok: bool)
      modifies this
      ensures (drClusters, ok) == Ensured(old(drClusters), clusters, owner)
      ensures ok ==> forall c <- clusters :: TookOver(old(drClusters), drClusters, c, owner)
    {
      EnsuredControls(drClusters, clusters, owner);
      for i := 0 to |clusters|
        invariant Ensured(old(drClusters), clusters, owner) == Ensured(drClusters, clusters[i..], owner)
      {
        assert clusters[i..][0] == clusters[i] && clusters[i..][1..] == clusters[i + 1..];
        if !MayControl(drClusters, clusters[i], owner) {
          return false;
        }
        drClusters := drClusters[clusters[i] := TakenOver(drClusters, clusters[i], owner)];
      }
      return true;
    }
  }
}
