/** The index of storage clients that the hub builds from the ManagedClusterViews: each view contributes the
    clients its provider cluster reports, in whatever order maps are walked and views are reconciled. */
module ClientInfoIndex {
  import opened Options
  import opened Hash

  /** `details` is everything the index passes on without looking at it. */
  datatype ProviderInfo = ProviderInfo(managedCluster: string, details: string)

  datatype ClientInfo = ClientInfo(clusterID: string, name: string, provider: ProviderInfo, managedCluster: string, clientID: string)

  datatype Client = Client(clusterID: string, name: string, clientID: string)

  datatype OdfInfo = OdfInfo(storageCluster: string, details: string, clients: seq<Client>)

  /** One entry of a view's data; `info` is there if the text is the YAML it should be. */
  datatype Content = NotText | Text(info: Option<OdfInfo>)

  /** The index, whose values are JSON texts; the codec is taken to be lossless. */
  type Index = map<string, ClientInfo>

  /** ManagedCluster names by cluster ID. */
  type ClusterNames = map<string, string>

  // ---------- what a view contributes ----------

  /** The storage cluster itself if nobody has clients there, otherwise its clients: each with its cluster,
      its name there, and the information. */
  datatype Entry = Entry(cluster: string, client: string, info: ClientInfo)

  predicate Resolved(o: OdfInfo, names: ClusterNames) {
    forall c <- o.clients :: c.clusterID in names
  }

  ghost predicate Contributes(o: OdfInfo, provider: string, names: ClusterNames, e: Entry) {
    var p := ProviderInfo(provider, o.details);
    if o.clients == [] then e == Entry(provider, o.storageCluster, ClientInfo("", "", p, "", ""))
    else exists c <- o.clients :: c.clusterID in names && e == EntryOf(c, p, names[c.clusterID])
  }

  function EntryOf(c: Client, p: ProviderInfo, cluster: string): Entry {
    Entry(cluster, c.name, ClientInfo(c.clusterID, c.name, p, cluster, c.clientID))
  }

  predicate Contains(s: string, part: string) {
    |part| <= |s| && (s[..|part|] == part || Contains(s[1..], part))
  }

  predicate Counts(key: string) {
    Contains(key, ".yaml")
  }

  predicate Readable(data: map<string, Content>, names: ClusterNames) {
    forall k <- data :: Counts(k) ==> data[k].Text? && data[k].info.Some? && Resolved(data[k].info.value, names)
  }

  /** An entry of some file of the view. */
  ghost predicate Reported(data: map<string, Content>, provider: string, names: ClusterNames, e: Entry) {
    exists k <- data :: Counts(k) && data[k].Text? && data[k].info.Some? && Contributes(data[k].info.value, provider, names, e)
  }

  /** Each key is that of an entry with this information, and no entry is without its key. */
  ghost predicate Indexes(m: Index, data: map<string, Content>, provider: string, names: ClusterNames) {
    && (forall k <- m :: exists e: Entry :: k == GetKey(e.cluster, e.client) && m[k] == e.info && Reported(data, provider, names, e))
    && (forall e: Entry :: Reported(data, provider, names, e) ==> GetKey(e.cluster, e.client) in m)
  }

  predicate SameClient(d: Entry, e: Entry) {
    d.cluster == e.cluster && d.client == e.client
  }

  /** The view reports a client of a cluster only once, and clusters have proper names. */
  ghost predicate Distinct(data: map<string, Content>, provider: string, names: ClusterNames) {
    && (forall e: Entry :: Reported(data, provider, names, e) ==> '_' !in e.cluster)
    && (forall d: Entry, e: Entry ::
          Reported(data, provider, names, d) && Reported(data, provider, names, e) && SameClient(d, e) ==> d == e)
  }

  /** What is looked up is exactly what was reported, whatever the order in which the files were walked. */
  lemma LookupIsReport(m: Index, data: map<string, Content>, provider: string, names: ClusterNames, e: Entry)
    requires Indexes(m, data, provider, names) && Distinct(data, provider, names) && '_' !in e.cluster
    ensures GetKey(e.cluster, e.client) in m && m[GetKey(e.cluster, e.client)] == e.info <==>
            Reported(data, provider, names, e)
  {
    var k := GetKey(e.cluster, e.client);
    if k in m {
      var d: Entry :| k == GetKey(d.cluster, d.client) && m[k] == d.info && Reported(data, provider, names, d);
      GetKeyDetermines(e.cluster, e.client, d.cluster, d.client);
    }
  }

  predicate PartAt(s: string, part: string, i: int) {
    0 <= i <= |s| - |part| && s[i..i + |part|] == part
  }

  lemma SliceOfTail(s: string, i: nat, n: nat)
    requires 0 < i <= |s| - n
    ensures s[i..i + n] == s[1..][i - 1..i - 1 + n]
  {
    var part, tail := s[i..i + n], s[1..][i - 1..i - 1 + n];
    forall k | 0 <= k < n ensures part[k] == tail[k] {
      assert s[1..][i - 1 + k] == s[i + k];
    }
  }

  lemma {:induction false} ContainsIff(s: string, part: string)
    ensures Contains(s, part) <==> exists i :: PartAt(s, part, i)
  {
    if |part| <= |s| {
      assert s[..|part|] == part <==> PartAt(s, part, 0);
      if s != [] {
        ContainsIff(s[1..], part);
        forall i | i > 0 ensures PartAt(s, part, i) <==> PartAt(s[1..], part, i - 1) {
          if i <= |s| - |part| {
            SliceOfTail(s, i, |part|);
          }
        }
        if i :| PartAt(s[1..], part, i) {
          assert PartAt(s, part, i + 1);
        }
      } else {
        assert part == [];
      }
    }
  }

  /** A client of a file is looked up under the name of its cluster and its own, joined by an underscore, and gives
      its own IDs and name, the cluster's name, and the provider's details. */
  lemma LookupOfClient(m: Index, data: map<string, Content>, provider: string, names: ClusterNames, file: string, c: Client)
    requires Indexes(m, data, provider, names) && Distinct(data, provider, names)
    requires file in data && Counts(file) && data[file].Text? && data[file].info.Some? && c in data[file].info.value.clients
    requires c.clusterID in names
    ensures var k := names[c.clusterID] + "_" + c.name;
      k in m && m[k] == ClientInfo(
        c.clusterID, c.name, ProviderInfo(provider, data[file].info.value.details), names[c.clusterID], c.clientID)
  {
    var o := data[file].info.value;
    var e := EntryOf(c, ProviderInfo(provider, o.details), names[c.clusterID]);
    assert Contributes(o, provider, names, e);
    assert Reported(data, provider, names, e);
    LookupIsReport(m, data, provider, names, e);
  }

  /** A storage cluster without clients is found under the provider's name and its own, with the provider's details. */
  lemma LookupOfCluster(m: Index, data: map<string, Content>, provider: string, names: ClusterNames, file: string)
    requires Indexes(m, data, provider, names) && Distinct(data, provider, names)
    requires file in data && Counts(file) && data[file].Text? && data[file].info.Some? && data[file].info.value.clients == []
    ensures var o := data[file].info.value; var k := provider + "_" + o.storageCluster;
      k in m && m[k] == ClientInfo("", "", ProviderInfo(provider, o.details), "", "")
  {
    var o := data[file].info.value;
    var e := Entry(provider, o.storageCluster, ClientInfo("", "", ProviderInfo(provider, o.details), "", ""));
    assert Contributes(o, provider, names, e);
    assert Reported(data, provider, names, e);
    LookupIsReport(m, data, provider, names, e);
  }

  /** So any two ways to walk them give the same index. */
  lemma WalkOrderDoesNotMatter(m: Index, n: Index, data: map<string, Content>, provider: string, names: ClusterNames)
    requires Indexes(m, data, provider, names) && Indexes(n, data, provider, names) && Distinct(data, provider, names)
    ensures m == n
  {
    SubIndex(m, n, data, provider, names);
    SubIndex(n, m, data, provider, names);
  }

  lemma SubIndex(m: Index, n: Index, data: map<string, Content>, provider: string, names: ClusterNames)
    requires Indexes(m, data, provider, names) && Indexes(n, data, provider, names) && Distinct(data, provider, names)
    ensures forall k <- m :: k in n && n[k] == m[k]
  {
    forall k <- m ensures k in n && n[k] == m[k] {
      var e: Entry :| k == GetKey(e.cluster, e.client) && m[k] == e.info && Reported(data, provider, names, e);
      LookupIsReport(n, data, provider, names, e);
    }
  }

  /** Views of two providers agree if no client is reported by both. */
  lemma ViewsAgree(m: Index, data: map<string, Content>, p: string, n: Index, data': map<string, Content>, q: string, names: ClusterNames)
    requires Indexes(m, data, p, names) && Distinct(data, p, names)
    requires Indexes(n, data', q, names) && Distinct(data', q, names)
    requires forall d: Entry, e: Entry :: Reported(data, p, names, d) && Reported(data', q, names, e) ==> !SameClient(d, e)
    ensures m.Keys !! n.Keys && Agree(m, n)
  {
    forall k | k in m ensures k !in n {
      var d := EntryBehind(m, data, p, names, k);
      if k in n {
        var e := EntryBehind(n, data', q, names, k);
        GetKeyDetermines(d.cluster, d.client, e.cluster, e.client);
        assert SameClient(d, e);
      }
    }
  }

  lemma EntryBehind(m: Index, data: map<string, Content>, p: string, names: ClusterNames, k: string) returns (e: Entry)
    requires Indexes(m, data, p, names) && Distinct(data, p, names) && k in m
    ensures k == GetKey(e.cluster, e.client) && '_' !in e.cluster && Reported(data, p, names, e)
  {
    e :| k == GetKey(e.cluster, e.client) && m[k] == e.info && Reported(data, p, names, e);
  }

  // ---------- merging the views ----------

  function MergeAll(base: Index, views: seq<Index>): Index
    decreases |views|
  {
    if views == [] then base else MergeAll(base + views[0], views[1..])
  }

  predicate Agree(a: Index, b: Index) {
    forall k <- a :: k in b ==> a[k] == b[k]
  }

  /** Two views can be merged in either order, into every index, exactly if they agree where they overlap. */
  lemma MergeCommutesIff(a: Index, b: Index)
    ensures Agree(a, b) <==> forall base: Index :: base + a + b == base + b + a
  {
    if forall base: Index :: base + a + b == base + b + a {
      var base: Index := map[];
      assert base + a + b == base + b + a;
      forall k <- a | k in b ensures a[k] == b[k] {
        assert (base + a + b)[k] == b[k] && (base + b + a)[k] == a[k];
      }
    }
  }

  predicate AllAgree(views: seq<Index>) {
    forall i, j :: 0 <= i < |views| && 0 <= j < |views| ==> Agree(views[i], views[j])
  }

  /** The merged index holds every entry of every view, and of the earlier index whatever no view has. */
  lemma {:induction false} MergeAllHolds(base: Index, views: seq<Index>)
    requires AllAgree(views)
    ensures forall v <- views, k :: k in v ==> k in MergeAll(base, views) && MergeAll(base, views)[k] == v[k]
    ensures forall k <- base :: k in MergeAll(base, views) &&
              ((forall v <- views :: k !in v) ==> MergeAll(base, views)[k] == base[k])
    ensures forall k <- MergeAll(base, views) :: k in base || exists v <- views :: k in v
    decreases |views|
  {
    if views != [] {
      var first, rest := views[0], views[1..];
      forall i, j | 0 <= i < |rest| && 0 <= j < |rest| ensures Agree(rest[i], rest[j]) {
        assert Agree(views[i + 1], views[j + 1]);
      }
      MergeAllHolds(base + first, rest);
      forall k <- first ensures k in MergeAll(base, views) && MergeAll(base, views)[k] == first[k] {
        if v :| v in rest && k in v {
          var j :| 0 <= j < |rest| && rest[j] == v;
          assert Agree(views[0], views[j + 1]);
        }
      }
    }
  }

  /** The order in which the views are reconciled, and how often, makes no difference. */
  lemma ViewOrderDoesNotMatter(base: Index, views: seq<Index>, again: seq<Index>)
    requires AllAgree(views) && forall v :: v in views <==> v in again
    ensures MergeAll(base, views) == MergeAll(base, again)
  {
    forall i, j | 0 <= i < |again| && 0 <= j < |again| ensures Agree(again[i], again[j]) {
      assert again[i] in views && again[j] in views;
    }
    MergeAllHolds(base, views);
    MergeAllHolds(base, again);
    var m, n := MergeAll(base, views), MergeAll(base, again);
    forall k ensures k in m <==> k in n {}
    forall k | k in m ensures m[k] == n[k] {
      if v :| v in views && k in v {
        assert v in again;
      }
    }
  }

  // ---------- looking up in the merged index ----------

  datatype View = View(provider: string, data: map<string, Content>)

  ghost predicate ReportedIn(v: View, names: ClusterNames, e: Entry) {
    Reported(v.data, v.provider, names, e)
  }

  ghost predicate Proper(v: View, names: ClusterNames) {
    Distinct(v.data, v.provider, names)
  }

  ghost predicate ShareNoClient(v: View, u: View, names: ClusterNames) {
    forall d: Entry, e: Entry :: ReportedIn(v, names, d) && ReportedIn(u, names, e) ==> !SameClient(d, e)
  }

  /** The index of each view, whatever the order in which its files were walked; two of the views are the same, or
      share no client. */
  ghost predicate IndexesOf(ms: seq<Index>, views: seq<View>, names: ClusterNames) {
    && |ms| == |views|
    && (forall i :: 0 <= i < |ms| ==> Proper(views[i], names) && Indexes(ms[i], views[i].data, views[i].provider, names))
    && forall i, j :: 0 <= i < |views| && 0 <= j < |views| && views[i] != views[j] ==> ShareNoClient(views[i], views[j], names)
  }

  lemma IndexesAgree(ms: seq<Index>, views: seq<View>, names: ClusterNames)
    requires IndexesOf(ms, views, names)
    ensures AllAgree(ms)
  {
    forall i, j | 0 <= i < |ms| && 0 <= j < |ms| ensures Agree(ms[i], ms[j]) {
      var v, u := views[i], views[j];
      if v == u {
        WalkOrderDoesNotMatter(ms[i], ms[j], v.data, v.provider, names);
      } else {
        assert ShareNoClient(v, u, names);
        OtherViewsAgree(ms[i], v, ms[j], u, names);
      }
    }
  }

  lemma OtherViewsAgree(m: Index, v: View, n: Index, u: View, names: ClusterNames)
    requires Indexes(m, v.data, v.provider, names) && Proper(v, names)
    requires Indexes(n, u.data, u.provider, names) && Proper(u, names) && ShareNoClient(v, u, names)
    ensures Agree(m, n)
  {
    forall d: Entry, e: Entry | Reported(v.data, v.provider, names, d) && Reported(u.data, u.provider, names, e)
      ensures !SameClient(d, e)
    {
      assert ReportedIn(v, names, d) && ReportedIn(u, names, e);
    }
    ViewsAgree(m, v.data, v.provider, n, u.data, u.provider, names);
  }

  ghost predicate Knows(v: View, names: ClusterNames, e: Entry) {
    exists d: Entry :: ReportedIn(v, names, d) && SameClient(d, e)
  }

  /** A view's index has the key of a client exactly if the view reports the client. */
  lemma KeyIffKnown(m: Index, v: View, names: ClusterNames, e: Entry)
    requires Indexes(m, v.data, v.provider, names) && Proper(v, names) && '_' !in e.cluster
    ensures GetKey(e.cluster, e.client) in m <==> Knows(v, names, e)
  {
    var k := GetKey(e.cluster, e.client);
    if k in m {
      var d := EntryBehind(m, v.data, v.provider, names, k);
      GetKeyDetermines(e.cluster, e.client, d.cluster, d.client);
      assert ReportedIn(v, names, d) && SameClient(d, e);
    }
    if d: Entry :| ReportedIn(v, names, d) && SameClient(d, e) {
      assert Reported(v.data, v.provider, names, d) && GetKey(d.cluster, d.client) == k;
    }
  }

  lemma ReporterKnows(v: View, names: ClusterNames, e: Entry)
    ensures ReportedIn(v, names, e) ==> Knows(v, names, e)
  {
    assert SameClient(e, e);
  }

  lemma OthersDoNotKnow(ms: seq<Index>, views: seq<View>, names: ClusterNames, e: Entry, i: nat)
    requires IndexesOf(ms, views, names) && i < |views| && Knows(views[i], names, e)
    ensures forall u <- views :: u != views[i] ==> !Knows(u, names, e)
  {
    var d: Entry :| ReportedIn(views[i], names, d) && SameClient(d, e);
    forall u <- views | u != views[i] ensures !Knows(u, names, e) {
      var j :| 0 <= j < |views| && views[j] == u;
      assert ShareNoClient(views[i], views[j], names);
      forall o: Entry | ReportedIn(u, names, o) ensures !SameClient(o, e) {
        assert !SameClient(d, o);
      }
    }
  }

  lemma NoViewHasKey(ms: seq<Index>, views: seq<View>, names: ClusterNames, e: Entry)
    requires IndexesOf(ms, views, names) && '_' !in e.cluster && forall v <- views :: !Knows(v, names, e)
    ensures forall n <- ms :: GetKey(e.cluster, e.client) !in n
  {
    forall n <- ms ensures GetKey(e.cluster, e.client) !in n {
      var i :| 0 <= i < |ms| && ms[i] == n;
      assert views[i] in views;
      KeyIffKnown(n, views[i], names, e);
    }
  }

  lemma KnownLookup(base: Index, ms: seq<Index>, views: seq<View>, names: ClusterNames, e: Entry, i: nat)
    requires IndexesOf(ms, views, names) && '_' !in e.cluster && i < |views| && Knows(views[i], names, e)
    ensures var m, k := MergeAll(base, ms), GetKey(e.cluster, e.client);
      k in m && (m[k] == e.info <==> ReportedIn(views[i], names, e))
  {
    var v, m, k := views[i], MergeAll(base, ms), GetKey(e.cluster, e.client);
    KeyIffKnown(ms[i], v, names, e);
    LookupIsReport(ms[i], v.data, v.provider, names, e);
    assert ReportedIn(v, names, e) <==> ms[i][k] == e.info;
    IndexesAgree(ms, views, names);
    MergeAllHolds(base, ms);
    assert ms[i] in ms;
  }

  lemma UnknownLookup(base: Index, ms: seq<Index>, views: seq<View>, names: ClusterNames, e: Entry)
    requires IndexesOf(ms, views, names) && '_' !in e.cluster && forall v <- views :: !Knows(v, names, e)
    ensures var m, k := MergeAll(base, ms), GetKey(e.cluster, e.client);
      (k in m <==> k in base) && (k in base ==> m[k] == base[k])
  {
    NoViewHasKey(ms, views, names, e);
    IndexesAgree(ms, views, names);
    MergeAllHolds(base, ms);
  }

  /** End to end: after merging any list of such views, in any order and with repetitions, a lookup gives this
      information if and only if some view reports exactly this; or no view reports the client, and the earlier index
      had it. So what is once entered for a client that is no longer reported stays. */
  lemma MergedLookup(base: Index, ms: seq<Index>, views: seq<View>, names: ClusterNames, e: Entry)
    requires IndexesOf(ms, views, names) && '_' !in e.cluster
    ensures var m, k := MergeAll(base, ms), GetKey(e.cluster, e.client);
      (k in m && m[k] == e.info) <==>
      ((exists v <- views :: ReportedIn(v, names, e))
       || ((forall v <- views :: !Knows(v, names, e)) && k in base && base[k] == e.info))
  {
    forall v <- views ensures ReportedIn(v, names, e) ==> Knows(v, names, e) {
      ReporterKnows(v, names, e);
    }
    if v :| v in views && Knows(v, names, e) {
      var i :| 0 <= i < |views| && views[i] == v;
      KnownLookup(base, ms, views, names, e, i);
      OthersDoNotKnow(ms, views, names, e, i);
    } else {
      UnknownLookup(base, ms, views, names, e);
    }
  }

  // ---------- the code ----------

  ghost predicate ContributedBy(o: OdfInfo, provider: string, names: ClusterNames, k: string, info: ClientInfo) {
    exists e: Entry :: k == GetKey(e.cluster, e.client) && info == e.info && Contributes(o, provider, names, e)
  }

  /** Adds one file's entries to the map, or stops at a client of an unknown cluster. */
  method AddFile(o: OdfInfo, provider: string, names: ClusterNames, vendorInfo: Index) returns (ok: bool, m: Index)
    ensures ok <==> Resolved(o, names)
    ensures ok ==> forall e: Entry :: Contributes(o, provider, names, e) ==> GetKey(e.cluster, e.client) in m
    ensures ok ==> vendorInfo.Keys <= m.Keys
    ensures ok ==> forall k <- m :: (k in vendorInfo && m[k] == vendorInfo[k]) || ContributedBy(o, provider, names, k, m[k])
  {
    m := vendorInfo;
    var p := ProviderInfo(provider, o.details);
    if |o.clients| == 0 {
      ghost var e := Entry(provider, o.storageCluster, ClientInfo("", "", p, "", ""));
      assert Contributes(o, provider, names, e);
      m := m[GetKey(provider, o.storageCluster) := ClientInfo("", "", p, "", "")];
      return true, m;
    }
    for i := 0 to |o.clients|
      invariant forall j :: 0 <= j < i ==>
                  o.clients[j].clusterID in names && GetKey(names[o.clients[j].clusterID], o.clients[j].name) in m
      invariant vendorInfo.Keys <= m.Keys
      invariant forall k <- m :: (k in vendorInfo && m[k] == vendorInfo[k]) || ContributedBy(o, provider, names, k, m[k])
    {
      var c := o.clients[i];
      assert c in o.clients;
      if c.clusterID !in names {
        return false, m;
      }
      var cluster := names[c.clusterID];
      assert Contributes(o, provider, names, EntryOf(c, p, cluster));
      m := m[GetKey(cluster, c.name) := ClientInfo(c.clusterID, c.name, p, cluster, c.clientID)];
    }
    return true, m;
  }

  /** Walks the files in no particular order. */
  method GetOdfInfoMap(provider: string, data: map<string, Content>, names: ClusterNames) returns (ok: bool, m: Index)
    ensures ok <==> Readable(data, names)
    ensures ok ==> Indexes(m, data, provider, names)
  {
    m := map[];
    var left := data.Keys;
    while left != {}
      invariant left <= data.Keys
      invariant forall k <- data :: k !in left && Counts(k) ==>
        data[k].Text? && data[k].info.Some? && Resolved(data[k].info.value, names)
      invariant forall k <- m :: exists e: Entry ::
        k == GetKey(e.cluster, e.client) && m[k] == e.info && Reported(data, provider, names, e)
      invariant forall k <- data, e: Entry :: k !in left && Counts(k) && Contributes(data[k].info.value, provider, names, e) ==>
        GetKey(e.cluster, e.client) in m
      decreases left
    {
      var key :| key in left;
      left := left - {key};
      if !Counts(key) {
        continue;
      }
      if !data[key].Text? || data[key].info.None? {
        return false, m;
      }
      ghost var before := m;
      ok, m := AddFile(data[key].info.value, provider, names, m);
      if !ok {
        return;
      }
      forall k <- m
        ensures exists e: Entry :: k == GetKey(e.cluster, e.client) && m[k] == e.info && Reported(data, provider, names, e)
      {
        if !(k in before && m[k] == before[k]) {
          var e: Entry :| k == GetKey(e.cluster, e.client) && m[k] == e.info
                          && Contributes(data[key].info.value, provider, names, e);
          assert Reported(data, provider, names, e);
        }
      }
    }
    ok := true;
  }

  /** The client-info ConfigMap; its data may be nil. */
  class ClientInfoConfigMap {
    var data: Option<Index>

    constructor (d: Option<Index>)
      ensures data == d
    {
      data := d;
    }

    function Entries(): Index
      reads this
    {
      if data.Some? then data.value else map[]
    }

    method Merge(vendorInfo: Index)
      modifies this
      ensures data.Some? && Entries() == old(Entries()) + vendorInfo
    {
      if data.None? {
        data := Some(map[]);
      }
      ghost var base := Entries();
      var left := vendorInfo.Keys;
      while left != {}
        invariant left <= vendorInfo.Keys && data.Some?
        invariant forall k :: k in data.value <==> k in base || (k in vendorInfo && k !in left)
        invariant forall k <- data.value ::
          data.value[k] == (if k in vendorInfo && k !in left then vendorInfo[k] else base[k])
        decreases left
      {
        var k :| k in left;
        left := left - {k};
        data := Some(data.value[k := vendorInfo[k]]);
      }
    }

    /** A reconcile of one view; on an error nothing is written. */
    method CreateOrUpdateConfigMap(provider: string, view: map<string, Content>, names: ClusterNames) returns (ok: bool)
      modifies this
      ensures ok <==> Readable(view, names)
      ensures !ok ==> data == old(data)
      ensures ok ==> exists m: Index :: Indexes(m, view, provider, names) && Entries() == old(Entries()) + m
    {
      var vendorInfo: Index;
      ok, vendorInfo := GetOdfInfoMap(provider, view, names);
      if ok {
        Merge(vendorInfo);
      }
    }
  }
}
