/** The pairing maps refine a set of live peerings, as long as no map is written after its last entry
    was taken out; and the two sides are wired to each other, whichever is listed first. */
module PairingRefinement {
  import opened Options
  import opened Pairing

  /** A MirrorPeer, by name and UID, with the clients of its two items. */
  datatype Peering = Peering(owner: string, uid: string, a: Client, b: Client)

  // ---------- reading the maps ----------

  function MapOf(works: Works, cluster: string): map<string, string> {
    var key := (MAPPING, cluster);
    if key in works && works[key].manifests != [] && works[key].manifests[0].PairingMap? then
      works[key].manifests[0].data
    else map[]
  }

  /** Every mapping ManifestWork carries one pairing map. */
  ghost predicate WellFormed(works: Works) {
    forall key <- works :: key.0 == MAPPING ==> |works[key].manifests| == 1 && works[key].manifests[0].PairingMap?
  }

  /** A pairing map can be written while it has an entry, or before it exists. */
  predicate Writable(works: Works, cluster: string) {
    (MAPPING, cluster) !in works || MapOf(works, cluster) != map[]
  }

  lemma PairWrites(works: Works, owner: string, c: Client, d: Client)
    requires WellFormed(works)
    ensures var (w, r) := Pair(works, owner, c, d);
      && r == (if Writable(works, c.provider.cluster) then Done else Panicked)
      && WellFormed(w)
      && (r == Done ==> MapOf(w, c.provider.cluster) == MapOf(works, c.provider.cluster)[c.id := d.id])
      && (r != Done ==> w == works)
      && (forall cluster :: cluster != c.provider.cluster ==>
            MapOf(w, cluster) == MapOf(works, cluster) && (Writable(w, cluster) <==> Writable(works, cluster)))
  {
  }

  lemma UnpairWrites(works: Works, owner: string, c: Client)
    requires WellFormed(works)
    ensures var (w, r) := Unpair(works, owner, c);
      && r == Done && WellFormed(w)
      && MapOf(w, c.provider.cluster) == MapOf(works, c.provider.cluster) - {c.id}
      && (forall cluster :: cluster != c.provider.cluster ==> MapOf(w, cluster) == MapOf(works, cluster))
      && (forall key :: key in w <==> key in works)
  {
  }

  // ---------- one write, in terms of what is stored ----------

  /** A client is found under its cluster's name and its own, joined by an underscore. */
  lemma LookupIs(info: map<string, Client>, item: PeerRef, c: Client)
    ensures Lookup(info, item) == Some(c) <==>
            (item.clusterName + "_" + item.clientName) in info && info[item.clusterName + "_" + item.clientName] == c
  {
  }

  /** The first entry on a provider makes its map: in the namespace of this provider, with the peer name of the other
      provider's cluster, owned by this MirrorPeer. */
  lemma FirstEntryMakesMap(works: Works, owner: string, c: Client, d: Client)
    requires (MAPPING, c.provider.cluster) !in works
    ensures var (w, r) := Pair(works, owner, c, d);
      && r == Done && w - {(MAPPING, c.provider.cluster)} == works
      && (MAPPING, c.provider.cluster) in w
      && w[(MAPPING, c.provider.cluster)] ==
         Work(owner, [PairingMap(c.provider.namespace, d.provider.cluster + "-peer", map[c.id := d.id])], None)
  {
  }

  /** What an entry into a stored work comes to, for every input. It fails if there is no manifest, or another one; it
      panics if the map is empty; and otherwise this one entry is set, and nothing else of the store moves. */
  lemma LaterEntry(works: Works, owner: string, c: Client, d: Client)
    requires (MAPPING, c.provider.cluster) in works
    ensures var work := works[(MAPPING, c.provider.cluster)]; var (w, r) := Pair(works, owner, c, d);
      && (r == Failed <==> work.manifests == [] || !work.manifests[0].PairingMap?)
      && (r == Panicked <==> work.manifests != [] && work.manifests[0].PairingMap? && work.manifests[0].data == map[])
      && (r != Done ==> w == works)
      && (r == Done ==>
            var m := work.manifests[0];
            w == works[(MAPPING, c.provider.cluster) :=
              Work(work.owner, [PairingMap(m.namespace, m.peerName, m.data[c.id := d.id])], None)])
  {
  }

  /** The same for taking a client out: without a work, or without a manifest, there is nothing to do. */
  lemma EntryTakenOut(works: Works, owner: string, c: Client)
    ensures var key := (MAPPING, c.provider.cluster); var (w, r) := Unpair(works, owner, c);
      && (r == Failed <==> key in works && works[key].manifests != [] && !works[key].manifests[0].PairingMap?)
      && r != Panicked
      && (key !in works || works[key].manifests == [] || r == Failed ==> w == works)
      && (key in works && works[key].manifests != [] && r == Done ==>
            var m := works[key].manifests[0];
            w == works[key := Work(works[key].owner, [PairingMap(m.namespace, m.peerName, m.data - {c.id})], None)])
  {
    var key := (MAPPING, c.provider.cluster);
    if key in works && works[key].manifests != [] && works[key].manifests[0].PairingMap? {
      var data := works[key].manifests[0].data;
      assert data == map[] ==> data - {c.id} == map[];
    }
  }

  /** The map of this provider is where it was, and names the peer that it named. */
  ghost predicate SamePlace(works: Works, later: Works, cluster: string) {
    var key := (MAPPING, cluster);
    key in works && |works[key].manifests| == 1 && works[key].manifests[0].PairingMap? ==>
      && key in later && |later[key].manifests| == 1 && later[key].manifests[0].PairingMap?
      && later[key].manifests[0].namespace == works[key].manifests[0].namespace
      && later[key].manifests[0].peerName == works[key].manifests[0].peerName
      && later[key].owner == works[key].owner
  }

  lemma PlaceStaysOnEntry(works: Works, owner: string, c: Client, d: Client, cluster: string)
    ensures SamePlace(works, Pair(works, owner, c, d).0, cluster)
    ensures SamePlace(works, Unpair(works, owner, c).0, cluster)
  {
  }

  /** Where a map is, which peer it names and who owns it stays as it was when it was made. */
  lemma PlaceStays(works: Works, p: Peering, cluster: string)
    ensures SamePlace(works, PairBoth(works, p.owner, p.a, p.b).0, cluster)
    ensures SamePlace(works, UnpairBoth(works, p.owner, p.a, p.b).0, cluster)
  {
    PlaceStaysOnEntry(works, p.owner, p.a, p.b, cluster);
    PlaceStaysOnEntry(Pair(works, p.owner, p.a, p.b).0, p.owner, p.b, p.a, cluster);
    PlaceStaysOnEntry(Unpair(works, p.owner, p.a).0, p.owner, p.b, p.a, cluster);
  }

  // ---------- the abstraction ----------

  /** The peering puts `id` with partner `partner` into the map of `cluster`. */
  predicate Enters(p: Peering, cluster: string, id: string, partner: string) {
    || (p.a.provider.cluster == cluster && p.a.id == id && p.b.id == partner)
    || (p.b.provider.cluster == cluster && p.b.id == id && p.a.id == partner)
  }

  ghost predicate EntryOf(live: set<Peering>, cluster: string, id: string, partner: string) {
    exists p <- live :: Enters(p, cluster, id, partner)
  }

  ghost predicate Holds(m: map<string, string>, id: string, partner: string) {
    id in m && m[id] == partner
  }

  /** Each provider's map is exactly the live peerings that have a side on it. */
  ghost predicate Mirrors(works: Works, live: set<Peering>) {
    forall cluster, id, partner ::
      Holds(MapOf(works, cluster), id, partner) <==> EntryOf(live, cluster, id, partner)
  }

  predicate Uses(p: Peering, id: string) {
    p.a.id == id || p.b.id == id
  }

  /** No two different peerings share a client, and none peers a client with itself. */
  ghost predicate Separate(ps: set<Peering>) {
    && (forall p <- ps :: p.a.id != p.b.id)
    && (forall p <- ps, q <- ps, id :: Uses(p, id) && Uses(q, id) ==> p == q)
  }

  /** A provider's map after the peering has been entered, or taken out. */
  function Entered(m: map<string, string>, cluster: string, p: Peering): map<string, string> {
    var first := if p.a.provider.cluster == cluster then m[p.a.id := p.b.id] else m;
    if p.b.provider.cluster == cluster then first[p.b.id := p.a.id] else first
  }

  function Removed(m: map<string, string>, cluster: string, p: Peering): map<string, string> {
    var first := if p.a.provider.cluster == cluster then m - {p.a.id} else m;
    if p.b.provider.cluster == cluster then first - {p.b.id} else first
  }

  /** Entering a peering succeeds exactly if both maps can be written; otherwise it panics. */
  lemma PairBothWrites(works: Works, p: Peering)
    requires WellFormed(works)
    ensures var (w, r) := PairBoth(works, p.owner, p.a, p.b);
      && WellFormed(w)
      && (r == Done <==> Writable(works, p.a.provider.cluster) && Writable(works, p.b.provider.cluster))
      && (r != Done ==> r == Panicked)
      && (r == Done ==> forall cluster :: MapOf(w, cluster) == Entered(MapOf(works, cluster), cluster, p))
  {
    PairWrites(works, p.owner, p.a, p.b);
    var (w, r) := Pair(works, p.owner, p.a, p.b);
    if r == Done {
      PairWrites(w, p.owner, p.b, p.a);
      assert p.a.id in MapOf(w, p.a.provider.cluster);
    }
  }

  lemma UnpairBothWrites(works: Works, p: Peering)
    requires WellFormed(works)
    ensures var (w, r) := UnpairBoth(works, p.owner, p.a, p.b);
      && r == Done && WellFormed(w)
      && (forall cluster :: MapOf(w, cluster) == Removed(MapOf(works, cluster), cluster, p))
      && (forall key :: key in w <==> key in works)
  {
    UnpairWrites(works, p.owner, p.a);
    UnpairWrites(Unpair(works, p.owner, p.a).0, p.owner, p.b);
  }

  lemma EntryOfMore(live: set<Peering>, p: Peering, cluster: string, id: string, partner: string)
    ensures EntryOf(live + {p}, cluster, id, partner) <==>
            EntryOf(live, cluster, id, partner) || Enters(p, cluster, id, partner)
  {
    assert p in live + {p};
    if EntryOf(live, cluster, id, partner) {
      var q :| q in live && Enters(q, cluster, id, partner);
      assert q in live + {p};
    }
  }

  /** The entered map holds the peering's own entries, and the earlier ones of other clients. */
  lemma HoldsEntered(m: map<string, string>, p: Peering, cluster: string, id: string, partner: string)
    requires p.a.id != p.b.id
    ensures Enters(p, cluster, id, partner) ==> Holds(Entered(m, cluster, p), id, partner)
    ensures !Uses(p, id) ==> (Holds(Entered(m, cluster, p), id, partner) <==> Holds(m, id, partner))
    ensures Holds(Entered(m, cluster, p), id, partner) ==> Holds(m, id, partner) || Enters(p, cluster, id, partner)
  {
  }

  lemma EntryAdded(m: map<string, string>, live: set<Peering>, p: Peering, cluster: string, id: string, partner: string)
    requires Separate(live + {p})
    requires Holds(m, id, partner) <==> EntryOf(live, cluster, id, partner)
    ensures Holds(Entered(m, cluster, p), id, partner) <==> EntryOf(live + {p}, cluster, id, partner)
  {
    assert p in live + {p};
    EntryOfMore(live, p, cluster, id, partner);
    HoldsEntered(m, p, cluster, id, partner);
    if EntryOf(live, cluster, id, partner) && Uses(p, id) {
      var q :| q in live && Enters(q, cluster, id, partner);
      assert q in live + {p} && Uses(q, id);
    }
  }

  lemma EntryRemoved(m: map<string, string>, live: set<Peering>, p: Peering, cluster: string, id: string, partner: string)
    requires Separate(live + {p})
    requires Holds(m, id, partner) <==> EntryOf(live, cluster, id, partner)
    ensures Holds(Removed(m, cluster, p), id, partner) <==> EntryOf(live - {p}, cluster, id, partner)
  {
    assert p in live + {p};
    assert EntryOf(live, cluster, id, partner) <==>
      EntryOf(live - {p}, cluster, id, partner) || (p in live && Enters(p, cluster, id, partner));
    if EntryOf(live - {p}, cluster, id, partner) {
      var q :| q in live - {p} && Enters(q, cluster, id, partner);
      assert Uses(q, id) && q in live + {p};
      assert !Uses(p, id);
    }
  }

  /** Configuring adds the peering to the set. */
  lemma ConfigureRefines(works: Works, live: set<Peering>, p: Peering)
    requires WellFormed(works) && Mirrors(works, live) && Separate(live + {p})
    requires PairBoth(works, p.owner, p.a, p.b).1 == Done
    ensures var w := PairBoth(works, p.owner, p.a, p.b).0;
      WellFormed(w) && Mirrors(w, live + {p})
  {
    PairBothWrites(works, p);
    var w := PairBoth(works, p.owner, p.a, p.b).0;
    forall cluster, id, partner
      ensures Holds(MapOf(w, cluster), id, partner) <==> EntryOf(live + {p}, cluster, id, partner)
    {
      assert Holds(MapOf(works, cluster), id, partner) <==> EntryOf(live, cluster, id, partner);
      EntryAdded(MapOf(works, cluster), live, p, cluster, id, partner);
    }
  }

  /** Cleaning up takes it out. */
  lemma CleanUpRefines(works: Works, live: set<Peering>, p: Peering)
    requires WellFormed(works) && Mirrors(works, live) && Separate(live + {p})
    ensures var (w, r) := UnpairBoth(works, p.owner, p.a, p.b);
      r == Done && WellFormed(w) && Mirrors(w, live - {p})
  {
    UnpairBothWrites(works, p);
    var w := UnpairBoth(works, p.owner, p.a, p.b).0;
    forall cluster, id, partner
      ensures Holds(MapOf(w, cluster), id, partner) <==> EntryOf(live - {p}, cluster, id, partner)
    {
      assert Holds(MapOf(works, cluster), id, partner) <==> EntryOf(live, cluster, id, partner);
      EntryRemoved(MapOf(works, cluster), live, p, cluster, id, partner);
    }
  }

  /** The pairing is symmetric: `a`'s provider maps a to b iff `b`'s provider maps b to a. */
  lemma MapsAreSymmetric(works: Works, live: set<Peering>, p: Peering)
    requires Mirrors(works, live) && Separate(live + {p})
    ensures Holds(MapOf(works, p.a.provider.cluster), p.a.id, p.b.id)
      <==> Holds(MapOf(works, p.b.provider.cluster), p.b.id, p.a.id)
  {
    var ca, cb := p.a.provider.cluster, p.b.provider.cluster;
    assert Holds(MapOf(works, ca), p.a.id, p.b.id) <==> EntryOf(live, ca, p.a.id, p.b.id);
    assert Holds(MapOf(works, cb), p.b.id, p.a.id) <==> EntryOf(live, cb, p.b.id, p.a.id);
    assert p in live + {p} && Uses(p, p.a.id) && Uses(p, p.b.id);
    if EntryOf(live, ca, p.a.id, p.b.id) {
      var q :| q in live && Enters(q, ca, p.a.id, p.b.id);
      assert q in live + {p} && Uses(q, p.a.id);
      assert Enters(q, cb, p.b.id, p.a.id);
    }
    if EntryOf(live, cb, p.b.id, p.a.id) {
      var q :| q in live && Enters(q, cb, p.b.id, p.a.id);
      assert q in live + {p} && Uses(q, p.b.id);
      assert Enters(q, ca, p.a.id, p.b.id);
    }
  }

  // ---------- when configuring fails ----------

  ghost predicate OnProvider(live: set<Peering>, cluster: string) {
    exists p <- live :: p.a.provider.cluster == cluster || p.b.provider.cluster == cluster
  }

  /** Entering both clients succeeds exactly if neither provider has a mapping ManifestWork that has lost its
      last entry: an empty map decodes to nil, and the next entry panics. */
  lemma ConfigureSucceedsIff(works: Works, live: set<Peering>, p: Peering)
    requires WellFormed(works) && Mirrors(works, live)
    ensures PairBoth(works, p.owner, p.a, p.b).1 == Done <==>
      forall c <- [p.a, p.b] :: (MAPPING, c.provider.cluster) in works ==> OnProvider(live, c.provider.cluster)
  {
    PairBothWrites(works, p);
    MapEmptyIff(works, live, p.a.provider.cluster);
    MapEmptyIff(works, live, p.b.provider.cluster);
    assert [p.a, p.b][0] == p.a && [p.a, p.b][1] == p.b;
  }

  lemma MapEmptyIff(works: Works, live: set<Peering>, cluster: string)
    requires Mirrors(works, live)
    ensures MapOf(works, cluster) != map[] <==> OnProvider(live, cluster)
  {
    var m := MapOf(works, cluster);
    if m != map[] {
      var id :| id in m;
      assert Holds(m, id, m[id]);
      assert EntryOf(live, cluster, id, m[id]);
      var p :| p in live && Enters(p, cluster, id, m[id]);
    }
    if OnProvider(live, cluster) {
      var p :| p in live && (p.a.provider.cluster == cluster || p.b.provider.cluster == cluster);
      if p.a.provider.cluster == cluster {
        assert Enters(p, cluster, p.a.id, p.b.id) && EntryOf(live, cluster, p.a.id, p.b.id);
      } else {
        assert Enters(p, cluster, p.b.id, p.a.id) && EntryOf(live, cluster, p.b.id, p.a.id);
      }
    }
  }

  // ---------- owners ----------

  /** Whoever created a ManifestWork stays its only owner through every later write. */
  lemma OwnerIsFirst(works: Works, p: Peering, key: (string, string))
    requires key in works
    ensures var (w, r) := PairBoth(works, p.owner, p.a, p.b); key in w && w[key].owner == works[key].owner
    ensures var (w, r) := UnpairBoth(works, p.owner, p.a, p.b); key in w && w[key].owner == works[key].owner
  {
  }

  // ---------- the two sides ----------

  lemma KeysDiffer(a: Client, b: Client)
    requires a.provider.cluster != b.provider.cluster
    ensures PeerKey(a) != PeerKey(b)
    ensures PeerKey(a).0 != MAPPING && PeerKey(b).0 != MAPPING
  {
    var prefix := "storageclusterpeer-";
    assert MAPPING[7] == '-';
    assert PeerKey(a).0[7] == prefix[7] == 'c' && PeerKey(b).0[7] == prefix[7];
  }

  /** For clients of different providers it does not matter which one the MirrorPeer lists first. */
  lemma OrderDoesNotMatter(works: Works, tokens: Tokens, mp: MirrorPeer, a: Client, b: Client)
    requires a.provider.cluster != b.provider.cluster
    ensures Configure(works, tokens, mp, a, b).1 == Done <==> Configure(works, tokens, mp, b, a).1 == Done
    ensures Configure(works, tokens, mp, a, b).1 == Done ==>
      Configure(works, tokens, mp, a, b) == Configure(works, tokens, mp, b, a)
  {
    KeysDiffer(a, b);
    WireCommutes(works, tokens, mp, a, b);
    var (w, r) := WireBoth(works, tokens, mp, a, b);
    if r == Done {
      PairCommutes(w, mp.name, a, b);
    }
  }

  lemma WireCommutes(works: Works, tokens: Tokens, mp: MirrorPeer, a: Client, b: Client)
    requires PeerKey(a) != PeerKey(b)
    ensures WireBoth(works, tokens, mp, a, b).1 == Done <==> WireBoth(works, tokens, mp, b, a).1 == Done
    ensures WireBoth(works, tokens, mp, a, b).1 == Done ==>
      WireBoth(works, tokens, mp, a, b) == WireBoth(works, tokens, mp, b, a)
  {
    if (mp.uid, a.provider.cluster) in tokens && (mp.uid, b.provider.cluster) in tokens {
      assert WireBoth(works, tokens, mp, a, b).0 == WireBoth(works, tokens, mp, b, a).0;
    }
  }

  lemma PairCommutes(works: Works, owner: string, a: Client, b: Client)
    requires a.provider.cluster != b.provider.cluster
    ensures PairBoth(works, owner, a, b).1 == Done <==> PairBoth(works, owner, b, a).1 == Done
    ensures PairBoth(works, owner, a, b).1 == Done ==>
      PairBoth(works, owner, a, b) == PairBoth(works, owner, b, a)
  {
    var (w1, r1) := PairBoth(works, owner, a, b);
    var (w2, r2) := PairBoth(works, owner, b, a);
    if r1 == Done {
      assert r2 == Done;
      assert w1 == w2;
    }
  }

  /** Configuring again changes nothing. */
  lemma ConfigureIsIdempotent(works: Works, tokens: Tokens, mp: MirrorPeer, a: Client, b: Client)
    requires a.provider.cluster != b.provider.cluster
    requires Configure(works, tokens, mp, a, b).1 == Done
    ensures var w := Configure(works, tokens, mp, a, b).0;
      Configure(w, tokens, mp, a, b) == (w, Done)
  {
    KeysDiffer(a, b);
    var wired := WireBoth(works, tokens, mp, a, b).0;
    var w := PairBoth(wired, mp.name, a, b).0;
    assert WireBoth(w, tokens, mp, a, b).0 == w;
    PairBothAgain(wired, mp.name, a, b);
  }

  lemma PairBothAgain(works: Works, owner: string, a: Client, b: Client)
    requires a.provider.cluster != b.provider.cluster
    requires PairBoth(works, owner, a, b).1 == Done
    ensures var w := PairBoth(works, owner, a, b).0; PairBoth(w, owner, a, b) == (w, Done)
  {
    var w := PairBoth(works, owner, a, b).0;
    var wa := Pair(w, owner, a, b).0;
    PairAgain(works, owner, a, b);
    var half := Pair(works, owner, a, b).0;
    PairAgain(half, owner, b, a);
    assert wa == w;
  }

  lemma PairAgain(works: Works, owner: string, c: Client, d: Client)
    requires Pair(works, owner, c, d).1 == Done
    ensures var w := Pair(works, owner, c, d).0; Pair(w, owner, c, d) == (w, Done)
  {
    var key := (MAPPING, c.provider.cluster);
    var w := Pair(works, owner, c, d).0;
    var data := w[key].manifests[0].data;
    assert c.id in data && data[c.id := d.id] == data;
    var (again, r) := Pair(w, owner, c, d);
    assert r == Done && again[key] == w[key];
    assert again == w;
  }

  /** The work for `current`'s provider points at the opposite side: its token, its endpoint, its server
      and client CA and SANs; only the client certificate is its own. */
  ghost predicate PointsAt(w: Works, tokens: Tokens, mp: MirrorPeer, current: Client, opposite: Client) {
    var key := ("storageclusterpeer-" + current.provider.cluster, current.provider.cluster);
    key in w && exists server, client, peer ::
      && w[key].manifests == [server, client, peer]
      && peer.StorageClusterPeer? && server.CaBundle? && client.CaBundle?
      && peer.name == opposite.provider.cluster + "-peer"
      && (mp.uid, opposite.provider.cluster) in tokens
      && peer.onboardingToken == tokens[(mp.uid, opposite.provider.cluster)]
      && peer.apiEndpoint == (if opposite.provider.publicEndpoint != "" then opposite.provider.publicEndpoint
                              else opposite.provider.endpoint)
      && peer.serverSAN == opposite.provider.tls.serverSAN && peer.clientSAN == opposite.provider.tls.clientSAN
      && peer.serverCA == server.name && server.content == opposite.provider.tls.serverCA
      && peer.clientCA == client.name && client.content == opposite.provider.tls.clientCA
      && server.name != client.name
      && peer.clientCert == current.provider.tls.clientCertName
      && peer.namespace == server.namespace == client.namespace == current.provider.namespace
      && w[key].feedbackFor == Some(peer.name)
  }

  /** The map on `current`'s provider: if this MirrorPeer made it, it is in the provider's namespace and names the
      opposite side; else its place and owner are as before. */
  ghost predicate MapPlaced(before: Works, after: Works, owner: string, current: Client, opposite: Client) {
    var key := (MAPPING, current.provider.cluster);
    && key in after && |after[key].manifests| == 1 && after[key].manifests[0].PairingMap?
    && var m := after[key].manifests[0];
    if key !in before then
      m.namespace == current.provider.namespace && m.peerName == opposite.provider.cluster + "-peer" && after[key].owner == owner
    else
      && before[key].manifests != [] && before[key].manifests[0].PairingMap?
      && m.namespace == before[key].manifests[0].namespace && m.peerName == before[key].manifests[0].peerName
      && after[key].owner == before[key].owner
  }

  lemma SidesAreCrossWired(works: Works, tokens: Tokens, mp: MirrorPeer, a: Client, b: Client)
    requires a.provider.cluster != b.provider.cluster
    requires Configure(works, tokens, mp, a, b).1 == Done
    ensures var w := Configure(works, tokens, mp, a, b).0;
      PointsAt(w, tokens, mp, a, b) && PointsAt(w, tokens, mp, b, a)
    ensures var w := Configure(works, tokens, mp, a, b).0;
      Holds(MapOf(w, a.provider.cluster), a.id, b.id) && Holds(MapOf(w, b.provider.cluster), b.id, a.id)
    ensures var w := Configure(works, tokens, mp, a, b).0;
      MapPlaced(works, w, mp.name, a, b) && MapPlaced(works, w, mp.name, b, a)
  {
    KeysDiffer(a, b);
    var w := Configure(works, tokens, mp, a, b).0;
    WorkPointsAt(w, tokens, mp, a, b);
    WorkPointsAt(w, tokens, mp, b, a);
  }

  lemma WorkPointsAt(w: Works, tokens: Tokens, mp: MirrorPeer, current: Client, opposite: Client)
    requires (mp.uid, opposite.provider.cluster) in tokens && PeerKey(current) in w
    requires w[PeerKey(current)].manifests == PeerManifests(current, opposite, tokens[(mp.uid, opposite.provider.cluster)])
    requires w[PeerKey(current)].feedbackFor == Some(PeerName(opposite.provider.cluster))
    ensures PointsAt(w, tokens, mp, current, opposite)
  {
    var ms := w[PeerKey(current)].manifests;
    var name := PeerName(opposite.provider.cluster);
    assert (name + "-server-ca")[|name| + 1] == 's' && (name + "-client-ca")[|name| + 1] == 'c';
    assert ms == [ms[0], ms[1], ms[2]];
  }
}
