/** Runs of configuring and cleaning up MirrorPeers, which may stop at any write, and of the garbage collector:
    the pairing maps on the hub refine plain books of who entered what. */
module PairingRuns {
  import opened Options
  import opened Pairing
  import opened PairingRefinement

  // ---------- the books ----------

  /** One of the two entries of a peering: that of its first or of its second client. */
  datatype Side = Side(p: Peering, first: bool)

  function Mine(s: Side): Client {
    if s.first then s.p.a else s.p.b
  }

  function Other(s: Side): Client {
    if s.first then s.p.b else s.p.a
  }

  function Cluster(s: Side): string {
    Mine(s).provider.cluster
  }

  /** Who made the mapping ManifestWork of each provider cluster, and which entries are made. */
  datatype Books = Books(owners: map<string, string>, sides: set<Side>)

  predicate OnCluster(b: Books, cluster: string) {
    exists s <- b.sides :: Cluster(s) == cluster
  }

  /** No ManifestWork is left over that has lost its last entry. */
  predicate Open(b: Books, cluster: string) {
    cluster in b.owners ==> OnCluster(b, cluster)
  }

  function Enter(b: Books, s: Side): (Books, bool) {
    if !Open(b, Cluster(s)) then (b, false)
    else
      (Books(if Cluster(s) in b.owners then b.owners else b.owners[Cluster(s) := s.p.owner], b.sides + {s}), true)
  }

  function Leave(b: Books, s: Side): Books {
    b.(sides := b.sides - {s})
  }

  predicate OwnedBy(b: Books, cluster: string, owner: string) {
    cluster in b.owners && b.owners[cluster] == owner
  }

  /** The ManifestWorks of a MirrorPeer that is gone are collected, with whatever entries are in them. */
  function Collected(b: Books, owner: string): Books {
    Books(map c | c in b.owners && b.owners[c] != owner :: b.owners[c],
          set s | s in b.sides && !OwnedBy(b, Cluster(s), owner))
  }

  ghost predicate Recorded(b: Books, cluster: string, id: string, partner: string) {
    exists s <- b.sides :: Cluster(s) == cluster && Mine(s).id == id && Other(s).id == partner
  }

  /** The store agrees with the books: the same mapping ManifestWorks with the same owners, and in the map of
      each provider exactly the entries made on it. */
  ghost predicate Refines(works: Works, b: Books) {
    && WellFormed(works)
    && (forall c :: (MAPPING, c) in works <==> c in b.owners)
    && (forall c <- b.owners :: works[(MAPPING, c)].owner == b.owners[c])
    && (forall s <- b.sides :: Cluster(s) in b.owners)
    && forall cluster, id, partner :: Holds(MapOf(works, cluster), id, partner) <==> Recorded(b, cluster, id, partner)
  }

  /** No client has two entries. */
  ghost predicate Distinct(sides: set<Side>) {
    forall s <- sides, t <- sides :: Mine(s).id == Mine(t).id ==> s == t
  }

  // ---------- each write ----------

  lemma EmptyIff(works: Works, b: Books, cluster: string)
    requires Refines(works, b)
    ensures MapOf(works, cluster) != map[] <==> OnCluster(b, cluster)
  {
    var m := MapOf(works, cluster);
    if m != map[] {
      var id :| id in m;
      assert Holds(m, id, m[id]);
      assert Recorded(b, cluster, id, m[id]);
    }
    if OnCluster(b, cluster) {
      var s :| s in b.sides && Cluster(s) == cluster;
      assert Recorded(b, cluster, Mine(s).id, Other(s).id);
      assert Holds(m, Mine(s).id, Other(s).id);
    }
  }

  lemma EnterRefines(works: Works, b: Books, s: Side)
    requires Refines(works, b) && Distinct(b.sides + {s})
    ensures var (w, r) := Pair(works, s.p.owner, Mine(s), Other(s));
      && r == (if Enter(b, s).1 then Done else Panicked)
      && Refines(w, Enter(b, s).0)
  {
    PairWrites(works, s.p.owner, Mine(s), Other(s));
    EmptyIff(works, b, Cluster(s));
    var w, b' := Pair(works, s.p.owner, Mine(s), Other(s)).0, Enter(b, s).0;
    if Enter(b, s).1 {
      forall cluster, id, partner
        ensures Holds(MapOf(w, cluster), id, partner) <==> Recorded(b', cluster, id, partner)
      {
        RecordedMore(b, s, cluster, id, partner);
        assert Recorded(b', cluster, id, partner) <==> Recorded(b.(sides := b.sides + {s}), cluster, id, partner);
        assert Holds(MapOf(works, cluster), id, partner) <==> Recorded(b, cluster, id, partner);
      }
    }
  }

  lemma RecordedMore(b: Books, s: Side, cluster: string, id: string, partner: string)
    requires Distinct(b.sides + {s})
    ensures var more := b.(sides := b.sides + {s});
      Recorded(more, cluster, id, partner) <==>
        if cluster == Cluster(s) && id == Mine(s).id then partner == Other(s).id else Recorded(b, cluster, id, partner)
  {
    var more := b.(sides := b.sides + {s});
    assert s in more.sides;
    if Recorded(b, cluster, id, partner) {
      var t :| t in b.sides && Cluster(t) == cluster && Mine(t).id == id && Other(t).id == partner;
      assert t in more.sides;
    }
  }

  lemma LeaveRefines(works: Works, b: Books, s: Side)
    requires Refines(works, b) && Distinct(b.sides + {s})
    ensures var (w, r) := Unpair(works, s.p.owner, Mine(s)); r == Done && Refines(w, Leave(b, s))
  {
    UnpairWrites(works, s.p.owner, Mine(s));
    var w := Unpair(works, s.p.owner, Mine(s)).0;
    forall cluster, id, partner
      ensures Holds(MapOf(w, cluster), id, partner) <==> Recorded(Leave(b, s), cluster, id, partner)
    {
      RecordedLess(b, s, cluster, id, partner);
      assert Holds(MapOf(works, cluster), id, partner) <==> Recorded(b, cluster, id, partner);
    }
  }

  lemma RecordedLess(b: Books, s: Side, cluster: string, id: string, partner: string)
    requires Distinct(b.sides + {s})
    ensures Recorded(Leave(b, s), cluster, id, partner) <==>
              Recorded(b, cluster, id, partner) && !(cluster == Cluster(s) && id == Mine(s).id)
  {
    assert s in b.sides + {s};
    if Recorded(b, cluster, id, partner) {
      var t :| t in b.sides && Cluster(t) == cluster && Mine(t).id == id && Other(t).id == partner;
      assert t in b.sides + {s} && (t == s || t in Leave(b, s).sides);
    }
    if Recorded(Leave(b, s), cluster, id, partner) {
      var t :| t in b.sides - {s} && Cluster(t) == cluster && Mine(t).id == id && Other(t).id == partner;
      assert t in b.sides + {s};
    }
  }

  /** The garbage collector takes every ManifestWork of the owner. */
  function Collect(works: Works, owner: string): Works {
    map key | key in works && works[key].owner != owner :: works[key]
  }

  lemma CollectRefines(works: Works, b: Books, owner: string)
    requires Refines(works, b)
    ensures Refines(Collect(works, owner), Collected(b, owner))
  {
    var w, b' := Collect(works, owner), Collected(b, owner);
    forall cluster, id, partner
      ensures Holds(MapOf(w, cluster), id, partner) <==> Recorded(b', cluster, id, partner)
    {
      assert Holds(MapOf(works, cluster), id, partner) <==> Recorded(b, cluster, id, partner);
      assert MapOf(w, cluster) == if OwnedBy(b, cluster, owner) then map[] else MapOf(works, cluster);
      if Recorded(b, cluster, id, partner) && !OwnedBy(b, cluster, owner) {
        var t :| t in b.sides && Cluster(t) == cluster && Mine(t).id == id && Other(t).id == partner;
        assert t in b'.sides;
      }
    }
  }

  // ---------- whole operations ----------

  function Peer(p: Peering): MirrorPeer {
    MirrorPeer(p.owner, p.uid, [])
  }

  /** Configuring, stopped after `writes` of its two mapping writes unless that is two. */
  function ConfigureUpTo(works: Works, tokens: Tokens, p: Peering, writes: nat): (Works, Result) {
    var (wired, r) := WireBoth(works, tokens, Peer(p), p.a, p.b);
    if r != Done then (wired, r)
    else if writes == 0 then (wired, Failed)
    else if writes == 1 then (Pair(wired, p.owner, p.a, p.b).0, Failed)
    else PairBoth(wired, p.owner, p.a, p.b)
  }

  /** Cleaning up, likewise. */
  function CleanUpTo(works: Works, p: Peering, writes: nat): Works {
    if writes == 0 then works
    else if writes == 1 then Unpair(works, p.owner, p.a).0
    else UnpairBoth(works, p.owner, p.a, p.b).0
  }

  predicate HasTokens(tokens: Tokens, p: Peering) {
    (p.uid, p.a.provider.cluster) in tokens && (p.uid, p.b.provider.cluster) in tokens
  }

  function BothEntered(b: Books, p: Peering): (Books, bool) {
    var (one, ok) := Enter(b, Side(p, true));
    if ok then Enter(one, Side(p, false)) else (one, false)
  }

  function BooksConfigured(b: Books, tokens: Tokens, p: Peering, writes: nat): Books {
    if !HasTokens(tokens, p) || writes == 0 then b
    else if writes == 1 then Enter(b, Side(p, true)).0
    else BothEntered(b, p).0
  }

  function BooksCleanedUp(b: Books, p: Peering, writes: nat): Books {
    if writes == 0 then b
    else if writes == 1 then Leave(b, Side(p, true))
    else Leave(Leave(b, Side(p, true)), Side(p, false))
  }

  /** The StorageClusterPeers are other ManifestWorks. */
  lemma WiringLeavesMaps(works: Works, tokens: Tokens, p: Peering, b: Books)
    requires Refines(works, b)
    ensures var (w, r) := WireBoth(works, tokens, Peer(p), p.a, p.b);
      Refines(w, b) && (r == Done <==> HasTokens(tokens, p)) && r != Panicked
  {
    var (w, r) := WireBoth(works, tokens, Peer(p), p.a, p.b);
    PeerKeyIsNoMapping(p.a);
    PeerKeyIsNoMapping(p.b);
    forall cluster ensures MapOf(w, cluster) == MapOf(works, cluster) {
    }
    forall cluster, id, partner
      ensures Holds(MapOf(w, cluster), id, partner) <==> Recorded(b, cluster, id, partner)
    {
      assert Holds(MapOf(works, cluster), id, partner) <==> Recorded(b, cluster, id, partner);
    }
  }

  lemma PeerKeyIsNoMapping(c: Client)
    ensures PeerKey(c).0 != MAPPING
  {
    var prefix := "storageclusterpeer-";
    assert MAPPING[7] == '-';
    assert PeerKey(c).0[7] == prefix[7] == 'c';
  }

  lemma ConfigureRefinesBooks(works: Works, b: Books, tokens: Tokens, p: Peering, writes: nat)
    requires Refines(works, b) && Distinct(b.sides + {Side(p, true), Side(p, false)})
    ensures Refines(ConfigureUpTo(works, tokens, p, writes).0, BooksConfigured(b, tokens, p, writes))
  {
    WiringLeavesMaps(works, tokens, p, b);
    if HasTokens(tokens, p) && writes > 0 {
      var wired := WireBoth(works, tokens, Peer(p), p.a, p.b).0;
      EnterRefines(wired, b, Side(p, true));
      if writes > 1 {
        PairBothRefines(wired, b, p);
      }
    }
  }

  lemma PairBothRefines(works: Works, b: Books, p: Peering)
    requires Refines(works, b) && Distinct(b.sides + {Side(p, true), Side(p, false)})
    ensures var (w, r) := PairBoth(works, p.owner, p.a, p.b);
      Refines(w, BothEntered(b, p).0) && r == (if BothEntered(b, p).1 then Done else Panicked)
  {
    EnterRefines(works, b, Side(p, true));
    var one := Enter(b, Side(p, true)).0;
    assert one.sides + {Side(p, false)} <= b.sides + {Side(p, true), Side(p, false)};
    if Enter(b, Side(p, true)).1 {
      EnterRefines(Pair(works, p.owner, p.a, p.b).0, one, Side(p, false));
    }
  }

  lemma CleanUpRefinesBooks(works: Works, b: Books, p: Peering, writes: nat)
    requires Refines(works, b) && Distinct(b.sides + {Side(p, true), Side(p, false)})
    ensures Refines(CleanUpTo(works, p, writes), BooksCleanedUp(b, p, writes))
  {
    LeaveRefines(works, b, Side(p, true));
    LeaveRefines(Unpair(works, p.owner, p.a).0, Leave(b, Side(p, true)), Side(p, false));
  }

  /** Configuring in one go succeeds if and only if both tokens are there and neither provider has a mapping
      ManifestWork left that has lost its last entry. */
  lemma ConfigureDoneIff(works: Works, b: Books, tokens: Tokens, p: Peering)
    requires Refines(works, b) && Distinct(b.sides + {Side(p, true), Side(p, false)})
    ensures Configure(works, tokens, Peer(p), p.a, p.b) == ConfigureUpTo(works, tokens, p, 2)
    ensures Configure(works, tokens, Peer(p), p.a, p.b).1 == Done <==>
            HasTokens(tokens, p) && Open(b, p.a.provider.cluster) && Open(b, p.b.provider.cluster)
    ensures HasTokens(tokens, p) ==> Configure(works, tokens, Peer(p), p.a, p.b).1 in {Done, Panicked}
  {
    WiringLeavesMaps(works, tokens, p, b);
    PairBothRefines(WireBoth(works, tokens, Peer(p), p.a, p.b).0, b, p);
    if Enter(b, Side(p, true)).1 {
      StillOpenIff(b, Side(p, true), p.b.provider.cluster);
    }
  }

  lemma StillOpenIff(b: Books, s: Side, cluster: string)
    requires Enter(b, s).1
    ensures Open(Enter(b, s).0, cluster) <==> Open(b, cluster)
  {
    var b' := Enter(b, s).0;
    assert s in b'.sides;
    if OnCluster(b, cluster) {
      var t :| t in b.sides && Cluster(t) == cluster;
      assert t in b'.sides;
    }
  }

  // ---------- runs ----------

  datatype Op = Configured(p: Peering, writes: nat) | CleanedUp(p: Peering, writes: nat) | CollectedFor(owner: string)

  /** The store after a run from an empty one; whatever fails or stops, the run goes on. */
  function Execute(ops: seq<Op>, tokens: Tokens): Works {
    if ops == [] then map[]
    else
      var works := Execute(ops[..|ops| - 1], tokens);
      match ops[|ops| - 1]
      case Configured(p, writes) => ConfigureUpTo(works, tokens, p, writes).0
      case CleanedUp(p, writes) => CleanUpTo(works, p, writes)
      case CollectedFor(owner) => Collect(works, owner)
  }

  function Kept(ops: seq<Op>, tokens: Tokens): Books {
    if ops == [] then Books(map[], {})
    else
      var b := Kept(ops[..|ops| - 1], tokens);
      match ops[|ops| - 1]
      case Configured(p, writes) => BooksConfigured(b, tokens, p, writes)
      case CleanedUp(p, writes) => BooksCleanedUp(b, p, writes)
      case CollectedFor(owner) => Collected(b, owner)
  }

  function SidesOf(p: Peering): set<Side> {
    {Side(p, true), Side(p, false)}
  }

  function Mentioned(ops: seq<Op>): set<Side> {
    set i: nat, s: Side | i < |ops| && !ops[i].CollectedFor? && s in SidesOf(ops[i].p) :: s
  }

  lemma {:induction false} KeptIsMentioned(ops: seq<Op>, tokens: Tokens)
    ensures Kept(ops, tokens).sides <= Mentioned(ops)
  {
    if ops != [] {
      var init, last := ops[..|ops| - 1], ops[|ops| - 1];
      KeptIsMentioned(init, tokens);
      forall s | s in Mentioned(init) ensures s in Mentioned(ops) {
        var i: nat :| i < |init| && !init[i].CollectedFor? && s in SidesOf(init[i].p);
        assert ops[i] == init[i];
      }
      if !last.CollectedFor? {
        forall s | s in SidesOf(last.p) ensures s in Mentioned(ops) {
          assert ops[|ops| - 1] == last;
        }
      }
    }
  }

  /** After any run whatsoever over peerings with distinct clients the store agrees with the books: configures
      and clean-ups may fail, panic or stop between their writes and be repeated in any order, and the garbage
      collector may come in between. */
  lemma {:induction false} RunRefines(ops: seq<Op>, tokens: Tokens)
    requires Distinct(Mentioned(ops))
    ensures Refines(Execute(ops, tokens), Kept(ops, tokens))
  {
    if ops != [] {
      var init, last := ops[..|ops| - 1], ops[|ops| - 1];
      InitIsMentioned(ops);
      RunRefines(init, tokens);
      KeptIsMentioned(init, tokens);
      var works, b := Execute(init, tokens), Kept(init, tokens);
      match last
      case Configured(p, writes) =>
        assert b.sides + SidesOf(p) <= Mentioned(ops);
        ConfigureRefinesBooks(works, b, tokens, p, writes);
      case CleanedUp(p, writes) =>
        assert b.sides + SidesOf(p) <= Mentioned(ops);
        CleanUpRefinesBooks(works, b, p, writes);
      case CollectedFor(owner) =>
        CollectRefines(works, b, owner);
    }
  }

  lemma InitIsMentioned(ops: seq<Op>)
    requires ops != []
    ensures Mentioned(ops[..|ops| - 1]) <= Mentioned(ops)
    ensures !ops[|ops| - 1].CollectedFor? ==> SidesOf(ops[|ops| - 1].p) <= Mentioned(ops)
  {
    var init := ops[..|ops| - 1];
    forall s | s in Mentioned(init) ensures s in Mentioned(ops) {
      var i: nat :| i < |init| && !init[i].CollectedFor? && s in SidesOf(init[i].p);
      assert ops[i] == init[i];
    }
  }

  // ---------- what follows ----------

  /** A configure that stopped between its two entries and is repeated gives what one in one go gives. */
  lemma RetryCompletes(works: Works, p: Peering)
    requires Pair(works, p.owner, p.a, p.b).1 == Done
    ensures PairBoth(Pair(works, p.owner, p.a, p.b).0, p.owner, p.a, p.b) == PairBoth(works, p.owner, p.a, p.b)
  {
    PairAgain(works, p.owner, p.a, p.b);
  }

  lemma SidesMirror(works: Works, b: Books, live: set<Peering>)
    requires Refines(works, b) && forall s: Side :: s in b.sides <==> s.p in live
    ensures Mirrors(works, live)
  {
    forall cluster, id, partner
      ensures Holds(MapOf(works, cluster), id, partner) <==> EntryOf(live, cluster, id, partner)
    {
      assert Holds(MapOf(works, cluster), id, partner) <==> Recorded(b, cluster, id, partner);
      if Recorded(b, cluster, id, partner) {
        var s :| s in b.sides && Cluster(s) == cluster && Mine(s).id == id && Other(s).id == partner;
        assert Enters(s.p, cluster, id, partner);
      }
      if EntryOf(live, cluster, id, partner) {
        var p :| p in live && Enters(p, cluster, id, partner);
        assert Side(p, true) in b.sides && Side(p, false) in b.sides;
        var s := Side(p, p.a.provider.cluster == cluster && p.a.id == id && p.b.id == partner);
        assert Cluster(s) == cluster && Mine(s).id == id && Other(s).id == partner;
      }
    }
  }

  /** The peerings configured and not cleaned up since. */
  function Live(ops: seq<Op>): set<Peering> {
    if ops == [] then {}
    else
      var live := Live(ops[..|ops| - 1]);
      match ops[|ops| - 1]
      case Configured(p, writes) => live + {p}
      case CleanedUp(p, writes) => live - {p}
      case CollectedFor(owner) => live
  }

  /** Every operation went through, and nothing was collected. */
  predicate AllWentThrough(ops: seq<Op>, tokens: Tokens) {
    ops == [] ||
    (AllWentThrough(ops[..|ops| - 1], tokens) &&
     match ops[|ops| - 1]
     case Configured(p, writes) => ConfigureUpTo(Execute(ops[..|ops| - 1], tokens), tokens, p, writes).1 == Done
     case CleanedUp(p, writes) => writes > 1
     case CollectedFor(owner) => false)
  }

  lemma DoneEntersBoth(works: Works, b: Books, tokens: Tokens, p: Peering, writes: nat)
    requires Refines(works, b) && Distinct(b.sides + SidesOf(p))
    requires ConfigureUpTo(works, tokens, p, writes).1 == Done
    ensures BooksConfigured(b, tokens, p, writes).sides == b.sides + SidesOf(p)
  {
    WiringLeavesMaps(works, tokens, p, b);
    PairBothRefines(WireBoth(works, tokens, Peer(p), p.a, p.b).0, b, p);
  }

  lemma {:induction false} LiveSides(ops: seq<Op>, tokens: Tokens, s: Side)
    requires Distinct(Mentioned(ops)) && AllWentThrough(ops, tokens)
    ensures s in Kept(ops, tokens).sides <==> s.p in Live(ops)
  {
    if ops != [] {
      var init, last := ops[..|ops| - 1], ops[|ops| - 1];
      InitIsMentioned(ops);
      LiveSides(init, tokens, s);
      RunRefines(init, tokens);
      KeptIsMentioned(init, tokens);
      if last.Configured? {
        assert Kept(init, tokens).sides + SidesOf(last.p) <= Mentioned(ops);
        DoneEntersBoth(Execute(init, tokens), Kept(init, tokens), tokens, last.p, last.writes);
      }
    }
  }

  /** If every operation goes through and nothing is collected, each provider's map is exactly the peerings that
      were configured and not cleaned up since. */
  lemma CompleteRunsMirror(ops: seq<Op>, tokens: Tokens)
    requires Distinct(Mentioned(ops)) && AllWentThrough(ops, tokens)
    ensures Mirrors(Execute(ops, tokens), Live(ops))
  {
    RunRefines(ops, tokens);
    forall s: Side ensures s in Kept(ops, tokens).sides <==> s.p in Live(ops) {
      LiveSides(ops, tokens, s);
    }
    SidesMirror(Execute(ops, tokens), Kept(ops, tokens), Live(ops));
  }

  lemma CollectionOpens(b: Books, owner: string, cluster: string)
    requires !Open(b, cluster) ==> OwnedBy(b, cluster, owner)
    ensures Open(Collected(b, owner), cluster)
  {
    if OnCluster(b, cluster) && !OwnedBy(b, cluster, owner) {
      var s :| s in b.sides && Cluster(s) == cluster;
      assert s in Collected(b, owner).sides;
    }
  }

  /** A provider whose last peering has been cleaned up cannot be peered while the emptied ManifestWork is still
      stored: the configure panics. Once the MirrorPeer that made the ManifestWork is gone and the ManifestWork
      has been collected, it can. */
  lemma PeeringAfterTheLast(works: Works, b: Books, tokens: Tokens, p: Peering, owner: string)
    requires Refines(works, b) && Distinct(b.sides + SidesOf(p)) && HasTokens(tokens, p)
    requires !Open(b, p.a.provider.cluster) || !Open(b, p.b.provider.cluster)
    requires forall first :: !Open(b, Cluster(Side(p, first))) ==> OwnedBy(b, Cluster(Side(p, first)), owner)
    ensures Configure(works, tokens, Peer(p), p.a, p.b).1 == Panicked
    ensures Configure(Collect(works, owner), tokens, Peer(p), p.a, p.b).1 == Done
  {
    ConfigureDoneIff(works, b, tokens, p);
    CollectRefines(works, b, owner);
    assert Collected(b, owner).sides + SidesOf(p) <= b.sides + SidesOf(p);
    ConfigureDoneIff(Collect(works, owner), Collected(b, owner), tokens, p);
    CollectionOpens(b, owner, Cluster(Side(p, true)));
    CollectionOpens(b, owner, Cluster(Side(p, false)));
  }

  /** The collector takes the entries of other MirrorPeers along: an entry survives if and only if its provider's
      ManifestWork was made by another. */
  lemma CollectionTakesEntries(works: Works, b: Books, owner: string, s: Side)
    requires Refines(works, b) && s in b.sides && Distinct(b.sides)
    ensures Holds(MapOf(Collect(works, owner), Cluster(s)), Mine(s).id, Other(s).id) <==> !OwnedBy(b, Cluster(s), owner)
  {
    CollectRefines(works, b, owner);
    var b' := Collected(b, owner);
    assert Holds(MapOf(Collect(works, owner), Cluster(s)), Mine(s).id, Other(s).id) <==>
           Recorded(b', Cluster(s), Mine(s).id, Other(s).id);
    if !OwnedBy(b, Cluster(s), owner) {
      assert s in b'.sides;
    }
  }

  /** From the start: one MirrorPeer is configured and cleaned up, and another with a client of the same provider
      follows. */
  lemma SecondFirstPeering(tokens: Tokens, p: Peering, q: Peering)
    requires HasTokens(tokens, p) && HasTokens(tokens, q) && Distinct(SidesOf(p) + SidesOf(q))
    requires q.a.provider.cluster == p.a.provider.cluster
    ensures var works := Execute([Configured(p, 2), CleanedUp(p, 2)], tokens);
      && Configure(works, tokens, Peer(q), q.a, q.b).1 == Panicked
      && Configure(Collect(works, p.owner), tokens, Peer(q), q.a, q.b).1 == Done
  {
    var one, two := [Configured(p, 2)], [Configured(p, 2), CleanedUp(p, 2)];
    assert one[..0] == [] && two[..1] == one;
    assert Mentioned(two) <= SidesOf(p);
    RunRefines(two, tokens);
    var start := Books(map[], {});
    StillOpenIff(start, Side(p, true), p.b.provider.cluster);
    assert BothEntered(start, p).1 && BothEntered(start, p).0.sides == SidesOf(p);
    assert Kept(one[..0], tokens) == start && Kept(one, tokens) == BothEntered(start, p).0;
    var b := Kept(two, tokens);
    assert b == BooksCleanedUp(BothEntered(start, p).0, p, 2);
    assert b.sides + SidesOf(q) <= SidesOf(p) + SidesOf(q);
    PeeringAfterTheLast(Execute(two, tokens), b, tokens, q, p.owner);
  }
}
