/** When the hub lets a MirrorPeer go without an agent: exactly if another spoke answers to the same finalizer. */
module PeerDeletionClash {
  import opened ApiServer
  import opened PeerDeletion
  import opened PeerDeletionSafety

  /** In this run the hub lets go, at moment `n`, of a MirrorPeer that was being deleted at moment `i` and had the
      finalizer of agent `a` then. */
  ghost predicate LetsGo(setup: Setup, spokes: set<string>, run: seq<State>, i: nat, n: nat, a: string) {
    && Run(setup, run) && run[0].agents.Keys == spokes && i <= n && n + 1 < |run|
    && Deleting(run[i]) && Finalized(run[i], AgentFinalizer(a)) && Dropped(run[n], run[n + 1], HUB_FINALIZER)
  }

  ghost predicate AlwaysWaitedFor(setup: Setup, spokes: set<string>, a: string) {
    forall run: seq<State>, i: nat, n: nat :: LetsGo(setup, spokes, run, i, n, a) ==> SawLockClear(setup, run, n, a)
  }

  /** The hub waits in every run until agent `a` has seen its lock without the client, if and only if no other spoke
      has the same finalizer. */
  lemma WaitedForIff(setup: Setup, spokes: set<string>, a: string)
    requires a in spokes
    ensures AlwaysWaitedFor(setup, spokes, a) <==> forall b <- spokes :: b != a ==> Stem(b) != Stem(a)
  {
    if forall b <- spokes :: b != a ==> Stem(b) != Stem(a) {
      forall run: seq<State>, i: nat, n: nat | LetsGo(setup, spokes, run, i, n, a)
        ensures SawLockClear(setup, run, n, a)
      {
        HubWaitsForEveryAgent(setup, run, i, n, a);
      }
    } else {
      var b :| b in spokes && b != a && Stem(b) == Stem(a);
      var run, i, n := ClashingAgentIsOvertaken(Case(setup, spokes, a, b));
    }
  }

  // ---------- the run in which it does not wait ----------

  /** Spokes `a` and `b` share a finalizer. */
  datatype Case = Case(setup: Setup, spokes: set<string>, a: string, b: string)

  predicate Clash(c: Case) {
    c.a in c.spokes && c.b in c.spokes && c.a != c.b && Stem(c.a) == Stem(c.b)
  }

  /** The lock on `a` holds everything that it may be asked for all the time, that on `b` never. */
  function Locks(c: Case): map<string, set<string>> {
    map[c.a := {c.setup.first.clientID, c.setup.second.clientID, ""}, c.b := {}]
  }

  function At(c: Case, peers: Shelf<()>, hub: HubPc, agents: map<string, AgentPc>): State {
    State(peers, {}, map[], Locks(c), hub, agents)
  }

  function Resting(c: Case): map<string, AgentPc> {
    map s | s in c.spokes :: AgentIdle
  }

  function ThePeer(version: nat, deleting: bool, finalizers: seq<string>): Peer {
    Object(PEER, version, deleting, finalizers, ())
  }

  function Holding(o: Peer): Shelf<()> {
    Shelf(map[PEER := o], o.version)
  }

  /** A run of this kind up to now. */
  ghost predicate Goes(c: Case, run: seq<State>, s: State) {
    && Run(c.setup, run) && run[0].peers == Shelf(map[], 0) && run[0].agents.Keys == c.spokes && run[|run| - 1] == s
    && forall i :: 0 <= i < |run| ==> run[i].locks == Locks(c)
  }

  lemma GoesOn(c: Case, run: seq<State>, s: State, s': State)
    requires Goes(c, run, s) && Next(c.setup, s, s') && s'.locks == Locks(c)
    ensures Goes(c, run + [s'], s')
  {
    var longer := run + [s'];
    forall i | 0 <= i < |longer| - 1 ensures StepAt(c.setup, longer, i) {
      if i < |run| - 1 {
        assert StepAt(c.setup, run, i);
      }
    }
  }

  lemma HubGoes(c: Case, run: seq<State>, s: State)
    requires Goes(c, run, s) && HubStep(c.setup, s).locks == Locks(c)
    ensures Goes(c, run + [HubStep(c.setup, s)], HubStep(c.setup, s))
  {
    GoesOn(c, run, s, HubStep(c.setup, s));
  }

  lemma AgentGoes(c: Case, run: seq<State>, s: State, a: string)
    requires Goes(c, run, s) && a in s.agents && AgentStep(c.setup, s, a).locks == Locks(c)
    ensures Goes(c, run + [AgentStep(c.setup, s, a)], AgentStep(c.setup, s, a))
  {
    GoesOn(c, run, s, AgentStep(c.setup, s, a));
  }

  lemma Shared(c: Case)
    requires Clash(c)
    ensures AgentFinalizer(c.a) == AgentFinalizer(c.b) != HUB_FINALIZER
    ensures HasSuffix(AgentFinalizer(c.a), SPOKE_FINALIZER) && !AnySpoke([HUB_FINALIZER])
  {
    AgentFinalizersClash(c.a, c.b);
    AgentFinalizerFits(c.a);
    HubIsNoSpoke();
  }

  /** A user creates the MirrorPeer and the hub puts its finalizer on it. */
  lemma HubTakesHold(c: Case) returns (run: seq<State>)
    requires Clash(c)
    ensures Goes(c, run, At(c, Holding(ThePeer(2, false, [HUB_FINALIZER])), HubIdle, Resting(c)))
  {
    var start := At(c, Shelf(map[], 0), HubIdle, Resting(c));
    run := [start];
    var created := start.(peers := Holding(ThePeer(1, false, [])));
    assert OthersStep(start, created);
    GoesOn(c, run, start, created);
    run := run + [created];
    var reading := HubStep(c.setup, created);
    HubGoes(c, run, created);
    run := run + [reading];
    HubGoes(c, run, reading);
    run := run + [HubStep(c.setup, reading)];
    assert [] + [HUB_FINALIZER] == [HUB_FINALIZER];
    assert HubStep(c.setup, reading).peers == Holding(ThePeer(2, false, [HUB_FINALIZER]));
  }

  /** Agent `a` puts its finalizer on it too, and a user deletes it. */
  lemma UserDeletes(c: Case) returns (run: seq<State>)
    requires Clash(c)
    ensures Goes(c, run, At(c, Holding(ThePeer(4, true, [HUB_FINALIZER, AgentFinalizer(c.a)])), HubIdle, Resting(c)))
  {
    run := HubTakesHold(c);
    Shared(c);
    var s := At(c, Holding(ThePeer(2, false, [HUB_FINALIZER])), HubIdle, Resting(c));
    var reading := AgentStep(c.setup, s, c.a);
    AgentGoes(c, run, s, c.a);
    run := run + [reading];
    var held := AgentStep(c.setup, reading, c.a);
    AgentGoes(c, run, reading, c.a);
    run := run + [held];
    assert AgentFinalizer(c.a) !in [HUB_FINALIZER];
    assert [HUB_FINALIZER] + [AgentFinalizer(c.a)] == [HUB_FINALIZER, AgentFinalizer(c.a)];
    assert held.agents == Resting(c);
    assert held.peers == Holding(ThePeer(3, false, [HUB_FINALIZER, AgentFinalizer(c.a)]));
    var deleted := held.(peers := Holding(ThePeer(4, true, [HUB_FINALIZER, AgentFinalizer(c.a)])));
    assert OthersStep(held, deleted);
    GoesOn(c, run, held, deleted);
    run := run + [deleted];
  }

  /** Agent `b` finds its own lock clear and takes off the finalizer that it takes for its own. */
  lemma OtherAgentDrops(c: Case, run: seq<State>) returns (longer: seq<State>)
    requires Clash(c)
    requires Goes(c, run, At(c, Holding(ThePeer(4, true, [HUB_FINALIZER, AgentFinalizer(c.a)])), HubIdle, Resting(c)))
    ensures run <= longer && Goes(c, longer, At(c, Holding(ThePeer(5, true, [HUB_FINALIZER])), HubIdle, Resting(c)))
  {
    Shared(c);
    var o := ThePeer(4, true, [HUB_FINALIZER, AgentFinalizer(c.a)]);
    var s := At(c, Holding(o), HubIdle, Resting(c));
    var reading := AgentStep(c.setup, s, c.b);
    AgentGoes(c, run, s, c.b);
    longer := run + [reading];
    var cleared := AgentStep(c.setup, reading, c.b);
    assert LockClear(c.setup, reading, c.b);
    AgentGoes(c, longer, reading, c.b);
    longer := longer + [cleared];
    var reread := AgentStep(c.setup, cleared, c.b);
    AgentGoes(c, longer, cleared, c.b);
    longer := longer + [reread];
    var dropped := AgentStep(c.setup, reread, c.b);
    AgentGoes(c, longer, reread, c.b);
    longer := longer + [dropped];
    WithoutLast(AgentFinalizer(c.a));
    assert dropped.agents == Resting(c);
    assert dropped.peers == Holding(ThePeer(5, true, [HUB_FINALIZER]));
  }

  lemma WithoutLast(f: string)
    requires f != HUB_FINALIZER
    ensures Without([HUB_FINALIZER, f], f) == [HUB_FINALIZER]
  {
    assert [HUB_FINALIZER, f][1..] == [f] && [f][1..] == [];
    assert Without([f], f) == [];
  }

  /** The hub sees no spoke finalizer, cleans up and comes to its last call. */
  lemma HubCleansUp(c: Case, run: seq<State>) returns (longer: seq<State>)
    requires Clash(c) && Goes(c, run, At(c, Holding(ThePeer(5, true, [HUB_FINALIZER])), HubIdle, Resting(c)))
    ensures run <= longer
    ensures var o := ThePeer(5, true, [HUB_FINALIZER]); Goes(c, longer, At(c, Holding(o), HubCleaned(o), Resting(c)))
  {
    Shared(c);
    var o := ThePeer(5, true, [HUB_FINALIZER]);
    var s := At(c, Holding(o), HubIdle, Resting(c));
    HubGoes(c, run, s);
    longer := run + [HubStep(c.setup, s)];
    HubGoes(c, longer, At(c, Holding(o), HubRead(o), Resting(c)));
    longer := longer + [HubStep(c.setup, At(c, Holding(o), HubRead(o), Resting(c)))];
    HubGoes(c, longer, At(c, Holding(o), HubGuarded(o), Resting(c)));
    longer := longer + [HubStep(c.setup, At(c, Holding(o), HubGuarded(o), Resting(c)))];
    if c.setup.async {
      HubGoes(c, longer, At(c, Holding(o), HubCleaning(o, 0), Resting(c)));
      longer := longer + [HubStep(c.setup, At(c, Holding(o), HubCleaning(o, 0), Resting(c)))];
      HubGoes(c, longer, At(c, Holding(o), HubCleaning(o, 1), Resting(c)));
      longer := longer + [HubStep(c.setup, At(c, Holding(o), HubCleaning(o, 1), Resting(c)))];
    }
  }

  /** From the empty shelf to the hub letting go, while the lock on `a` holds the client all the time. */
  lemma ClashingAgentIsOvertaken(c: Case) returns (run: seq<State>, i: nat, n: nat)
    requires Clash(c)
    ensures LetsGo(c.setup, c.spokes, run, i, n, c.a) && run[0].peers == Shelf(map[], 0)
    ensures !SawLockClear(c.setup, run, n, c.a)
  {
    Shared(c);
    var before := UserDeletes(c);
    i := |before| - 1;
    var dropped := OtherAgentDrops(c, before);
    var cleaned := HubCleansUp(c, dropped);
    n := |cleaned| - 1;
    var o := ThePeer(5, true, [HUB_FINALIZER]);
    var s := At(c, Holding(o), HubCleaned(o), Resting(c));
    HubGoes(c, cleaned, s);
    run := cleaned + [HubStep(c.setup, s)];
    assert HubStep(c.setup, s).peers == Apply(s.peers, Call(o, Without([HUB_FINALIZER], HUB_FINALIZER)));
    assert Without([HUB_FINALIZER], HUB_FINALIZER) == [] by {
      assert [HUB_FINALIZER][1..] == [];
    }
    assert run[i] == before[i] && run[n] == s && run[n + 1] == HubStep(c.setup, s);
    assert AgentFinalizer(c.a) == run[i].peers.objects[PEER].finalizers[1];
    assert HUB_FINALIZER == run[n].peers.objects[PEER].finalizers[0];
    forall m | 0 <= m <= n ensures !LockClear(c.setup, run[m], c.a) {
      assert run[m].locks == Locks(c);
    }
  }
}
