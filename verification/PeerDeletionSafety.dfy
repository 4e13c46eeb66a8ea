/** What holds over every run of the deletion protocol. */
module PeerDeletionSafety {
  import opened ApiServer
  import opened PeerDeletion

  // ---------- the invariant ----------

  /** A copy of the MirrorPeer that some pass still holds: if its version is current, so is all of it. */
  ghost predicate Copy(peers: Shelf<()>, o: Peer) {
    && o.name == PEER && o.version <= peers.clock
    && (PEER in peers.objects && peers.objects[PEER].version == o.version ==> peers.objects[PEER] == o)
  }

  ghost predicate HubCopy(peers: Shelf<()>, pc: HubPc) {
    pc != HubIdle ==> Copy(peers, pc.peer)
  }

  /** How far a hub pass over a deleted MirrorPeer has got, and what it has made sure of. */
  ghost predicate HubInv(setup: Setup, m: Mapping, pc: HubPc) {
    match pc
    case HubGuarded(o) => o.deleting
    case HubCleaning(o, k) =>
      o.deleting && !AnySpoke(o.finalizers) && setup.async && k <= 1 && (k == 1 ==> !Mapped(m, setup.first))
    case HubCleaned(o) =>
      o.deleting && !AnySpoke(o.finalizers) && (setup.async ==> !Mapped(m, setup.first) && !Mapped(m, setup.second))
    case _ => true
  }

  ghost predicate AgentCopy(peers: Shelf<()>, pc: AgentPc) {
    pc.AgentRead? || pc.AgentReread? ==> Copy(peers, pc.peer)
  }

  ghost predicate Inv(setup: Setup, s: State) {
    && Valid(s.peers) && HubCopy(s.peers, s.hub) && HubInv(setup, s.mapping, s.hub)
    && forall a <- s.agents :: AgentCopy(s.peers, s.agents[a])
  }

  ghost predicate GoodCall(peers: Shelf<()>, call: Call) {
    call != NoCall ==> Copy(peers, call.copy)
  }

  /** A call keeps every copy honest. */
  lemma CallKeeps(peers: Shelf<()>, call: Call)
    requires Valid(peers) && GoodCall(peers, call)
    ensures Valid(Apply(peers, call)) && Since(peers, Apply(peers, call))
  {
  }

  lemma HubAdvances(setup: Setup, s: State)
    requires Inv(setup, s)
    ensures HubInv(setup, HubMapping(setup, s.hub, s.mapping), HubNext(setup, s))
  {
  }

  lemma CopiesMove(s: State, s': State)
    requires Valid(s.peers) && Valid(s'.peers) && Since(s.peers, s'.peers)
    requires HubCopy(s.peers, s.hub) && forall a <- s.agents :: AgentCopy(s.peers, s.agents[a])
    ensures HubCopy(s'.peers, s.hub) && forall a <- s.agents :: AgentCopy(s'.peers, s.agents[a])
  {
  }

  lemma HubStepKeeps(setup: Setup, s: State)
    requires Inv(setup, s)
    ensures Inv(setup, HubStep(setup, s)) && Since(s.peers, HubStep(setup, s).peers)
  {
    CallKeeps(s.peers, HubCall(setup, s.hub));
    HubAdvances(setup, s);
    CopiesMove(s, HubStep(setup, s));
  }

  lemma AgentStepKeeps(setup: Setup, s: State, a: string)
    requires Inv(setup, s) && a in s.agents
    ensures Inv(setup, AgentStep(setup, s, a)) && Since(s.peers, AgentStep(setup, s, a).peers)
  {
  }

  lemma NextKeeps(setup: Setup, s: State, s': State)
    requires Inv(setup, s) && Next(setup, s, s')
    ensures Inv(setup, s') && Since(s.peers, s'.peers)
  {
    if s' == HubStep(setup, s) {
      HubStepKeeps(setup, s);
    } else if OthersStep(s, s') {
      CopiesMove(s, s');
    } else if s' != s.(hub := HubIdle) {
      var a :| a in s.agents && (s' == AgentStep(setup, s, a) || s' == s.(agents := s.agents[a := AgentIdle]));
      AgentStepKeeps(setup, s, a);
    }
  }

  lemma {:induction false} RunKeeps(setup: Setup, run: seq<State>, n: nat)
    requires Run(setup, run) && n < |run|
    ensures Inv(setup, run[n])
  {
    if n > 0 {
      RunKeeps(setup, run, n - 1);
      assert StepAt(setup, run, n - 1);
      NextKeeps(setup, run[n - 1], run[n]);
    }
  }

  // ---------- who changes the finalizers, and how ----------

  /** The call of a step, if it is one of the protocol's. */
  ghost predicate Calls(setup: Setup, s: State, s': State, call: Call) {
    && GoodCall(s.peers, call) && s'.peers == Apply(s.peers, call)
    && (|| call == NoCall
        || (s' == HubStep(setup, s) && call == HubCall(setup, s.hub))
        || exists a <- s.agents :: s' == AgentStep(setup, s, a) && call == AgentCall(a, s.agents[a]))
  }

  lemma StepIsCall(setup: Setup, s: State, s': State) returns (call: Call)
    requires Inv(setup, s) && Next(setup, s, s') && !OthersStep(s, s')
    ensures Calls(setup, s, s', call)
  {
    if s' == HubStep(setup, s) {
      call := HubCall(setup, s.hub);
    } else if s' == s.(hub := HubIdle) {
      call := NoCall;
    } else {
      var a :| a in s.agents && (s' == AgentStep(setup, s, a) || s' == s.(agents := s.agents[a := AgentIdle]));
      call := if s' == AgentStep(setup, s, a) then AgentCall(a, s.agents[a]) else NoCall;
    }
  }

  lemma CallOnDeleted(setup: Setup, s: State, s': State, call: Call)
    requires Calls(setup, s, s', call) && call != NoCall && call.copy.deleting
    ensures forall f :: f in call.finalizers ==> f in call.copy.finalizers
  {
  }

  /** From the moment the MirrorPeer is marked for deletion, no step of anybody adds a finalizer. */
  lemma FinalizersOnlyShrink(setup: Setup, s: State, s': State)
    requires Inv(setup, s) && Next(setup, s, s') && Deleting(s)
    ensures Stored(s') ==> Deleting(s') && forall f :: Finalized(s', f) ==> Finalized(s, f)
  {
    if !OthersStep(s, s') {
      var call := StepIsCall(setup, s, s');
      if call != NoCall && call.copy.deleting {
        CallOnDeleted(setup, s, s', call);
      }
    }
  }

  ghost predicate Dropped(s: State, s': State, f: string) {
    Finalized(s, f) && !Finalized(s', f)
  }

  lemma DropIsCall(setup: Setup, s: State, s': State, f: string) returns (call: Call)
    requires Inv(setup, s) && Next(setup, s, s') && Dropped(s, s', f)
    ensures Calls(setup, s, s', call) && call != NoCall
    ensures call.copy == s.peers.objects[PEER] && f in call.copy.finalizers && f !in call.finalizers
  {
    call := StepIsCall(setup, s, s');
  }

  lemma HubIsNoSpoke()
    ensures !HasSuffix(HUB_FINALIZER, SPOKE_FINALIZER)
  {
  }

  /** The hub's finalizer leaves only by the last step of a hub pass that has gone through all its checks. */
  lemma HubDropIsLastStep(setup: Setup, s: State, s': State)
    requires Inv(setup, s) && Next(setup, s, s') && Dropped(s, s', HUB_FINALIZER)
    ensures s.hub == HubCleaned(s.peers.objects[PEER]) && Deleting(s)
    ensures !AnySpoke(s.peers.objects[PEER].finalizers)
    ensures setup.async ==> !Mapped(s.mapping, setup.first) && !Mapped(s.mapping, setup.second)
  {
    var call := DropIsCall(setup, s, s', HUB_FINALIZER);
    HubIsNoSpoke();
    if s' == HubStep(setup, s) && call == HubCall(setup, s.hub) {
    } else {
      var a :| a in s.agents && s' == AgentStep(setup, s, a) && call == AgentCall(a, s.agents[a]);
      AgentFinalizerFits(a);
    }
  }

  /** While the MirrorPeer is being deleted, a spoke finalizer leaves only by the hand of an agent that
      owns a finalizer of that name and is past its look at the lock. */
  lemma SpokeDropIsAgents(setup: Setup, s: State, s': State, f: string)
    requires Inv(setup, s) && Next(setup, s, s') && Deleting(s)
    requires HasSuffix(f, SPOKE_FINALIZER) && Dropped(s, s', f)
    ensures exists a <- s.agents :: AgentFinalizer(a) == f && s.agents[a].AgentReread?
  {
    var call := DropIsCall(setup, s, s', f);
    HubIsNoSpoke();
    if s' == HubStep(setup, s) && call == HubCall(setup, s.hub) {
      assert false;
    }
  }

  predicate Carries(peers: Shelf<()>, f: string) {
    PEER in peers.objects && f in peers.objects[PEER].finalizers
  }

  predicate Condemned(peers: Shelf<()>) {
    PEER in peers.objects && peers.objects[PEER].deleting
  }

  /** What a call changes about a finalizer it changes of the copy, which is what is stored. */
  lemma CallApplies(peers: Shelf<()>, call: Call, f: string)
    requires Valid(peers) && call != NoCall && Copy(peers, call.copy)
    requires Carries(peers, f) != Carries(Apply(peers, call), f)
    ensures Condemned(peers) == call.copy.deleting
    ensures Carries(peers, f) <==> f in call.copy.finalizers
    ensures Carries(Apply(peers, call), f) ==> f in call.finalizers
    ensures f in call.finalizers ==> !Carries(peers, f)
  {
  }

  lemma HubsCall(setup: Setup, m: Mapping, pc: HubPc, f: string)
    requires HubInv(setup, m, pc) && HubCall(setup, pc) != NoCall
    ensures var call := HubCall(setup, pc);
      && (f in call.finalizers && f !in call.copy.finalizers ==> !call.copy.deleting && f == HUB_FINALIZER)
      && (f !in call.finalizers && f in call.copy.finalizers ==>
            if call.copy.deleting then f == HUB_FINALIZER else !setup.async && HasSuffix(f, SPOKE_FINALIZER))
  {
  }

  lemma AgentsCall(a: string, pc: AgentPc, f: string)
    requires AgentCall(a, pc) != NoCall
    ensures var call := AgentCall(a, pc);
      && (f in call.finalizers && f !in call.copy.finalizers ==> !call.copy.deleting && f == AgentFinalizer(a))
      && (f !in call.finalizers && f in call.copy.finalizers ==> f == AgentFinalizer(a))
  {
  }

  /** A step of the hub or of an agent adds or removes only finalizers of its own kind: the hub its own, which it adds
      to a live MirrorPeer and takes off a deleted one, and on a live synchronous one the spokes'; an agent its own. */
  lemma StepsTouchOwnFinalizers(setup: Setup, s: State, s': State, f: string)
    requires Inv(setup, s) && Next(setup, s, s') && !OthersStep(s, s')
    ensures !Carries(s.peers, f) && Carries(s'.peers, f) ==>
              !Condemned(s.peers) && (f == HUB_FINALIZER || exists a <- s.agents :: f == AgentFinalizer(a))
    ensures Carries(s.peers, f) && !Carries(s'.peers, f) ==>
              || (exists a <- s.agents :: f == AgentFinalizer(a))
              || if Condemned(s.peers) then f == HUB_FINALIZER else !setup.async && HasSuffix(f, SPOKE_FINALIZER)
  {
    var call := StepIsCall(setup, s, s');
    if call != NoCall && Carries(s.peers, f) != Carries(s'.peers, f) {
      CallApplies(s.peers, call, f);
      if s' == HubStep(setup, s) && call == HubCall(setup, s.hub) {
        HubsCall(setup, s.mapping, s.hub, f);
      } else {
        var a :| a in s.agents && s' == AgentStep(setup, s, a) && call == AgentCall(a, s.agents[a]);
        AgentsCall(a, s.agents[a], f);
      }
    }
  }

  /** A step of the hub or of an agent enters and takes out only the two clients of the MirrorPeer. */
  lemma StepsTouchOwnEntries(setup: Setup, s: State, s': State, provider: string, clientID: string)
    requires Next(setup, s, s') && !OthersStep(s, s')
    requires InMapping(s.mapping, provider, clientID) != InMapping(s'.mapping, provider, clientID)
    ensures (provider, clientID) == (setup.first.provider, setup.first.clientID)
            || (provider, clientID) == (setup.second.provider, setup.second.clientID)
  {
    if s'.mapping != s.mapping {
      match s.hub
      case HubCleaning(o, k) => UnmapTakesOne(s.mapping, SideAt(setup, k), provider, clientID);
      case _ =>
        MapAddsOne(s.mapping, setup.first, provider, clientID);
        MapAddsOne(Map(s.mapping, setup.first), setup.second, provider, clientID);
    }
  }

  // ---------- over whole runs ----------

  /** At some moment up to `n` the hub listed the policies, none was on this pair of clusters, and the
      MirrorPeer was already what it is at moment `n`. */
  ghost predicate ListedClear(setup: Setup, run: seq<State>, n: nat, o: Peer)
    requires n < |run|
  {
    exists m :: 0 <= m <= n && NoPolicy(run[m], setup)
      && (Stored(run[n]) && run[n].peers.objects[PEER] == o ==> Stored(run[m]) && run[m].peers.objects[PEER] == o)
  }

  /** A MirrorPeer found unchanged now was there before the step. */
  lemma Backwards(setup: Setup, s: State, s': State, o: Peer)
    requires Inv(setup, s) && Next(setup, s, s') && Copy(s.peers, o)
    requires Stored(s') && s'.peers.objects[PEER] == o
    ensures Stored(s) && s.peers.objects[PEER] == o
  {
    NextKeeps(setup, s, s');
  }

  predicate PastListing(pc: HubPc) {
    !pc.HubIdle? && !pc.HubRead?
  }

  lemma BeforePastListing(setup: Setup, s: State, s': State)
    requires Next(setup, s, s') && PastListing(s'.hub)
    ensures s.hub != HubIdle && s.hub.peer == s'.hub.peer
    ensures PastListing(s.hub) || NoPolicy(s, setup)
  {
  }

  lemma ListingStays(setup: Setup, run: seq<State>, n: nat, o: Peer)
    requires 0 < n < |run| && Inv(setup, run[n - 1]) && Next(setup, run[n - 1], run[n]) && Copy(run[n - 1].peers, o)
    requires NoPolicy(run[n - 1], setup) || ListedClear(setup, run, n - 1, o)
    ensures ListedClear(setup, run, n, o)
  {
    var s, s' := run[n - 1], run[n];
    if Stored(s') && s'.peers.objects[PEER] == o {
      Backwards(setup, s, s', o);
    }
    if !NoPolicy(s, setup) {
      var m :| 0 <= m <= n - 1 && NoPolicy(run[m], setup)
        && (Stored(s) && s.peers.objects[PEER] == o ==> Stored(run[m]) && run[m].peers.objects[PEER] == o);
      assert 0 <= m <= n && NoPolicy(run[m], setup);
    }
  }

  lemma {:induction false} GuardedAfterListing(setup: Setup, run: seq<State>, n: nat)
    requires Run(setup, run) && n < |run| && PastListing(run[n].hub)
    ensures ListedClear(setup, run, n, run[n].hub.peer)
  {
    RunKeeps(setup, run, n - 1);
    assert StepAt(setup, run, n - 1);
    BeforePastListing(setup, run[n - 1], run[n]);
    if PastListing(run[n - 1].hub) {
      GuardedAfterListing(setup, run, n - 1);
    }
    ListingStays(setup, run, n, run[n].hub.peer);
  }

  /** The hub lets a MirrorPeer go only after a listing of the DRPolicies, made while it was already as it
      is now, showed none on its pair of clusters; no agent's finalizer is left; and, if asynchronous,
      neither client is in its provider's pairing map. */
  lemma HubFinalizerIsLast(setup: Setup, run: seq<State>, n: nat)
    requires Run(setup, run) && n + 1 < |run| && Dropped(run[n], run[n + 1], HUB_FINALIZER)
    ensures Deleting(run[n])
    ensures exists m :: 0 <= m <= n && (setup.first.cluster, setup.second.cluster) !in run[m].policies
                     && (setup.second.cluster, setup.first.cluster) !in run[m].policies
                     && Stored(run[m]) && run[m].peers.objects[PEER] == run[n].peers.objects[PEER]
    ensures !AnySpoke(run[n].peers.objects[PEER].finalizers)
    ensures setup.async ==> !Mapped(run[n].mapping, setup.first) && !Mapped(run[n].mapping, setup.second)
  {
    RunKeeps(setup, run, n);
    assert StepAt(setup, run, n);
    HubDropIsLastStep(setup, run[n], run[n + 1]);
    GuardedAfterListing(setup, run, n);
  }

  /** At some moment up to `n` the lock on spoke `a` did not hold this MirrorPeer's client. */
  ghost predicate SawLockClear(setup: Setup, run: seq<State>, n: nat, a: string)
    requires n < |run|
  {
    exists m :: 0 <= m <= n && LockClear(setup, run[m], a)
  }

  /** At some moment up to `n` the lock on spoke `a` was there, and did not hold the client of the MirrorPeer's first
      item if `a` is its provider, nor else that of the second if `a` is its provider. */
  ghost predicate SawClientGone(setup: Setup, run: seq<State>, n: nat, a: string)
    requires n < |run|
  {
    exists m :: 0 <= m <= n && a in run[m].locks
      && (a == setup.first.provider ==> setup.first.clientID !in run[m].locks[a])
      && (a == setup.second.provider && a != setup.first.provider ==> setup.second.clientID !in run[m].locks[a])
  }

  lemma ClearIsGone(setup: Setup, run: seq<State>, n: nat, a: string)
    requires n < |run| && SawLockClear(setup, run, n, a)
    ensures SawClientGone(setup, run, n, a)
  {
    var m :| 0 <= m <= n && LockClear(setup, run[m], a);
    assert a in run[m].locks;
  }

  predicate PastLook(s: State, a: string) {
    a in s.agents && (s.agents[a].AgentCleared? || s.agents[a].AgentReread?)
  }

  lemma BeforePastLook(setup: Setup, s: State, s': State, a: string)
    requires Next(setup, s, s') && PastLook(s', a)
    ensures PastLook(s, a) || LockClear(setup, s, a)
  {
  }

  lemma {:induction false} ClearedAfterLook(setup: Setup, run: seq<State>, n: nat, a: string)
    requires Run(setup, run) && n < |run| && PastLook(run[n], a)
    ensures SawLockClear(setup, run, n, a)
  {
    assert n > 0;
    assert StepAt(setup, run, n - 1);
    BeforePastLook(setup, run[n - 1], run[n], a);
    if LockClear(setup, run[n - 1], a) {
      assert 0 <= n - 1 <= n;
    } else {
      ClearedAfterLook(setup, run, n - 1, a);
      var m :| 0 <= m <= n - 1 && LockClear(setup, run[m], a);
      assert 0 <= m <= n && LockClear(setup, run[m], a);
    }
  }

  /** While the MirrorPeer is being deleted, a spoke finalizer goes only after an agent that owns a
      finalizer of that name has read a lock without this MirrorPeer's client. */
  lemma AgentFinalizerWaitsForLock(setup: Setup, run: seq<State>, n: nat, f: string)
    requires Run(setup, run) && n + 1 < |run| && Deleting(run[n])
    requires HasSuffix(f, SPOKE_FINALIZER) && Dropped(run[n], run[n + 1], f)
    ensures exists a :: AgentFinalizer(a) == f && SawClientGone(setup, run, n, a)
  {
    RunKeeps(setup, run, n);
    assert StepAt(setup, run, n);
    SpokeDropIsAgents(setup, run[n], run[n + 1], f);
    var a :| a in run[n].agents && AgentFinalizer(a) == f && run[n].agents[a].AgentReread?;
    ClearedAfterLook(setup, run, n, a);
    ClearIsGone(setup, run, n, a);
  }

  lemma DeletingStays(setup: Setup, run: seq<State>, i: nat)
    requires Run(setup, run) && i + 1 < |run| && Deleting(run[i])
    ensures Stored(run[i + 1]) ==> Deleting(run[i + 1])
  {
    RunKeeps(setup, run, i);
    assert StepAt(setup, run, i);
    FinalizersOnlyShrink(setup, run[i], run[i + 1]);
  }

  /** The moment at which a finalizer present on a MirrorPeer under deletion at `i` is gone. */
  lemma {:induction false} DropMoment(setup: Setup, run: seq<State>, i: nat, n: nat, f: string) returns (j: nat)
    requires Run(setup, run) && i <= n < |run|
    requires Deleting(run[i]) && Finalized(run[i], f) && !Finalized(run[n], f)
    ensures i <= j < n && Deleting(run[j]) && Dropped(run[j], run[j + 1], f)
    decreases n - i
  {
    DeletingStays(setup, run, i);
    if Finalized(run[i + 1], f) {
      j := DropMoment(setup, run, i + 1, n, f);
    } else {
      j := i;
    }
  }

  /** End to end: when the hub lets go, every agent whose finalizer was on the MirrorPeer while it was
      being deleted has before that seen its own lock without the client, provided no other spoke
      answers to the same finalizer. */
  lemma HubWaitsForEveryAgent(setup: Setup, run: seq<State>, i: nat, n: nat, a: string)
    requires Run(setup, run) && i <= n && n + 1 < |run| && Dropped(run[n], run[n + 1], HUB_FINALIZER)
    requires Deleting(run[i]) && Finalized(run[i], AgentFinalizer(a))
    requires forall b :: b != a ==> (b !in run[0].agents || Stem(b) != Stem(a))
    ensures SawLockClear(setup, run, n, a) && SawClientGone(setup, run, n, a)
  {
    var f := AgentFinalizer(a);
    HubFinalizerIsLast(setup, run, n);
    AgentFinalizerFits(a);
    assert !Finalized(run[n], f);
    var j := DropMoment(setup, run, i, n, f);
    RunKeeps(setup, run, j);
    assert StepAt(setup, run, j);
    SpokeDropIsAgents(setup, run[j], run[j + 1], f);
    var b :| b in run[j].agents && AgentFinalizer(b) == f && run[j].agents[b].AgentReread?;
    SameAgents(setup, run, j);
    AgentFinalizersClash(a, b);
    ClearedAfterLook(setup, run, j, b);
    var m :| 0 <= m <= j && LockClear(setup, run[m], a);
    assert 0 <= m <= n && LockClear(setup, run[m], a);
    ClearIsGone(setup, run, n, a);
  }

  lemma NextSameAgents(setup: Setup, s: State, s': State)
    requires Next(setup, s, s')
    ensures s'.agents.Keys == s.agents.Keys
  {
  }

  lemma {:induction false} SameAgents(setup: Setup, run: seq<State>, n: nat)
    requires Run(setup, run) && n < |run|
    ensures run[n].agents.Keys == run[0].agents.Keys
  {
    if n > 0 {
      SameAgents(setup, run, n - 1);
      assert StepAt(setup, run, n - 1);
      NextSameAgents(setup, run[n - 1], run[n]);
    }
  }
}
