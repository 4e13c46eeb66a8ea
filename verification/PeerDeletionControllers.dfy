/** The hub's and the agents' MirrorPeer reconcilers as code: every API call is a step of the deletion
    protocol, with anything that all the others do in between. */
module PeerDeletionControllers {
  import opened Options
  import opened ApiServer
  import opened PeerDeletion
  import opened PeerDeletionSafety

  lemma StepStays(setup: Setup, trace: seq<State>, s: State, i: nat)
    requires i + 1 < |trace| && StepAt(setup, trace, i)
    ensures StepAt(setup, trace + [s], i)
  {
    assert (trace + [s])[i] == trace[i] && (trace + [s])[i + 1] == trace[i + 1];
  }

  lemma LastStep(setup: Setup, trace: seq<State>, s: State)
    requires trace != [] && Next(setup, trace[|trace| - 1], s)
    ensures StepAt(setup, trace + [s], |trace| - 1)
  {
    assert (trace + [s])[|trace| - 1] == trace[|trace| - 1] && (trace + [s])[|trace|] == s;
  }

  lemma RunExtends(setup: Setup, trace: seq<State>, s: State)
    requires Run(setup, trace) && Next(setup, trace[|trace| - 1], s)
    ensures Run(setup, trace + [s])
  {
    assert (trace + [s])[0] == trace[0];
    LastStep(setup, trace, s);
    forall i | 0 <= i < |trace| - 1 ensures StepAt(setup, trace + [s], i) {
      StepStays(setup, trace, s, i);
    }
  }

  method HasSpokeFinalizer(fs: seq<string>) returns (found: bool)
    ensures found <==> AnySpoke(fs)
  {
    for i := 0 to |fs|
      invariant forall j :: 0 <= j < i ==> !HasSuffix(fs[j], SPOKE_FINALIZER)
    {
      if HasSuffix(fs[i], SPOKE_FINALIZER) {
        return true;
      }
    }
    return false;
  }

  method FindNoPolicy(policies: set<(string, string)>, setup: Setup) returns (clear: bool)
    ensures clear <==> (setup.first.cluster, setup.second.cluster) !in policies
                       && (setup.second.cluster, setup.first.cluster) !in policies
  {
    var left := policies;
    while left != {}
      invariant left <= policies
      invariant forall p <- policies - left :: !OnPair(p, setup)
      decreases left
    {
      var p :| p in left;
      left := left - {p};
      if OnPair(p, setup) {
        return false;
      }
    }
    assert policies - {} == policies;
    return true;
  }

  /** The client that the MirrorPeer has on a spoke, the first if there are two; empty if there is none. */
  method FindAddonKey(setup: Setup, a: string) returns (addonKey: string)
    ensures setup.first.provider == a ==> addonKey == setup.first.clientID
    ensures setup.first.provider != a && setup.second.provider == a ==> addonKey == setup.second.clientID
    ensures setup.first.provider != a && setup.second.provider != a ==> addonKey == ""
  {
    addonKey := "";
    var sides := [setup.first, setup.second];
    assert sides[0] == setup.first && sides[1] == setup.second;
    for i := 0 to |sides|
      invariant addonKey == "" && forall j :: 0 <= j < i ==> sides[j].provider != a
    {
      if sides[i].provider == a {
        addonKey := sides[i].clientID;
        break;
      }
    }
  }

  /** How a pass ends. */
  datatype Outcome = Gone | Live | PolicyExists | WaitingForAgents | WaitingForLock | Refused | Failed | Released

  /** What a pass of the hub meets besides: whether the DRPolicies can be listed; how many calls of the clean-up
      succeed, which are two removals of a client and then the token exchange addons; whether the MirrorPeer has
      its recovery label; how many entries of pairing maps a configuration gets to write; and, for a synchronous
      one, whether it gets to strip the spoke finalizers. */
  datatype HubEnv = HubEnv(listed: bool, cleanup: nat, labelled: bool, entries: nat, strips: bool)

  /** Writing the recovery label is an Update with the finalizers as they are. */
  lemma LabelIsHarmless(setup: Setup, s: State, o: Peer)
    requires Inv(setup, s) && s.hub == HubRead(o) && o.finalizers != []
    ensures OthersStep(s, s.(peers := Apply(s.peers, Call(o, o.finalizers))))
  {
    CallKeeps(s.peers, Call(o, o.finalizers));
  }

  /** What is stored on the hub and the spokes, and the two reconcilers that work on it. */
  class Controllers {
    const setup: Setup
    var peers: Shelf<()>
    var policies: set<(string, string)>
    var mapping: Mapping
    var locks: map<string, set<string>>
    ghost var hub: HubPc
    ghost var agents: map<string, AgentPc>
    ghost var trace: seq<State>

    ghost function Now(): State
      reads this
    {
      State(peers, policies, mapping, locks, hub, agents)
    }

    /** The trace is a run, and ends here. */
    ghost predicate Traced()
      reads this
    {
      Run(setup, trace) && trace[|trace| - 1] == Now() && Inv(setup, Now())
    }

    constructor (setup: Setup, peers: Shelf<()>, policies: set<(string, string)>, mapping: Mapping,
        locks: map<string, set<string>>, ghost spokes: set<string>)
      requires Valid(peers)
      ensures Traced() && this.setup == setup && Init(Now()) && trace == [Now()]
      ensures this.peers == peers && this.policies == policies && this.mapping == mapping && this.locks == locks
      ensures hub == HubIdle && agents.Keys == spokes
    {
      this.setup := setup;
      this.peers, this.policies, this.mapping, this.locks := peers, policies, mapping, locks;
      hub := HubIdle;
      agents := map a | a in spokes :: AgentIdle;
      new;
      trace := [Now()];
    }

    /** Takes note of a step that has just been made. */
    ghost method Note(was: State)
      requires Run(setup, trace) && trace[|trace| - 1] == was
      requires Inv(setup, was) && Next(setup, was, Now())
      modifies this`trace
      ensures Traced() && trace == old(trace) + [Now()]
    {
      NextKeeps(setup, was, Now());
      RunExtends(setup, trace, Now());
      trace := trace + [Now()];
    }

    /** Whatever happens before the hub's next call: agents, users, other controllers; the hub's own pass stays
        where it is, and its pairing maps with it. Callers know no more of it than this. */
    method BesidesHub()
      requires Traced()
      modifies this
      ensures Traced() && old(trace) <= trace && hub == old(hub)
      ensures hub != HubIdle ==> mapping == old(mapping)
    {
    }

    /** The same for agent `a`. */
    method BesidesAgent(a: string)
      requires Traced() && a in agents
      modifies this
      ensures Traced() && old(trace) <= trace && a in agents && agents[a] == old(agents)[a]
    {
    }

    /** The hub's pass ends here, by an error. */
    ghost method Abort()
      requires Traced()
      modifies this`hub, this`trace
      ensures Traced() && old(trace) <= trace && hub == HubIdle
    {
      var was := Now();
      hub := HubIdle;
      Note(was);
    }

    /** An Update of the MirrorPeer. */
    method UpdatePeer(copy: Peer, finalizers: seq<string>) returns (ok: bool)
      modifies this`peers
      ensures peers == Apply(old(peers), Call(copy, finalizers))
      ensures ok <==> Update(old(peers), copy.(finalizers := finalizers)).Written?
    {
      match Update(peers, copy.(finalizers := finalizers))
      case Written(shelf) =>
        peers := shelf;
        ok := true;
      case _ =>
        ok := false;
    }

    // ---------- the hub ----------

    /** The DRPolicies are listed and none may be on this pair of clusters. */
    method CheckPolicies(o: Peer) returns (clear: bool)
      requires Traced() && o.deleting && hub == HubRead(o)
      modifies this
      ensures Traced() && old(trace) <= trace && hub == (if clear then HubGuarded(o) else HubIdle)
      ensures clear <==> (setup.first.cluster, setup.second.cluster) !in policies
                         && (setup.second.cluster, setup.first.cluster) !in policies
    {
      BesidesHub();
      ghost var was := Now();
      clear := FindNoPolicy(policies, setup);
      hub := if clear then HubGuarded(o) else HubIdle;
      Note(was);
    }

    method CheckAgents(o: Peer) returns (gone: bool)
      requires Traced() && hub == HubGuarded(o)
      modifies this
      ensures Traced() && old(trace) <= trace && (gone <==> !AnySpoke(o.finalizers))
      ensures hub == if !gone then HubIdle else if setup.async then HubCleaning(o, 0) else HubCleaned(o)
    {
      BesidesHub();
      ghost var was := Now();
      var found := HasSpokeFinalizer(o.finalizers);
      gone := !found;
      hub := if found then HubIdle else if setup.async then HubCleaning(o, 0) else HubCleaned(o);
      Note(was);
    }

    method RemoveClientID(o: Peer, k: nat)
      requires Traced() && k <= 1 && hub == HubCleaning(o, k)
      modifies this
      ensures Traced() && old(trace) <= trace && hub == if k == 0 then HubCleaning(o, 1) else HubCleaned(o)
      ensures !Mapped(mapping, SideAt(setup, k)) && mapping == Unmap(old(mapping), SideAt(setup, k))
      ensures forall p, id :: InMapping(mapping, p, id) <==>
        (InMapping(old(mapping), p, id) && (p, id) != (SideAt(setup, k).provider, SideAt(setup, k).clientID))
    {
      BesidesHub();
      ghost var was := Now();
      var side := SideAt(setup, k);
      if side.provider in mapping {
        mapping := mapping[side.provider := mapping[side.provider] - {side.clientID}];
      }
      hub := if k == 0 then HubCleaning(o, 1) else HubCleaned(o);
      Note(was);
    }

    /** Up to the first call that fails; what the removals have done by then stays. */
    method CleanupResources(o: Peer, e: HubEnv) returns (ok: bool)
      requires Traced() && hub == if setup.async then HubCleaning(o, 0) else HubCleaned(o)
      modifies this
      ensures Traced() && old(trace) <= trace && hub == if ok then HubCleaned(o) else HubIdle
      ensures ok <==> setup.async ==> e.cleanup > 2
      ensures setup.async && e.cleanup > 0 ==> !Mapped(mapping, setup.first)
      ensures setup.async && e.cleanup > 1 ==> !Mapped(mapping, setup.second)
      ensures mapping == if !setup.async || e.cleanup == 0 then old(mapping)
                         else if e.cleanup == 1 then Unmap(old(mapping), setup.first)
                         else Unmap(Unmap(old(mapping), setup.first), setup.second)
    {
      if setup.async {
        if e.cleanup > 0 {
          RemoveClientID(o, 0);
        }
        if e.cleanup > 1 {
          RemoveClientID(o, 1);
        }
        if e.cleanup <= 2 {
          Abort();
          return false;
        }
      }
      return true;
    }

    method DropHubFinalizer(o: Peer) returns (ok: bool)
      requires Traced() && hub == HubCleaned(o)
      modifies this
      ensures Traced() && old(trace) <= trace && hub == HubIdle && mapping == old(mapping)
      ensures ok && HUB_FINALIZER in o.finalizers && o.name == PEER ==> !Finalized(Now(), HUB_FINALIZER)
    {
      BesidesHub();
      ghost var was := Now();
      ok := true;
      if HUB_FINALIZER in o.finalizers {
        ok := UpdatePeer(o, Without(o.finalizers, HUB_FINALIZER));
      }
      hub := HubIdle;
      Note(was);
    }

    method DeleteMirrorPeer(o: Peer, e: HubEnv) returns (outcome: Outcome)
      requires Traced() && o.deleting && hub == HubRead(o)
      modifies this
      ensures Traced() && old(trace) <= trace && hub == HubIdle
      ensures outcome.PolicyExists? || outcome.WaitingForAgents? || outcome.Refused? || outcome.Failed? || outcome.Released?
      ensures outcome.PolicyExists? ==> e.listed && !NoPolicy(Now(), setup)
      ensures outcome.WaitingForAgents? <==> e.listed && !outcome.PolicyExists? && AnySpoke(o.finalizers)
      ensures !e.listed ==> outcome.Failed?
      ensures e.listed && outcome.Failed? ==> setup.async && e.cleanup <= 2
      ensures outcome.Refused? || outcome.Released? ==> setup.async ==> e.cleanup > 2
      ensures outcome.Released? && setup.async ==> !Mapped(mapping, setup.first) && !Mapped(mapping, setup.second)
      ensures outcome.Released? && HUB_FINALIZER in o.finalizers && o.name == PEER ==> !Finalized(Now(), HUB_FINALIZER)
    {
      if !e.listed {
        Abort();
        return Failed;
      }
      var clear := CheckPolicies(o);
      if !clear {
        return PolicyExists;
      }
      var gone := CheckAgents(o);
      if !gone {
        return WaitingForAgents;
      }
      var cleaned := CleanupResources(o, e);
      if !cleaned {
        return Failed;
      }
      var ok := DropHubFinalizer(o);
      return if ok then Released else Refused;
    }

    /** The hub's finalizer, or the label, is missing and is written. */
    method MarkMirrorPeer(o: Peer, e: HubEnv) returns (ok: bool)
      requires Traced() && !o.deleting && hub == HubRead(o) && !(HUB_FINALIZER in o.finalizers && e.labelled)
      modifies this
      ensures Traced() && old(trace) <= trace && hub == HubIdle
      ensures ok && o.name == PEER ==> Finalized(Now(), HUB_FINALIZER)
    {
      BesidesHub();
      ghost var was := Now();
      if HUB_FINALIZER in o.finalizers {
        ok := UpdatePeer(o, o.finalizers);
        LabelIsHarmless(setup, was, o);
        Note(was);
        Abort();
      } else {
        ok := UpdatePeer(o, o.finalizers + [HUB_FINALIZER]);
        assert (o.finalizers + [HUB_FINALIZER])[|o.finalizers|] == HUB_FINALIZER;
        hub := HubIdle;
        Note(was);
      }
    }

    /** The entries of an asynchronous MirrorPeer; a pass that gets no further than the first ends there. */
    method EnterClients(o: Peer, e: HubEnv) returns (ok: bool)
      requires Traced() && !o.deleting && hub == HubRead(o) && HUB_FINALIZER in o.finalizers && setup.async
      modifies this
      ensures Traced() && old(trace) <= trace && hub == HubIdle && (ok <==> e.entries > 1)
      ensures mapping == if e.entries == 0 then old(mapping)
                         else if e.entries == 1 then Map(old(mapping), setup.first)
                         else Map(Map(old(mapping), setup.first), setup.second)
    {
      BesidesHub();
      ok := e.entries > 1;
      if !ok {
        Abort();
      }
      ghost var was := Now();
      if ok {
        mapping := Map(Map(mapping, setup.first), setup.second);
        hub := HubIdle;
      } else if e.entries == 1 {
        mapping := Map(mapping, setup.first);
      }
      Note(was);
    }

    method StripSpokeFinalizers(o: Peer, e: HubEnv) returns (ok: bool)
      requires Traced() && !o.deleting && hub == HubRead(o) && HUB_FINALIZER in o.finalizers && !setup.async
      modifies this
      ensures Traced() && old(trace) <= trace && hub == HubIdle
      ensures ok && e.strips && o.name == PEER && AnySpoke(o.finalizers) ==>
                Stored(Now()) && !AnySpoke(peers.objects[PEER].finalizers)
    {
      BesidesHub();
      ghost var was := Now();
      ok := true;
      var found := HasSpokeFinalizer(o.finalizers);
      if e.strips && found {
        ok := UpdatePeer(o, WithoutSpokes(o.finalizers));
        assert HUB_FINALIZER in WithoutSpokes(o.finalizers);
      }
      hub := HubIdle;
      Note(was);
    }

    /** A live MirrorPeer is marked, and in a later pass configured. */
    method ConfigureMirrorPeer(o: Peer, e: HubEnv) returns (outcome: Outcome)
      requires Traced() && !o.deleting && hub == HubRead(o)
      modifies this
      ensures Traced() && old(trace) <= trace && hub == HubIdle && (outcome.Live? || outcome.Refused? || outcome.Failed?)
      ensures HUB_FINALIZER in o.finalizers && e.labelled && setup.async ==>
                && outcome == (if e.entries > 1 then Live else Failed)
                && (outcome.Live? ==> Mapped(mapping, setup.first) && Mapped(mapping, setup.second))
      ensures outcome.Live? && !(HUB_FINALIZER in o.finalizers && e.labelled) && o.name == PEER ==>
                Finalized(Now(), HUB_FINALIZER)
      ensures outcome.Live? && HUB_FINALIZER in o.finalizers && e.labelled && !setup.async && e.strips
                && o.name == PEER && AnySpoke(o.finalizers) ==>
                  Stored(Now()) && !AnySpoke(peers.objects[PEER].finalizers)
    {
      var ok;
      if HUB_FINALIZER !in o.finalizers || !e.labelled {
        ok := MarkMirrorPeer(o, e);
      } else if setup.async {
        ok := EnterClients(o, e);
        return if ok then Live else Failed;
      } else {
        ok := StripSpokeFinalizers(o, e);
      }
      return if ok then Live else Refused;
    }

    /** A pass of the hub: whatever all others do meanwhile, it is a piece of a run of the protocol. */
    method ReconcileHub(e: HubEnv) returns (outcome: Outcome)
      requires Traced() && hub == HubIdle
      modifies this
      ensures Traced() && old(trace) <= trace && hub == HubIdle
      ensures outcome.Released? && setup.async ==> !Mapped(mapping, setup.first) && !Mapped(mapping, setup.second)
      ensures outcome.Released? && old(Finalized(Now(), HUB_FINALIZER)) ==> !Finalized(Now(), HUB_FINALIZER)
      ensures outcome.Gone? <==> old(!Stored(Now()))
    {
      if PEER !in peers.objects {
        return Gone;
      }
      var o := peers.objects[PEER];
      ghost var was := Now();
      hub := HubRead(o);
      Note(was);
      if o.deleting {
        outcome := DeleteMirrorPeer(o, e);
      } else {
        outcome := ConfigureMirrorPeer(o, e);
      }
    }

    // ---------- an agent ----------

    ghost method Move(a: string, pc: AgentPc, was: State)
      requires Run(setup, trace) && trace[|trace| - 1] == was && Inv(setup, was)
      requires a in was.agents && agents == was.agents && AgentStep(setup, was, a) == Now().(agents := agents[a := pc])
      modifies this`agents, this`trace
      ensures Traced() && old(trace) <= trace && agents == old(agents)[a := pc]
    {
      agents := agents[a := pc];
      Note(was);
    }

    ghost method AbortAgent(a: string)
      requires Traced() && a in agents
      modifies this`agents, this`trace
      ensures Traced() && old(trace) <= trace && agents == old(agents)[a := AgentIdle]
    {
      var was := Now();
      agents := agents[a := AgentIdle];
      Note(was);
    }

    method AddAgentFinalizer(a: string, o: Peer) returns (ok: bool)
      requires Traced() && a in agents && agents[a] == AgentRead(o) && !o.deleting
      modifies this
      ensures Traced() && old(trace) <= trace && a in agents && agents[a] == AgentIdle
      ensures ok && o.name == PEER ==> AgentFinalizer(a) in o.finalizers || Finalized(Now(), AgentFinalizer(a))
    {
      BesidesAgent(a);
      ghost var was := Now();
      ok := true;
      if AgentFinalizer(a) !in o.finalizers {
        ok := UpdatePeer(o, o.finalizers + [AgentFinalizer(a)]);
        assert ok ==> (o.finalizers + [AgentFinalizer(a)])[|o.finalizers|] == AgentFinalizer(a);
      }
      Move(a, AgentIdle, was);
    }

    /** The addon deletion lock is read; it must exist and may not hold the client. `writable`: a finalizer that
        older versions put on it could be taken off, if it is there. */
    method CheckLock(a: string, o: Peer, writable: bool) returns (outcome: Option<Outcome>)
      requires Traced() && a in agents && agents[a] == AgentRead(o) && o.deleting
      modifies this
      ensures Traced() && old(trace) <= trace && a in agents
      ensures outcome.None? <==> writable && LockClear(setup, Now(), a)
      ensures outcome.None? ==> a in locks
      ensures outcome.None? && a == setup.first.provider ==> setup.first.clientID !in locks[a]
      ensures outcome.None? && a == setup.second.provider != setup.first.provider ==> setup.second.clientID !in locks[a]
      ensures outcome == Some(WaitingForLock) <==> writable && a in locks && !LockClear(setup, Now(), a)
      ensures outcome.Some? ==> outcome.value.WaitingForLock? || outcome.value.Failed?
      ensures agents[a] == if outcome.None? then AgentCleared else AgentIdle
    {
      BesidesAgent(a);
      if a !in locks || !writable {
        AbortAgent(a);
        return Some(Failed);
      }
      ghost var was := Now();
      var addonKey := FindAddonKey(setup, a);
      var clear := addonKey !in locks[a];
      Move(a, if clear then AgentCleared else AgentIdle, was);
      return if clear then None else Some(WaitingForLock);
    }

    method DropAgentFinalizer(a: string, o: Peer) returns (ok: bool)
      requires Traced() && a in agents && agents[a] == AgentReread(o)
      modifies this
      ensures Traced() && old(trace) <= trace && a in agents && agents[a] == AgentIdle
      ensures ok && AgentFinalizer(a) in o.finalizers && o.name == PEER ==> !Finalized(Now(), AgentFinalizer(a))
    {
      BesidesAgent(a);
      ghost var was := Now();
      ok := true;
      if AgentFinalizer(a) in o.finalizers {
        ok := UpdatePeer(o, Without(o.finalizers, AgentFinalizer(a)));
      }
      Move(a, AgentIdle, was);
    }

    method RereadAndDrop(a: string) returns (outcome: Outcome)
      requires Traced() && a in agents && agents[a] == AgentCleared
      modifies this
      ensures Traced() && old(trace) <= trace && a in agents && agents[a] == AgentIdle
      ensures outcome.Gone? || outcome.Refused? || outcome.Released?
    {
      BesidesAgent(a);
      ghost var was := Now();
      if PEER !in peers.objects {
        Move(a, AgentIdle, was);
        return Gone;
      }
      var o := peers.objects[PEER];
      Move(a, AgentReread(o), was);
      var ok := DropAgentFinalizer(a, o);
      return if ok then Released else Refused;
    }

    /** A pass of the agent on spoke `a`, again a piece of a run of the protocol. `lookups`: the client info and
        the StorageCluster can be read. */
    method ReconcileAgent(a: string, lookups: bool, writable: bool) returns (outcome: Outcome)
      requires Traced() && a in agents && agents[a] == AgentIdle
      modifies this
      ensures Traced() && old(trace) <= trace && a in agents && agents[a] == AgentIdle
      ensures outcome.WaitingForLock? ==> a in locks && !LockClear(setup, Now(), a)
      ensures outcome.Released? || outcome.Refused? || outcome.Live? ==> lookups
      ensures outcome.Released? ==> old(Deleting(Now())) && writable
      ensures !lookups ==> agents == old(agents) && (outcome.Failed? <==> old(Stored(Now())))
    {
      if PEER !in peers.objects {
        return Gone;
      }
      var o := peers.objects[PEER];
      ghost var was := Now();
      Move(a, AgentRead(o), was);
      if !lookups {
        AbortAgent(a);
        return Failed;
      }
      if !o.deleting {
        var ok := AddAgentFinalizer(a, o);
        return if ok then Live else Refused;
      }
      var stop := CheckLock(a, o, writable);
      if stop.Some? {
        return stop.value;
      }
      outcome := RereadAndDrop(a);
    }
  }
}
