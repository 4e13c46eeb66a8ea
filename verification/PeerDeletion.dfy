/** Deletion of a MirrorPeer as a protocol between the hub and one agent per spoke. Each of them works
    in passes of several API calls; a step below is one call, and runs interleave the steps of all
    of them with those of users and other controllers. The hub handles one pass at a time. */
module PeerDeletion {
  import opened ApiServer

  const HUB_FINALIZER := "hub.multicluster.odf.openshift.io"
  const SPOKE_FINALIZER := "spoke.multicluster.odf.openshift.io"
  const PEER := "mirrorpeer"

  // ---------- the name of an agent's finalizer ----------

  predicate HasSuffix(s: string, suffix: string) {
    |suffix| <= |s| && s[|s| - |suffix|..] == suffix
  }

  function AgentFinalizer(spoke: string): string {
    var long := spoke + "." + SPOKE_FINALIZER;
    if |long| > 63 then spoke[0..10] + "." + SPOKE_FINALIZER else long
  }

  /** The part of the cluster name that ends up in the finalizer. */
  function Stem(spoke: string): string {
    if |spoke| > 27 then spoke[..10] else spoke
  }

  lemma AppendSame(x: string, y: string, tail: string)
    ensures x + tail == y + tail <==> x == y
    ensures HasSuffix(x + tail, tail)
  {
  }

  /** A name of at most 27 characters is used in full, of a longer one the first ten. */
  lemma FinalizerIsStem(spoke: string)
    ensures AgentFinalizer(spoke) == (Stem(spoke) + ".") + SPOKE_FINALIZER
    ensures AgentFinalizer(spoke) == (if |spoke| <= 27 then spoke else spoke[..10]) + "." + SPOKE_FINALIZER
  {
  }

  /** Every agent's finalizer has at most 63 characters, and the hub recognises it by its suffix. */
  lemma AgentFinalizerFits(spoke: string)
    ensures |AgentFinalizer(spoke)| <= 63
    ensures HasSuffix(AgentFinalizer(spoke), SPOKE_FINALIZER)
    ensures AgentFinalizer(spoke) != HUB_FINALIZER
  {
    assert |SPOKE_FINALIZER| == 35;
    FinalizerIsStem(spoke);
    AppendSame(Stem(spoke) + ".", "", SPOKE_FINALIZER);
  }

  /** Two spokes share a finalizer exactly when their names agree after long ones are cut to ten characters. */
  lemma AgentFinalizersClash(a: string, b: string)
    ensures AgentFinalizer(a) == AgentFinalizer(b) <==> Stem(a) == Stem(b)
  {
    FinalizerIsStem(a);
    FinalizerIsStem(b);
    AppendSame(Stem(a) + ".", Stem(b) + ".", SPOKE_FINALIZER);
    AppendSame(Stem(a), Stem(b), ".");
  }

  /** It happens: these two clusters would take out each other's finalizer. */
  lemma LongNamesClash()
    ensures var a, b := "production-east-storage-cluster", "production-west-storage-cluster";
      a != b && AgentFinalizer(a) == AgentFinalizer(b)
  {
    var a, b := "production-east-storage-cluster", "production-west-storage-cluster";
    assert a[11] == 'e' && b[11] == 'w';
    assert a[..10] == "production" && b[..10] == "production";
    AgentFinalizersClash(a, b);
  }

  // ---------- state ----------

  /** One item of the MirrorPeer with what the client-info map says about it. */
  datatype Side = Side(cluster: string, provider: string, clientID: string)

  datatype Setup = Setup(first: Side, second: Side, async: bool)

  type Peer = Object<()>

  datatype HubPc =
    | HubIdle
    | HubRead(peer: Peer)
    | HubGuarded(peer: Peer)
    | HubCleaning(peer: Peer, next: nat)
    | HubCleaned(peer: Peer)

  datatype AgentPc =
    | AgentIdle
    | AgentRead(peer: Peer)
    | AgentCleared
    | AgentReread(peer: Peer)

  /** `policies` are the cluster pairs of the stored DRPolicies, `mapping` the client IDs in each
      provider's pairing map, `locks` the client IDs in each spoke's deletion lock. */
  datatype State = State(
    peers: Shelf<()>,
    policies: set<(string, string)>,
    mapping: map<string, set<string>>,
    locks: map<string, set<string>>,
    hub: HubPc,
    agents: map<string, AgentPc>)

  predicate Stored(s: State) {
    PEER in s.peers.objects
  }

  predicate Finalized(s: State, f: string) {
    Stored(s) && f in s.peers.objects[PEER].finalizers
  }

  predicate Deleting(s: State) {
    Stored(s) && s.peers.objects[PEER].deleting
  }

  /** An Update of a copy of the MirrorPeer with other finalizers. */
  datatype Call = NoCall | Call(copy: Peer, finalizers: seq<string>)

  function Apply(peers: Shelf<()>, call: Call): Shelf<()> {
    if call == NoCall then peers
    else
      match Update(peers, call.copy.(finalizers := call.finalizers))
      case Written(shelf) => shelf
      case _ => peers
  }

  predicate OnPair(policy: (string, string), setup: Setup) {
    policy == (setup.first.cluster, setup.second.cluster) || policy == (setup.second.cluster, setup.first.cluster)
  }

  /** No stored DRPolicy names the two clusters, in either order. */
  predicate NoPolicy(s: State, setup: Setup) {
    && (setup.first.cluster, setup.second.cluster) !in s.policies
    && (setup.second.cluster, setup.first.cluster) !in s.policies
  }

  predicate AnySpoke(fs: seq<string>) {
    exists i :: 0 <= i < |fs| && HasSuffix(fs[i], SPOKE_FINALIZER)
  }

  function WithoutSpokes(fs: seq<string>): (r: seq<string>)
    ensures forall f :: f in r <==> f in fs && !HasSuffix(f, SPOKE_FINALIZER)
  {
    if fs == [] then []
    else (if HasSuffix(fs[0], SPOKE_FINALIZER) then [] else [fs[0]]) + WithoutSpokes(fs[1..])
  }

  function SideAt(setup: Setup, k: nat): Side {
    if k == 0 then setup.first else setup.second
  }

  type Mapping = map<string, set<string>>

  predicate Mapped(m: Mapping, side: Side) {
    side.provider in m && side.clientID in m[side.provider]
  }

  /** Entries of a provider that has no pairing map are absent; clean-up leaves it so. */
  function Unmap(m: Mapping, side: Side): Mapping {
    if side.provider !in m then m else m[side.provider := m[side.provider] - {side.clientID}]
  }

  function Map(m: Mapping, side: Side): Mapping {
    m[side.provider := (if side.provider in m then m[side.provider] else {}) + {side.clientID}]
  }

  predicate InMapping(m: Mapping, provider: string, clientID: string) {
    provider in m && clientID in m[provider]
  }

  /** Exactly this client leaves, and exactly this one comes. */
  lemma UnmapTakesOne(m: Mapping, side: Side, provider: string, clientID: string)
    ensures InMapping(Unmap(m, side), provider, clientID) <==>
            InMapping(m, provider, clientID) && !(provider == side.provider && clientID == side.clientID)
    ensures Unmap(m, side).Keys == m.Keys
  {
  }

  lemma MapAddsOne(m: Mapping, side: Side, provider: string, clientID: string)
    ensures InMapping(Map(m, side), provider, clientID) <==>
            InMapping(m, provider, clientID) || (provider == side.provider && clientID == side.clientID)
    ensures Map(m, side).Keys == m.Keys + {side.provider}
  {
  }

  // ---------- the hub ----------

  /** A live MirrorPeer gets the hub's finalizer; a synchronous one is then rid of spoke finalizers.
      A deleted one, at the end of the pass, loses the hub's. */
  function HubCall(setup: Setup, pc: HubPc): Call {
    match pc
    case HubRead(o) =>
      if o.deleting then NoCall
      else if HUB_FINALIZER !in o.finalizers then Call(o, o.finalizers + [HUB_FINALIZER])
      else if !setup.async then Call(o, WithoutSpokes(o.finalizers))
      else NoCall
    case HubCleaned(o) =>
      if HUB_FINALIZER in o.finalizers then Call(o, Without(o.finalizers, HUB_FINALIZER)) else NoCall
    case _ => NoCall
  }

  /** Configuring an asynchronous MirrorPeer enters both clients, cleaning up takes out one per step. */
  function HubMapping(setup: Setup, pc: HubPc, m: Mapping): Mapping {
    match pc
    case HubRead(o) =>
      if !o.deleting && HUB_FINALIZER in o.finalizers && setup.async then Map(Map(m, setup.first), setup.second) else m
    case HubCleaning(o, k) => Unmap(m, SideAt(setup, k))
    case _ => m
  }

  function HubNext(setup: Setup, s: State): HubPc {
    match s.hub
    case HubIdle => if Stored(s) then HubRead(s.peers.objects[PEER]) else HubIdle
    case HubRead(o) => if o.deleting && NoPolicy(s, setup) then HubGuarded(o) else HubIdle
    case HubGuarded(o) =>
      if AnySpoke(o.finalizers) then HubIdle
      else if setup.async then HubCleaning(o, 0) else HubCleaned(o)
    case HubCleaning(o, k) => if k == 0 then HubCleaning(o, 1) else HubCleaned(o)
    case HubCleaned(o) => HubIdle
  }

  function HubStep(setup: Setup, s: State): State {
    s.(peers := Apply(s.peers, HubCall(setup, s.hub)),
       mapping := HubMapping(setup, s.hub, s.mapping),
       hub := HubNext(setup, s))
  }

  // ---------- the agents ----------

  /** The lock on a spoke is there and does not hold the client that the MirrorPeer has on it, the first if there
      are two; a spoke that has none looks for the empty key. */
  predicate LockClear(setup: Setup, s: State, spoke: string) {
    spoke in s.locks &&
    if setup.first.provider == spoke then setup.first.clientID !in s.locks[spoke]
    else if setup.second.provider == spoke then setup.second.clientID !in s.locks[spoke]
    else "" !in s.locks[spoke]
  }

  function AgentCall(a: string, pc: AgentPc): Call {
    match pc
    case AgentRead(o) =>
      if !o.deleting && AgentFinalizer(a) !in o.finalizers then Call(o, o.finalizers + [AgentFinalizer(a)]) else NoCall
    case AgentReread(o) =>
      if AgentFinalizer(a) in o.finalizers then Call(o, Without(o.finalizers, AgentFinalizer(a))) else NoCall
    case _ => NoCall
  }

  /** A deleted MirrorPeer is read a second time once the lock has been seen without its client. */
  function AgentNext(setup: Setup, s: State, a: string, pc: AgentPc): AgentPc {
    match pc
    case AgentIdle => if Stored(s) then AgentRead(s.peers.objects[PEER]) else AgentIdle
    case AgentRead(o) => if o.deleting && LockClear(setup, s, a) then AgentCleared else AgentIdle
    case AgentCleared => if Stored(s) then AgentReread(s.peers.objects[PEER]) else AgentIdle
    case AgentReread(o) => AgentIdle
  }

  function AgentStep(setup: Setup, s: State, a: string): State
    requires a in s.agents
  {
    s.(peers := Apply(s.peers, AgentCall(a, s.agents[a])),
       agents := s.agents[a := AgentNext(setup, s, a, s.agents[a])])
  }

  // ---------- runs ----------

  /** Users and other controllers: they may create, edit or delete the MirrorPeer but leave its
      finalizers alone; policies and locks change freely; other peerings change the pairing maps
      only while the hub is between passes. */
  ghost predicate OthersStep(s: State, s': State) {
    && s'.hub == s.hub && s'.agents == s.agents
    && (s'.mapping == s.mapping || s.hub == HubIdle)
    && Valid(s'.peers) && Since(s.peers, s'.peers)
    && (Stored(s) ==>
          if Stored(s') then
            && s'.peers.objects[PEER].finalizers == s.peers.objects[PEER].finalizers
            && (Deleting(s) ==> Deleting(s'))
          else s.peers.objects[PEER].finalizers == [])
    && (!Stored(s) && Stored(s') ==> s'.peers.objects[PEER].finalizers == [])
  }

  /** Any step of anybody; a pass may also end anywhere, by an error or a crash. */
  ghost predicate Next(setup: Setup, s: State, s': State) {
    || s' == HubStep(setup, s)
    || s' == s.(hub := HubIdle)
    || (exists a <- s.agents :: s' == AgentStep(setup, s, a) || s' == s.(agents := s.agents[a := AgentIdle]))
    || OthersStep(s, s')
  }

  ghost predicate Init(s: State) {
    Valid(s.peers) && s.hub == HubIdle && forall a <- s.agents :: s.agents[a] == AgentIdle
  }

  ghost predicate StepAt(setup: Setup, run: seq<State>, i: nat)
    requires i + 1 < |run|
  {
    Next(setup, run[i], run[i + 1])
  }

  ghost predicate Run(setup: Setup, run: seq<State>) {
    run != [] && Init(run[0]) && forall i :: 0 <= i < |run| - 1 ==> StepAt(setup, run, i)
  }
}
