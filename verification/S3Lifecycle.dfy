/** The life of S3Configurations under one reconcile worker: what a pass over a live configuration sets
    up, and the order in which a pass over a deleted one takes it down, with users acting in between. */
module S3Lifecycle {
  import opened Options
  import opened S3Validation

  /** `provider` is the provider cluster of an internal configuration; an external one has none. `ready`
      says that the configuration has been Ready at some time. */
  datatype Config = Config(
    uid: nat, clusters: seq<string>, provider: Option<string>, finalizer: bool, deleting: bool, ready: bool)

  /** The OBC ManifestWork of a configuration. */
  datatype Work = Applying | Applied | Terminating

  datatype Pc =
    | Idle
    | Live(name: string, uid: nat, todo: LiveStage)
    | Dying(name: string, uid: nat, stage: DyingStage)

  datatype LiveStage = AddFinalizer | CheckUnique | EnsureAddOn | EnsureWork | AddProfile | SetReady

  datatype DyingStage = CheckPolicies | RemoveProfile | DeleteWork | ListUsers | DeleteAddOn | RemoveFinalizer

  /** `profiles` are the names of the S3 profiles in the Ramen config, `addons` the provider clusters that
      have the s3config addon. `cleaned` remembers the configurations whose profile a deletion pass has
      taken out; nothing reads it. */
  datatype State = State(
    configs: map<string, Config>,
    nextUid: nat,
    policies: seq<DRPolicy>,
    profiles: set<string>,
    works: map<string, Work>,
    addons: set<string>,
    pc: Pc,
    cleaned: set<nat>)

  /** The configuration the worker is at, if it is still stored. */
  predicate Current(s: State) {
    s.pc != Idle && s.pc.name in s.configs && s.configs[s.pc.name].uid == s.pc.uid
  }

  /** The stored configuration the worker is at; its spec is immutable, so it is also what was read. */
  function Spec(s: State): Config
    requires Current(s)
  {
    s.configs[s.pc.name]
  }

  // ---------- a pass over a live configuration ----------

  function Go(s: State, stage: LiveStage): State
    requires s.pc != Idle
  {
    s.(pc := Live(s.pc.name, s.pc.uid, stage))
  }

  function LiveStep(s: State): State
    requires s.pc.Live? && Current(s)
  {
    var c := Spec(s);
    match s.pc.todo
    case AddFinalizer => s.(configs := s.configs[s.pc.name := c.(finalizer := true)], pc := Idle)
    case CheckUnique => Go(s, if c.provider.Some? then EnsureAddOn else AddProfile)
    case EnsureAddOn =>
      Go(s, EnsureWork).(addons := if c.provider.Some? then s.addons + {c.provider.value} else s.addons)
    case EnsureWork =>
      var work := if s.pc.name in s.works then s.works[s.pc.name] else Applying;
      s.(works := s.works[s.pc.name := work],
         pc := if work == Applied then Live(s.pc.name, s.pc.uid, AddProfile) else Idle)
    case AddProfile => Go(s, SetReady).(profiles := s.profiles + {s.pc.name})
    case SetReady =>
      // a status update, refused if the configuration was deleted meanwhile
      s.(configs := if c.deleting then s.configs else s.configs[s.pc.name := c.(ready := true)], pc := Idle)
  }

  // ---------- a pass over a deleted configuration ----------

  function Fall(s: State, stage: DyingStage): State
    requires s.pc != Idle
  {
    s.(pc := Dying(s.pc.name, s.pc.uid, stage))
  }

  /** Another stored internal configuration uses the provider. */
  predicate UsedByOther(s: State, provider: string, name: string) {
    exists n <- s.configs :: n != name && s.configs[n].provider == Some(provider)
  }

  function DyingStep(s: State): State
    requires s.pc.Dying? && Current(s)
  {
    var c := Spec(s);
    match s.pc.stage
    case CheckPolicies => if Unused(c.clusters, s.policies) then Fall(s, RemoveProfile) else s.(pc := Idle)
    case RemoveProfile =>
      Fall(s, if c.provider.Some? then DeleteWork else RemoveFinalizer)
        .(profiles := s.profiles - {s.pc.name}, cleaned := s.cleaned + {s.pc.uid})
    case DeleteWork =>
      if s.pc.name in s.works then s.(works := s.works[s.pc.name := Terminating], pc := Idle)
      else Fall(s, ListUsers)
    case ListUsers =>
      Fall(s, if c.provider.Some? && !UsedByOther(s, c.provider.value, s.pc.name) then DeleteAddOn else RemoveFinalizer)
    case DeleteAddOn =>
      Fall(s, RemoveFinalizer).(addons := if c.provider.Some? then s.addons - {c.provider.value} else s.addons)
    case RemoveFinalizer =>
      // a deleted configuration without its finalizer disappears
      s.(configs := s.configs - {s.pc.name}, pc := Idle)
  }

  // ---------- all steps ----------

  /** A new pass: its first step depends on what is read. */
  function Begin(s: State, n: string): State
    requires n in s.configs
  {
    var c := s.configs[n];
    if c.deleting then
      if c.finalizer then s.(pc := Dying(n, c.uid, CheckPolicies)) else s
    else s.(pc := Live(n, c.uid, if c.finalizer then CheckUnique else AddFinalizer))
  }

  ghost predicate WorkerStep(s: State, s': State) {
    || (s.pc == Idle && exists n <- s.configs :: s' == Begin(s, n))
    || (s.pc.Live? && Current(s) && s' == LiveStep(s))
    || (s.pc.Dying? && Current(s) && s' == DyingStep(s))
    || s' == s.(pc := Idle)
  }

  /** The API demands at least one cluster. */
  ghost predicate Create(s: State, s': State) {
    exists n, clusters, provider :: n !in s.configs && clusters != [] &&
      s' == s.(configs := s.configs[n := Config(s.nextUid, clusters, provider, false, false, false)], nextUid := s.nextUid + 1)
  }

  /** Users delete a configuration only after its first reconcile, when it has its finalizer. */
  ghost predicate Delete(s: State, s': State) {
    exists n <- s.configs :: s.configs[n].finalizer &&
      s' == s.(configs := s.configs[n := s.configs[n].(deleting := true)])
  }

  ghost predicate ChangePolicies(s: State, s': State) {
    s' == s.(policies := s'.policies)
  }

  /** The work agent applies a ManifestWork, or finishes its removal. */
  ghost predicate WorkAgent(s: State, s': State) {
    exists n <- s.works ::
      || (s.works[n] == Applying && s' == s.(works := s.works[n := Applied]))
      || (s.works[n] == Terminating && s' == s.(works := s.works - {n}))
  }

  ghost predicate Next(s: State, s': State) {
    WorkerStep(s, s') || Create(s, s') || Delete(s, s') || ChangePolicies(s, s') || WorkAgent(s, s')
  }

  ghost predicate Init(s: State) {
    s.configs == map[] && s.profiles == {} && s.works == map[] && s.addons == {} && s.pc == Idle && s.cleaned == {}
  }

  ghost predicate StepAt(run: seq<State>, i: nat)
    requires i + 1 < |run|
  {
    Next(run[i], run[i + 1])
  }

  ghost predicate Run(run: seq<State>) {
    run != [] && Init(run[0]) && forall i :: 0 <= i < |run| - 1 ==> StepAt(run, i)
  }
}
