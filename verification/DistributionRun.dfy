/** The runs of the resource-distribution reconciler: passes of single API calls against a server that others
    write to between any two of them. Others may do anything a well-behaved client does; see `WritersMay`. */
module DistributionRun {
  import opened ApiServer
  import opened Options
  import opened Distribution
  import Spec = DistributionPass

  // ---------- others ----------

  /** A class named after a stored template is listed, if at all, under that template's kind. */
  predicate KindsAgree(spec: ConsumerSpec, u: Template) {
    && (Lists(spec.vrcs, u.name) ==> u.spec == VolumeReplicationClass)
    && (Lists(spec.vgrcs, u.name) ==> u.spec == VolumeGroupReplicationClass)
  }

  predicate Sound(w: World) {
    && Valid(w.consumers) && Valid(w.templates) && Valid(w.locks)
    && (forall n <- w.consumers.objects :: UniqueClasses(w.consumers.objects[n].spec))
    && (forall n <- w.consumers.objects, tn <- w.templates.objects ::
          KindsAgree(w.consumers.objects[n].spec, w.templates.objects[tn]))
  }

  predicate Held(w: World, name: string) {
    name in w.templates.objects && RESOURCE_DISTRIBUTION_FINALIZER in w.templates.objects[name].finalizers
  }

  predicate HeldAs(w: World, t: Template) {
    Held(w, t.name) && w.templates.objects[t.name].spec == t.spec
  }

  /** No stored consumer lists a class of that name that did not list it before. */
  predicate NoNewMention(w: World, w': World, name: string) {
    forall n <- w'.consumers.objects :: Mentions(w'.consumers.objects[n].spec, name) ==>
      n in w.consumers.objects && Mentions(w.consumers.objects[n].spec, name)
  }

  /** What happens to the stored state while a pass works on template `t`, by anybody's hand. */
  predicate Moves(w: World, w': World, t: Template) {
    && Sound(w')
    && Since(w.consumers, w'.consumers) && Since(w.templates, w'.templates) && Since(w.locks, w'.locks)
    && forall n <- w.templates.objects :: Held(w, n) ==>
         && HeldAs(w', w.templates.objects[n])
         && ((n == t.name && !t.deleting) || NoNewMention(w, w', n))
  }

  /** What other writers may do: anything that takes a new resourceVersion, keeps class names unique,
      neither adds nor removes the controller's finalizer, leaves a held template's kind alone, and adds no
      template's class. */
  predicate WritersMay(w: World, w': World) {
    && Sound(w')
    && Since(w.consumers, w'.consumers) && Since(w.templates, w'.templates) && Since(w.locks, w'.locks)
    && (forall n <- w.templates.objects :: Held(w, n) ==> HeldAs(w', w.templates.objects[n]))
    && (forall n <- w'.templates.objects :: Held(w', n) ==> Held(w, n))
    && (forall n <- w.templates.objects :: NoNewMention(w, w', n))
  }

  /** Stands for "no template is being worked on" where `Moves` asks for one. */
  const NO_TEMPLATE: Template := Object("", 0, true, [], OtherKind)

  lemma MovesTransitive(a: World, b: World, c: World, t: Template)
    requires Valid(a.templates) && Moves(a, b, t) && Moves(b, c, t)
    ensures Moves(a, c, t)
  {
  }

  /** The two listings of a pass, as one state: consumers as of the first, templates as of the second. */
  ghost predicate Snapshot(w0: World) {
    && Valid(w0.consumers) && Valid(w0.templates)
    && (forall n <- w0.consumers.objects :: UniqueClasses(w0.consumers.objects[n].spec))
    && (forall n <- w0.consumers.objects, tn <- w0.templates.objects :: Held(w0, tn) ==>
          KindsAgree(w0.consumers.objects[n].spec, w0.templates.objects[tn]))
  }

  /** What is remembered about a listed template from the listing `w0` until its turn is over. */
  ghost predicate Remembered(w0: World, w: World, t: Template) {
    RESOURCE_DISTRIBUTION_FINALIZER in t.finalizers ==>
      HeldAs(w, t) && (t.deleting ==> NoNewMention(w0, w, t.name))
  }

  lemma RememberedMoves(w0: World, w: World, w': World, t: Template, working: Template)
    requires Valid(w.templates) && Remembered(w0, w, t) && Moves(w, w', working)
    requires t.name == working.name && !working.deleting ==> t == working
    ensures Remembered(w0, w', t)
  {
  }

  /** Consumers up to position `j` of the listing no longer mention `t`. */
  ghost predicate Cleared(w: World, t: Template, cs: seq<Consumer>, j: nat) {
    forall i :: 0 <= i < j <= |cs| && cs[i].name in w.consumers.objects ==>
      !Mentions(w.consumers.objects[cs[i].name].spec, t.name)
  }

  // ---------- the steps of a pass ----------

  /** What a pass works from: both listings, the client IDs of the mapping, and, remembered for the proofs
      only, the stored state at the listings. */
  datatype Listing = Listing(cs: seq<Consumer>, ts: seq<Template>, ids: set<string>, at: World)

  /** How far a pass has got: `i` is the template and `j` the consumer whose turn it is. */
  datatype Pc =
    | Idle
    | LockRead(lock: Object<Data>)
    | MappingRead(lock: Object<Data>, ids: set<string>)
    | ConsumersListed(lock: Object<Data>, ids: set<string>, cs: seq<Consumer>, at: World)
    | Listed(lock: Object<Data>, l: Listing)
    | Emptying(lock: Object<Data>)
    | Holding(l: Listing, i: nat)
    | Visiting(l: Listing, i: nat, j: nat)
    | Releasing(l: Listing, i: nat)

  datatype State = State(w: World, pc: Pc)

  /** Reading the lock and the mapping, and listing the consumers and then the templates. */
  ghost predicate ReadStep(s: State, s': State) {
    s'.w == s.w &&
    match s.pc
    case Idle => ADDON_DELETION_LOCK in s.w.locks.objects && s'.pc == LockRead(s.w.locks.objects[ADDON_DELETION_LOCK])
    case LockRead(lock) => s.w.mapping.Some? && s'.pc == MappingRead(lock, Spec.Keys(s.w.mapping.value))
    case MappingRead(lock, ids) =>
      exists cs: seq<Consumer> :: IsListing(s.w.consumers, cs) &&
        s'.pc == (if cs == [] then Emptying(lock) else ConsumersListed(lock, ids, cs, s.w))
    case ConsumersListed(lock, ids, cs, at) =>
      exists ts: seq<Template> :: IsListing(s.w.templates, ts) &&
        s'.pc == (if ts == [] then Emptying(lock)
                  else Pc.Listed(lock, Listing(cs, ts, ids, at.(templates := s.w.templates))))
    case _ => false
  }

  function Went(r: Spec.Step, pc: Pc): State {
    State(r.world, if r.ok then pc else Idle)
  }

  /** A write, or a look at a consumer that needs none; a pass whose write is refused ends. */
  ghost predicate WriteStep(s: State, s': State) {
    match s.pc
    case Emptying(lock) => s' == Went(Spec.WriteLock(s.w, lock, None), Idle)
    case Listed(lock, l) => exists works: seq<WorkLabel> :: s' == Went(Spec.RebuildLock(s.w, lock, works), Holding(l, 0))
    case Holding(l, i) => i < |l.ts| && s' == Went(Spec.Hold(s.w, l.ts[i]), Visiting(l, i, 0))
    case Visiting(l, i, j) =>
      i < |l.ts| &&
      if j < |l.cs| then s' == Went(Spec.SyncConsumer(s.w, l.ts[i], l.cs[j], l.ids), Visiting(l, i, j + 1))
      else s' == s.(pc := Releasing(l, i))
    case Releasing(l, i) => i < |l.ts| && s' == Went(Spec.Release(s.w, l.ts[i]), Holding(l, i + 1))
    case _ => false
  }

  /** The controller's own steps; a pass may also end anywhere, by an error or a crash. */
  ghost predicate ControllerStep(s: State, s': State) {
    ReadStep(s, s') || WriteStep(s, s') || s' == s.(pc := Idle)
  }

  ghost predicate OthersStep(s: State, s': State) {
    s'.pc == s.pc && WritersMay(s.w, s'.w)
  }

  ghost predicate Next(s: State, s': State) {
    ControllerStep(s, s') || OthersStep(s, s')
  }

  ghost predicate StepAt(run: seq<State>, i: nat)
    requires i + 1 < |run|
  {
    Next(run[i], run[i + 1])
  }

  /** Any number of passes, one after the other, with others' writes in between. */
  ghost predicate Run(run: seq<State>) {
    run != [] && Sound(run[0].w) && run[0].pc == Idle && forall i :: 0 <= i < |run| - 1 ==> StepAt(run, i)
  }

  // ---------- the invariant ----------

  /** Since the consumers were listed nobody has worked for a template that is held now. */
  ghost predicate Calm(at: World, w: World) {
    Sound(at) && Moves(at, w, NO_TEMPLATE) && forall n <- w.templates.objects :: Held(w, n) ==> Held(at, n)
  }

  ghost predicate FromListing(l: Listing, w: World) {
    && Snapshot(l.at) && IsListing(l.at.consumers, l.cs) && IsListing(l.at.templates, l.ts)
    && Since(l.at.consumers, w.consumers) && Since(l.at.templates, w.templates)
  }

  ghost predicate RememberedFrom(l: Listing, w: World, i: nat) {
    forall k :: i <= k < |l.ts| ==> Remembered(l.at, w, l.ts[k])
  }

  predicate LetGo(t: Template) {
    t.deleting && RESOURCE_DISTRIBUTION_FINALIZER in t.finalizers
  }

  ghost predicate InTurn(l: Listing, w: World, i: nat, j: nat) {
    && i < |l.ts| && j <= |l.cs| && FromListing(l, w) && RememberedFrom(l, w, i)
    && (!l.ts[i].deleting ==> HeldAs(w, l.ts[i]))
    && (LetGo(l.ts[i]) ==> Cleared(w, l.ts[i], l.cs, j))
  }

  ghost predicate PcInv(w: World, pc: Pc) {
    match pc
    case ConsumersListed(lock, ids, cs, at) => IsListing(at.consumers, cs) && Calm(at, w)
    case Listed(lock, l) => FromListing(l, w) && RememberedFrom(l, w, 0)
    case Holding(l, i) => i <= |l.ts| && FromListing(l, w) && RememberedFrom(l, w, i)
    case Visiting(l, i, j) => InTurn(l, w, i, j)
    case Releasing(l, i) => InTurn(l, w, i, |l.cs|)
    case _ => true
  }

  ghost predicate Inv(s: State) {
    Sound(s.w) && PcInv(s.w, s.pc)
  }

  lemma OthersAgree(t: Template, u: Template, before: ConsumerSpec, after: ConsumerSpec)
    requires u.name != t.name
    requires Others(after.vrcs, t.name) == Others(before.vrcs, t.name) && Others(after.vgrcs, t.name) == Others(before.vgrcs, t.name)
    ensures KindsAgree(after, u) <==> KindsAgree(before, u)
    ensures Mentions(after, u.name) <==> Mentions(before, u.name)
  {
    OthersKeepMembers(before.vrcs, t.name, u.name);
    OthersKeepMembers(after.vrcs, t.name, u.name);
    OthersKeepMembers(before.vgrcs, t.name, u.name);
    OthersKeepMembers(after.vgrcs, t.name, u.name);
  }

  lemma WriteAgrees(w: World, w': World, t: Template, before: Consumer, e: Consumer, ids: set<string>, tn: string)
    requires Sound(w) && before.name in w.consumers.objects && w.consumers.objects[before.name] == before
    requires OneClassChanged(t, before, e, ids) && tn in w.templates.objects
    requires !t.deleting ==> HeldAs(w, t)
    requires w' == w.(consumers := w'.consumers) && Update(w.consumers, e) == Written(w'.consumers)
    ensures KindsAgree(e.spec, w.templates.objects[tn])
    ensures (tn == t.name && !t.deleting) || NoNewMention(w, w', tn)
  {
    var u := w.templates.objects[tn];
    assert w'.consumers.objects[before.name].spec == e.spec;
    assert u.name == tn && KindsAgree(before.spec, u);
    if tn != t.name {
      OthersAgree(t, u, before.spec, e.spec);
    }
  }

  lemma WriteIsSound(w: World, w': World, t: Template, before: Consumer, e: Consumer, ids: set<string>)
    requires Sound(w) && before.name in w.consumers.objects && w.consumers.objects[before.name] == before
    requires OneClassChanged(t, before, e, ids)
    requires !t.deleting ==> HeldAs(w, t)
    requires w' == w.(consumers := w'.consumers) && Update(w.consumers, e) == Written(w'.consumers)
    ensures Moves(w, w', t)
  {
    var stored := w'.consumers.objects[before.name];
    assert stored == e.(version := w.consumers.clock + 1);
    forall tn <- w.templates.objects
      ensures KindsAgree(stored.spec, w.templates.objects[tn])
      ensures (tn == t.name && !t.deleting) || NoNewMention(w, w', tn)
    {
      WriteAgrees(w, w', t, before, e, ids, tn);
    }
  }

  lemma ClearedMoves(w: World, w': World, t: Template, cs: seq<Consumer>, j: nat, working: Template)
    requires Valid(w.templates) && HeldAs(w, t) && Cleared(w, t, cs, j)
    requires Moves(w, w', working) && (working.deleting || working.name != t.name)
    ensures Cleared(w', t, cs, j)
  {
  }

  lemma AcceptedTemplateRelease(w0: World, seen: World, t: Template)
    requires Sound(seen) && Valid(w0.templates) && Since(w0.templates, seen.templates)
    requires t.name in w0.templates.objects && w0.templates.objects[t.name] == t
    requires var freed := t.(finalizers := Without(t.finalizers, RESOURCE_DISTRIBUTION_FINALIZER));
      Update(seen.templates, freed).Written?
    ensures var freed := t.(finalizers := Without(t.finalizers, RESOURCE_DISTRIBUTION_FINALIZER));
      var w' := seen.(templates := Update(seen.templates, freed).shelf);
      && Sound(w') && Since(seen.templates, w'.templates)
      && forall u: Template :: u.name != t.name && Remembered(w0, seen, u) ==> Remembered(w0, w', u)
  {
    AcceptedWriteWasFresh(w0.templates, seen.templates, t,
      t.(finalizers := Without(t.finalizers, RESOURCE_DISTRIBUTION_FINALIZER)));
  }

  /** A listed consumer that does not list a deleting template's class is not stored with it either. */
  lemma ListedWithoutClass(at: World, w: World, t: Template, c: Consumer, ids: set<string>)
    requires Snapshot(at) && Remembered(at, w, t) && LetGo(t)
    requires c.name in at.consumers.objects && at.consumers.objects[c.name] == c
    requires t.name in at.templates.objects && at.templates.objects[t.name] == t
    requires Expected(c, t, ids) == c && c.name in w.consumers.objects
    ensures !Mentions(w.consumers.objects[c.name].spec, t.name)
  {
    ExpectedChangesOneClass(c, t, ids);
    assert Held(at, t.name) && KindsAgree(c.spec, t);
  }

  lemma AcceptedConsumerWrite(w0: World, seen: World, t: Template, c: Consumer, ids: set<string>)
    requires Snapshot(w0) && Sound(seen) && Since(w0.consumers, seen.consumers)
    requires c.name in w0.consumers.objects && w0.consumers.objects[c.name] == c
    requires t.name in w0.templates.objects && w0.templates.objects[t.name] == t
    requires !t.deleting ==> HeldAs(seen, t)
    requires Expected(c, t, ids) != c && Update(seen.consumers, Expected(c, t, ids)).Written?
    ensures var w' := seen.(consumers := Update(seen.consumers, Expected(c, t, ids)).shelf);
      && c.name in seen.consumers.objects && c.name in w'.consumers.objects
      && OneClassChanged(t, seen.consumers.objects[c.name], w'.consumers.objects[c.name], ids)
      && Moves(seen, w', t)
      && (t.deleting && HeldAs(seen, t) ==> !Mentions(w'.consumers.objects[c.name].spec, t.name))
  {
    var e := Expected(c, t, ids);
    ExpectedChangesOneClass(c, t, ids);
    AcceptedWriteWasFresh(w0.consumers, seen.consumers, c, e);
    var w' := seen.(consumers := Update(seen.consumers, e).shelf);
    WriteIsSound(seen, w', t, c, e, ids);
    if HeldAs(seen, t) {
      assert KindsAgree(c.spec, seen.templates.objects[t.name]);
    }
  }

  /** Once the listed consumers are cleared, no stored consumer has the class: the others never had it. */
  lemma NobodyLists(at: World, w: World, t: Template, cs: seq<Consumer>)
    requires IsListing(at.consumers, cs) && LetGo(t) && Remembered(at, w, t) && Cleared(w, t, cs, |cs|)
    ensures forall n <- w.consumers.objects :: !Mentions(w.consumers.objects[n].spec, t.name)
  {
    forall n <- w.consumers.objects ensures !Mentions(w.consumers.objects[n].spec, t.name) {
      assert NoNewMention(at, w, t.name);
      if n in at.consumers.objects {
        assert NamesIn(cs, n);
        var i :| 0 <= i < |cs| && cs[i].name == n;
        assert !Mentions(w.consumers.objects[cs[i].name].spec, t.name);
      }
    }
  }

  // ---------- every step keeps the invariant ----------

  lemma FromListingMoves(l: Listing, w: World, w': World, t: Template)
    requires FromListing(l, w) && Moves(w, w', t)
    ensures FromListing(l, w')
  {
    SinceTransitive(l.at.consumers, w.consumers, w'.consumers);
    SinceTransitive(l.at.templates, w.templates, w'.templates);
  }

  lemma RememberedFromMoves(l: Listing, w: World, w': World, i: nat, t: Template)
    requires Sound(w) && RememberedFrom(l, w, i) && Moves(w, w', t)
    requires forall k :: i <= k < |l.ts| && l.ts[k].name == t.name && !t.deleting ==> l.ts[k] == t
    ensures RememberedFrom(l, w', i)
  {
    forall k | i <= k < |l.ts| ensures Remembered(l.at, w', l.ts[k]) {
      RememberedMoves(l.at, w, w', l.ts[k], t);
    }
  }

  lemma InTurnMoves(l: Listing, w: World, w': World, i: nat, j: nat, t: Template)
    requires Sound(w) && InTurn(l, w, i, j) && Moves(w, w', t)
    requires t == NO_TEMPLATE || t == l.ts[i]
    ensures InTurn(l, w', i, j)
  {
    FromListingMoves(l, w, w', t);
    RememberedFromMoves(l, w, w', i, t);
    if LetGo(l.ts[i]) {
      assert Remembered(l.at, w, l.ts[i]);
      ClearedMoves(w, w', l.ts[i], l.cs, j, t);
    }
  }

  lemma OthersKeep(s: State, s': State)
    requires Inv(s) && OthersStep(s, s')
    ensures Inv(s')
  {
    var w, w' := s.w, s'.w;
    assert Moves(w, w', NO_TEMPLATE);
    match s.pc
    case ConsumersListed(lock, ids, cs, at) => MovesTransitive(at, w, w', NO_TEMPLATE);
    case Listed(lock, l) =>
      FromListingMoves(l, w, w', NO_TEMPLATE);
      RememberedFromMoves(l, w, w', 0, NO_TEMPLATE);
    case Holding(l, i) =>
      FromListingMoves(l, w, w', NO_TEMPLATE);
      RememberedFromMoves(l, w, w', i, NO_TEMPLATE);
    case Visiting(l, i, j) => InTurnMoves(l, w, w', i, j, NO_TEMPLATE);
    case Releasing(l, i) => InTurnMoves(l, w, w', i, |l.cs|, NO_TEMPLATE);
    case _ =>
  }

  lemma LockWriteMoves(w: World, lock: Object<Data>, data: Data)
    requires Sound(w)
    ensures Moves(w, Spec.WriteLock(w, lock, data).world, NO_TEMPLATE)
  {
  }

  /** Both listings together remember every listed template. */
  lemma ListingsRemember(at: World, w: World, cs: seq<Consumer>, ts: seq<Template>, ids: set<string>)
    requires Sound(w) && Calm(at, w) && IsListing(at.consumers, cs) && IsListing(w.templates, ts)
    ensures var l := Listing(cs, ts, ids, at.(templates := w.templates));
      FromListing(l, w) && RememberedFrom(l, w, 0)
  {
    var at' := at.(templates := w.templates);
    forall n <- at'.consumers.objects, tn <- at'.templates.objects | Held(at', tn)
      ensures KindsAgree(at'.consumers.objects[n].spec, at'.templates.objects[tn])
    {
      assert Held(w, tn) && HeldAs(w, at.templates.objects[tn]);
    }
    forall k | 0 <= k < |ts| && RESOURCE_DISTRIBUTION_FINALIZER in ts[k].finalizers
      ensures NoNewMention(at', w, ts[k].name)
    {
      assert Held(w, ts[k].name) && Held(at, ts[k].name);
      assert NoNewMention(at, w, ts[k].name);
    }
  }

  lemma ReadKeeps(s: State, s': State)
    requires Inv(s) && ReadStep(s, s')
    ensures Inv(s')
  {
    match s.pc
    case ConsumersListed(lock, ids, cs, at) =>
      var ts: seq<Template> :| IsListing(s.w.templates, ts) &&
        s'.pc == (if ts == [] then Emptying(lock)
                  else Pc.Listed(lock, Listing(cs, ts, ids, at.(templates := s.w.templates))));
      ListingsRemember(at, s.w, cs, ts, ids);
    case _ =>
  }

  lemma HoldKeeps(s: State)
    requires Inv(s) && s.pc.Holding? && s.pc.i < |s.pc.l.ts|
    ensures Inv(Went(Spec.Hold(s.w, s.pc.l.ts[s.pc.i]), Visiting(s.pc.l, s.pc.i, 0)))
  {
    var l, i := s.pc.l, s.pc.i;
    var t := l.ts[i];
    var r := Spec.Hold(s.w, t);
    HoldMoves(l, s.w, i);
    FromListingMoves(l, s.w, r.world, t);
    RememberedFromMoves(l, s.w, r.world, i, t);
  }

  /** A live template that is in its turn is held afterwards. */
  lemma HoldMoves(l: Listing, w: World, i: nat)
    requires Sound(w) && FromListing(l, w) && RememberedFrom(l, w, i) && i < |l.ts|
    ensures var r := Spec.Hold(w, l.ts[i]);
      Moves(w, r.world, l.ts[i]) && (r.ok && !l.ts[i].deleting ==> HeldAs(r.world, l.ts[i]))
  {
    var t := l.ts[i];
    assert Remembered(l.at, w, t);
    if !t.deleting && RESOURCE_DISTRIBUTION_FINALIZER !in t.finalizers {
      var marked := t.(finalizers := t.finalizers + [RESOURCE_DISTRIBUTION_FINALIZER]);
      if Update(w.templates, marked).Written? {
        AcceptedWriteWasFresh(l.at.templates, w.templates, t, marked);
      }
    }
  }

  lemma VisitKeeps(s: State)
    requires Inv(s) && s.pc.Visiting? && s.pc.i < |s.pc.l.ts| && s.pc.j < |s.pc.l.cs|
    ensures Inv(Went(Spec.SyncConsumer(s.w, s.pc.l.ts[s.pc.i], s.pc.l.cs[s.pc.j], s.pc.l.ids),
                     Visiting(s.pc.l, s.pc.i, s.pc.j + 1)))
  {
    var l, i, j := s.pc.l, s.pc.i, s.pc.j;
    var t, c := l.ts[i], l.cs[j];
    var r := Spec.SyncConsumer(s.w, t, c, l.ids);
    assert Remembered(l.at, s.w, t);
    if Expected(c, t, l.ids) == c {
      if LetGo(t) && c.name in s.w.consumers.objects {
        ListedWithoutClass(l.at, s.w, t, c, l.ids);
      }
    } else if r.ok {
      AcceptedConsumerWrite(l.at, s.w, t, c, l.ids);
      InTurnMoves(l, s.w, r.world, i, j, t);
    }
  }

  lemma ReleaseKeeps(s: State)
    requires Inv(s) && s.pc.Releasing? && s.pc.i < |s.pc.l.ts|
    ensures Inv(Went(Spec.Release(s.w, s.pc.l.ts[s.pc.i]), Holding(s.pc.l, s.pc.i + 1)))
  {
    var l, i := s.pc.l, s.pc.i;
    var t := l.ts[i];
    var r := Spec.Release(s.w, t);
    if LetGo(t) && r.ok {
      AcceptedTemplateRelease(l.at, s.w, t);
      SinceTransitive(l.at.templates, s.w.templates, r.world.templates);
      forall k | i < k < |l.ts| ensures Remembered(l.at, r.world, l.ts[k]) {
        assert l.ts[k].name != t.name && Remembered(l.at, s.w, l.ts[k]);
      }
    }
  }

  lemma WriteKeeps(s: State, s': State)
    requires Inv(s) && WriteStep(s, s')
    ensures Inv(s')
  {
    match s.pc
    case Emptying(lock) => LockWriteMoves(s.w, lock, None);
    case Listed(lock, l) =>
      var works: seq<WorkLabel> :| s' == Went(Spec.RebuildLock(s.w, lock, works), Holding(l, 0));
      LockWriteMoves(s.w, lock, Some(LockedIDs(works)));
      assert s'.w == s.w || s'.w == Spec.WriteLock(s.w, lock, Some(LockedIDs(works))).world;
      if s'.w != s.w {
        FromListingMoves(l, s.w, s'.w, NO_TEMPLATE);
        RememberedFromMoves(l, s.w, s'.w, 0, NO_TEMPLATE);
      }
    case Holding(l, i) => HoldKeeps(s);
    case Visiting(l, i, j) => if j < |l.cs| { VisitKeeps(s); }
    case Releasing(l, i) => ReleaseKeeps(s);
  }

  lemma NextKeeps(s: State, s': State)
    requires Inv(s) && Next(s, s')
    ensures Inv(s')
  {
    if OthersStep(s, s') {
      OthersKeep(s, s');
    } else if ReadStep(s, s') {
      ReadKeeps(s, s');
    } else if WriteStep(s, s') {
      WriteKeeps(s, s');
    }
  }

  lemma {:induction false} RunKeeps(run: seq<State>, k: nat)
    requires Run(run) && k < |run|
    ensures Inv(run[k])
  {
    if k > 0 {
      RunKeeps(run, k - 1);
      assert StepAt(run, k - 1);
      NextKeeps(run[k - 1], run[k]);
    }
  }

  // ---------- what a pass knows at a point ----------

  lemma HeldInTurn(run: seq<State>, l: Listing, i: nat)
    requires Run(run) && run[|run| - 1].pc == Visiting(l, i, 0) && i < |l.ts| && !l.ts[i].deleting
    ensures HeldAs(run[|run| - 1].w, l.ts[i])
  {
    RunKeeps(run, |run| - 1);
  }

  lemma ClearedByTurn(run: seq<State>, l: Listing, i: nat, j: nat)
    requires Run(run) && run[|run| - 1].pc == Visiting(l, i, j + 1) && i < |l.ts| && j < |l.cs| && LetGo(l.ts[i])
    requires l.cs[j].name in run[|run| - 1].w.consumers.objects
    ensures !Mentions(run[|run| - 1].w.consumers.objects[l.cs[j].name].spec, l.ts[i].name)
  {
    RunKeeps(run, |run| - 1);
  }

  lemma ClearedByVisits(run: seq<State>, l: Listing, i: nat)
    requires Run(run) && run[|run| - 1].pc == Releasing(l, i) && i < |l.ts| && LetGo(l.ts[i])
    ensures Cleared(run[|run| - 1].w, l.ts[i], l.cs, |l.cs|)
  {
    RunKeeps(run, |run| - 1);
  }

  lemma UnlistedInRun(run: seq<State>, w: World, l: Listing, i: nat)
    requires Run(run) && run[|run| - 1] == State(w, Releasing(l, i)) && i < |l.ts| && LetGo(l.ts[i])
    ensures forall c <- w.consumers.objects :: !Mentions(w.consumers.objects[c].spec, l.ts[i].name)
  {
    RunKeeps(run, |run| - 1);
    UnlistedAtRelease(run[|run| - 1]);
  }

  lemma SoundInRun(run: seq<State>)
    requires Run(run)
    ensures Valid(run[|run| - 1].w.consumers) && Valid(run[|run| - 1].w.templates) && Valid(run[|run| - 1].w.locks)
  {
    RunKeeps(run, |run| - 1);
  }

  // ---------- what every run guarantees ----------

  /** Only the release of a template in its turn takes the controller's finalizer away. */
  lemma DropIsRelease(s: State, s': State, n: string)
    requires Inv(s) && Next(s, s') && Held(s.w, n) && !Held(s'.w, n)
    ensures s.pc.Releasing? && s.pc.i < |s.pc.l.ts| && LetGo(s.pc.l.ts[s.pc.i])
    ensures s.w.templates.objects[n] == s.pc.l.ts[s.pc.i]
  {
  }

  /** When the turn of a deleting template comes to its release, no stored consumer has its class. */
  lemma UnlistedAtRelease(s: State)
    requires Inv(s) && s.pc.Releasing? && LetGo(s.pc.l.ts[s.pc.i])
    ensures forall c <- s.w.consumers.objects :: !Mentions(s.w.consumers.objects[c].spec, s.pc.l.ts[s.pc.i].name)
  {
    var l, t := s.pc.l, s.pc.l.ts[s.pc.i];
    assert Remembered(l.at, s.w, t);
    NobodyLists(l.at, s.w, t, l.cs);
  }

  /** In every run of any number of passes, whatever well-behaved others do in between: when a template loses
      the controller's finalizer, it is being deleted, and no consumer stored at that moment has its class in
      either list. */
  lemma ReleasedOnlyWhenUnlisted(run: seq<State>, i: nat, n: string)
    requires Run(run) && i + 1 < |run| && Held(run[i].w, n) && !Held(run[i + 1].w, n)
    ensures run[i].w.templates.objects[n].deleting
    ensures forall c <- run[i].w.consumers.objects :: !Mentions(run[i].w.consumers.objects[c].spec, n)
  {
    RunKeeps(run, i);
    assert StepAt(run, i);
    DropIsRelease(run[i], run[i + 1], n);
    UnlistedAtRelease(run[i]);
  }

  /** The consumer was written, for the template in its turn: one class of what was stored has changed. */
  ghost predicate WrittenInTurn(s: State, s': State, c: string) {
    && s.pc.Visiting? && s.pc.i < |s.pc.l.ts|
    && c in s.w.consumers.objects && c in s'.w.consumers.objects
    && OneClassChanged(s.pc.l.ts[s.pc.i], s.w.consumers.objects[c], s'.w.consumers.objects[c], s.pc.l.ids)
  }

  /** In every run, a step of the controller changes at most one consumer, and of it exactly one class of what
      is stored at that moment; it neither creates nor removes consumers. So no update of anybody is lost. */
  lemma ControllerWritesOneClass(run: seq<State>, i: nat)
    requires Run(run) && i + 1 < |run| && ControllerStep(run[i], run[i + 1])
    ensures run[i + 1].w.consumers == run[i].w.consumers
            || exists c <- run[i].w.consumers.objects :: WrittenInTurn(run[i], run[i + 1], c) &&
                 run[i + 1].w.consumers.objects == run[i].w.consumers.objects[c := run[i + 1].w.consumers.objects[c]]
  {
    RunKeeps(run, i);
    var s, s' := run[i], run[i + 1];
    if s.pc.Visiting? && WriteStep(s, s') && s.pc.j < |s.pc.l.cs| {
      var l, t, c := s.pc.l, s.pc.l.ts[s.pc.i], s.pc.l.cs[s.pc.j];
      if Expected(c, t, l.ids) != c && Spec.SyncConsumer(s.w, t, c, l.ids).ok {
        AcceptedConsumerWrite(l.at, s.w, t, c, l.ids);
        assert WrittenInTurn(s, s', c.name);
      }
    }
  }
}
