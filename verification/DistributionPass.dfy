/** One pass of the resource-distribution reconciler when nobody else writes, as a function of the
    stored state and of the order in which the two lists came back; and why passes converge. */
module DistributionPass {
  import opened ApiServer
  import opened Options
  import opened Distribution

  datatype Step = Step(world: World, ok: bool)

  function SyncConsumer(w: World, t: Template, c: Consumer, ids: set<string>): Step {
    var e := Expected(c, t, ids);
    if e == c then Step(w, true)
    else
      match Update(w.consumers, e)
      case Written(shelf) => Step(w.(consumers := shelf), true)
      case _ => Step(w, false)
  }

  function SyncConsumers(w: World, t: Template, cs: seq<Consumer>, ids: set<string>): Step
    decreases |cs|
  {
    if cs == [] then Step(w, true)
    else
      var s := SyncConsumer(w, t, cs[0], ids);
      if s.ok then SyncConsumers(s.world, t, cs[1..], ids) else s
  }

  function WriteTemplate(w: World, t: Template): Step {
    match Update(w.templates, t)
    case Written(shelf) => Step(w.(templates := shelf), true)
    case _ => Step(w, false)
  }

  /** A live template gets the controller's finalizer. */
  function Hold(w: World, t: Template): Step {
    if t.deleting || RESOURCE_DISTRIBUTION_FINALIZER in t.finalizers then Step(w, true)
    else WriteTemplate(w, t.(finalizers := t.finalizers + [RESOURCE_DISTRIBUTION_FINALIZER]))
  }

  /** A template being deleted loses it. */
  function Release(w: World, t: Template): Step {
    if !t.deleting || RESOURCE_DISTRIBUTION_FINALIZER !in t.finalizers then Step(w, true)
    else WriteTemplate(w, t.(finalizers := Without(t.finalizers, RESOURCE_DISTRIBUTION_FINALIZER)))
  }

  function SyncTemplate(w: World, t: Template, cs: seq<Consumer>, ids: set<string>): Step {
    var held := Hold(w, t);
    if !held.ok then held
    else
      var synced := SyncConsumers(held.world, t, cs, ids);
      if !synced.ok then synced else Release(synced.world, t)
  }

  function SyncTemplates(w: World, ts: seq<Template>, cs: seq<Consumer>, ids: set<string>): Step
    decreases |ts|
  {
    if ts == [] then Step(w, true)
    else
      var s := SyncTemplate(w, ts[0], cs, ids);
      if s.ok then SyncTemplates(s.world, ts[1..], cs, ids) else s
  }

  datatype Outcome = Success | Missing | WriteRefused

  function Keys(data: Data): set<string> {
    if data == None then {} else data.value.Keys
  }

  function WriteLock(w: World, lock: Object<Data>, data: Data): Step {
    match Update(w.locks, lock.(spec := data))
    case Written(shelf) => Step(w.(locks := shelf), true)
    case _ => Step(w, false)
  }

  /** The deletion lock is rewritten only if the set of live client IDs differs from what it holds. */
  function RebuildLock(w: World, lock: Object<Data>, works: seq<WorkLabel>): Step {
    var held := if lock.spec == None then map[] else lock.spec.value;
    if held == LockedIDs(works) then Step(w, true) else WriteLock(w, lock, Some(LockedIDs(works)))
  }

  function Ended(s: Step): (World, Outcome) {
    (s.world, if s.ok then Success else WriteRefused)
  }

  /** A pass from the point where the lock and the mapping have been read. */
  function PassFrom(w: World, lock: Object<Data>, ids: set<string>, works: seq<WorkLabel>, cs: seq<Consumer>, ts: seq<Template>): Step {
    if cs == [] || ts == [] then WriteLock(w, lock, None)
    else
      var s := RebuildLock(w, lock, works);
      if s.ok then SyncTemplates(s.world, ts, cs, ids) else s
  }

  function Pass(w: World, works: seq<WorkLabel>, cs: seq<Consumer>, ts: seq<Template>): (World, Outcome) {
    if ADDON_DELETION_LOCK !in w.locks.objects || w.mapping == None then (w, Missing)
    else Ended(PassFrom(w, w.locks.objects[ADDON_DELETION_LOCK], Keys(w.mapping.value), works, cs, ts))
  }

  // ---------- what each write leaves ----------

  /** ConfigMap data have the key. */
  predicate HasKey(data: Data, id: string) {
    data.Some? && id in data.value
  }

  /** The stored lock has as keys exactly the labels of the works that are not under deletion. */
  ghost predicate LockNames(locks: Shelf<Data>, name: string, works: seq<WorkLabel>) {
    name in locks.objects &&
    forall id :: HasKey(locks.objects[name].spec, id) <==> NamedByLiveWork(works, id)
  }

  predicate StoredAs<S(==)>(shelf: Shelf<S>, o: Object<S>) {
    o.name in shelf.objects && shelf.objects[o.name] == o
  }

  /** If the lock is stored as it was read, it then has exactly the live client IDs as keys; it is written if and
      only if it did not have them before. */
  lemma RebuildLockStores(w: World, lock: Object<Data>, works: seq<WorkLabel>)
    requires Valid(w.locks) && StoredAs(w.locks, lock)
    ensures var r := RebuildLock(w, lock, works);
      && r.ok && LockNames(r.world.locks, lock.name, works)
      && (r.world == w <==> LockNames(w.locks, lock.name, works) && forall id :: HasKey(lock.spec, id) ==> lock.spec.value[id] == "")
  {
    var r := RebuildLock(w, lock, works);
    forall id
      ensures id in LockedIDs(works) <==> NamedByLiveWork(works, id)
      ensures id in LockedIDs(works) ==> LockedIDs(works)[id] == ""
    {
      LockHoldsLiveClients(works, id);
    }
    var held := if lock.spec == None then map[] else lock.spec.value;
    if LockNames(w.locks, lock.name, works) && forall id :: HasKey(lock.spec, id) ==> lock.spec.value[id] == "" {
      assert forall id :: id in held <==> HasKey(lock.spec, id);
      assert held == LockedIDs(works);
    }
    if held != LockedIDs(works) {
      assert r.world.locks.clock != w.locks.clock;
    }
  }

  /** An emptied lock has no key. */
  lemma EmptiedLock(w: World, lock: Object<Data>)
    requires Valid(w.locks) && StoredAs(w.locks, lock)
    ensures var r := WriteLock(w, lock, None);
      r.ok && lock.name in r.world.locks.objects && forall id :: !HasKey(r.world.locks.objects[lock.name].spec, id)
  {
  }

  /** Nothing but this template differs. */
  ghost predicate OnlyThisTemplate(w: World, w': World, name: string) {
    w' == w.(templates := w'.templates) && w'.templates.objects - {name} == w.templates.objects - {name}
  }

  /** A template stored as it was read gets, if it is live, this finalizer besides those that it has. */
  lemma HoldAddsOne(w: World, t: Template)
    requires Valid(w.templates) && StoredAs(w.templates, t)
    ensures var r := Hold(w, t);
      && r.ok && OnlyThisTemplate(w, r.world, t.name) && t.name in r.world.templates.objects
      && var u := r.world.templates.objects[t.name];
      && u == t.(version := u.version, finalizers := u.finalizers)
      && forall f :: f in u.finalizers <==> f in t.finalizers || (f == RESOURCE_DISTRIBUTION_FINALIZER && !t.deleting)
  {
    var held := t.(finalizers := t.finalizers + [RESOURCE_DISTRIBUTION_FINALIZER]);
    if Update(w.templates, held).Written? {
      UpdateStores(w.templates, held);
    }
  }

  /** A deleted one loses this finalizer and no other, and disappears if it had no other. */
  lemma ReleaseTakesOne(w: World, t: Template)
    requires Valid(w.templates) && StoredAs(w.templates, t)
    ensures var r := Release(w, t);
      && r.ok && OnlyThisTemplate(w, r.world, t.name)
      && (t.name in r.world.templates.objects <==>
            !t.deleting || exists f <- t.finalizers :: f != RESOURCE_DISTRIBUTION_FINALIZER)
      && (t.name in r.world.templates.objects ==>
            var u := r.world.templates.objects[t.name];
            && u == t.(version := u.version, finalizers := u.finalizers)
            && forall f :: f in u.finalizers <==> f in t.finalizers && !(f == RESOURCE_DISTRIBUTION_FINALIZER && t.deleting))
  {
    var freed := t.(finalizers := Without(t.finalizers, RESOURCE_DISTRIBUTION_FINALIZER));
    if Update(w.templates, freed).Written? {
      UpdateStores(w.templates, freed);
    }
    if f :| f in t.finalizers && f != RESOURCE_DISTRIBUTION_FINALIZER {
      assert f in freed.finalizers;
    }
    if freed.finalizers != [] {
      assert freed.finalizers[0] in freed.finalizers;
    }
    if t.deleting {
      assert t.finalizers != [] && t.finalizers[0] in t.finalizers;
    }
  }

  // ---------- the goal and the distance to it ----------

  predicate Wrong(t: Template, c: Consumer, ids: set<string>) {
    t.spec != OtherKind && ListsClass(c, t) != Wanted(t, c.spec, ids)
  }

  /** The (template, consumer) pairs of the stored state whose listing is not as it should be. */
  function WrongPairs(w: World, ids: set<string>): set<(string, string)> {
    set tn <- w.templates.objects, cn <- w.consumers.objects |
      Wrong(w.templates.objects[tn], w.consumers.objects[cn], ids) :: (tn, cn)
  }

  /** The fixed point: a class is listed iff its template is live and the consumer's client is peered. */
  ghost predicate Distributed(w: World, ids: set<string>) {
    forall tn <- w.templates.objects, cn <- w.consumers.objects ::
      !Wrong(w.templates.objects[tn], w.consumers.objects[cn], ids)
  }

  /** The same in terms of what is stored: the class is listed in the list of its kind if and only if its template is
      not under deletion and the consumer's client ID is a key of the mapping. */
  ghost predicate InPlace(t: Template, c: ConsumerSpec, mapping: Data) {
    var wanted := !t.deleting && c.clientID.Some? && HasKey(mapping, c.clientID.value);
    && (t.spec == VolumeReplicationClass ==> ((exists e <- c.vrcs :: e.name == t.name) <==> wanted))
    && (t.spec == VolumeGroupReplicationClass ==> ((exists e <- c.vgrcs :: e.name == t.name) <==> wanted))
  }

  lemma ListsIff(es: seq<ClassEntry>, name: string)
    ensures Lists(es, name) <==> exists e <- es :: e.name == name
  {
    if Lists(es, name) {
      var i :| 0 <= i < |es| && es[i].name == name;
      assert es[i] in es;
    }
  }

  lemma WrongIffNotInPlace(t: Template, c: Consumer, mapping: Data)
    ensures Wrong(t, c, Keys(mapping)) <==> !InPlace(t, c.spec, mapping)
  {
    ListsIff(c.spec.vrcs, t.name);
    ListsIff(c.spec.vgrcs, t.name);
  }

  ghost predicate Consistent(w: World) {
    && Valid(w.consumers) && Valid(w.templates) && Valid(w.locks)
    && forall n <- w.consumers.objects :: UniqueClasses(w.consumers.objects[n].spec)
  }

  // ---------- what a pass knows about the state while it works from its listing ----------

  ghost predicate DistinctNames<S>(items: seq<Object<S>>) {
    forall i, j :: 0 <= i < j < |items| ==> items[i].name != items[j].name
  }

  /** The stored consumer agrees with the listed one on every class that is still to be looked at. */
  ghost predicate Faithful(w: World, c: Consumer, pending: seq<Template>) {
    && c.name in w.consumers.objects
    && var stored := w.consumers.objects[c.name];
    && stored.spec.clientID == c.spec.clientID
    && (stored.version == c.version ==> stored == c)
    && forall i :: 0 <= i < |pending| ==> ListsClass(stored, pending[i]) == ListsClass(c, pending[i])
  }

  /** Some listed consumer has been written since it was listed: a second write to it will conflict. */
  ghost predicate Touched(w: World, cs: seq<Consumer>) {
    exists i :: 0 <= i < |cs| && cs[i].name in w.consumers.objects
      && w.consumers.objects[cs[i].name].version != cs[i].version
  }

  ghost predicate Progress(w: World, r: Step, cs: seq<Consumer>, ids: set<string>) {
    && r.world.mapping == w.mapping && r.world.locks == w.locks
    && (Consistent(w) ==> Consistent(r.world))
    && WrongPairs(r.world, ids) <= WrongPairs(w, ids)
    && (!r.ok ==> Touched(r.world, cs))
    && (Touched(r.world, cs) && !Touched(w, cs) ==> WrongPairs(r.world, ids) < WrongPairs(w, ids))
  }

  /** Two templates that the controller treats alike; finalizers and versions may differ. */
  predicate SameRole(t: Template, u: Template) {
    t.name == u.name && t.spec == u.spec && t.deleting == u.deleting
  }

  ghost predicate Stored(w: World, t: Template) {
    t.name in w.templates.objects && SameRole(w.templates.objects[t.name], t)
  }

  lemma WriteRightsOnePair(w: World, w': World, t: Template, before: Consumer, after: Consumer, ids: set<string>)
    requires Valid(w.templates) && Stored(w, t) && before.name in w.consumers.objects && w.consumers.objects[before.name] == before
    requires OneClassChanged(t, before, after.(version := before.version), ids)
    requires w' == w.(consumers := w'.consumers)
    requires w'.consumers.objects == w.consumers.objects[before.name := after]
    ensures WrongPairs(w', ids) == WrongPairs(w, ids) - {(t.name, before.name)}
    ensures (t.name, before.name) in WrongPairs(w, ids)
  {
    var was := after.(version := before.version);
    forall tn, cn
      ensures (tn, cn) in WrongPairs(w', ids) <==> (tn, cn) in WrongPairs(w, ids) - {(t.name, before.name)}
    {
      if cn == before.name && tn in w.templates.objects && tn != t.name {
        OtherTemplatesUnmoved(t, w.templates.objects[tn], before, was, ids);
      }
    }
  }

  lemma FaithfulTail(w: World, c: Consumer, t: Template, later: seq<Template>)
    requires Faithful(w, c, [t] + later)
    ensures Faithful(w, c, later)
    ensures ListsClass(w.consumers.objects[c.name], t) == ListsClass(c, t)
  {
    assert ([t] + later)[0] == t;
    assert forall i :: 0 <= i < |later| ==> ([t] + later)[i + 1] == later[i];
  }

  lemma AcceptedSync(w: World, t: Template, c: Consumer, later: seq<Template>, ids: set<string>)
    requires Consistent(w) && Stored(w, t) && UniqueClasses(c.spec)
    requires Faithful(w, c, [t] + later)
    requires forall i :: 0 <= i < |later| ==> later[i].name != t.name
    requires Expected(c, t, ids) != c && SyncConsumer(w, t, c, ids).ok
    ensures var w' := SyncConsumer(w, t, c, ids).world;
      && (exists after: Consumer ::
            && after.version > c.version
            && w'.consumers.objects == w.consumers.objects[c.name := after])
      && w' == w.(consumers := w'.consumers)
      && Consistent(w') && Faithful(w', c, later)
      && WrongPairs(w', ids) == WrongPairs(w, ids) - {(t.name, c.name)}
      && (t.name, c.name) in WrongPairs(w, ids)
  {
    var e := Expected(c, t, ids);
    var w' := SyncConsumer(w, t, c, ids).world;
    ExpectedChangesOneClass(c, t, ids);
    var after := e.(version := w.consumers.clock + 1);
    assert w'.consumers.objects == w.consumers.objects[c.name := after];
    WriteRightsOnePair(w, w', t, c, after, ids);
    forall i | 0 <= i < |later| ensures ListsClass(after, later[i]) == ListsClass(c, later[i]) {
      OtherTemplatesUnmoved(t, later[i], c, e, ids);
    }
  }

  lemma SettledSync(w: World, t: Template, c: Consumer, later: seq<Template>, ids: set<string>)
    requires Valid(w.consumers) && Valid(w.templates) && Stored(w, t) && UniqueClasses(c.spec)
    requires Faithful(w, c, [t] + later) && Expected(c, t, ids) == c
    ensures (t.name, c.name) !in WrongPairs(w, ids)
  {
    ExpectedChangesOneClass(c, t, ids);
    FaithfulTail(w, c, t, later);
  }

  /** While the consumers are visited for `t`: those before position `k` are done with `t`. */
  ghost predicate Visiting(w: World, t: Template, all: seq<Consumer>, k: nat, later: seq<Template>) {
    && Consistent(w) && Stored(w, t) && DistinctNames(all) && k <= |all|
    && (forall i :: 0 <= i < |all| ==> UniqueClasses(all[i].spec))
    && (forall i :: 0 <= i < |later| ==> later[i].name != t.name)
    && (forall i :: 0 <= i < k ==> Faithful(w, all[i], later))
    && (forall i :: k <= i < |all| ==> Faithful(w, all[i], [t] + later))
  }

  lemma VisitingNext(w: World, w': World, t: Template, all: seq<Consumer>, k: nat, later: seq<Template>, after: Consumer)
    requires k < |all| && Visiting(w, t, all, k, later) && Consistent(w')
    requires w' == w.(consumers := w'.consumers) && after.version > all[k].version
    requires w'.consumers.objects == w.consumers.objects[all[k].name := after]
    requires Faithful(w', all[k], later)
    ensures Visiting(w', t, all, k + 1, later) && Touched(w', all)
  {
    forall i | 0 <= i < |all| && i != k
      ensures w'.consumers.objects[all[i].name] == w.consumers.objects[all[i].name]
    {
    }
    assert w'.consumers.objects[all[k].name].version != all[k].version;
  }

  /** One consumer: either nothing is wrong, or the write rights exactly this pair, or it conflicts. */
  lemma SyncConsumerProgress(w: World, t: Template, all: seq<Consumer>, k: nat, later: seq<Template>, ids: set<string>)
    requires k < |all| && Visiting(w, t, all, k, later)
    ensures var r := SyncConsumer(w, t, all[k], ids);
      && Progress(w, r, all, ids)
      && r.world == w.(consumers := r.world.consumers)
      && r.world.consumers.objects.Keys == w.consumers.objects.Keys
      && (r.ok ==> Visiting(r.world, t, all, k + 1, later) && (t.name, all[k].name) !in WrongPairs(r.world, ids))
  {
    var c := all[k];
    var r := SyncConsumer(w, t, c, ids);
    assert Faithful(w, c, [t] + later);
    FaithfulTail(w, c, t, later);
    if Expected(c, t, ids) == c {
      SettledSync(w, t, c, later, ids);
    } else if r.ok {
      AcceptedSync(w, t, c, later, ids);
      var after: Consumer :| after.version > c.version && r.world.consumers.objects == w.consumers.objects[c.name := after];
      VisitingNext(w, r.world, t, all, k, later, after);
    }
  }

  lemma {:induction false} SyncConsumersProgress(w: World, t: Template, all: seq<Consumer>, k: nat, later: seq<Template>, ids: set<string>)
    requires Visiting(w, t, all, k, later)
    ensures var r := SyncConsumers(w, t, all[k..], ids);
      && Progress(w, r, all, ids)
      && r.world == w.(consumers := r.world.consumers)
      && r.world.consumers.objects.Keys == w.consumers.objects.Keys
      && (r.ok ==> Visiting(r.world, t, all, |all|, later))
      && (r.ok ==> forall i :: k <= i < |all| ==> (t.name, all[i].name) !in WrongPairs(r.world, ids))
    decreases |all| - k
  {
    if k < |all| {
      assert all[k..][0] == all[k] && all[k..][1..] == all[k + 1..];
      var s := SyncConsumer(w, t, all[k], ids);
      SyncConsumerProgress(w, t, all, k, later, ids);
      if s.ok {
        SyncConsumersProgress(s.world, t, all, k + 1, later, ids);
      }
    }
  }

  /** Between templates: every listed template is still stored as listed, every consumer faithful to its listing. */
  ghost predicate Between(w: World, all: seq<Consumer>, ts: seq<Template>) {
    && Consistent(w) && DistinctNames(all) && DistinctNames(ts)
    && (forall i :: 0 <= i < |all| ==> UniqueClasses(all[i].spec) && Faithful(w, all[i], ts))
    && (forall i :: 0 <= i < |ts| ==> ts[i].name in w.templates.objects && w.templates.objects[ts[i].name] == ts[i])
  }

  lemma WriteTemplateProgress(w: World, t: Template, all: seq<Consumer>, ids: set<string>)
    requires Consistent(w) && Stored(w, t) && w.templates.objects[t.name].version == t.version
    ensures var r := WriteTemplate(w, t);
      && r.ok && Progress(w, r, all, ids) && Consistent(r.world)
      && r.world == w.(templates := r.world.templates)
      && (forall n :: n != t.name ==>
            (n in r.world.templates.objects <==> n in w.templates.objects)
            && (n in w.templates.objects ==> r.world.templates.objects[n] == w.templates.objects[n]))
      && (t.name in r.world.templates.objects ==> Stored(r.world, t))
      && (!t.deleting ==> t.name in r.world.templates.objects)
  {
  }

  /** Every template but `name` is stored as before. */
  ghost predicate OnlyTemplate(w: World, w': World, name: string) {
    forall n :: n != name ==>
      (n in w'.templates.objects <==> n in w.templates.objects)
      && (n in w.templates.objects ==> w'.templates.objects[n] == w.templates.objects[n])
  }

  lemma HoldProgress(w: World, all: seq<Consumer>, ts: seq<Template>, ids: set<string>)
    requires ts != [] && Between(w, all, ts)
    ensures var r := Hold(w, ts[0]);
      && r.ok && Progress(w, r, all, ids) && OnlyTemplate(w, r.world, ts[0].name)
      && r.world == w.(templates := r.world.templates)
      && Visiting(r.world, ts[0], all, 0, ts[1..])
      && (ts[0].deleting ==> r.world == w)
      && r.world.templates.objects.Keys == w.templates.objects.Keys
  {
    var t := ts[0];
    assert ts == [t] + ts[1..];
    if !t.deleting && RESOURCE_DISTRIBUTION_FINALIZER !in t.finalizers {
      WriteTemplateProgress(w, t.(finalizers := t.finalizers + [RESOURCE_DISTRIBUTION_FINALIZER]), all, ids);
    }
  }

  lemma ReleaseProgress(w: World, t: Template, all: seq<Consumer>, later: seq<Template>, ids: set<string>)
    requires Visiting(w, t, all, |all|, later)
    requires t.deleting ==> w.templates.objects[t.name] == t
    ensures var r := Release(w, t);
      && r.ok && Progress(w, r, all, ids) && OnlyTemplate(w, r.world, t.name)
      && r.world == w.(templates := r.world.templates)
      && Consistent(r.world)
      && r.world.templates.objects.Keys <= w.templates.objects.Keys
  {
  }

  lemma ProgressTransitive(w: World, m: World, r: Step, all: seq<Consumer>, ids: set<string>)
    requires Progress(w, Step(m, true), all, ids) && Progress(m, r, all, ids)
    ensures Progress(w, r, all, ids)
  {
  }

  lemma TemplateDone(w: World, synced: World, r: World, all: seq<Consumer>, ts: seq<Template>)
    requires ts != [] && Between(w, all, ts)
    requires Visiting(synced, ts[0], all, |all|, ts[1..])
    requires OnlyTemplate(w, synced, ts[0].name) && OnlyTemplate(synced, r, ts[0].name)
    requires r == synced.(templates := r.templates) && Consistent(r)
    ensures Between(r, all, ts[1..])
  {
  }

  lemma SyncTemplateProgress(w: World, all: seq<Consumer>, ts: seq<Template>, ids: set<string>)
    requires ts != [] && Between(w, all, ts)
    ensures var r := SyncTemplate(w, ts[0], all, ids);
      && Progress(w, r, all, ids)
      && r.world.consumers.objects.Keys == w.consumers.objects.Keys
      && r.world.templates.objects.Keys <= w.templates.objects.Keys
      && (r.ok ==> Between(r.world, all, ts[1..]))
      && (r.ok ==> forall i :: 0 <= i < |all| ==> (ts[0].name, all[i].name) !in WrongPairs(r.world, ids))
  {
    var t, later := ts[0], ts[1..];
    var held := Hold(w, t).world;
    HoldProgress(w, all, ts, ids);
    SyncConsumersProgress(held, t, all, 0, later, ids);
    assert all[0..] == all;
    var synced := SyncConsumers(held, t, all, ids);
    ProgressTransitive(w, held, synced, all, ids);
    if synced.ok {
      ReleaseProgress(synced.world, t, all, later, ids);
      var r := Release(synced.world, t);
      ProgressTransitive(w, synced.world, r, all, ids);
      TemplateDone(w, synced.world, r.world, all, ts);
    }
  }

  /** The pairs of the first template were righted before, those of the others now, and none is wrong again. */
  lemma AllRighted(before: set<(string, string)>, now: set<(string, string)>, all: seq<Consumer>, ts: seq<Template>)
    requires ts != [] && now <= before
    requires forall j :: 0 <= j < |all| ==> (ts[0].name, all[j].name) !in before
    requires forall i, j :: 0 <= i < |ts[1..]| && 0 <= j < |all| ==> (ts[1..][i].name, all[j].name) !in now
    ensures forall i, j :: 0 <= i < |ts| && 0 <= j < |all| ==> (ts[i].name, all[j].name) !in now
  {
    forall i, j | 0 <= i < |ts| && 0 <= j < |all| ensures (ts[i].name, all[j].name) !in now {
      assert i > 0 ==> ts[i] == ts[1..][i - 1];
    }
  }

  lemma {:induction false} SyncTemplatesProgress(w: World, all: seq<Consumer>, ts: seq<Template>, ids: set<string>)
    requires Between(w, all, ts)
    ensures var r := SyncTemplates(w, ts, all, ids);
      && Progress(w, r, all, ids)
      && r.world.consumers.objects.Keys == w.consumers.objects.Keys
      && r.world.templates.objects.Keys <= w.templates.objects.Keys
      && (r.ok ==> forall i, j :: 0 <= i < |ts| && 0 <= j < |all| ==>
            (ts[i].name, all[j].name) !in WrongPairs(r.world, ids))
    decreases |ts|
  {
    if ts != [] {
      var s := SyncTemplate(w, ts[0], all, ids);
      SyncTemplateProgress(w, all, ts, ids);
      if s.ok {
        SyncTemplatesProgress(s.world, all, ts[1..], ids);
        var r := SyncTemplates(s.world, ts[1..], all, ids);
        ProgressTransitive(w, s.world, r, all, ids);
        if r.ok {
          AllRighted(WrongPairs(s.world, ids), WrongPairs(r.world, ids), all, ts);
        }
      }
    }
  }

  // ---------- convergence ----------

  predicate Connected(w: World) {
    ADDON_DELETION_LOCK in w.locks.objects && w.mapping != None
  }

  lemma FreshListing(w: World, w1: World, cs: seq<Consumer>, ts: seq<Template>, ids: set<string>)
    requires Consistent(w) && Consistent(w1) && w1 == w.(locks := w1.locks)
    requires IsListing(w.consumers, cs) && IsListing(w.templates, ts)
    ensures Between(w1, cs, ts) && !Touched(w1, cs) && WrongPairs(w1, ids) == WrongPairs(w, ids)
  {
  }

  lemma SyncFreshListing(w: World, w1: World, cs: seq<Consumer>, ts: seq<Template>, ids: set<string>)
    requires Consistent(w) && Connected(w)
    requires w1 == w.(locks := w1.locks) && Consistent(w1) && Connected(w1)
    requires IsListing(w.consumers, cs) && IsListing(w.templates, ts)
    ensures var r := SyncTemplates(w1, ts, cs, ids);
      && (r.ok ==> Distributed(r.world, ids))
      && (!r.ok ==> |WrongPairs(r.world, ids)| < |WrongPairs(w, ids)|)
      && Consistent(r.world) && Connected(r.world) && r.world.mapping == w.mapping
  {
    FreshListing(w, w1, cs, ts, ids);
    SyncTemplatesProgress(w1, cs, ts, ids);
    var r := SyncTemplates(w1, ts, cs, ids);
    if r.ok {
      ListedNames(w, cs, ts, r.world, ids);
    } else {
      ProperSubsetIsSmaller(WrongPairs(r.world, ids), WrongPairs(w1, ids));
    }
  }

  /** With nobody else writing, a pass either ends with every class where it belongs, or has a write
      refused and leaves strictly fewer wrong pairs than it found. Order of the listings is irrelevant. */
  lemma PassConverges(w: World, works: seq<WorkLabel>, cs: seq<Consumer>, ts: seq<Template>)
    requires Consistent(w) && Connected(w)
    requires IsListing(w.consumers, cs) && IsListing(w.templates, ts)
    ensures var (w', outcome) := Pass(w, works, cs, ts);
      var ids := Keys(w.mapping.value);
      && (outcome == Success ==> Distributed(w', ids))
      && (outcome != Success ==> outcome == WriteRefused && |WrongPairs(w', ids)| < |WrongPairs(w, ids)|)
      && Consistent(w') && Connected(w') && w'.mapping == w.mapping
  {
    var ids := Keys(w.mapping.value);
    var lock := w.locks.objects[ADDON_DELETION_LOCK];
    if cs != [] && ts != [] {
      SyncFreshListing(w, RebuildLock(w, lock, works).world, cs, ts, ids);
    } else {
      assert cs == [] ==> w.consumers.objects == map[] by {
        if cs == [] { assert forall n <- w.consumers.objects :: NamesIn(cs, n); }
      }
      assert ts == [] ==> w.templates.objects == map[] by {
        if ts == [] { assert forall n <- w.templates.objects :: NamesIn(ts, n); }
      }
    }
  }

  /** A pass goes nowhere exactly if the lock or the mapping is missing, and then writes nothing. */
  lemma MissingIff(w: World, works: seq<WorkLabel>, cs: seq<Consumer>, ts: seq<Template>)
    ensures Pass(w, works, cs, ts).1 == Missing <==> ADDON_DELETION_LOCK !in w.locks.objects || w.mapping.None?
    ensures Pass(w, works, cs, ts).1 == Missing ==> Pass(w, works, cs, ts).0 == w
  {
  }

  /** What a successful pass leaves, in terms of what is stored: every class of every stored template where it
      belongs, for the keys of the mapping; and as keys of the lock the live client IDs, or none if there was nothing
      to distribute. */
  lemma SuccessMeans(w: World, works: seq<WorkLabel>, cs: seq<Consumer>, ts: seq<Template>)
    requires Consistent(w) && Connected(w)
    requires IsListing(w.consumers, cs) && IsListing(w.templates, ts)
    requires Pass(w, works, cs, ts).1 == Success
    ensures var w' := Pass(w, works, cs, ts).0;
      && (forall tn <- w'.templates.objects, cn <- w'.consumers.objects ::
            InPlace(w'.templates.objects[tn], w'.consumers.objects[cn].spec, w.mapping.value))
      && ADDON_DELETION_LOCK in w'.locks.objects
      && (cs != [] && ts != [] ==> LockNames(w'.locks, ADDON_DELETION_LOCK, works))
      && (cs == [] || ts == [] ==> forall id :: !HasKey(w'.locks.objects[ADDON_DELETION_LOCK].spec, id))
  {
    var w' := Pass(w, works, cs, ts).0;
    PassConverges(w, works, cs, ts);
    forall tn <- w'.templates.objects, cn <- w'.consumers.objects
      ensures InPlace(w'.templates.objects[tn], w'.consumers.objects[cn].spec, w.mapping.value)
    {
      WrongIffNotInPlace(w'.templates.objects[tn], w'.consumers.objects[cn], w.mapping.value);
    }
    LockAfterSuccess(w, works, cs, ts);
  }

  lemma LockAfterSuccess(w: World, works: seq<WorkLabel>, cs: seq<Consumer>, ts: seq<Template>)
    requires Consistent(w) && Connected(w)
    requires IsListing(w.consumers, cs) && IsListing(w.templates, ts)
    requires Pass(w, works, cs, ts).1 == Success
    ensures var w' := Pass(w, works, cs, ts).0;
      && ADDON_DELETION_LOCK in w'.locks.objects
      && (cs != [] && ts != [] ==> LockNames(w'.locks, ADDON_DELETION_LOCK, works))
      && (cs == [] || ts == [] ==> forall id :: !HasKey(w'.locks.objects[ADDON_DELETION_LOCK].spec, id))
  {
    var lock, ids := w.locks.objects[ADDON_DELETION_LOCK], Keys(w.mapping.value);
    assert lock.name == ADDON_DELETION_LOCK;
    if cs != [] && ts != [] {
      RebuildLockStores(w, lock, works);
      var w1 := RebuildLock(w, lock, works).world;
      FreshListing(w, w1, cs, ts, ids);
      SyncTemplatesProgress(w1, cs, ts, ids);
    } else {
      EmptiedLock(w, lock);
    }
  }

  lemma ListedNames(w: World, cs: seq<Consumer>, ts: seq<Template>, w': World, ids: set<string>)
    requires IsListing(w.consumers, cs) && IsListing(w.templates, ts)
    requires w'.consumers.objects.Keys == w.consumers.objects.Keys
    requires w'.templates.objects.Keys <= w.templates.objects.Keys
    requires forall i, j :: 0 <= i < |ts| && 0 <= j < |cs| ==> (ts[i].name, cs[j].name) !in WrongPairs(w', ids)
    ensures Distributed(w', ids)
  {
  }

  lemma ProperSubsetIsSmaller<T>(a: set<T>, b: set<T>)
    requires a < b
    ensures |a| < |b|
  {
    assert |b| == |a| + |b - a| by { assert b == a + (b - a); }
  }

  /** A pass over fresh listings, in some order, that had a write refused. */
  ghost predicate RefusedPass(w: World, w': World) {
    exists works: seq<WorkLabel>, cs: seq<Consumer>, ts: seq<Template> ::
      IsListing(w.consumers, cs) && IsListing(w.templates, ts) && Pass(w, works, cs, ts) == (w', WriteRefused)
  }

  /** However the listings come back, fewer than |T| * |C| + 1 passes in a row can have a write refused;
      by PassConverges the next one ends at the fixed point. */
  lemma {:induction false} RefusalsAreBounded(ws: seq<World>)
    requires ws != [] && Consistent(ws[0]) && Connected(ws[0])
    requires forall i :: 0 <= i < |ws| - 1 ==> RefusedPass(ws[i], ws[i + 1])
    ensures |ws| - 1 <= |ws[0].templates.objects| * |ws[0].consumers.objects|
  {
    RefusalsCost(ws);
    WrongPairsBound(ws[0], Keys(ws[0].mapping.value));
  }

  lemma WrongPairsBound(w: World, ids: set<string>)
    ensures |WrongPairs(w, ids)| <= |w.templates.objects| * |w.consumers.objects|
  {
    PairsBound(WrongPairs(w, ids), w.templates.objects.Keys, w.consumers.objects.Keys);
  }

  lemma PairsBound<A, B>(pairs: set<(A, B)>, a: set<A>, b: set<B>)
    requires forall p <- pairs :: p.0 in a && p.1 in b
    ensures |pairs| <= |a| * |b|
  {
    if a != {} {
      var x :| x in a;
      var row := set p <- pairs | p.0 == x;
      PairsBound(pairs - row, a - {x}, b);
      RowBound(row, x, b);
      assert pairs == (pairs - row) + row;
      assert |a - {x}| == |a| - 1;
      assert (|a| - 1) * |b| + |b| == |a| * |b|;
    }
  }

  lemma RowBound<A, B>(row: set<(A, B)>, x: A, b: set<B>)
    requires forall p <- row :: p.0 == x && p.1 in b
    ensures |row| <= |b|
  {
    if row != {} {
      var p :| p in row;
      RowBound(row - {p}, x, b - {p.1});
    }
  }

  lemma {:induction false} RefusalsCost(ws: seq<World>)
    requires ws != [] && Consistent(ws[0]) && Connected(ws[0])
    requires forall i :: 0 <= i < |ws| - 1 ==> RefusedPass(ws[i], ws[i + 1])
    ensures |ws| - 1 <= |WrongPairs(ws[0], Keys(ws[0].mapping.value))|
    decreases |ws|
  {
    if |ws| > 1 {
      assert RefusedPass(ws[0], ws[1]);
      var works: seq<WorkLabel>, cs: seq<Consumer>, ts: seq<Template> :|
        IsListing(ws[0].consumers, cs) && IsListing(ws[0].templates, ts) && Pass(ws[0], works, cs, ts) == (ws[1], WriteRefused);
      PassConverges(ws[0], works, cs, ts);
      forall i | 0 <= i < |ws[1..]| - 1 ensures RefusedPass(ws[1..][i], ws[1..][i + 1]) {
        assert RefusedPass(ws[i + 1], ws[i + 2]);
      }
      RefusalsCost(ws[1..]);
    }
  }
}
