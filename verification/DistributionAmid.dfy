/** One pass of the resource-distribution reconciler amid other writers, as a function of what these do before
    each of its API calls. */
module DistributionAmid {
  import opened ApiServer
  import opened Options
  import opened Distribution
  import opened DistributionRun
  import Spec = DistributionPass

  /** What others make of the stored state before this controller's call of a given number. Whatever they do in
      some interleaving, there is such a function for it. */
  type Others = (nat, World) -> World

  predicate BehavesAt(o: Others, n: nat, w: World) {
    Sound(w) ==> WritersMay(w, o(n, w))
  }

  ghost predicate WellBehaved(o: Others) {
    forall n: nat, w: World :: BehavesAt(o, n, w)
  }

  /** The state after some calls, and the number of the next one. */
  datatype Turn = Turn(world: World, ok: bool, next: nat)

  function After(s: Spec.Step, n: nat): Turn {
    Turn(s.world, s.ok, n)
  }

  function VisitConsumers(o: Others, n: nat, w: World, t: Template, cs: seq<Consumer>, ids: set<string>): Turn
    decreases |cs|
  {
    if cs == [] then Turn(w, true, n)
    else
      var s := Spec.SyncConsumer(o(n, w), t, cs[0], ids);
      if s.ok then VisitConsumers(o, n + 1, s.world, t, cs[1..], ids) else After(s, n + 1)
  }

  function SyncTemplate(o: Others, n: nat, w: World, t: Template, cs: seq<Consumer>, ids: set<string>): Turn {
    var held := Spec.Hold(o(n, w), t);
    if !held.ok then After(held, n + 1)
    else
      var visited := VisitConsumers(o, n + 1, held.world, t, cs, ids);
      if !visited.ok then visited
      else After(Spec.Release(o(visited.next, visited.world), t), visited.next + 1)
  }

  function SyncTemplates(o: Others, n: nat, w: World, ts: seq<Template>, cs: seq<Consumer>, ids: set<string>): Turn
    decreases |ts|
  {
    if ts == [] then Turn(w, true, n)
    else
      var r := SyncTemplate(o, n, w, ts[0], cs, ids);
      if r.ok then SyncTemplates(o, r.next, r.world, ts[1..], cs, ids) else r
  }

  /** From both listings on. */
  function Distribute(o: Others, n: nat, w: World, lock: Object<Data>, ids: set<string>, works: seq<WorkLabel>,
      cs: seq<Consumer>, ts: seq<Template>): Turn
  {
    if ts == [] then After(Spec.WriteLock(o(n, w), lock, None), n + 1)
    else
      var s := Spec.RebuildLock(o(n, w), lock, works);
      if s.ok then SyncTemplates(o, n + 1, s.world, ts, cs, ids) else After(s, n + 1)
  }

  /** From the point where the lock and the mapping have been read: consumers and then templates are listed. */
  function ListAndDistribute(o: Others, n: nat, w: World, lock: Object<Data>, ids: set<string>, works: seq<WorkLabel>,
      cs: seq<Consumer>, ts: seq<Template>): Turn
  {
    var first := o(n, w);
    if cs == [] then After(Spec.WriteLock(o(n + 1, first), lock, None), n + 2)
    else Distribute(o, n + 2, o(n + 1, first), lock, ids, works, cs, ts)
  }

  /** `cs` and `ts` are what the two lists may come back as. */
  ghost predicate Listings(o: Others, n: nat, w: World, cs: seq<Consumer>, ts: seq<Template>) {
    IsListing(o(n, w).consumers, cs) && (cs != [] ==> IsListing(o(n + 1, o(n, w)).templates, ts))
  }

  function Ended(r: Turn): (World, Spec.Outcome) {
    (r.world, if r.ok then Spec.Success else Spec.WriteRefused)
  }

  /** The state when the mapping is read. */
  function WhenRead(o: Others, n: nat, w: World): World {
    o(n + 1, o(n, w))
  }

  function Pass(o: Others, n: nat, w: World, works: seq<WorkLabel>, cs: seq<Consumer>, ts: seq<Template>): (World, Spec.Outcome) {
    var first := o(n, w);
    if ADDON_DELETION_LOCK !in first.locks.objects then (first, Spec.Missing)
    else
      var second := o(n + 1, first);
      if second.mapping == None then (second, Spec.Missing)
      else
        Ended(ListAndDistribute(o, n + 2, second, first.locks.objects[ADDON_DELETION_LOCK],
          Spec.Keys(second.mapping.value), works, cs, ts))
  }

  // ---------- left alone ----------

  ghost predicate Idlers(o: Others) {
    forall n: nat, w: World :: o(n, w) == w
  }

  lemma {:induction false} VisitsAlone(o: Others, n: nat, w: World, t: Template, cs: seq<Consumer>, ids: set<string>)
    requires Idlers(o)
    ensures var r := VisitConsumers(o, n, w, t, cs, ids); Spec.Step(r.world, r.ok) == Spec.SyncConsumers(w, t, cs, ids)
    decreases |cs|
  {
    if cs != [] {
      var s := Spec.SyncConsumer(o(n, w), t, cs[0], ids);
      VisitsAlone(o, n + 1, s.world, t, cs[1..], ids);
    }
  }

  lemma {:induction false} TemplatesAlone(
      o: Others, n: nat, w: World, ts: seq<Template>, cs: seq<Consumer>, ids: set<string>)
    requires Idlers(o)
    ensures var r := SyncTemplates(o, n, w, ts, cs, ids);
      Spec.Step(r.world, r.ok) == Spec.SyncTemplates(w, ts, cs, ids)
    decreases |ts|
  {
    if ts != [] {
      VisitsAlone(o, n + 1, Spec.Hold(o(n, w), ts[0]).world, ts[0], cs, ids);
      var r := SyncTemplate(o, n, w, ts[0], cs, ids);
      TemplatesAlone(o, r.next, r.world, ts[1..], cs, ids);
    }
  }

  /** With idle others it is the pass whose convergence `DistributionPass` proves. */
  lemma PassAlone(o: Others, n: nat, w: World, works: seq<WorkLabel>, cs: seq<Consumer>, ts: seq<Template>)
    requires Idlers(o)
    ensures Pass(o, n, w, works, cs, ts) == Spec.Pass(w, works, cs, ts)
  {
    if ADDON_DELETION_LOCK in w.locks.objects && w.mapping.Some? && cs != [] && ts != [] {
      var s := Spec.RebuildLock(w, w.locks.objects[ADDON_DELETION_LOCK], works);
      TemplatesAlone(o, n + 5, s.world, ts, cs, Spec.Keys(w.mapping.value));
      assert forall m: nat :: o(m, w) == w;
    }
  }
}
