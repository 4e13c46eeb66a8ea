/** The resource-distribution reconciler as code: every API call is a step of a run, with anything that other
    writers do in between. */
module DistributionController {
  import opened ApiServer
  import opened Options
  import opened Distribution
  import opened DistributionRun
  import Spec = DistributionPass
  import Amid = DistributionAmid

  lemma StepStays(trace: seq<State>, s: State, i: nat)
    requires i + 1 < |trace| && StepAt(trace, i)
    ensures StepAt(trace + [s], i)
  {
    assert (trace + [s])[i] == trace[i] && (trace + [s])[i + 1] == trace[i + 1];
  }

  lemma LastStep(trace: seq<State>, s: State)
    requires trace != [] && Next(trace[|trace| - 1], s)
    ensures StepAt(trace + [s], |trace| - 1)
  {
    assert (trace + [s])[|trace| - 1] == trace[|trace| - 1] && (trace + [s])[|trace|] == s;
  }

  lemma RunExtends(trace: seq<State>, s: State)
    requires Run(trace) && Next(trace[|trace| - 1], s)
    ensures Run(trace + [s])
  {
    assert (trace + [s])[0] == trace[0];
    LastStep(trace, s);
    forall i | 0 <= i < |trace| - 1 ensures StepAt(trace + [s], i) {
      StepStays(trace, s, i);
    }
  }

  predicate Through(pc: Pc) {
    pc.Emptying? || (pc.Holding? && pc.i == |pc.l.ts|)
  }

  class ResourceDistributionReconciler {
    var w: World
    ghost var pc: Pc
    ghost var trace: seq<State>
    /** What other writers do before each API call, and the number of the next one. */
    const others: Amid.Others
    var next: nat

    ghost function Now(): State
      reads this
    {
      State(w, pc)
    }

    /** The trace is a run, and ends here. */
    ghost predicate Traced()
      reads this
    {
      Run(trace) && trace[|trace| - 1] == Now() && Amid.WellBehaved(others)
    }

    constructor (w: World, others: Amid.Others)
      requires Sound(w) && Amid.WellBehaved(others)
      ensures Traced() && this.w == w && pc == Idle && trace == [Now()] && this.others == others && next == 0
    {
      this.w := w;
      this.others, next := others, 0;
      pc := Idle;
      new;
      trace := [Now()];
    }

    /** Takes note of a step that has just been made. */
    ghost method Note(was: State)
      requires Run(trace) && trace[|trace| - 1] == was && Next(was, Now()) && Amid.WellBehaved(others)
      modifies this`trace
      ensures Traced() && trace == old(trace) + [Now()]
    {
      RunExtends(trace, Now());
      trace := trace + [Now()];
    }

    /** Notes a write step. */
    ghost method NoteWrite(was: State)
      requires Run(trace) && trace[|trace| - 1] == was && WriteStep(was, Now()) && Amid.WellBehaved(others)
      modifies this`trace
      ensures Traced() && trace == old(trace) + [Now()]
    {
      Note(was);
    }

    /** Others act before this controller's next call. */
    method OtherWriters()
      requires Traced()
      modifies this`w, this`next, this`trace
      ensures Traced() && trace == old(trace) + [Now()]
      ensures w == others(old(next), old(w)) && next == old(next) + 1
    {
      ghost var was := Now();
      RunKeeps(trace, |trace| - 1);
      assert Amid.BehavesAt(others, next, w);
      w := others(next, w);
      next := next + 1;
      Note(was);
    }

    /** Some moment from position `since` on is the end of a pass that got through: every template had its turn,
        or there was nothing to distribute. */
    ghost predicate GotThrough(since: nat)
      reads this
    {
      exists k :: since <= k < |trace| && Through(trace[k].pc)
    }

    /** The pass ends here. */
    ghost method Stop()
      requires Traced()
      modifies this`pc, this`trace
      ensures Traced() && old(trace) <= trace && pc == Idle
      ensures Through(old(pc)) ==> GotThrough(|old(trace)| - 1)
    {
      ghost var was := Now();
      ghost var k := |trace| - 1;
      pc := Idle;
      Note(was);
      assert trace[k].pc == was.pc;
    }

    /** The names of the consumers whose client is a key of the mapping. */
    method SelectConsumers(ids: set<string>, cs: seq<Consumer>) returns (names: seq<string>)
      requires Spec.DistinctNames(cs)
      ensures forall i :: 0 <= i < |cs| ==>
                (cs[i].name in names <==> cs[i].spec.clientID.Some? && cs[i].spec.clientID.value in ids)
    {
      names := [];
      var left := ids;
      while left != {}
        invariant left <= ids
        invariant forall i :: 0 <= i < |cs| ==> (cs[i].name in names <==> Peered(cs[i].spec, ids - left))
        decreases left
      {
        var k :| k in left;
        for i := 0 to |cs|
          invariant forall j :: 0 <= j < |cs| ==> (cs[j].name in names <==>
            Peered(cs[j].spec, ids - left) || (j < i && cs[j].spec.clientID == Some(k)))
        {
          if cs[i].spec.clientID.Some? && cs[i].spec.clientID.value == k {
            names := names + [cs[i].name];
          }
        }
        left := left - {k};
      }
      assert ids - {} == ids;
    }

    /** The consumer is written if the class list was to change. */
    method WriteConsumer(c: Consumer, e: Consumer) returns (ok: bool)
      modifies this`w
      ensures Spec.Step(w, ok) ==
        if e == c then Spec.Step(old(w), true)
        else match Update(old(w).consumers, e)
          case Written(shelf) => Spec.Step(old(w).(consumers := shelf), true)
          case _ => Spec.Step(old(w), false)
    {
      if e == c {
        return true;
      }
      match Update(w.consumers, e)
      case Written(shelf) =>
        w := w.(consumers := shelf);
        ok := true;
      case _ =>
        ok := false;
    }

    /** The inner loop's turn of one consumer. */
    method SyncConsumer(t: Template, c: Consumer, addTo: seq<string>, ghost l: Listing, ghost i: nat, ghost j: nat)
      returns (ok: bool)
      requires Traced() && pc == Visiting(l, i, j) && i < |l.ts| && j < |l.cs| && t == l.ts[i] && c == l.cs[j]
      requires c.name in addTo <==> Peered(c.spec, l.ids)
      modifies this
      ensures Traced() && old(trace) <= trace && pc == if ok then Visiting(l, i, j + 1) else Idle
      ensures Spec.SyncConsumer(others(old(next), old(w)), t, c, l.ids) == Spec.Step(w, ok) && next == old(next) + 1
      ensures ok && LetGo(t) && c.name in w.consumers.objects ==> !Mentions(w.consumers.objects[c.name].spec, t.name)
    {
      OtherWriters();
      ghost var was := Now();
      ok := WriteConsumer(c, Reshaped(c, t, !t.deleting && c.name in addTo));
      pc := if ok then Visiting(l, i, j + 1) else Idle;
      assert Now() == Went(Spec.SyncConsumer(was.w, t, c, l.ids), Visiting(l, i, j + 1));
      NoteWrite(was);
      if ok && LetGo(t) && c.name in w.consumers.objects {
        ClearedByTurn(trace, l, i, j);
      }
    }

    /** A live template gets the finalizer before any consumer lists its class. */
    method Hold(t: Template, ghost l: Listing, ghost i: nat) returns (ok: bool)
      requires Traced() && pc == Holding(l, i) && i < |l.ts| && t == l.ts[i]
      modifies this
      ensures Traced() && old(trace) <= trace && pc == if ok then Visiting(l, i, 0) else Idle
      ensures Spec.Hold(others(old(next), old(w)), t) == Spec.Step(w, ok) && next == old(next) + 1
      ensures ok && !t.deleting ==> HeldAs(w, t)
    {
      OtherWriters();
      ghost var was := Now();
      ok := true;
      if !t.deleting && RESOURCE_DISTRIBUTION_FINALIZER !in t.finalizers {
        match Update(w.templates, t.(finalizers := t.finalizers + [RESOURCE_DISTRIBUTION_FINALIZER]))
        case Written(shelf) =>
          w := w.(templates := shelf);
        case _ =>
          ok := false;
      }
      pc := if ok then Visiting(l, i, 0) else Idle;
      NoteWrite(was);
      if ok && !t.deleting {
        HeldInTurn(trace, l, i);
      }
    }

    /** A template being deleted is let go once every listed consumer has had its turn. */
    method Release(t: Template, ghost l: Listing, ghost i: nat) returns (ok: bool)
      requires Traced() && pc == Releasing(l, i) && i < |l.ts| && t == l.ts[i]
      modifies this
      ensures Traced() && old(trace) <= trace && pc == if ok then Holding(l, i + 1) else Idle
      ensures Spec.Release(others(old(next), old(w)), t) == Spec.Step(w, ok) && next == old(next) + 1
      ensures LetGo(t) ==> forall c <- w.consumers.objects :: !Mentions(w.consumers.objects[c].spec, t.name)
    {
      OtherWriters();
      ghost var was := Now();
      if LetGo(t) {
        UnlistedInRun(trace, w, l, i);
      }
      ok := true;
      if t.deleting && RESOURCE_DISTRIBUTION_FINALIZER in t.finalizers {
        match Update(w.templates, t.(finalizers := Without(t.finalizers, RESOURCE_DISTRIBUTION_FINALIZER)))
        case Written(shelf) =>
          w := w.(templates := shelf);
        case _ =>
          ok := false;
      }
      pc := if ok then Holding(l, i + 1) else Idle;
      NoteWrite(was);
    }

    ghost method EndVisits(l: Listing, i: nat)
      requires Traced() && pc == Visiting(l, i, |l.cs|) && i < |l.ts|
      modifies this`pc, this`trace
      ensures Traced() && old(trace) <= trace && pc == Releasing(l, i)
    {
      ghost var was := Now();
      pc := Releasing(l, i);
      NoteWrite(was);
    }

    method VisitConsumers(t: Template, cs: seq<Consumer>, addTo: seq<string>, ghost l: Listing, ghost i: nat)
      returns (ok: bool)
      requires Traced() && pc == Visiting(l, i, 0) && i < |l.ts| && t == l.ts[i] && cs == l.cs
      requires forall k :: 0 <= k < |cs| ==> (cs[k].name in addTo <==> Peered(cs[k].spec, l.ids))
      modifies this
      ensures Traced() && old(trace) <= trace && pc == if ok then Releasing(l, i) else Idle
      ensures Amid.VisitConsumers(others, old(next), old(w), t, cs, l.ids) == Amid.Turn(w, ok, next)
      ensures ok && LetGo(t) ==> Cleared(w, t, cs, |cs|)
    {
      for j := 0 to |cs|
        invariant Traced() && old(trace) <= trace && pc == Visiting(l, i, j)
        invariant Amid.VisitConsumers(others, old(next), old(w), t, cs, l.ids) ==
                  Amid.VisitConsumers(others, next, w, t, cs[j..], l.ids)
      {
        assert cs[j..][0] == cs[j] && cs[j..][1..] == cs[j + 1..];
        ok := SyncConsumer(t, cs[j], addTo, l, i, j);
        if !ok {
          return;
        }
      }
      EndVisits(l, i);
      if LetGo(t) {
        ClearedByVisits(trace, l, i);
      }
      ok := true;
    }

    method SyncTemplate(t: Template, cs: seq<Consumer>, addTo: seq<string>, ghost l: Listing, ghost i: nat)
      returns (ok: bool)
      requires Traced() && pc == Holding(l, i) && i < |l.ts| && t == l.ts[i] && cs == l.cs
      requires forall k :: 0 <= k < |cs| ==> (cs[k].name in addTo <==> Peered(cs[k].spec, l.ids))
      modifies this
      ensures Traced() && old(trace) <= trace && pc == if ok then Holding(l, i + 1) else Idle
      ensures Amid.SyncTemplate(others, old(next), old(w), t, cs, l.ids) == Amid.Turn(w, ok, next)
    {
      ok := Hold(t, l, i);
      if ok {
        ok := VisitConsumers(t, cs, addTo, l, i);
      }
      if ok {
        ok := Release(t, l, i);
      }
    }

    method SyncTemplates(ts: seq<Template>, cs: seq<Consumer>, addTo: seq<string>, ghost l: Listing) returns (ok: bool)
      requires Traced() && pc == Holding(l, 0) && ts == l.ts && cs == l.cs
      requires forall k :: 0 <= k < |cs| ==> (cs[k].name in addTo <==> Peered(cs[k].spec, l.ids))
      modifies this
      ensures Traced() && old(trace) <= trace && pc == if ok then Holding(l, |ts|) else Idle
      ensures Amid.SyncTemplates(others, old(next), old(w), ts, cs, l.ids) == Amid.Turn(w, ok, next)
    {
      for i := 0 to |ts|
        invariant Traced() && old(trace) <= trace && pc == Holding(l, i)
        invariant Amid.SyncTemplates(others, old(next), old(w), ts, cs, l.ids) ==
                  Amid.SyncTemplates(others, next, w, ts[i..], cs, l.ids)
      {
        assert ts[i..][0] == ts[i] && ts[i..][1..] == ts[i + 1..];
        ok := SyncTemplate(ts[i], cs, addTo, l, i);
        if !ok {
          return;
        }
      }
      ok := true;
    }

    method WriteLock(lock: Object<Data>, data: Data) returns (ok: bool)
      modifies this`w
      ensures Spec.WriteLock(old(w), lock, data) == Spec.Step(w, ok)
    {
      match Update(w.locks, lock.(spec := data))
      case Written(shelf) =>
        w := w.(locks := shelf);
        ok := true;
      case _ =>
        ok := false;
    }

    /** Nothing to distribute: the lock is emptied. */
    method EmptyLock(lock: Object<Data>) returns (ok: bool)
      requires Traced() && pc == Emptying(lock)
      modifies this
      ensures Traced() && old(trace) <= trace && pc == Idle && GotThrough(|old(trace)| - 1)
      ensures Spec.WriteLock(others(old(next), old(w)), lock, None) == Spec.Step(w, ok) && next == old(next) + 1
      ensures Spec.StoredAs(others(old(next), old(w)).locks, lock) ==>
                ok && lock.name in w.locks.objects && forall id :: !Spec.HasKey(w.locks.objects[lock.name].spec, id)
    {
      ghost var k := |trace| - 1;
      OtherWriters();
      ghost var was := Now();
      SoundInRun(trace);
      ok := WriteLock(lock, None);
      pc := Idle;
      Note(was);
      assert trace[k].pc == Emptying(lock);
    }

    /** The client IDs that the lock should hold. */
    method LiveClients(works: seq<WorkLabel>) returns (data: map<string, string>)
      ensures data == LockedIDs(works)
    {
      data := map[];
      for k := 0 to |works|
        invariant data == LockedIDs(works[..k])
      {
        assert works[..k + 1][..k] == works[..k];
        if !works[k].deleting && works[k].clientID != "" && works[k].clientID !in data {
          data := data[works[k].clientID := ""];
        }
      }
      assert works[..|works|] == works;
    }

    method RebuildLock(lock: Object<Data>, works: seq<WorkLabel>, ghost l: Listing) returns (ok: bool)
      requires Traced() && pc == Listed(lock, l)
      modifies this
      ensures Traced() && old(trace) <= trace && pc == if ok then Holding(l, 0) else Idle
      ensures Spec.RebuildLock(others(old(next), old(w)), lock, works) == Spec.Step(w, ok) && next == old(next) + 1
      ensures Spec.StoredAs(others(old(next), old(w)).locks, lock) ==> ok && Spec.LockNames(w.locks, lock.name, works)
    {
      var held := if lock.spec == None then map[] else lock.spec.value;
      var data := LiveClients(works);
      OtherWriters();
      SoundInRun(trace);
      ghost var was := Now();
      ok := true;
      if held != data {
        ok := WriteLock(lock, Some(data));
      }
      pc := if ok then Holding(l, 0) else Idle;
      assert Now() == Went(Spec.RebuildLock(was.w, lock, works), Holding(l, 0));
      if Spec.StoredAs(was.w.locks, lock) {
        Spec.RebuildLockStores(was.w, lock, works);
      }
      Note(was);
    }

    /** From both listings on: the lock is rebuilt and every template is distributed. */
    method Distribute(lock: Object<Data>, works: seq<WorkLabel>, cs: seq<Consumer>, ts: seq<Template>, ids: set<string>,
        ghost l: Listing)
      returns (ok: bool)
      requires Traced() && pc == Listed(lock, l) && l.cs == cs && l.ts == ts && l.ids == ids
      requires cs != [] && ts != [] && Spec.DistinctNames(cs)
      modifies this
      ensures Traced() && old(trace) <= trace && pc == if ok then Holding(l, |ts|) else Idle
      ensures Amid.Distribute(others, old(next), old(w), lock, ids, works, cs, ts) == Amid.Turn(w, ok, next)
    {
      ok := RebuildLock(lock, works, l);
      if ok {
        var addTo := SelectConsumers(ids, cs);
        ok := SyncTemplates(ts, cs, addTo, l);
      }
    }

    method ListConsumers(lock: Object<Data>, ids: set<string>) returns (cs: seq<Consumer>)
      requires Traced() && pc == MappingRead(lock, ids)
      modifies this
      ensures Traced() && old(trace) < trace && IsListing(w.consumers, cs)
      ensures pc == if cs == [] then Emptying(lock) else ConsumersListed(lock, ids, cs, w)
      ensures w == others(old(next), old(w)) && next == old(next) + 1
    {
      OtherWriters();
      ghost var was := Now();
      SoundInRun(trace);
      cs := List(w.consumers);
      pc := if |cs| == 0 then Emptying(lock) else ConsumersListed(lock, ids, cs, w);
      Note(was);
    }

    method ListTemplates(lock: Object<Data>, ids: set<string>, cs: seq<Consumer>, ghost at: World)
      returns (ts: seq<Template>, ghost l: Listing)
      requires Traced() && pc == ConsumersListed(lock, ids, cs, at)
      modifies this
      ensures Traced() && old(trace) < trace && IsListing(w.templates, ts)
      ensures l.cs == cs && l.ts == ts && l.ids == ids
      ensures pc == if ts == [] then Emptying(lock) else Listed(lock, l)
      ensures w == others(old(next), old(w)) && next == old(next) + 1
    {
      OtherWriters();
      ghost var was := Now();
      SoundInRun(trace);
      ts := List(w.templates);
      l := Listing(cs, ts, ids, at.(templates := w.templates));
      pc := if |ts| == 0 then Emptying(lock) else Listed(lock, l);
      Note(was);
    }

    method ListTemplatesAndDistribute(lock: Object<Data>, ids: set<string>, works: seq<WorkLabel>, cs: seq<Consumer>,
        ghost at: World)
      returns (ok: bool, ghost ts: seq<Template>)
      requires Traced() && pc == ConsumersListed(lock, ids, cs, at) && cs != [] && Spec.DistinctNames(cs)
      modifies this
      ensures Traced() && old(trace) <= trace && pc == Idle && (ok ==> GotThrough(|old(trace)|))
      ensures IsListing(others(old(next), old(w)).templates, ts)
      ensures Amid.Distribute(others, old(next) + 1, others(old(next), old(w)), lock, ids, works, cs, ts)
              == Amid.Turn(w, ok, next)
    {
      var templates;
      ghost var l;
      templates, l := ListTemplates(lock, ids, cs, at);
      ts := templates;
      if |templates| == 0 {
        ok := EmptyLock(lock);
      } else {
        ok := Distribute(lock, works, cs, templates, ids, l);
        Stop();
      }
    }

    method ListAndDistribute(lock: Object<Data>, ids: set<string>, works: seq<WorkLabel>)
      returns (ok: bool, ghost cs: seq<Consumer>, ghost ts: seq<Template>)
      requires Traced() && pc == MappingRead(lock, ids)
      modifies this
      ensures Traced() && old(trace) <= trace && pc == Idle && (ok ==> GotThrough(|old(trace)|))
      ensures Amid.Listings(others, old(next), old(w), cs, ts)
      ensures Amid.ListAndDistribute(others, old(next), old(w), lock, ids, works, cs, ts) == Amid.Turn(w, ok, next)
    {
      var consumers := ListConsumers(lock, ids);
      cs := consumers;
      if |consumers| == 0 {
        ts := [];
        ok := EmptyLock(lock);
      } else {
        ok, ts := ListTemplatesAndDistribute(lock, ids, works, consumers, w);
      }
    }

    /** The deletion lock, if it is there. */
    method ReadLock() returns (lock: Option<Object<Data>>)
      requires Traced() && pc == Idle
      modifies this
      ensures Traced() && old(trace) < trace
      ensures w == others(old(next), old(w)) && next == old(next) + 1
      ensures lock == if ADDON_DELETION_LOCK in w.locks.objects then Some(w.locks.objects[ADDON_DELETION_LOCK]) else None
      ensures pc == if lock.Some? then LockRead(lock.value) else Idle
    {
      OtherWriters();
      if ADDON_DELETION_LOCK !in w.locks.objects {
        return None;
      }
      ghost var was := Now();
      lock := Some(w.locks.objects[ADDON_DELETION_LOCK]);
      pc := LockRead(lock.value);
      Note(was);
    }

    /** The client IDs of the mapping, if it is there. */
    method ReadMapping(lock: Object<Data>) returns (ids: Option<set<string>>)
      requires Traced() && pc == LockRead(lock)
      modifies this
      ensures Traced() && old(trace) < trace
      ensures w == others(old(next), old(w)) && next == old(next) + 1
      ensures ids == if w.mapping.Some? then Some(Spec.Keys(w.mapping.value)) else None
      ensures pc == if ids.Some? then MappingRead(lock, ids.value) else Idle
    {
      OtherWriters();
      if w.mapping == None {
        Stop();
        return None;
      }
      ghost var was := Now();
      ids := Some(Spec.Keys(w.mapping.value));
      pc := MappingRead(lock, ids.value);
      Note(was);
    }

    /** One pass. Whatever well-behaved others do meanwhile, it extends a run, of which `DistributionRun` says
        what it can do and what not; a successful one gave every listed template its turn; and what it leaves is
        what `DistributionAmid.Pass` says for some order of the two listings. */
    method Reconcile(works: seq<WorkLabel>) returns (outcome: Spec.Outcome, ghost cs: seq<Consumer>, ghost ts: seq<Template>)
      requires Traced() && pc == Idle
      modifies this
      ensures Traced() && old(trace) <= trace && pc == Idle
      ensures outcome.Success? ==> GotThrough(|old(trace)|)
      ensures outcome.Missing? || Amid.Listings(others, old(next) + 2, Amid.WhenRead(others, old(next), old(w)), cs, ts)
      ensures Amid.Pass(others, old(next), old(w), works, cs, ts) == (w, outcome)
    {
      cs, ts := [], [];
      var lock := ReadLock();
      if lock.None? {
        return Spec.Missing, cs, ts;
      }
      var ids := ReadMapping(lock.value);
      if ids.None? {
        return Spec.Missing, cs, ts;
      }
      var ok;
      ok, cs, ts := ListAndDistribute(lock.value, ids.value, works);
      outcome := if ok then Spec.Success else Spec.WriteRefused;
    }
  }
}
