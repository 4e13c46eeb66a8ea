/** The status a MirrorPeer has after a reconcile pass, and when Ready can be trusted. The pass works on a
    copy of the object; a write of the object itself puts the stored status back into the copy. */
module Readiness {
  import opened Options
  import opened PeeringStatus

  datatype Phase = NoPhase | Initializing | Configuring | PhaseFailed | Deleting | Ready

  datatype ConditionType = Validated | Configured | Deleted

  type Conditions = map<ConditionType, bool>

  datatype Status = Status(phase: Phase, conditions: Conditions)

  /** `vendorSet`: it names its storage vendor, which those of older versions do not. `marked`: the hub's
      finalizer and label are on it. `spokes`: it carries spoke finalizers. */
  datatype MirrorPeer = MirrorPeer(deleting: bool, async: bool, vendorSet: bool, marked: bool, spokes: bool, status: Status)

  /** What a pass meets: whether the migration of an older MirrorPeer goes through, the vendor can be set up,
      spec and versions are valid, how far a deletion gets, whether the steps of a configuration before the last
      check succeed, and what these find. Writes of the MirrorPeer succeed if `writes`, the final write of its
      status if `statusWrites`. */
  datatype Env = Env(
    migrationOk: bool, statusWrites: bool,
    vendorOk: bool, specOk: bool, versionOk: bool, deletion: Deletion, stepsOk: bool, writes: bool,
    keys: seq<string>, info: Providers, works: Works, addons: seq<AddOn>)

  datatype Deletion = Blocked | Pending | Finished

  /** A token exchange addon as the clean-up for a synchronous MirrorPeer finds it. */
  datatype AddOn = Unreadable | Missing | Ownerless | Undeletable | Owned

  /** Its Get fails, or it has no owner and its Delete fails. */
  predicate Fails(a: AddOn) {
    a.Unreadable? || a.Undeletable?
  }

  // ---------- the clean-up for synchronous MirrorPeers ----------

  predicate CleanUpGoesThrough(addons: seq<AddOn>) {
    forall a <- addons :: !Fails(a)
  }

  predicate Strips(a: AddOn) {
    a.Missing? || a.Ownerless?
  }

  /** The clean-up gets to an addon that is gone or about to go, where spoke finalizers are stripped. */
  predicate ReachesStrip(addons: seq<AddOn>) {
    addons != [] && !Fails(addons[0]) && (Strips(addons[0]) || ReachesStrip(addons[1..]))
  }

  method CleanUpManagedClusterAddonForSyncDR(mp: MirrorPeer, stored: Status, addons: seq<AddOn>, writes: bool)
    returns (ok: bool, mp': MirrorPeer)
    ensures ok <==> CleanUpGoesThrough(addons) && (mp.spokes && ReachesStrip(addons) ==> writes)
    ensures ok ==> Unreadable !in addons && Undeletable !in addons
    ensures ok && (Missing in addons || Ownerless in addons) ==> !mp'.spokes
    ensures mp' == if mp.spokes && ReachesStrip(addons)
      then mp.(spokes := false, status := if writes then stored else mp.status) else mp
  {
    if CleanUpGoesThrough(addons) {
      ReachesIff(addons);
    }
    mp' := mp;
    ghost var reached := false;
    for i := 0 to |addons|
      invariant CleanUpGoesThrough(addons[..i])
      invariant ReachesStrip(addons) == (reached || ReachesStrip(addons[i..]))
      invariant reached && mp.spokes ==> writes
      invariant mp' == if mp.spokes && reached then mp.(spokes := false, status := stored) else mp
    {
      assert addons[..i + 1] == addons[..i] + [addons[i]];
      assert addons[i..][0] == addons[i] && addons[i..][1..] == addons[i + 1..];
      if Fails(addons[i]) {
        return false, mp';
      }
      if Strips(addons[i]) {
        reached := true;
        if mp'.spokes {
          mp' := mp'.(spokes := false);
          if !writes {
            return false, mp';
          }
          mp' := mp'.(status := stored);
        }
      }
    }
    assert addons[..|addons|] == addons;
    return true, mp';
  }

  // ---------- one pass ----------

  /** How a pass ends. */
  datatype End = NotMigrated | NoVendor | Invalid | DeletionEnd | Marking | NotConfigured | Crashed | Complete

  predicate LastCheckPasses(mp: MirrorPeer, e: Env) {
    if mp.async then PeeringDone(e.keys, e.info, e.works)
    else CleanUpGoesThrough(e.addons) && (mp.spokes && ReachesStrip(e.addons) ==> e.writes)
  }

  predicate PeeringPanics(e: Env) {
    Known(e.keys, e.info) && Overall(PeerCheck, e.keys, e.info, e.works) == NoString
  }

  function EndOf(mp: MirrorPeer, e: Env): End {
    if !mp.vendorSet && !(e.migrationOk && e.writes) then NotMigrated
    else if !e.vendorOk then NoVendor
    else if !e.specOk || !e.versionOk then Invalid
    else if mp.deleting then DeletionEnd
    else if !mp.marked then Marking
    else if !e.stepsOk then NotConfigured
    else if mp.async && PeeringPanics(e) then Crashed
    else if LastCheckPasses(mp, e) then Complete
    else NotConfigured
  }

  /** Somewhere in the pass a write of the object puts the stored status back into the copy. */
  predicate Reloads(mp: MirrorPeer, e: Env) {
    e.writes && (mp.vendorSet || e.migrationOk) && e.vendorOk && e.specOk && e.versionOk &&
    if mp.deleting then e.deletion.Finished? && mp.marked
    else if !mp.marked then true
    else e.stepsOk && !mp.async && mp.spokes && ReachesStrip(e.addons)
  }

  predicate Has(s: Status, c: ConditionType) {
    c in s.conditions && s.conditions[c]
  }

  /** The status a pass that does not get through writes, unless the stored one was put back. */
  function Recorded(mp: MirrorPeer, end: End): Status {
    var c := mp.status.conditions;
    match end
    case NoVendor => Status(PhaseFailed, c[Validated := false])
    case Invalid => Status(PhaseFailed, c[Validated := false])
    case DeletionEnd => Status(Deleting, c[Validated := true][Deleted := false])
    case Marking => Status(Initializing, c[Validated := true])
    case _ => Status(Configuring, c[Validated := true][Configured := false])
  }

  /** The pass gets to its end, and the write of the status there succeeds. */
  predicate WritesStatus(mp: MirrorPeer, e: Env) {
    e.statusWrites && EndOf(mp, e) != NotMigrated && EndOf(mp, e) != Crashed
  }

  /** What a pass with no other writer does to the stored MirrorPeer, up to and including the final write of
      the status. */
  ghost predicate Pass(mp: MirrorPeer, e: Env, mp': MirrorPeer) {
    var end := EndOf(mp, e);
    && mp'.async == mp.async && mp'.deleting == mp.deleting
    && (mp'.vendorSet <==> mp.vendorSet || end != NotMigrated)
    && (!WritesStatus(mp, e) ==> mp'.status == mp.status)
    && (WritesStatus(mp, e) && end == Complete ==>
          && mp'.status.phase == Ready && Has(mp'.status, Configured)
          && (Has(mp'.status, Validated) <==> !Reloads(mp, e) || Has(mp.status, Validated)))
    && (WritesStatus(mp, e) && end != Complete ==>
          mp'.status == if Reloads(mp, e) then mp.status else Recorded(mp, end))
    && (mp'.marked <==> if end == DeletionEnd then mp.marked && !Reloads(mp, e) else mp.marked || Reloads(mp, e))
    && (mp'.spokes <==> mp.spokes && !(Reloads(mp, e) && mp.marked && !mp.deleting))
  }

  /** Ready is kept or set by a pass in exactly these cases. */
  lemma ReadyIff(mp: MirrorPeer, e: Env, mp': MirrorPeer)
    requires Pass(mp, e, mp')
    ensures mp'.status.phase == Ready <==>
            || (WritesStatus(mp, e) && EndOf(mp, e) == Complete)
            || ((!WritesStatus(mp, e) || Reloads(mp, e)) && mp.status.phase == Ready)
  {
  }

  lemma {:induction false} ReachesIff(addons: seq<AddOn>)
    requires CleanUpGoesThrough(addons)
    ensures ReachesStrip(addons) <==> exists a <- addons :: Strips(a)
  {
    if addons != [] {
      ReachesIff(addons[1..]);
      assert addons == [addons[0]] + addons[1..];
    }
  }

  /** The write of the object that sets the vendor, and then all the checks, succeed. */
  predicate Valid(mp: MirrorPeer, e: Env) {
    (mp.vendorSet || (e.migrationOk && e.writes)) && e.vendorOk && e.specOk && e.versionOk
  }

  /** No addon stands in the way; and if one is gone or about to go, the spoke finalizers could be stripped. */
  ghost predicate SyncCleanedUp(mp: MirrorPeer, e: Env) {
    && (forall a <- e.addons :: a != Unreadable && a != Undeletable)
    && (mp.spokes && (Missing in e.addons || Ownerless in e.addons) ==> e.writes)
  }

  /** When a pass gets to its end. */
  lemma CompleteIff(mp: MirrorPeer, e: Env)
    ensures EndOf(mp, e) == Complete <==>
            && Valid(mp, e) && !mp.deleting && mp.marked && e.stepsOk
            && if mp.async then PeeringDone(e.keys, e.info, e.works) else SyncCleanedUp(mp, e)
  {
    if Known(e.keys, e.info) {
      PeersPassIff(e.keys, e.info, e.works);
      OverallIs(PeerCheck, e.keys, e.info, e.works, NoString);
    }
    if CleanUpGoesThrough(e.addons) {
      ReachesIff(e.addons);
    }
  }

  predicate Is(s: Status, c: ConditionType, value: bool) {
    c in s.conditions && s.conditions[c] == value
  }

  /** What a pass that writes the status, and has not read it anew, records: a phase for each way to end, Validated in
      any case, Deleted and Configured where it got as far, and the other conditions as they were. */
  lemma PassRecords(mp: MirrorPeer, e: Env, mp': MirrorPeer)
    requires Pass(mp, e, mp') && WritesStatus(mp, e) && !Reloads(mp, e)
    ensures var s, complete := mp'.status, EndOf(mp, e) == Complete;
      && Is(s, Validated, Valid(mp, e))
      && (!Valid(mp, e) ==> s.phase == PhaseFailed && s.conditions - {Validated} == mp.status.conditions - {Validated})
      && (Valid(mp, e) && mp.deleting ==>
            s.phase == Deleting && Is(s, Deleted, false)
            && s.conditions - {Validated, Deleted} == mp.status.conditions - {Validated, Deleted})
      && (Valid(mp, e) && !mp.deleting && !mp.marked ==>
            s.phase == Initializing && s.conditions - {Validated} == mp.status.conditions - {Validated})
      && (Valid(mp, e) && !mp.deleting && mp.marked ==>
            s.phase == (if complete then Ready else Configuring) && Is(s, Configured, complete))
  {
  }

  /** What Ready should say about the conditions. */
  predicate Sound(s: Status) {
    s.phase == Ready ==> Has(s, Configured) && Has(s, Validated)
  }

  /** A pass strips the spoke finalizers of a live, marked, synchronous MirrorPeer and gets to the end, while the
      stored status does not have Validated as true. */
  predicate StripsUnvalidated(mp: MirrorPeer, e: Env) {
    && !mp.deleting && mp.marked && !mp.async && mp.spokes && !Has(mp.status, Validated)
    && (mp.vendorSet || e.migrationOk) && e.vendorOk && e.specOk && e.versionOk && e.stepsOk
    && CleanUpGoesThrough(e.addons) && (exists a <- e.addons :: Strips(a))
    && e.writes && e.statusWrites
  }

  /** A sound status stays sound except in exactly this case. */
  lemma SoundKeptIff(mp: MirrorPeer, e: Env, mp': MirrorPeer)
    requires Pass(mp, e, mp') && Sound(mp.status)
    ensures Sound(mp'.status) <==> !StripsUnvalidated(mp, e)
  {
    ReadyIff(mp, e, mp');
    if CleanUpGoesThrough(e.addons) {
      ReachesIff(e.addons);
    }
  }

  /** A run: passes, and between them whatever others do to the object; the status is the hub's alone, and
      the type never changes. */
  ghost predicate Run(states: seq<MirrorPeer>, envs: seq<Option<Env>>) {
    && |states| == |envs| + 1 && states[0].status == Status(NoPhase, map[])
    && forall i :: 0 <= i < |envs| ==>
         match envs[i]
         case None => states[i + 1].status == states[i].status && states[i + 1].async == states[i].async
         case Some(e) => Pass(states[i], e, states[i + 1])
  }

  /** Wherever a run finds the MirrorPeer Ready, Configured is true and some earlier pass went all the way;
      if asynchronous, with every peer work applied and peered and every mapping applied, and with Validated
      true since. */
  lemma {:induction false} ReadyComesFromACompletePass(states: seq<MirrorPeer>, envs: seq<Option<Env>>, k: nat)
    requires Run(states, envs) && k < |states| && states[k].status.phase == Ready
    ensures Has(states[k].status, Configured)
    ensures states[k].async ==> Has(states[k].status, Validated)
    ensures exists i :: 0 <= i < k && envs[i].Some? && EndOf(states[i], envs[i].value) == Complete
                     && (states[k].async ==> PeeringDone(envs[i].value.keys, envs[i].value.info, envs[i].value.works))
  {
    assert k > 0;
    SameType(states, envs, k);
    SameType(states, envs, k - 1);
    var complete := envs[k - 1].Some? && WritesStatus(states[k - 1], envs[k - 1].value)
                    && EndOf(states[k - 1], envs[k - 1].value) == Complete;
    if !complete {
      ReadyComesFromACompletePass(states, envs, k - 1);
      var i :| 0 <= i < k - 1 && envs[i].Some? && EndOf(states[i], envs[i].value) == Complete
               && (states[k - 1].async ==> PeeringDone(envs[i].value.keys, envs[i].value.info, envs[i].value.works));
    }
  }

  lemma {:induction false} SameType(states: seq<MirrorPeer>, envs: seq<Option<Env>>, k: nat)
    requires Run(states, envs) && k < |states|
    ensures states[k].async == states[0].async
  {
    if k > 0 {
      SameType(states, envs, k - 1);
    }
  }

  ghost predicate StripsAt(states: seq<MirrorPeer>, envs: seq<Option<Env>>, i: nat)
    requires i < |envs| < |states|
  {
    envs[i].Some? && StripsUnvalidated(states[i], envs[i].value)
  }

  lemma {:induction false} SoundUpTo(states: seq<MirrorPeer>, envs: seq<Option<Env>>, k: nat)
    requires Run(states, envs) && k < |states| && forall i :: 0 <= i < k ==> !StripsAt(states, envs, i)
    ensures Sound(states[k].status)
  {
    if k > 0 {
      SoundUpTo(states, envs, k - 1);
      assert !StripsAt(states, envs, k - 1);
      if envs[k - 1].Some? {
        SoundKeptIff(states[k - 1], envs[k - 1].value, states[k]);
      }
    }
  }

  /** Over whole runs: Ready always implies Configured and Validated if and only if no pass does that. */
  lemma SoundRunsIff(states: seq<MirrorPeer>, envs: seq<Option<Env>>)
    requires Run(states, envs)
    ensures (forall k :: 0 <= k < |states| ==> Sound(states[k].status)) <==>
            forall i :: 0 <= i < |envs| ==> !StripsAt(states, envs, i)
  {
    if forall i :: 0 <= i < |envs| ==> !StripsAt(states, envs, i) {
      forall k | 0 <= k < |states| ensures Sound(states[k].status) {
        SoundUpTo(states, envs, k);
      }
    }
    if forall k :: 0 <= k < |states| ==> Sound(states[k].status) {
      forall i | 0 <= i < |envs| ensures !StripsAt(states, envs, i) {
        assert Sound(states[i].status) && Sound(states[i + 1].status);
        if envs[i].Some? {
          SoundKeptIff(states[i], envs[i].value, states[i + 1]);
        }
      }
    }
  }

  /** The exception happens, in three passes from the start: a synchronous MirrorPeer with a spoke finalizer fails
      validation; then it is valid, but the pass only marks it and puts the stored status back; the third pass
      strips the spoke finalizer and makes it Ready, with Validated still false. */
  lemma ReadyButNotValidated() returns (states: seq<MirrorPeer>, envs: seq<Option<Env>>)
    ensures Run(states, envs) && |states| == 4 && !states[0].async
    ensures states[3].status.phase == Ready && !Has(states[3].status, Validated)
  {
    var fine := Env(true, true, true, true, true, Blocked, true, true, [], map[], Works(map[], {}), [Missing, Missing]);
    var first := MirrorPeer(false, false, true, false, true, Status(NoPhase, map[]));
    var failed := first.(status := Status(PhaseFailed, map[Validated := false]));
    var marked := failed.(marked := true);
    var ready := marked.(spokes := false, status := Status(Ready, map[Validated := false, Configured := true]));
    states := [first, failed, marked, ready];
    envs := [Some(fine.(specOk := false)), Some(fine), Some(fine)];
    assert ReachesStrip([Missing, Missing]);
    assert Pass(first, fine.(specOk := false), failed);
    assert Pass(failed, fine, marked);
    assert Pass(marked, fine, ready);
  }

  class MirrorPeerReconciler {
    /** The MirrorPeer as the API server has it. */
    var stored: MirrorPeer

    constructor (mp: MirrorPeer)
      ensures stored == mp
    {
      stored := mp;
    }

    method Reconcile(e: Env) returns (end: End)
      modifies this
      ensures end == EndOf(old(stored), e)
      ensures Pass(old(stored), e, stored)
    {
      var mp := stored;
      if !mp.vendorSet {
        if !e.migrationOk || !e.writes {
          return NotMigrated;
        }
        stored := stored.(vendorSet := true);
        mp := stored;
      }
      end, mp := ReconcilePhases(mp, e);
      if end != Crashed && e.statusWrites {
        stored := stored.(status := mp.status);
      }
    }

    /** The phases, up to the write of the status; `mp` is the copy as it is then. */
    method ReconcilePhases(copy: MirrorPeer, e: Env) returns (end: End, mp: MirrorPeer)
      requires copy == stored && copy.vendorSet
      modifies this
      ensures end == EndOf(copy, e)
      ensures Pass(copy, e.(statusWrites := true), stored.(status := if end == Crashed then copy.status else mp.status))
      ensures stored.status == copy.status
    {
      mp := copy.(status := copy.status.(phase := Initializing));
      if !e.vendorOk || !e.specOk || !e.versionOk {
        mp := mp.(status := Status(PhaseFailed, mp.status.conditions[Validated := false]));
        return if !e.vendorOk then NoVendor else Invalid, mp;
      }
      mp := mp.(status := mp.status.(conditions := mp.status.conditions[Validated := true]));

      if mp.deleting {
        mp := mp.(status := Status(Deleting, mp.status.conditions[Deleted := false]));
        if e.deletion.Finished? && mp.marked && e.writes {
          // taking the hub's finalizer off is a write of the object
          stored := stored.(marked := false);
          mp := mp.(marked := false, status := stored.status);
        }
        return DeletionEnd, mp;
      }

      if !mp.marked {
        if e.writes {
          stored := stored.(marked := true);
          mp := mp.(marked := true, status := stored.status);
        }
        return Marking, mp;
      }

      mp := mp.(status := Status(Configuring, mp.status.conditions[Configured := false]));
      if !e.stepsOk {
        return NotConfigured, mp;
      }
      if mp.async {
        var o := IsProviderModePeeringDone(e.keys, e.info, e.works);
        if o == Panic {
          return Crashed, mp;
        }
        if o != Done(true) {
          mp := mp.(status := mp.status.(conditions := mp.status.conditions[Configured := false]));
          return NotConfigured, mp;
        }
      } else {
        var ok, mp' := CleanUpManagedClusterAddonForSyncDR(mp, stored.status, e.addons, e.writes);
        if e.writes {
          stored := stored.(spokes := mp'.spokes);
        }
        mp := mp';
        if !ok {
          return NotConfigured, mp;
        }
      }
      mp := mp.(status := Status(Ready, mp.status.conditions[Configured := true]));
      return Complete, mp;
    }
  }
}
