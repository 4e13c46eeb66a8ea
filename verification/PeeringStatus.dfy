/** When the peering of an asynchronous MirrorPeer counts as done: two loops over its items that look at
    the ManifestWorks on the provider clusters. */
module PeeringStatus {
  import opened Options

  datatype Condition = Condition(kind: string, isTrue: bool)

  /** The status feedback of one applied manifest; a feedback value may come without a string. */
  datatype ManifestCondition = ManifestCondition(kind: string, values: seq<Option<string>>)

  datatype ManifestWork = ManifestWork(conditions: seq<Condition>, manifests: seq<ManifestCondition>)

  /** ManifestWorks by namespace, which is the provider cluster, and name; a Get may also fail. */
  datatype Works = Works(objects: map<(string, string), ManifestWork>, unreadable: set<(string, string)>)

  /** The provider cluster of each client, by client-info key. */
  type Providers = map<string, string>

  /** `Panic` is a nil dereference. */
  datatype Outcome = Done(ok: bool) | Error | Panic

  const APPLIED := "Applied"
  const PEER_KIND := "StorageClusterPeer"

  function PeerWork(provider: string): (string, string) {
    (provider, "storageclusterpeer-" + provider)
  }

  function MappingWork(provider: string): (string, string) {
    (provider, "storage-client-mapping")
  }

  predicate IsApplied(w: ManifestWork) {
    exists c <- w.conditions :: c == Condition(APPLIED, true)
  }

  /** The first feedback value of the first StorageClusterPeer of the work. */
  function Feedback(ms: seq<ManifestCondition>): Option<Option<string>> {
    if ms == [] then None
    else if ms[0].kind == PEER_KIND then (if ms[0].values == [] then None else Some(ms[0].values[0]))
    else Feedback(ms[1..])
  }

  /** `Passed` is the answer hoped for, `NoString` a feedback value without a string. */
  datatype Verdict = Passed | Waiting | Failed | NoString

  function PeerVerdict(works: Works, provider: string): Verdict {
    if PeerWork(provider) in works.unreadable then Failed
    else if PeerWork(provider) !in works.objects then Waiting
    else
      var w := works.objects[PeerWork(provider)];
      if !IsApplied(w) then Waiting
      else match Feedback(w.manifests)
        case None => Waiting
        case Some(None) => NoString
        case Some(Some(s)) => if s == "Failed" then Failed else if s == "Peered" then Passed else Waiting
  }

  function MappingVerdict(works: Works, provider: string): Verdict {
    if MappingWork(provider) in works.unreadable then Failed
    else if MappingWork(provider) in works.objects && IsApplied(works.objects[MappingWork(provider)]) then Passed
    else Waiting
  }

  // ---------- the verdicts in terms of the works ----------

  /** The first StorageClusterPeer among the manifests has feedback, and this is its first value. */
  predicate FirstPeerSays(ms: seq<ManifestCondition>, v: Option<string>) {
    exists i :: 0 <= i < |ms| && ms[i].kind == "StorageClusterPeer"
      && (forall j :: 0 <= j < i ==> ms[j].kind != "StorageClusterPeer")
      && ms[i].values != [] && ms[i].values[0] == v
  }

  lemma {:induction false} FeedbackIs(ms: seq<ManifestCondition>, v: Option<string>)
    ensures Feedback(ms) == Some(v) <==> FirstPeerSays(ms, v)
  {
    if ms != [] && ms[0].kind != PEER_KIND {
      var rest := ms[1..];
      FeedbackIs(rest, v);
      if FirstPeerSays(ms, v) {
        var i :| 0 <= i < |ms| && ms[i].kind == PEER_KIND
          && (forall j :: 0 <= j < i ==> ms[j].kind != PEER_KIND) && ms[i].values != [] && ms[i].values[0] == v;
        assert rest[i - 1] == ms[i] && forall j :: 0 <= j < i - 1 ==> rest[j] == ms[j + 1];
      }
      if FirstPeerSays(rest, v) {
        var i :| 0 <= i < |rest| && rest[i].kind == PEER_KIND
          && (forall j :: 0 <= j < i ==> rest[j].kind != PEER_KIND) && rest[i].values != [] && rest[i].values[0] == v;
        assert ms[i + 1] == rest[i] && forall j :: 0 < j < i + 1 ==> ms[j] == rest[j - 1];
      }
    }
  }

  /** A work that can be read, is stored, and has been applied. */
  predicate AppliedWork(works: Works, key: (string, string)) {
    key !in works.unreadable && key in works.objects && Condition("Applied", true) in works.objects[key].conditions
  }

  /** The StorageClusterPeer on the provider is applied, and its feedback is this value. */
  predicate PeerSays(works: Works, provider: string, v: Option<string>) {
    var key := (provider, "storageclusterpeer-" + provider);
    AppliedWork(works, key) && FirstPeerSays(works.objects[key].manifests, v)
  }

  /** Which verdict a peer work gets, by what it says: one for each, and waiting if it says anything else or nothing. */
  lemma PeerVerdictIs(works: Works, provider: string)
    ensures PeerVerdict(works, provider) == Passed <==> PeerSays(works, provider, Some("Peered"))
    ensures PeerVerdict(works, provider) == NoString <==> PeerSays(works, provider, None)
    ensures PeerVerdict(works, provider) == Failed <==>
            (provider, "storageclusterpeer-" + provider) in works.unreadable || PeerSays(works, provider, Some("Failed"))
  {
    if PeerWork(provider) in works.objects {
      var ms := works.objects[PeerWork(provider)].manifests;
      FeedbackIs(ms, Some("Peered"));
      FeedbackIs(ms, None);
      FeedbackIs(ms, Some("Failed"));
    }
  }

  lemma MappingVerdictIs(works: Works, provider: string)
    ensures MappingVerdict(works, provider) == Passed <==> AppliedWork(works, (provider, "storage-client-mapping"))
    ensures MappingVerdict(works, provider) == Failed <==> (provider, "storage-client-mapping") in works.unreadable
    ensures MappingVerdict(works, provider) != NoString
  {
  }

  /** The two things that are looked at. */
  datatype Check = PeerCheck | MappingCheck

  function VerdictOf(check: Check, works: Works, provider: string): Verdict {
    if check == PeerCheck then PeerVerdict(works, provider) else MappingVerdict(works, provider)
  }

  predicate Known(keys: seq<string>, info: Providers) {
    forall k <- keys :: k in info
  }

  /** The first `i` items pass the check. */
  predicate PassUpTo(check: Check, keys: seq<string>, info: Providers, works: Works, i: nat)
    requires i <= |keys| && Known(keys, info)
  {
    forall j :: 0 <= j < i ==> VerdictOf(check, works, info[keys[j]]) == Passed
  }

  /** The first item that does not pass gets this verdict. */
  predicate EndsAt(check: Check, keys: seq<string>, info: Providers, works: Works, v: Verdict)
    requires Known(keys, info)
  {
    exists i :: 0 <= i < |keys| && VerdictOf(check, works, info[keys[i]]) == v && PassUpTo(check, keys, info, works, i)
  }

  /** The verdict on the whole list: that of the first item that does not pass. */
  function Overall(check: Check, keys: seq<string>, info: Providers, works: Works): Verdict
    requires Known(keys, info)
  {
    if keys == [] then Passed
    else
      var v := VerdictOf(check, works, info[keys[0]]);
      if v != Passed then v else Overall(check, keys[1..], info, works)
  }

  lemma {:induction false} OverallIs(check: Check, keys: seq<string>, info: Providers, works: Works, v: Verdict)
    requires Known(keys, info)
    ensures Overall(check, keys, info, works) == Passed <==> PassUpTo(check, keys, info, works, |keys|)
    ensures v != Passed ==> (Overall(check, keys, info, works) == v <==> EndsAt(check, keys, info, works, v))
  {
    if keys != [] && VerdictOf(check, works, info[keys[0]]) == Passed {
      var rest := keys[1..];
      OverallIs(check, rest, info, works, v);
      assert PassUpTo(check, keys, info, works, 1);
      if PassUpTo(check, keys, info, works, |keys|) {
        forall j | 0 <= j < |rest| ensures VerdictOf(check, works, info[rest[j]]) == Passed {
          assert rest[j] == keys[j + 1];
        }
      }
      if PassUpTo(check, rest, info, works, |rest|) {
        forall j | 0 <= j < |keys| ensures VerdictOf(check, works, info[keys[j]]) == Passed {
          assert j > 0 ==> keys[j] == rest[j - 1];
        }
      }
      if v != Passed {
        EndsShift(check, keys, info, works, v);
      }
    }
  }

  lemma EndsShift(check: Check, keys: seq<string>, info: Providers, works: Works, v: Verdict)
    requires Known(keys, info) && keys != [] && VerdictOf(check, works, info[keys[0]]) == Passed && v != Passed
    ensures EndsAt(check, keys, info, works, v) <==> EndsAt(check, keys[1..], info, works, v)
  {
    var rest := keys[1..];
    if EndsAt(check, keys, info, works, v) {
      var i :| 0 <= i < |keys| && VerdictOf(check, works, info[keys[i]]) == v && PassUpTo(check, keys, info, works, i);
      forall j | 0 <= j < i - 1 ensures VerdictOf(check, works, info[rest[j]]) == Passed {
        assert rest[j] == keys[j + 1];
      }
      assert rest[i - 1] == keys[i];
    }
    if EndsAt(check, rest, info, works, v) {
      var i :| 0 <= i < |rest| && VerdictOf(check, works, info[rest[i]]) == v && PassUpTo(check, rest, info, works, i);
      forall j | 0 <= j < i + 1 ensures VerdictOf(check, works, info[keys[j]]) == Passed {
        assert j > 0 ==> keys[j] == rest[j - 1];
      }
      assert rest[i] == keys[i + 1];
    }
  }

  function Answer(v: Verdict): Outcome {
    match v
    case Passed => Done(true)
    case Waiting => Done(false)
    case Failed => Error
    case NoString => Panic
  }

  lemma PeersPassIff(keys: seq<string>, info: Providers, works: Works)
    requires Known(keys, info)
    ensures PassUpTo(PeerCheck, keys, info, works, |keys|) <==>
            forall k <- keys :: PeerSays(works, info[k], Some("Peered"))
  {
    forall p ensures PeerVerdict(works, p) == Passed <==> PeerSays(works, p, Some("Peered")) {
      PeerVerdictIs(works, p);
    }
    if PassUpTo(PeerCheck, keys, info, works, |keys|) {
      forall k <- keys ensures PeerSays(works, info[k], Some("Peered")) {
        var i :| 0 <= i < |keys| && keys[i] == k;
        assert VerdictOf(PeerCheck, works, info[keys[i]]) == Passed;
      }
    }
  }

  lemma MappingsPassIff(keys: seq<string>, info: Providers, works: Works)
    requires Known(keys, info)
    ensures PassUpTo(MappingCheck, keys, info, works, |keys|) <==>
            forall k <- keys :: AppliedWork(works, (info[k], "storage-client-mapping"))
  {
    forall p ensures MappingVerdict(works, p) == Passed <==> AppliedWork(works, (p, "storage-client-mapping")) {
      MappingVerdictIs(works, p);
    }
    if PassUpTo(MappingCheck, keys, info, works, |keys|) {
      forall k <- keys ensures AppliedWork(works, (info[k], "storage-client-mapping")) {
        var i :| 0 <= i < |keys| && keys[i] == k;
        assert VerdictOf(MappingCheck, works, info[keys[i]]) == Passed;
      }
    }
  }

  method CollectProviders(keys: seq<string>, info: Providers) returns (ok: bool, providers: seq<string>)
    ensures ok <==> Known(keys, info)
    ensures ok ==> |providers| == |keys| && forall i :: 0 <= i < |keys| ==> providers[i] == info[keys[i]]
  {
    providers := [];
    for i := 0 to |keys|
      invariant |providers| == i && forall j :: 0 <= j < i ==> keys[j] in info && providers[j] == info[keys[j]]
    {
      if keys[i] !in info {
        return false, [];
      }
      providers := providers + [info[keys[i]]];
    }
    ok := true;
  }

  method FindApplied(w: ManifestWork) returns (applied: bool)
    ensures applied <==> IsApplied(w)
  {
    applied := false;
    for i := 0 to |w.conditions|
      invariant !applied && Condition(APPLIED, true) !in w.conditions[..i]
    {
      if w.conditions[i].kind == APPLIED && w.conditions[i].isTrue {
        applied := true;
        assert w.conditions[i] == Condition(APPLIED, true) && w.conditions[i] in w.conditions;
        break;
      }
    }
    assert w.conditions[..|w.conditions|] == w.conditions;
  }

  method FindFeedback(w: ManifestWork) returns (peerStatus: Option<ManifestCondition>)
    ensures Feedback(w.manifests) ==
      if peerStatus.Some? && peerStatus.value.values != [] then Some(peerStatus.value.values[0]) else None
  {
    peerStatus := None;
    for i := 0 to |w.manifests|
      invariant peerStatus == None && Feedback(w.manifests) == Feedback(w.manifests[i..])
    {
      assert w.manifests[i..][1..] == w.manifests[i + 1..];
      if w.manifests[i].kind == PEER_KIND {
        peerStatus := Some(w.manifests[i]);
        break;
      }
    }
  }

  /** What one item of the list says: the body of the loop. */
  method CheckPeerWork(works: Works, provider: string) returns (v: Verdict)
    ensures v == PeerVerdict(works, provider)
    ensures v == Passed <==> PeerSays(works, provider, Some("Peered"))
    ensures v == NoString <==> PeerSays(works, provider, None)
    ensures v == Failed <==>
            (provider, "storageclusterpeer-" + provider) in works.unreadable || PeerSays(works, provider, Some("Failed"))
  {
    PeerVerdictIs(works, provider);
    var name := PeerWork(provider);
    if name in works.unreadable {
      return Failed;
    }
    if name !in works.objects {
      return Waiting;
    }
    var applied := FindApplied(works.objects[name]);
    if !applied {
      return Waiting;
    }
    var peerStatus := FindFeedback(works.objects[name]);
    if peerStatus.None? || |peerStatus.value.values| == 0 {
      return Waiting;
    }
    if peerStatus.value.values[0] == None {
      return NoString;
    }
    var state := peerStatus.value.values[0].value;
    if state == "Failed" {
      return Failed;
    } else if state != "Peered" {
      return Waiting;
    }
    return Passed;
  }

  method CheckMappingWork(works: Works, provider: string) returns (v: Verdict)
    ensures v == MappingVerdict(works, provider)
    ensures v == Passed <==> AppliedWork(works, (provider, "storage-client-mapping"))
    ensures v == Failed <==> (provider, "storage-client-mapping") in works.unreadable
  {
    MappingVerdictIs(works, provider);
    var name := MappingWork(provider);
    if name in works.unreadable {
      return Failed;
    }
    if name !in works.objects {
      return Waiting;
    }
    var applied := FindApplied(works.objects[name]);
    return if applied then Passed else Waiting;
  }

  /** The items are looked at in order; see OverallIs for what the answer says of them. */
  method CheckStorageClusterPeerStatus(keys: seq<string>, info: Providers, works: Works) returns (o: Outcome)
    ensures o == if Known(keys, info) then Answer(Overall(PeerCheck, keys, info, works)) else Error
    ensures o == Done(true) <==> Known(keys, info) && forall k <- keys :: PeerSays(works, info[k], Some("Peered"))
  {
    if Known(keys, info) {
      PeersPassIff(keys, info, works);
    }
    var ok, providers := CollectProviders(keys, info);
    if !ok {
      return Error;
    }
    OverallIs(PeerCheck, keys, info, works, Waiting);
    for i := 0 to |providers|
      invariant Overall(PeerCheck, keys, info, works) == Overall(PeerCheck, keys[i..], info, works)
    {
      assert keys[i..][0] == keys[i] && keys[i..][1..] == keys[i + 1..];
      var v := CheckPeerWork(works, providers[i]);
      if v != Passed {
        return Answer(v);
      }
    }
    return Done(true);
  }

  method CheckClientPairingConfigMapStatus(keys: seq<string>, info: Providers, works: Works) returns (o: Outcome)
    ensures o == if Known(keys, info) then Answer(Overall(MappingCheck, keys, info, works)) else Error
    ensures o == Done(true) <==>
            Known(keys, info) && forall k <- keys :: AppliedWork(works, (info[k], "storage-client-mapping"))
  {
    if Known(keys, info) {
      MappingsPassIff(keys, info, works);
    }
    var ok, providers := CollectProviders(keys, info);
    if !ok {
      return Error;
    }
    OverallIs(MappingCheck, keys, info, works, Waiting);
    for i := 0 to |providers|
      invariant Overall(MappingCheck, keys, info, works) == Overall(MappingCheck, keys[i..], info, works)
    {
      assert keys[i..][0] == keys[i] && keys[i..][1..] == keys[i + 1..];
      var v := CheckMappingWork(works, providers[i]);
      if v != Passed {
        return Answer(v);
      }
    }
    return Done(true);
  }

  /** Peering is done: on every item's provider the peer is applied and says Peered, and the mapping is applied. */
  predicate PeeringDone(keys: seq<string>, info: Providers, works: Works) {
    && Known(keys, info)
    && forall k <- keys ::
         PeerSays(works, info[k], Some("Peered")) && AppliedWork(works, (info[k], "storage-client-mapping"))
  }

  /** The mappings are looked at only if no peer work ends the check with an error or a panic. */
  method IsProviderModePeeringDone(keys: seq<string>, info: Providers, works: Works) returns (o: Outcome)
    ensures o == Done(true) <==> PeeringDone(keys, info, works)
    ensures o == Panic <==> Known(keys, info) && Overall(PeerCheck, keys, info, works) == NoString
    ensures o == Error <==>
      !Known(keys, info) || Overall(PeerCheck, keys, info, works) == Failed
      || (Overall(PeerCheck, keys, info, works) != NoString && Overall(MappingCheck, keys, info, works) == Failed)
  {
    if Known(keys, info) {
      OverallIs(PeerCheck, keys, info, works, Waiting);
      OverallIs(MappingCheck, keys, info, works, NoString);
    }
    o := CheckStorageClusterPeerStatus(keys, info, works);
    if !o.Done? {
      return;
    }
    var mapped := CheckClientPairingConfigMapStatus(keys, info, works);
    if !mapped.Done? {
      return mapped;
    }
    return Done(o.ok && mapped.ok);
  }
}
