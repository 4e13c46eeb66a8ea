/** The list of S3 profiles in Ramen's configuration: how one is updated and removed among others. */
module RamenProfiles {
  import opened Options
  import opened Sequences

  /** `velero` and `ca` are the two fields that may be nil; what `velero` refers to is
      never looked into. */
  datatype Profile<+V> = Profile(
    name: string, bucket: string, endpoint: string, region: string,
    secretName: string, secretNamespace: string,
    velero: Option<V>, ca: Option<string>)

  function Merged<V>(current: Profile<V>, expected: Profile<V>): Profile<V> {
    expected.(velero := if current.velero.Some? then current.velero else expected.velero,
              ca := if current.ca.Some? then current.ca else expected.ca)
  }

  predicate FieldsEqual<V>(expected: Profile<V>, found: Profile<V>) {
    && expected.name == found.name && expected.bucket == found.bucket && expected.region == found.region
    && expected.endpoint == found.endpoint && expected.secretName == found.secretName
  }

  function Overwritten<V>(expected: Profile<V>, found: Profile<V>): Profile<V> {
    expected.(secretNamespace := found.secretNamespace)
  }

  /** What an S3Configuration expects: none of the fields that are the user's. */
  predicate Generated<V>(e: Profile<V>) {
    e.velero.None? && e.ca.None? && e.secretNamespace == ""
  }

  /** The position of the first profile of that name, or the length of the list. */
  function First<V>(ps: seq<Profile<V>>, name: string): (i: nat)
    ensures i <= |ps| && (i < |ps| ==> ps[i].name == name)
    ensures forall j :: 0 <= j < i ==> ps[j].name != name
  {
    if ps == [] || ps[0].name == name then 0 else 1 + First(ps[1..], name)
  }

  predicate Has<V>(ps: seq<Profile<V>>, name: string) {
    First(ps, name) < |ps|
  }

  /** The full update: the first profile of that name is overwritten, or a new one is appended. */
  function Updated<V>(ps: seq<Profile<V>>, e: Profile<V>): seq<Profile<V>> {
    var i := First(ps, e.name);
    if i < |ps| then ps[i := Overwritten(Merged(ps[i], e), ps[i])] else ps + [e]
  }

  /** The fast path: the five generated fields of the profile are already there. */
  predicate Skips<V>(ps: seq<Profile<V>>, e: Profile<V>) {
    Has(ps, e.name) && FieldsEqual(e, ps[First(ps, e.name)])
  }

  /** The update skips the write exactly when the full update would change none of the eight fields of any
      profile, although it compares only five. */
  lemma SkipIsUpdate<V>(ps: seq<Profile<V>>, e: Profile<V>)
    requires Generated(e)
    ensures Skips(ps, e) <==> Updated(ps, e) == ps
  {
    var i := First(ps, e.name);
    if i < |ps| {
      assert Updated(ps, e)[i] == Overwritten(Merged(ps[i], e), ps[i]);
      assert ps[i := ps[i]] == ps;
    }
  }

  predicate UniqueNames<V>(ps: seq<Profile<V>>) {
    forall i, j :: 0 <= i < j < |ps| ==> ps[i].name != ps[j].name
  }

  /** `after` is `before` with the generated parts of one profile set. */
  ghost predicate OneProfileSet<V>(before: seq<Profile<V>>, after: seq<Profile<V>>, e: Profile<V>) {
    var at := First(before, e.name);
    && |after| == (if at < |before| then |before| else |before| + 1)
    && (forall i :: 0 <= i < |before| && i != at ==> after[i] == before[i])
    && after[at].name == e.name && after[at].bucket == e.bucket && after[at].region == e.region
    && after[at].endpoint == e.endpoint && after[at].secretName == e.secretName
    && (at == |before| ==> after[at] == e)
    && (at < |before| ==>
          && after[at].velero == before[at].velero && after[at].ca == before[at].ca
          && after[at].secretNamespace == before[at].secretNamespace)
  }

  lemma UpdateSetsOne<V>(ps: seq<Profile<V>>, e: Profile<V>)
    requires Generated(e)
    ensures OneProfileSet(ps, Updated(ps, e), e)
  {
  }

  lemma SetIsFirst<V>(before: seq<Profile<V>>, after: seq<Profile<V>>, e: Profile<V>)
    requires OneProfileSet(before, after, e)
    ensures First(after, e.name) == First(before, e.name) && Skips(after, e)
    ensures UniqueNames(before) ==> UniqueNames(after)
  {
  }

  function Removed<V>(ps: seq<Profile<V>>, name: string): seq<Profile<V>> {
    if ps == [] then [] else (if ps[0].name == name then [] else [ps[0]]) + Removed(ps[1..], name)
  }

  lemma {:induction false} RemovedAppend<V>(ps: seq<Profile<V>>, qs: seq<Profile<V>>, name: string)
    ensures Removed(ps + qs, name) == Removed(ps, name) + Removed(qs, name)
  {
    if ps == [] {
      assert ps + qs == qs;
    } else {
      RemovedAppend(ps[1..], qs, name);
      TailOfSum(ps, qs);
      SumIsAssociative(if ps[0].name == name then [] else [ps[0]], Removed(ps[1..], name), Removed(qs, name));
    }
  }

  /** One more profile stays, after all that stay, unless it has that name. */
  lemma RemovedStep<V>(ps: seq<Profile<V>>, p: Profile<V>, name: string)
    ensures Removed(ps + [p], name) == if p.name == name then Removed(ps, name) else Removed(ps, name) + [p]
  {
    RemovedAppend(ps, [p], name);
    assert Removed([p], name) == if p.name == name then [] else [p];
  }

  /** Exactly the profiles of other names remain; if there were only such, the list is the same. */
  lemma {:induction false} RemovedHasOthers<V>(ps: seq<Profile<V>>, name: string)
    ensures forall p :: p in Removed(ps, name) <==> p in ps && p.name != name
    ensures !Has(Removed(ps, name), name)
    ensures !Has(ps, name) ==> Removed(ps, name) == ps
  {
    if ps != [] {
      RemovedHasOthers(ps[1..], name);
      assert forall p :: p in ps <==> p == ps[0] || p in ps[1..];
    }
    var r := Removed(ps, name);
    assert forall k :: 0 <= k < |r| ==> r[k] in r && r[k].name != name;
  }

  /** Removing a profile after an update leaves what removing it before would have left. */
  lemma RemovedUpdated<V>(ps: seq<Profile<V>>, e: Profile<V>)
    ensures Removed(Updated(ps, e), e.name) == Removed(ps, e.name)
  {
    var i := First(ps, e.name);
    if i < |ps| {
      RemovedMiddle(ps, i, ps[i], e.name);
      RemovedMiddle(Updated(ps, e), i, Updated(ps, e)[i], e.name);
      assert Updated(ps, e)[..i] == ps[..i] && Updated(ps, e)[i + 1..] == ps[i + 1..];
    } else {
      RemovedAppend(ps, [e], e.name);
    }
  }

  lemma RemovedMiddle<V>(ps: seq<Profile<V>>, i: nat, p: Profile<V>, name: string)
    requires i < |ps| && ps[i] == p && p.name == name
    ensures Removed(ps, name) == Removed(ps[..i], name) + Removed(ps[i + 1..], name)
  {
    assert ps == ps[..i] + ([p] + ps[i + 1..]);
    RemovedAppend(ps[..i], [p] + ps[i + 1..], name);
    RemovedAppend([p], ps[i + 1..], name);
  }
}
