/** The configuration document of Ramen's hub operator: how an S3Configuration writes its profile into a
    document that others also edit, and takes it out again. */
module RamenConfig {
  import opened Options
  import opened RamenProfiles

  // ---------- documents ----------

  /** The keys the code knows, at any level of the document, and all the others. */
  datatype Key =
    | S3StoreProfiles
    | S3ProfileName | S3Bucket | S3CompatibleEndpoint | S3Region | S3SecretRef | VeleroKeyRef | CACertificates
    | Name | Namespace
    | Other(string)

  /** A parsed YAML or JSON document. */
  datatype Value = Null | Text(text: string) | List(items: seq<Value>) | Dict(fields: map<Key, Value>)

  type Document = map<Key, Value>

  type S3Profile = Profile<Document>

  // ---------- the codec ----------

  /** A missing key and an explicit null both leave the zero value. */
  function Lookup(m: Document, k: Key): Value {
    if k in m then m[k] else Null
  }

  predicate TextOrNull(v: Value) {
    v.Null? || v.Text?
  }

  predicate DictOrNull(v: Value) {
    v.Null? || v.Dict?
  }

  function AsText(v: Value): string
    requires TextOrNull(v)
  {
    if v.Null? then "" else v.text
  }

  function AsDict(v: Value): Document
    requires DictOrNull(v)
  {
    if v.Null? then map[] else v.fields
  }

  predicate DecodableSecret(v: Value) {
    DictOrNull(v) && TextOrNull(Lookup(AsDict(v), Name)) && TextOrNull(Lookup(AsDict(v), Namespace))
  }

  /** The kinds of values a profile can be decoded from; unknown keys do not matter. */
  predicate Decodable(v: Value) {
    DictOrNull(v) &&
    var m := AsDict(v);
    && TextOrNull(Lookup(m, S3ProfileName)) && TextOrNull(Lookup(m, S3Bucket))
    && TextOrNull(Lookup(m, S3CompatibleEndpoint)) && TextOrNull(Lookup(m, S3Region))
    && DecodableSecret(Lookup(m, S3SecretRef))
    && DictOrNull(Lookup(m, VeleroKeyRef)) && TextOrNull(Lookup(m, CACertificates))
  }

  function Decode(v: Value): S3Profile
    requires Decodable(v)
  {
    var m := AsDict(v);
    var s := AsDict(Lookup(m, S3SecretRef));
    Profile(
      AsText(Lookup(m, S3ProfileName)), AsText(Lookup(m, S3Bucket)),
      AsText(Lookup(m, S3CompatibleEndpoint)), AsText(Lookup(m, S3Region)),
      AsText(Lookup(s, Name)), AsText(Lookup(s, Namespace)),
      if Lookup(m, VeleroKeyRef).Null? then None else Some(m[VeleroKeyRef].fields),
      if Lookup(m, CACertificates).Null? then None else Some(m[CACertificates].text))
  }

  /** `m` with an optional key: left out when there is nothing to say. */
  function With(m: Document, k: Key, v: Value): Document {
    if v == Null then m else m[k := v]
  }

  function NonEmpty(t: string): Value {
    if t == "" then Null else Text(t)
  }

  function EncodeSecret(name: string, namespace: string): Document {
    With(With(map[], Name, NonEmpty(name)), Namespace, NonEmpty(namespace))
  }

  function Encode(p: S3Profile): Value {
    var m := map[
      S3ProfileName := Text(p.name), S3Bucket := Text(p.bucket),
      S3CompatibleEndpoint := Text(p.endpoint), S3Region := Text(p.region),
      S3SecretRef := Dict(EncodeSecret(p.secretName, p.secretNamespace))];
    Dict(With(With(m, VeleroKeyRef, if p.velero.Some? then Dict(p.velero.value) else Null),
      CACertificates, if p.ca.Some? then NonEmpty(p.ca.value) else Null))
  }

  /** A present but empty certificate bundle is not written, so it comes back as an absent one. */
  function Normal(p: S3Profile): S3Profile {
    p.(ca := if p.ca == Some("") then None else p.ca)
  }

  lemma DecodeEncode(p: S3Profile)
    ensures Decodable(Encode(p)) && Decode(Encode(p)) == Normal(p)
  {
  }

  /** A missing key, or null, says the empty text. */
  predicate Says(m: Document, k: Key, text: string) {
    if k in m && m[k] != Null then m[k] == Text(text) else text == ""
  }

  /** The dictionary has each field of the profile under the field's own key. */
  predicate Records(v: Value, p: S3Profile) {
    && DictOrNull(v) && DictOrNull(Lookup(AsDict(v), S3SecretRef))
    && var m := AsDict(v); var s := AsDict(Lookup(m, S3SecretRef));
    && Says(m, S3ProfileName, p.name) && Says(m, S3Bucket, p.bucket)
    && Says(m, S3CompatibleEndpoint, p.endpoint) && Says(m, S3Region, p.region)
    && Says(s, Name, p.secretName) && Says(s, Namespace, p.secretNamespace)
    && (if p.velero.Some? then Lookup(m, VeleroKeyRef) == Dict(p.velero.value) else Lookup(m, VeleroKeyRef) == Null)
    && (if p.ca.Some? then Lookup(m, CACertificates) == Text(p.ca.value) else Lookup(m, CACertificates) == Null)
  }

  /** What is read is what is recorded, and nothing else; and what is written records the profile. */
  lemma DecodeIffRecords(v: Value, p: S3Profile)
    requires Decodable(v)
    ensures Decode(v) == p <==> Records(v, p)
  {
  }

  lemma EncodeRecords(p: S3Profile)
    ensures Records(Encode(p), Normal(p))
  {
    DecodeEncode(p);
    DecodeIffRecords(Encode(p), Normal(p));
  }

  predicate CanonicalSecret(v: Value) {
    v.Dict? && v.fields.Keys <= {Name, Namespace} && forall k <- v.fields :: v.fields[k] != Null && v.fields[k] != Text("")
  }

  /** The dictionary holds nothing the codec would drop or write differently. */
  predicate Canonical(v: Value) {
    && v.Dict?
    && v.fields.Keys <= {S3ProfileName, S3Bucket, S3CompatibleEndpoint, S3Region, S3SecretRef, VeleroKeyRef, CACertificates}
    && {S3ProfileName, S3Bucket, S3CompatibleEndpoint, S3Region, S3SecretRef} <= v.fields.Keys
    && (forall k <- v.fields :: v.fields[k] != Null)
    && (CACertificates in v.fields ==> v.fields[CACertificates] != Text(""))
    && CanonicalSecret(v.fields[S3SecretRef])
  }

  lemma EncodeDecodeSecret(v: Value)
    requires DecodableSecret(v)
    ensures var s := AsDict(v);
      Dict(EncodeSecret(AsText(Lookup(s, Name)), AsText(Lookup(s, Namespace)))) == v <==> CanonicalSecret(v)
  {
  }

  lemma EncodeIsCanonical(p: S3Profile)
    ensures Canonical(Encode(p))
  {
  }

  /** Two canonical values that decode to the same profile are the same. */
  lemma CanonicalIsUnique(v: Value, w: Value)
    requires Decodable(v) && Decodable(w) && Decode(v) == Decode(w)
    requires Canonical(v) && Canonical(w) && v.fields[S3SecretRef] == w.fields[S3SecretRef]
    ensures v == w
  {
  }

  /** Reading a profile and writing it back gives the same text exactly if the text is canonical. */
  lemma EncodeDecode(v: Value)
    requires Decodable(v)
    ensures Encode(Decode(v)) == v <==> Canonical(v)
  {
    EncodeIsCanonical(Decode(v));
    if Canonical(v) {
      DecodeEncode(Decode(v));
      EncodeDecodeSecret(v.fields[S3SecretRef]);
      CanonicalIsUnique(v, Encode(Decode(v)));
    }
  }

  // ---------- the list of profiles in the document ----------

  predicate Extractable(raw: Document) {
    match Lookup(raw, S3StoreProfiles)
    case Null => true
    case List(items) => forall v <- items :: Decodable(v)
    case _ => false
  }

  function DecodeAll(items: seq<Value>): (ps: seq<S3Profile>)
    requires forall v <- items :: Decodable(v)
    ensures |ps| == |items| && forall i :: 0 <= i < |items| ==> ps[i] == Decode(items[i])
  {
    seq(|items|, i requires 0 <= i < |items| => Decode(items[i]))
  }

  function EncodeAll(ps: seq<S3Profile>): (items: seq<Value>)
    ensures |items| == |ps| && forall i :: 0 <= i < |ps| ==> items[i] == Encode(ps[i])
  {
    seq(|ps|, i requires 0 <= i < |ps| => Encode(ps[i]))
  }

  function AllNormal(ps: seq<S3Profile>): (r: seq<S3Profile>)
    ensures |r| == |ps| && forall i :: 0 <= i < |ps| ==> r[i] == Normal(ps[i])
  {
    seq(|ps|, i requires 0 <= i < |ps| => Normal(ps[i]))
  }

  function Extract(raw: Document): seq<S3Profile>
    requires Extractable(raw)
  {
    match Lookup(raw, S3StoreProfiles)
    case Null => []
    case List(items) => DecodeAll(items)
  }

  function SetProfiles(raw: Document, ps: seq<S3Profile>): Document {
    raw[S3StoreProfiles := List(EncodeAll(ps))]
  }

  lemma DecodeEncodeAll(ps: seq<S3Profile>)
    ensures forall v <- EncodeAll(ps) :: Decodable(v)
    ensures DecodeAll(EncodeAll(ps)) == AllNormal(ps)
  {
    forall i | 0 <= i < |ps| ensures Decodable(EncodeAll(ps)[i]) && Decode(EncodeAll(ps)[i]) == Normal(ps[i]) {
      DecodeEncode(ps[i]);
    }
  }

  lemma NormalIff(ps: seq<S3Profile>)
    ensures AllNormal(ps) == ps <==> forall p <- ps :: p.ca != Some("")
  {
  }

  /** What is written is what is read, except that empty certificate bundles disappear; nothing else in
      the document moves. */
  lemma ExtractSet(raw: Document, ps: seq<S3Profile>)
    ensures Extractable(SetProfiles(raw, ps)) && Extract(SetProfiles(raw, ps)) == AllNormal(ps)
    ensures Extract(SetProfiles(raw, ps)) == ps <==> forall p <- ps :: p.ca != Some("")
    ensures SetProfiles(raw, ps) - {S3StoreProfiles} == raw - {S3StoreProfiles}
  {
    DecodeEncodeAll(ps);
    NormalIff(ps);
  }

  /** Writing back what was read is lossless exactly if the document has a list of canonical profiles. */
  lemma SetExtract(raw: Document)
    requires Extractable(raw)
    ensures SetProfiles(raw, Extract(raw)) == raw <==>
            Lookup(raw, S3StoreProfiles).List? && forall v <- raw[S3StoreProfiles].items :: Canonical(v)
  {
    if Lookup(raw, S3StoreProfiles).List? {
      var items := raw[S3StoreProfiles].items;
      var out := EncodeAll(DecodeAll(items));
      forall i | 0 <= i < |items| ensures out[i] == items[i] <==> Canonical(items[i]) {
        EncodeDecode(items[i]);
      }
      if forall v <- items :: Canonical(v) {
        assert out == items;
        assert SetProfiles(raw, Extract(raw)) == raw;
      } else {
        var i :| 0 <= i < |items| && !Canonical(items[i]);
        assert out[i] != items[i];
      }
    }
  }

  // ---------- the operations on the document ----------

  function AfterUpdate(raw: Document, e: S3Profile): Document
    requires Extractable(raw)
  {
    if Skips(Extract(raw), e) then raw else SetProfiles(raw, Updated(Extract(raw), e))
  }

  function AfterRemove(raw: Document, name: string): Document
    requires Extractable(raw)
  {
    if Has(Extract(raw), name) then SetProfiles(raw, Removed(Extract(raw), name)) else raw
  }

  lemma {:induction false} FirstNormal(ps: seq<S3Profile>, name: string)
    ensures First(AllNormal(ps), name) == First(ps, name)
  {
  }

  lemma {:induction false} RemovedNormal(ps: seq<S3Profile>, name: string)
    ensures Removed(AllNormal(ps), name) == AllNormal(Removed(ps, name))
  {
    if ps != [] {
      RemovedNormal(ps[1..], name);
      assert AllNormal(ps)[1..] == AllNormal(ps[1..]);
    }
  }

  lemma NormalTwice(ps: seq<S3Profile>)
    ensures AllNormal(AllNormal(ps)) == AllNormal(ps)
  {
  }

  lemma UpdateNormal(ps: seq<S3Profile>, e: S3Profile)
    requires Generated(e)
    ensures OneProfileSet(AllNormal(ps), AllNormal(Updated(ps, e)), e)
  {
  }

  lemma UniqueNormal(ps: seq<S3Profile>)
    ensures UniqueNames(AllNormal(ps)) <==> UniqueNames(ps)
  {
  }

  lemma AfterUpdateReads(raw: Document, e: S3Profile)
    requires Extractable(raw) && Generated(e)
    ensures Extractable(AfterUpdate(raw, e))
    ensures AllNormal(Extract(AfterUpdate(raw, e))) == AllNormal(Updated(Extract(raw), e))
    ensures AfterUpdate(raw, e) - {S3StoreProfiles} == raw - {S3StoreProfiles}
  {
    ExtractSet(raw, Updated(Extract(raw), e));
    SkipIsUpdate(Extract(raw), e);
    NormalTwice(Updated(Extract(raw), e));
  }

  /** Up to empty certificate bundles, and whether or not the write is skipped, an update sets the generated
      fields of one profile and leaves alone its other fields, every other profile and every other key of the
      document. Names stay unique. */
  lemma UpdateSetsOneProfile(raw: Document, e: S3Profile)
    requires Extractable(raw) && Generated(e)
    ensures Extractable(AfterUpdate(raw, e))
    ensures AllNormal(Extract(AfterUpdate(raw, e))) == AllNormal(Updated(Extract(raw), e))
    ensures OneProfileSet(AllNormal(Extract(raw)), AllNormal(Extract(AfterUpdate(raw, e))), e)
    ensures AfterUpdate(raw, e) - {S3StoreProfiles} == raw - {S3StoreProfiles}
    ensures UniqueNames(Extract(raw)) ==> UniqueNames(Extract(AfterUpdate(raw, e)))
  {
    AfterUpdateReads(raw, e);
    UpdateNormal(Extract(raw), e);
    SetIsFirst(AllNormal(Extract(raw)), AllNormal(Extract(AfterUpdate(raw, e))), e);
    UniqueNormal(Extract(raw));
    UniqueNormal(Extract(AfterUpdate(raw, e)));
  }

  lemma SkipsNormal(ps: seq<S3Profile>, e: S3Profile)
    ensures Skips(AllNormal(ps), e) <==> Skips(ps, e)
  {
  }

  /** A second update finds nothing to do. */
  lemma UpdateTwice(raw: Document, e: S3Profile)
    requires Extractable(raw) && Generated(e)
    ensures Extractable(AfterUpdate(raw, e))
    ensures AfterUpdate(AfterUpdate(raw, e), e) == AfterUpdate(raw, e)
  {
    UpdateSetsOneProfile(raw, e);
    var after := Extract(AfterUpdate(raw, e));
    SetIsFirst(AllNormal(Extract(raw)), AllNormal(after), e);
    SkipsNormal(after, e);
  }

  /** Removal takes out every profile of that name, keeps all others in order, and moves nothing else. */
  lemma RemoveTakesOut(raw: Document, name: string)
    requires Extractable(raw)
    ensures Extractable(AfterRemove(raw, name))
    ensures AllNormal(Extract(AfterRemove(raw, name))) == AllNormal(Removed(Extract(raw), name))
    ensures !Has(Extract(AfterRemove(raw, name)), name)
    ensures AfterRemove(raw, name) - {S3StoreProfiles} == raw - {S3StoreProfiles}
  {
    var ps := Extract(raw);
    ExtractSet(raw, Removed(ps, name));
    RemovedHasOthers(ps, name);
    FirstNormal(Removed(ps, name), name);
    NormalTwice(Removed(ps, name));
  }

  /** Removing a profile after an update leaves what removing it before would have left. */
  lemma RemoveUndoesUpdate(raw: Document, e: S3Profile)
    requires Extractable(raw) && Generated(e)
    ensures Extractable(AfterUpdate(raw, e)) && Extractable(AfterRemove(AfterUpdate(raw, e), e.name))
    ensures Extractable(AfterRemove(raw, e.name))
    ensures AllNormal(Extract(AfterRemove(AfterUpdate(raw, e), e.name))) == AllNormal(Extract(AfterRemove(raw, e.name)))
  {
    UpdateSetsOneProfile(raw, e);
    RemoveTakesOut(AfterUpdate(raw, e), e.name);
    RemoveTakesOut(raw, e.name);
    RemovedNormal(Extract(AfterUpdate(raw, e)), e.name);
    RemovedNormal(Updated(Extract(raw), e), e.name);
    RemovedUpdated(Extract(raw), e);
  }

  // ---------- the code ----------

  /** The data of the operator's ConfigMap under ramen_manager_config.yaml. `Empty` is a text without content, or
      null: it decodes to a nil map. */
  datatype Config = NoConfigMap | NoData | Unparsable | Empty | Parsed(raw: Document)

  datatype Outcome = Done | Failed | Panicked

  class RamenHubOperatorConfig {
    var config: Config

    constructor (c: Config)
      ensures config == c
    {
      config := c;
    }

    /** Fails without a ConfigMap, without data and on an unreadable text; an empty one makes it panic, as the
        profile is then assigned into a nil map. */
    method UpdateRamenConfigForS3Configuration(name: string, bucket: string, region: string, endpoint: string)
      returns (r: Outcome)
      modifies this
      ensures r == Done <==> old(config).Parsed? && Extractable(old(config).raw)
      ensures r == Panicked <==> old(config).Empty?
      ensures config == if r == Done
        then Parsed(AfterUpdate(old(config).raw, Profile(name, bucket, endpoint, region, name, "", None, None)))
        else old(config)
    {
      var expected: S3Profile := Profile(name, bucket, endpoint, region, name, "", None, None);
      if config.NoConfigMap? || config.NoData? || config.Unparsable? {
        return Failed;
      }
      if config.Parsed? && !Extractable(config.raw) {
        return Failed;
      }
      var existing := if config.Empty? then [] else Extract(config.raw);
      ghost var before := existing;
      var isUpdated := false;
      for i := 0 to |existing|
        invariant config == old(config)
        invariant !isUpdated && existing == before
        invariant forall j :: 0 <= j < i ==> existing[j].name != name
      {
        if existing[i].name == expected.name {
          assert First(before, name) == i;
          expected := Merged(existing[i], expected);
          if FieldsEqual(expected, existing[i]) {
            return Done;
          }
          existing := existing[i := Overwritten(expected, existing[i])];
          isUpdated := true;
          break;
        }
      }
      if !isUpdated {
        existing := existing + [expected];
      }
      if config.Empty? {
        return Panicked;
      }
      config := Parsed(SetProfiles(config.raw, existing));
      return Done;
    }

    /** A missing ConfigMap, or one without data or content, has nothing to remove and is no error. */
    method RemoveS3ProfileFromRamenConfig(name: string) returns (ok: bool)
      modifies this
      ensures ok <==> !old(config).Unparsable? && (old(config).Parsed? ==> Extractable(old(config).raw))
      ensures config == if ok && old(config).Parsed? then Parsed(AfterRemove(old(config).raw, name)) else old(config)
    {
      if config.NoConfigMap? || config.NoData? {
        return true;
      }
      if config.Unparsable? || (config.Parsed? && !Extractable(config.raw)) {
        return false;
      }
      var existing := if config.Empty? then [] else Extract(config.raw);
      var found := false;
      var updated: seq<S3Profile> := [];
      for i := 0 to |existing|
        invariant config == old(config)
        invariant updated == Removed(existing[..i], name)
        invariant found <==> exists k :: 0 <= k < i && existing[k].name == name
      {
        assert existing[..i + 1] == existing[..i] + [existing[i]];
        RemovedAppend(existing[..i], [existing[i]], name);
        if existing[i].name != name {
          updated := updated + [existing[i]];
        } else {
          found := true;
        }
      }
      assert existing[..|existing|] == existing;
      if !found {
        return true;
      }
      config := Parsed(SetProfiles(config.raw, updated));
      return true;
    }
  }
}
