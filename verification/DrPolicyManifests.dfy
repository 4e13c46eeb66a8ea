/** The replication classes that a DRPolicy sends to the provider clusters of its MirrorPeer. The classes are
    built once, as structs that point to parameter maps; a copy of a struct shares its map. */
module DrPolicyManifests {
  import opened Options
  import opened Hash

  datatype Kind = VRC | VGRC

  datatype ParamKey = MirroringMode | SchedulingInterval | FlattenMode | PoolName

  type Params = map<ParamKey, string>

  class ParamMap {
    var entries: Params

    constructor (p: Params)
      ensures entries == p
    {
      entries := p;
    }
  }

  /** A VolumeReplicationClass or a VolumeGroupReplicationClass. */
  datatype ReplicationClass = ReplicationClass(kind: Kind, variant: Variant, parameters: ParamMap)

  /** What tells the default class from the flattening one, besides the parameters. */
  datatype Variant = Variant(name: string, flattenLabel: bool, isDefault: bool)

  /** A serialized class, wrapped into a template of the same name. */
  datatype Manifest = Manifest(kind: Kind, name: string, namespace: string, variant: Variant, parameters: Params)

  datatype Pool = Pool(name: seq<Byte>, mirrorEnabled: bool)

  datatype ClientInfo = ClientInfo(clientID: string, provider: string, namespace: string, pools: seq<Pool>)

  datatype DRPolicy = DRPolicy(name: seq<Byte>, schedulingInterval: seq<Byte>, flatten: bool)

  // ---------- what is meant to be generated ----------

  function ClassName(kind: Kind, flatten: bool, interval: seq<Byte>): string {
    HashName(
      match kind
      case VRC => if flatten then "rbd-flatten-volumereplicationclass-" else "rbd-volumereplicationclass-"
      case VGRC => if flatten then "rbd-flatten-volumegroupreplicationclass-" else "rbd-volumegroupreplicationclass-",
      interval)
  }

  /** A class as a value, with its parameters by value. */
  datatype Class = Class(kind: Kind, variant: Variant, parameters: Params)

  function DefaultParams(dp: DRPolicy): Params {
    map[MirroringMode := "snapshot", SchedulingInterval := dp.schedulingInterval]
  }

  function DefaultClass(dp: DRPolicy, kind: Kind): Class {
    Class(kind, Variant(ClassName(kind, false, dp.schedulingInterval), false, true), DefaultParams(dp))
  }

  function FlattenClass(dp: DRPolicy, kind: Kind): Class {
    Class(kind, Variant(ClassName(kind, true, dp.schedulingInterval), true, false), DefaultParams(dp)[FlattenMode := "force"])
  }

  function Classes(dp: DRPolicy, kind: Kind): seq<Class> {
    [DefaultClass(dp, kind)] + (if dp.flatten then [FlattenClass(dp, kind)] else [])
  }

  function VrcManifest(c: Class, namespace: string): Manifest {
    Manifest(c.kind, c.variant.name, namespace, c.variant, c.parameters)
  }

  function VgrcManifest(c: Class, pool: Pool, namespace: string): Manifest {
    Manifest(c.kind, HashName(c.variant.name + "-", pool.name), namespace, c.variant, c.parameters[PoolName := pool.name])
  }

  function Mirrored(pools: seq<Pool>): seq<Pool> {
    if pools == [] then [] else (if pools[0].mirrorEnabled then [pools[0]] else []) + Mirrored(pools[1..])
  }

  lemma {:induction false} MirroredIff(pools: seq<Pool>, p: Pool)
    ensures p in Mirrored(pools) <==> p in pools && p.mirrorEnabled
  {
    if pools != [] {
      MirroredIff(pools[1..], p);
      assert p in pools <==> p == pools[0] || p in pools[1..];
    }
  }

  function VrcManifests(cs: seq<Class>, namespace: string): (r: seq<Manifest>)
    ensures |r| == |cs| && forall i :: 0 <= i < |cs| ==> r[i] == VrcManifest(cs[i], namespace)
  {
    seq(|cs|, i requires 0 <= i < |cs| => VrcManifest(cs[i], namespace))
  }

  function ForPools(c: Class, pools: seq<Pool>, namespace: string): seq<Manifest> {
    seq(|pools|, i requires 0 <= i < |pools| => VgrcManifest(c, pools[i], namespace))
  }

  /** Every class with every pool, pools varying faster. */
  function Product(cs: seq<Class>, pools: seq<Pool>, namespace: string): seq<Manifest> {
    if cs == [] then [] else ForPools(cs[0], pools, namespace) + Product(cs[1..], pools, namespace)
  }

  lemma {:induction false} ProductAt(cs: seq<Class>, pools: seq<Pool>, namespace: string, i: nat, j: nat)
    requires i < |cs| && j < |pools|
    ensures |Product(cs, pools, namespace)| == |cs| * |pools|
    ensures i * |pools| + j < |cs| * |pools|
    ensures Product(cs, pools, namespace)[i * |pools| + j] == VgrcManifest(cs[i], pools[j], namespace)
  {
    ProductLength(cs, pools, namespace);
    ProductLength(cs[1..], pools, namespace);
    if i > 0 {
      ProductAt(cs[1..], pools, namespace, i - 1, j);
      assert (i - 1) * |pools| + j + |pools| == i * |pools| + j;
    }
  }

  lemma OneMore(m: nat, n: nat)
    ensures m * n + n == (m + 1) * n
  {
  }

  lemma {:induction false} ProductLength(cs: seq<Class>, pools: seq<Pool>, namespace: string)
    ensures |Product(cs, pools, namespace)| == |cs| * |pools|
  {
    if cs != [] {
      ProductLength(cs[1..], pools, namespace);
      assert |Product(cs, pools, namespace)| == |pools| + |Product(cs[1..], pools, namespace)|;
      OneMore(|cs| - 1, |pools|);
    }
  }

  /** Every manifest of the product comes from one class and one pool. */
  lemma {:induction false} ProductFrom(cs: seq<Class>, pools: seq<Pool>, namespace: string, m: Manifest)
    requires m in Product(cs, pools, namespace)
    ensures exists c <- cs, p <- pools :: m == VgrcManifest(c, p, namespace)
  {
    if m in ForPools(cs[0], pools, namespace) {
      var j :| 0 <= j < |pools| && m == VgrcManifest(cs[0], pools[j], namespace);
      assert cs[0] in cs && pools[j] in pools;
    } else {
      ProductFrom(cs[1..], pools, namespace, m);
      var c, p :| c in cs[1..] && p in pools && m == VgrcManifest(c, p, namespace);
      assert c in cs;
    }
  }

  /** Snapshot mirroring at the policy's interval; a flattening class also forces flattening, and a group class names
      its pool. */
  predicate ParamsAre(p: Params, dp: DRPolicy, flatten: bool, pool: Option<string>) {
    && p.Keys == {MirroringMode, SchedulingInterval} + (if flatten then {FlattenMode} else {}) + (if pool.Some? then {PoolName} else {})
    && p[MirroringMode] == "snapshot" && p[SchedulingInterval] == dp.schedulingInterval
    && (flatten ==> p[FlattenMode] == "force") && (pool.Some? ==> p[PoolName] == pool.value)
  }

  /** The default class or, if the policy asks for it, the flattening one; named after the policy's interval. */
  predicate VariantIs(v: Variant, dp: DRPolicy, prefix: string, flattenPrefix: string) {
    && (v.flattenLabel ==> dp.flatten) && v.isDefault == !v.flattenLabel
    && v.name == (if v.flattenLabel then flattenPrefix else prefix) + Decimal(FnvHash(dp.schedulingInterval))
  }

  /** A group class manifest that a policy may send to a provider with these pools: it names a mirrored pool. */
  predicate RightManifest(dp: DRPolicy, pools: seq<Pool>, namespace: string, m: Manifest) {
    && m.kind == VGRC && m.namespace == namespace
    && VariantIs(m.variant, dp, "rbd-volumegroupreplicationclass-", "rbd-flatten-volumegroupreplicationclass-")
    && exists p <- pools :: p.mirrorEnabled
         && m.name == m.variant.name + "-" + Decimal(FnvHash(p.name))
         && ParamsAre(m.parameters, dp, m.variant.flattenLabel, Some(p.name))
  }

  /** A class manifest without a pool. */
  predicate RightVolumeManifest(dp: DRPolicy, namespace: string, m: Manifest) {
    && m.kind == VRC && m.namespace == namespace && m.name == m.variant.name
    && VariantIs(m.variant, dp, "rbd-volumereplicationclass-", "rbd-flatten-volumereplicationclass-")
    && ParamsAre(m.parameters, dp, m.variant.flattenLabel, None)
  }

  lemma VariantIsRight(dp: DRPolicy, c: Class, kind: Kind)
    requires c in Classes(dp, kind)
    ensures c.kind == kind && ParamsAre(c.parameters, dp, c.variant.flattenLabel, None)
    ensures kind == VRC ==>
      VariantIs(c.variant, dp, "rbd-volumereplicationclass-", "rbd-flatten-volumereplicationclass-")
    ensures kind == VGRC ==>
      VariantIs(c.variant, dp, "rbd-volumegroupreplicationclass-", "rbd-flatten-volumegroupreplicationclass-")
  {
  }

  lemma WithPool(p: Params, dp: DRPolicy, flatten: bool, pool: string)
    requires ParamsAre(p, dp, flatten, None)
    ensures ParamsAre(p[PoolName := pool], dp, flatten, Some(pool))
  {
  }

  lemma ManifestIsRight(dp: DRPolicy, pools: seq<Pool>, c: Class, p: Pool, namespace: string)
    requires c in Classes(dp, VGRC) && p in pools && p.mirrorEnabled
    ensures RightManifest(dp, pools, namespace, VgrcManifest(c, p, namespace))
  {
    VariantIsRight(dp, c, VGRC);
    WithPool(c.parameters, dp, c.variant.flattenLabel, p.name);
  }

  lemma VolumeManifestIsRight(dp: DRPolicy, c: Class, namespace: string)
    requires c in Classes(dp, VRC)
    ensures RightVolumeManifest(dp, namespace, VrcManifest(c, namespace))
  {
    VariantIsRight(dp, c, VRC);
  }

  /** What the generated list means: exactly one manifest for each class and each mirrored pool, each right. */
  lemma GroupManifestsAreRight(dp: DRPolicy, pools: seq<Pool>, namespace: string)
    ensures var ms := Product(Classes(dp, VGRC), Mirrored(pools), namespace);
      && |ms| == (if dp.flatten then 2 else 1) * |Mirrored(pools)|
      && forall m <- ms :: RightManifest(dp, pools, namespace, m)
    ensures forall c <- Classes(dp, VGRC), p <- pools :: p.mirrorEnabled ==>
              VgrcManifest(c, p, namespace) in Product(Classes(dp, VGRC), Mirrored(pools), namespace)
  {
    var cs, ps := Classes(dp, VGRC), Mirrored(pools);
    var ms := Product(cs, ps, namespace);
    ProductLength(cs, ps, namespace);
    forall c <- cs, p <- pools | p.mirrorEnabled ensures VgrcManifest(c, p, namespace) in ms {
      MirroredIff(pools, p);
      PairIsThere(cs, ps, namespace, c, p);
    }
    forall m <- ms ensures RightManifest(dp, pools, namespace, m) {
      ProductFrom(cs, ps, namespace, m);
      var c, p :| c in cs && p in ps && m == VgrcManifest(c, p, namespace);
      MirroredIff(pools, p);
      ManifestIsRight(dp, pools, c, p, namespace);
    }
  }

  /** The other list: one manifest per class, never with a pool. */
  lemma VolumeManifestsAreRight(dp: DRPolicy, namespace: string)
    ensures var ms := VrcManifests(Classes(dp, VRC), namespace);
      && |ms| == (if dp.flatten then 2 else 1)
      && (forall m <- ms :: RightVolumeManifest(dp, namespace, m))
      && (exists m <- ms :: !m.variant.flattenLabel)
      && ((exists m <- ms :: m.variant.flattenLabel) <==> dp.flatten)
  {
    var cs, ms := Classes(dp, VRC), VrcManifests(Classes(dp, VRC), namespace);
    forall m <- ms ensures RightVolumeManifest(dp, namespace, m) {
      var i :| 0 <= i < |ms| && ms[i] == m;
      assert cs[i] in cs;
      VolumeManifestIsRight(dp, cs[i], namespace);
    }
    assert ms[0] in ms && !ms[0].variant.flattenLabel;
    if dp.flatten {
      assert ms[1] in ms && ms[1].variant.flattenLabel;
    }
  }

  lemma PairIsThere(cs: seq<Class>, ps: seq<Pool>, namespace: string, c: Class, p: Pool)
    requires c in cs && p in ps
    ensures VgrcManifest(c, p, namespace) in Product(cs, ps, namespace)
  {
    var i :| 0 <= i < |cs| && cs[i] == c;
    var j :| 0 <= j < |ps| && ps[j] == p;
    ProductAt(cs, ps, namespace, i, j);
  }

  lemma PrefixesDiffer(interval: seq<Byte>)
    ensures |ClassName(VGRC, true, interval)| > 4 && ClassName(VGRC, true, interval)[4] == 'f'
    ensures |ClassName(VGRC, false, interval)| > 4 && ClassName(VGRC, false, interval)[4] == 'v'
  {
  }

  /** Two manifests of the list share a name exactly if they are of the same class and their pools' names
      have the same hash. */
  lemma ManifestNamesClash(dp: DRPolicy, c: Class, p: Pool, d: Class, q: Pool, namespace: string)
    requires c in Classes(dp, VGRC) && d in Classes(dp, VGRC)
    ensures VgrcManifest(c, p, namespace).name == VgrcManifest(d, q, namespace).name <==>
            c == d && FnvHash(p.name) == FnvHash(q.name)
  {
    PrefixesDiffer(dp.schedulingInterval);
    if c == d {
      HashNamesClash(c.variant.name + "-", p.name, q.name);
    } else {
      var s, t := c.variant.name, d.variant.name;
      assert VgrcManifest(c, p, namespace).name[4] == s[4] && VgrcManifest(d, q, namespace).name[4] == t[4];
    }
  }

  // ---------- the ManifestWorks ----------

  /** `createdFor` is the label naming the client; it stays as it was when the work is updated. */
  datatype Work = Work(createdFor: string, manifests: seq<Manifest>)

  /** ManifestWorks by namespace, which is the provider cluster, and name. */
  type Works = map<(string, string), Work>

  function Put(works: Works, key: (string, string), client: string, ms: seq<Manifest>): Works {
    works[key := if key in works then works[key].(manifests := ms) else Work(client, ms)]
  }

  function VrcWorkName(dp: DRPolicy): string {
    HashName("vrc-", dp.name)
  }

  function VgrcWorkName(dp: DRPolicy): string {
    HashName("vgrc-", dp.name)
  }

  function VrcWork(dp: DRPolicy, c: ClientInfo): seq<Manifest> {
    VrcManifests(Classes(dp, VRC), c.namespace)
  }

  function VgrcWork(dp: DRPolicy, c: ClientInfo): seq<Manifest> {
    Product(Classes(dp, VGRC), Mirrored(c.pools), c.namespace)
  }

  function PutVrc(works: Works, dp: DRPolicy, c: ClientInfo): Works {
    Put(works, (c.provider, VrcWorkName(dp)), c.clientID, VrcWork(dp, c))
  }

  /** A work is made with the label of the client it is for, under a name made from the policy's; later its manifests
      are replaced, and the label stays. No other work moves. */
  lemma PutVrcIs(works: Works, dp: DRPolicy, c: ClientInfo)
    ensures var key := (c.provider, "vrc-" + Decimal(FnvHash(dp.name)));
      && key in PutVrc(works, dp, c) && PutVrc(works, dp, c) - {key} == works - {key}
      && PutVrc(works, dp, c)[key] == Work(
           if key in works then works[key].createdFor else c.clientID, VrcManifests(Classes(dp, VRC), c.namespace))
  {
  }

  function SendTo(works: Works, dp: DRPolicy, c: ClientInfo): Works {
    Put(PutVrc(works, dp, c), (c.provider, VgrcWorkName(dp)), c.clientID, VgrcWork(dp, c))
  }

  /** Both works of a client. */
  lemma SendToIs(works: Works, dp: DRPolicy, c: ClientInfo)
    ensures var vrc := (c.provider, "vrc-" + Decimal(FnvHash(dp.name)));
      var vgrc := (c.provider, "vgrc-" + Decimal(FnvHash(dp.name)));
      && SendTo(works, dp, c) - {vrc, vgrc} == works - {vrc, vgrc} && vrc in SendTo(works, dp, c) && vgrc in SendTo(works, dp, c)
      && SendTo(works, dp, c)[vrc] == Work(
           if vrc in works then works[vrc].createdFor else c.clientID, VrcManifests(Classes(dp, VRC), c.namespace))
      && SendTo(works, dp, c)[vgrc] == Work(
           if vgrc in works then works[vgrc].createdFor else c.clientID,
           Product(Classes(dp, VGRC), Mirrored(c.pools), c.namespace))
  {
    WorkNamesDiffer(dp);
    PutVrcIs(works, dp, c);
  }

  predicate Known(keys: seq<string>, info: map<string, ClientInfo>) {
    forall k <- keys :: k in info
  }

  /** All peers served, one after the other. */
  function SentAll(works: Works, dp: DRPolicy, keys: seq<string>, info: map<string, ClientInfo>): Works
    requires Known(keys, info)
    decreases |keys|
  {
    if keys == [] then works else SentAll(SendTo(works, dp, info[keys[0]]), dp, keys[1..], info)
  }

  /** One peer after the other, up to the first whose client is unknown or the first write that is refused;
      `writes` of them are accepted. */
  function Sent(works: Works, dp: DRPolicy, keys: seq<string>, info: map<string, ClientInfo>, writes: nat): (Works, bool)
    decreases |keys|
  {
    if keys == [] then (works, true)
    else if keys[0] !in info || writes == 0 then (works, false)
    else if writes == 1 then (PutVrc(works, dp, info[keys[0]]), false)
    else Sent(SendTo(works, dp, info[keys[0]]), dp, keys[1..], info, writes - 2)
  }

  /** Whatever goes wrong, some number of peers are served in full, at most one more has its first work only, and
      the rest nothing; all are served exactly if all clients are known and no write is refused. */
  lemma {:induction false} SentIsPrefix(works: Works, dp: DRPolicy, keys: seq<string>, info: map<string, ClientInfo>, writes: nat)
    returns (n: nat)
    ensures n <= |keys| && Known(keys[..n], info) && 2 * n <= writes
    ensures n < |keys| ==> keys[n] !in info || writes < 2 * n + 2
    ensures var all := SentAll(works, dp, keys[..n], info);
      Sent(works, dp, keys, info, writes) ==
      if n == |keys| then (all, true)
      else if keys[n] in info && writes == 2 * n + 1 then (PutVrc(all, dp, info[keys[n]]), false)
      else (all, false)
    decreases |keys|
  {
    if keys == [] || keys[0] !in info || writes < 2 {
      n := 0;
    } else {
      var m := SentIsPrefix(SendTo(works, dp, info[keys[0]]), dp, keys[1..], info, writes - 2);
      n := m + 1;
      assert keys[..n][0] == keys[0] && keys[..n][1..] == keys[1..][..m];
      assert forall k <- keys[..n] :: k == keys[0] || k in keys[1..][..m];
    }
  }

  lemma WorkNamesDiffer(dp: DRPolicy)
    ensures VrcWorkName(dp) != VgrcWorkName(dp)
  {
  }

  /** Which of the peers has the last word on a provider cluster, if any is there. */
  function LastOn(keys: seq<string>, info: map<string, ClientInfo>, provider: string): Option<ClientInfo>
    requires Known(keys, info)
  {
    if keys == [] then None
    else if info[keys[|keys| - 1]].provider == provider then Some(info[keys[|keys| - 1]])
    else LastOn(keys[..|keys| - 1], info, provider)
  }

  lemma {:induction false} SentLast(works: Works, dp: DRPolicy, keys: seq<string>, info: map<string, ClientInfo>)
    requires keys != [] && Known(keys, info)
    ensures SentAll(works, dp, keys, info) ==
            SendTo(SentAll(works, dp, keys[..|keys| - 1], info), dp, info[keys[|keys| - 1]])
    decreases |keys|
  {
    var front := keys[..|keys| - 1];
    if |keys| > 1 {
      assert keys[1..][..|keys| - 2] == front[1..];
      SentLast(SendTo(works, dp, info[keys[0]]), dp, keys[1..], info);
    }
  }

  /** The works of a provider cluster hold the classes for the last peer on it: with peers on different
      clusters each has its own; every other work is left alone. */
  lemma {:induction false} EachProviderHasItsOwn(
      works: Works, dp: DRPolicy, keys: seq<string>, info: map<string, ClientInfo>, provider: string)
    requires Known(keys, info)
    ensures var sent, last := SentAll(works, dp, keys, info), LastOn(keys, info, provider);
      if last.Some? then
        var vrc, vgrc := (provider, "vrc-" + Decimal(FnvHash(dp.name))), (provider, "vgrc-" + Decimal(FnvHash(dp.name)));
        && vrc in sent && sent[vrc].manifests == VrcManifests(Classes(dp, VRC), last.value.namespace)
        && vgrc in sent && sent[vgrc].manifests == Product(Classes(dp, VGRC), Mirrored(last.value.pools), last.value.namespace)
      else forall n :: ((provider, n) in sent <==> (provider, n) in works)
                       && ((provider, n) in sent ==> sent[(provider, n)] == works[(provider, n)])
    decreases |keys|
  {
    if keys != [] {
      SentLast(works, dp, keys, info);
      EachProviderHasItsOwn(works, dp, keys[..|keys| - 1], info, provider);
      WorkNamesDiffer(dp);
    }
  }

  // ---------- the code ----------

  function ParamMaps(cs: seq<ReplicationClass>): set<ParamMap> {
    set c | c in cs :: c.parameters
  }

  /** The structs stand for the classes, each with a parameter map of its own; a pool name left behind by an
      earlier turn of a loop does not matter. */
  ghost predicate Represents(structs: seq<ReplicationClass>, cs: seq<Class>)
    reads ParamMaps(structs)
  {
    && |structs| == |cs|
    && (forall i :: 0 <= i < |cs| ==>
          && structs[i] in structs
          && structs[i].kind == cs[i].kind && structs[i].variant == cs[i].variant
          && structs[i].parameters.entries - {PoolName} == cs[i].parameters)
    && forall i, j :: 0 <= i < j < |cs| ==> structs[i].parameters != structs[j].parameters
  }

  function GetTemplateForVRC(c: ReplicationClass, namespace: string): Manifest
    reads c.parameters
  {
    Manifest(c.kind, c.variant.name, namespace, c.variant, c.parameters.entries)
  }

  function GetTemplateForVGRC(c: ReplicationClass, name: string, namespace: string): Manifest
    reads c.parameters
  {
    Manifest(c.kind, name, namespace, c.variant, c.parameters.entries)
  }

  method DeepCopy(c: ReplicationClass) returns (copied: ReplicationClass)
    ensures fresh(copied.parameters) && copied == c.(parameters := copied.parameters)
    ensures copied.parameters.entries == c.parameters.entries
  {
    var parameters := new ParamMap(c.parameters.entries);
    copied := c.(parameters := parameters);
  }

  /** A deep copy of the default class, which is then changed. */
  method BuildFlattening(dp: DRPolicy, kind: Kind, default: ReplicationClass) returns (flatten: ReplicationClass)
    requires default.kind == kind && default.parameters.entries == DefaultParams(dp)
    ensures fresh(flatten.parameters) && flatten.kind == kind
    ensures flatten.variant == FlattenClass(dp, kind).variant
    ensures flatten.parameters.entries == FlattenClass(dp, kind).parameters
  {
    flatten := DeepCopy(default);
    flatten := flatten.(variant := Variant(ClassName(kind, true, dp.schedulingInterval), true, false));
    flatten.parameters.entries := flatten.parameters.entries[FlattenMode := "force"];
  }

  lemma NoPool(p: Params)
    requires PoolName !in p
    ensures p - {PoolName} == p
  {
  }

  /** The default class and, if asked for, the flattening one. */
  method BuildClasses(dp: DRPolicy, kind: Kind) returns (structs: seq<ReplicationClass>)
    ensures fresh(ParamMaps(structs))
    ensures Represents(structs, Classes(dp, kind))
    ensures forall c <- structs :: PoolName !in c.parameters.entries
  {
    var parameters := new ParamMap(map[MirroringMode := "snapshot", SchedulingInterval := dp.schedulingInterval]);
    var default := ReplicationClass(kind, Variant(ClassName(kind, false, dp.schedulingInterval), false, true), parameters);
    NoPool(parameters.entries);
    structs := [default];
    if dp.flatten {
      var flatten := BuildFlattening(dp, kind, default);
      NoPool(flatten.parameters.entries);
      structs := [default, flatten];
    }
  }

  lemma ForPoolsAppend(c: Class, pools: seq<Pool>, p: Pool, namespace: string)
    ensures ForPools(c, pools + [p], namespace) == ForPools(c, pools, namespace) + [VgrcManifest(c, p, namespace)]
  {
  }

  lemma {:induction false} MirroredAppend(pools: seq<Pool>, p: Pool)
    ensures Mirrored(pools + [p]) == Mirrored(pools) + (if p.mirrorEnabled then [p] else [])
  {
    if pools == [] {
      assert [] + [p] == [p];
    } else {
      MirroredAppend(pools[1..], p);
      assert (pools + [p])[1..] == pools[1..] + [p];
    }
  }

  lemma {:induction false} ProductAppend(cs: seq<Class>, c: Class, pools: seq<Pool>, namespace: string)
    ensures Product(cs + [c], pools, namespace) == Product(cs, pools, namespace) + ForPools(c, pools, namespace)
  {
    if cs == [] {
      assert [] + [c] == [c] && Product([], pools, namespace) == [];
      assert Product([c], pools, namespace) == ForPools(c, pools, namespace) + Product([c][1..], pools, namespace);
    } else {
      ProductAppend(cs[1..], c, pools, namespace);
      assert (cs + [c])[1..] == cs[1..] + [c];
    }
  }

  method BuildVrcManifests(structs: seq<ReplicationClass>, namespace: string, ghost cs: seq<Class>) returns (ms: seq<Manifest>)
    requires Represents(structs, cs) && forall c <- structs :: PoolName !in c.parameters.entries
    ensures ms == VrcManifests(cs, namespace)
  {
    ms := [];
    for i := 0 to |structs|
      invariant ms == VrcManifests(cs, namespace)[..i]
    {
      var c := structs[i];
      assert c.parameters.entries == c.parameters.entries - {PoolName};
      ms := ms + [GetTemplateForVRC(c, namespace)];
    }
  }

  lemma SetPool(entries: Params, parameters: Params, name: string)
    requires entries - {PoolName} == parameters
    ensures entries[PoolName := name] == parameters[PoolName := name]
    ensures entries[PoolName := name] - {PoolName} == parameters
  {
  }

  /** The inner loop: each manifest is serialized right after the shared map has got its own pool's name. */
  method BuildForPools(c: ReplicationClass, pools: seq<Pool>, namespace: string, ghost spec: Class)
    returns (ms: seq<Manifest>)
    requires c.kind == spec.kind && c.variant == spec.variant
    requires c.parameters.entries - {PoolName} == spec.parameters
    modifies c.parameters
    ensures c.parameters.entries - {PoolName} == spec.parameters
    ensures ms == ForPools(spec, Mirrored(pools), namespace)
  {
    ms := [];
    for j := 0 to |pools|
      invariant c.parameters.entries - {PoolName} == spec.parameters
      invariant ms == ForPools(spec, Mirrored(pools[..j]), namespace)
    {
      MirroredAppend(pools[..j], pools[j]);
      assert pools[..j + 1] == pools[..j] + [pools[j]];
      if pools[j].mirrorEnabled {
        var name := HashName(c.variant.name + "-", pools[j].name);
        ghost var before := c.parameters.entries;
        c.parameters.entries := c.parameters.entries[PoolName := pools[j].name];
        SetPool(before, spec.parameters, pools[j].name);
        ms := ms + [GetTemplateForVGRC(c, name, namespace)];
        ForPoolsAppend(spec, Mirrored(pools[..j]), pools[j], namespace);
      }
    }
    assert pools[..|pools|] == pools;
  }

  method BuildVgrcManifests(structs: seq<ReplicationClass>, pools: seq<Pool>, namespace: string, ghost cs: seq<Class>)
    returns (ms: seq<Manifest>)
    requires Represents(structs, cs)
    modifies ParamMaps(structs)
    ensures Represents(structs, cs)
    ensures ms == Product(cs, Mirrored(pools), namespace)
  {
    ms := [];
    for i := 0 to |structs|
      invariant Represents(structs, cs)
      invariant ms == Product(cs[..i], Mirrored(pools), namespace)
    {
      var c := structs[i];
      assert c.parameters in ParamMaps(structs);
      var more := BuildForPools(c, pools, namespace, cs[i]);
      ms := ms + more;
      ProductAppend(cs[..i], cs[i], Mirrored(pools), namespace);
      assert cs[..i + 1] == cs[..i] + [cs[i]];
    }
    assert cs[..|structs|] == cs;
  }

  class DRPolicyReconciler {
    var works: Works
    /** How many more writes are accepted before one is refused. */
    var writes: nat

    constructor (w: Works, writes: nat)
      ensures works == w && this.writes == writes
    {
      works := w;
      this.writes := writes;
    }

    method CreateOrUpdate(key: (string, string), client: string, ms: seq<Manifest>) returns (ok: bool)
      modifies this
      ensures ok <==> old(writes) > 0
      ensures writes == if ok then old(writes) - 1 else 0
      ensures works == if ok then Put(old(works), key, client, ms) else old(works)
    {
      if writes == 0 {
        return false;
      }
      writes := writes - 1;
      if key in works {
        works := works[key := works[key].(manifests := ms)];
      } else {
        works := works[key := Work(client, ms)];
      }
      return true;
    }

    method SendToProvider(dp: DRPolicy, cInfo: ClientInfo, vrcList: seq<ReplicationClass>, vgrcList: seq<ReplicationClass>)
      returns (ok: bool)
      requires Represents(vrcList, Classes(dp, VRC)) && forall c <- vrcList :: PoolName !in c.parameters.entries
      requires Represents(vgrcList, Classes(dp, VGRC))
      modifies this, ParamMaps(vgrcList)
      ensures Represents(vgrcList, Classes(dp, VGRC))
      ensures ok <==> old(writes) > 1
      ensures writes == if ok then old(writes) - 2 else 0
      ensures works == if ok then SendTo(old(works), dp, cInfo)
                       else if old(writes) == 1 then PutVrc(old(works), dp, cInfo) else old(works)
    {
      var manifests := BuildVrcManifests(vrcList, cInfo.namespace, Classes(dp, VRC));
      var groupManifests := BuildVgrcManifests(vgrcList, cInfo.pools, cInfo.namespace, Classes(dp, VGRC));
      ok := CreateOrUpdate((cInfo.provider, VrcWorkName(dp)), cInfo.clientID, manifests);
      if !ok {
        return;
      }
      ok := CreateOrUpdate((cInfo.provider, VgrcWorkName(dp)), cInfo.clientID, groupManifests);
    }

    /** The loop over the MirrorPeer's items, in order, by their client-info keys. */
    method SendToAll(dp: DRPolicy, keys: seq<string>, info: map<string, ClientInfo>,
        vrcList: seq<ReplicationClass>, vgrcList: seq<ReplicationClass>)
      returns (ok: bool)
      requires Represents(vrcList, Classes(dp, VRC)) && forall c <- vrcList :: PoolName !in c.parameters.entries
      requires Represents(vgrcList, Classes(dp, VGRC)) && ParamMaps(vrcList) !! ParamMaps(vgrcList)
      modifies this, ParamMaps(vgrcList)
      ensures (works, ok) == Sent(old(works), dp, keys, info, old(writes))
    {
      for i := 0 to |keys|
        invariant Represents(vgrcList, Classes(dp, VGRC))
        invariant Sent(old(works), dp, keys, info, old(writes)) == Sent(works, dp, keys[i..], info, writes)
      {
        assert keys[i..][0] == keys[i] && keys[i..][1..] == keys[i + 1..];
        if keys[i] !in info {
          return false;
        }
        var sent := SendToProvider(dp, info[keys[i]], vrcList, vgrcList);
        if !sent {
          return false;
        }
      }
      return true;
    }

    method CreateOrUpdateManifestWorkForVRCAndVGRC(dp: DRPolicy, keys: seq<string>, info: map<string, ClientInfo>)
      returns (ok: bool)
      modifies this
      ensures (works, ok) == Sent(old(works), dp, keys, info, old(writes))
    {
      var vrcList := BuildClasses(dp, VRC);
      var vgrcList := BuildClasses(dp, VGRC);
      ok := SendToAll(dp, keys, info, vrcList, vgrcList);
    }
  }
}
