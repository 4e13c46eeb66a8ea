/** Resource distribution on the spoke: every VolumeReplicationClass and VolumeGroupReplicationClass
    template is listed on exactly the StorageConsumers whose client is peered. This module holds the
    values one pass works on; `DistributionController` is the reconciler itself. */
module Distribution {
  import opened ApiServer
  import opened Options

  const RESOURCE_DISTRIBUTION_FINALIZER := "multicluster.odf.openshift.io/resource-distribution-controller"
  const ADDON_DELETION_LOCK := "token-exchange-addon-lock"

  /** The object-kind label of a template. */
  datatype Kind = VolumeReplicationClass | VolumeGroupReplicationClass | OtherKind

  /** One entry of a class list of a StorageConsumer; `settings` is everything besides the name. */
  datatype ClassEntry = ClassEntry(name: string, settings: string)

  datatype ConsumerSpec = ConsumerSpec(
    clientID: Option<string>,
    vrcs: seq<ClassEntry>,
    vgrcs: seq<ClassEntry>,
    rest: string)

  type Consumer = Object<ConsumerSpec>
  type Template = Object<Kind>

  /** ConfigMap data: `None` is Go's nil map. */
  type Data = Option<map<string, string>>

  datatype World = World(
    consumers: Shelf<ConsumerSpec>,
    templates: Shelf<Kind>,
    locks: Shelf<Data>,
    mapping: Option<Data>)

  // ---------- class lists ----------

  /** Position of the first entry called `name`, or -1. */
  function IndexOf(es: seq<ClassEntry>, name: string): (i: int)
    ensures -1 <= i < |es|
    ensures i >= 0 ==> es[i].name == name
    ensures i == -1 <==> !Lists(es, name)
  {
    if es == [] then -1
    else if es[0].name == name then 0
    else
      var i := IndexOf(es[1..], name);
      assert forall k :: 0 < k < |es| ==> es[k] == es[1..][k - 1];
      if i == -1 then -1 else i + 1
  }

  predicate Lists(es: seq<ClassEntry>, name: string) {
    exists i :: 0 <= i < |es| && es[i].name == name
  }

  predicate UniqueNames(es: seq<ClassEntry>) {
    forall i, j :: 0 <= i < j < |es| ==> es[i].name != es[j].name
  }

  /** What one pass makes of a class list: append the class, delete its first entry, or leave the list alone. */
  function Adjusted(es: seq<ClassEntry>, name: string, wanted: bool): seq<ClassEntry> {
    var i := IndexOf(es, name);
    if wanted then
      if i == -1 then es + [ClassEntry(name, "")] else es
    else
      if i == -1 then es else es[..i] + es[i + 1..]
  }

  /** The entries of every other class, in their order. */
  function Others(es: seq<ClassEntry>, name: string): seq<ClassEntry> {
    if es == [] then []
    else (if es[0].name == name then [] else [es[0]]) + Others(es[1..], name)
  }

  lemma OthersAppend(a: seq<ClassEntry>, b: seq<ClassEntry>, name: string)
    ensures Others(a + b, name) == Others(a, name) + Others(b, name)
  {
    if a == [] {
      assert a + b == b;
    } else {
      assert (a + b)[1..] == a[1..] + b;
      OthersAppend(a[1..], b, name);
    }
  }

  lemma {:induction false} OthersKeepMembers(es: seq<ClassEntry>, name: string, other: string)
    requires other != name
    ensures Lists(Others(es, name), other) <==> Lists(es, other)
  {
    if es != [] {
      OthersKeepMembers(es[1..], name, other);
      ListsSplit([es[0]], es[1..], other);
      assert es == [es[0]] + es[1..];
      ListsSplit(if es[0].name == name then [] else [es[0]], Others(es[1..], name), other);
    }
  }

  lemma ListsSplit(a: seq<ClassEntry>, b: seq<ClassEntry>, name: string)
    ensures Lists(a + b, name) <==> Lists(a, name) || Lists(b, name)
  {
    if Lists(a, name) {
      var i :| 0 <= i < |a| && a[i].name == name;
      assert (a + b)[i].name == name;
    }
    if Lists(b, name) {
      var i :| 0 <= i < |b| && b[i].name == name;
      assert (a + b)[|a| + i].name == name;
    }
  }

  lemma AppendClass(es: seq<ClassEntry>, name: string)
    requires UniqueNames(es) && !Lists(es, name)
    ensures var r := es + [ClassEntry(name, "")];
      UniqueNames(r) && Lists(r, name) && Others(r, name) == Others(es, name)
  {
    OthersAppend(es, [ClassEntry(name, "")], name);
    assert (es + [ClassEntry(name, "")])[|es|].name == name;
  }

  lemma DeleteClass(es: seq<ClassEntry>, i: nat)
    requires UniqueNames(es) && i < |es|
    ensures var r := es[..i] + es[i + 1..];
      UniqueNames(r) && !Lists(r, es[i].name) && Others(r, es[i].name) == Others(es, es[i].name)
  {
    var name := es[i].name;
    OthersAppend(es[..i], es[i..], name);
    OthersAppend(es[..i], es[i + 1..], name);
    assert es[i..][1..] == es[i + 1..];
    assert es == es[..i] + es[i..];
  }

  /** An adjusted list says what was wanted, keeps names unique, and keeps every other class as it was. */
  lemma AdjustedMeetsWish(es: seq<ClassEntry>, name: string, wanted: bool)
    requires UniqueNames(es)
    ensures UniqueNames(Adjusted(es, name, wanted))
    ensures Lists(Adjusted(es, name, wanted), name) <==> wanted
    ensures Adjusted(es, name, wanted) != es <==> Lists(es, name) != wanted
    ensures Others(Adjusted(es, name, wanted), name) == Others(es, name)
    ensures wanted && !Lists(es, name) ==> es < Adjusted(es, name, wanted) && ClassEntry(name, "") in Adjusted(es, name, wanted)
  {
    var i := IndexOf(es, name);
    if wanted && i == -1 {
      AppendClass(es, name);
    } else if !wanted && i != -1 {
      DeleteClass(es, i);
    }
  }

  // ---------- consumers and templates ----------

  function Classes(spec: ConsumerSpec, kind: Kind): seq<ClassEntry> {
    match kind
    case VolumeReplicationClass => spec.vrcs
    case VolumeGroupReplicationClass => spec.vgrcs
    case OtherKind => []
  }

  predicate Peered(spec: ConsumerSpec, clientIDs: set<string>) {
    spec.clientID.Some? && spec.clientID.value in clientIDs
  }

  predicate Wanted(t: Template, spec: ConsumerSpec, clientIDs: set<string>) {
    !t.deleting && Peered(spec, clientIDs)
  }

  /** The consumer the pass wants to see, computed from the consumer it listed. */
  function Expected(c: Consumer, t: Template, clientIDs: set<string>): Consumer {
    Reshaped(c, t, Wanted(t, c.spec, clientIDs))
  }

  function Reshaped(c: Consumer, t: Template, wanted: bool): Consumer {
    match t.spec
    case VolumeReplicationClass =>
      c.(spec := c.spec.(vrcs := Adjusted(c.spec.vrcs, t.name, wanted)))
    case VolumeGroupReplicationClass =>
      c.(spec := c.spec.(vgrcs := Adjusted(c.spec.vgrcs, t.name, wanted)))
    case OtherKind => c
  }

  predicate ListsClass(c: Consumer, t: Template) {
    Lists(Classes(c.spec, t.spec), t.name)
  }

  /** The consumer has an entry of that name in either class list. */
  predicate Mentions(spec: ConsumerSpec, name: string) {
    Lists(spec.vrcs, name) || Lists(spec.vgrcs, name)
  }

  predicate UniqueClasses(spec: ConsumerSpec) {
    UniqueNames(spec.vrcs) && UniqueNames(spec.vgrcs)
  }

  /** What one write of the controller does to a consumer: the class of `t` is added or removed,
      and nothing else about the consumer or about any other class changes. */
  ghost predicate OneClassChanged(t: Template, before: Consumer, after: Consumer, clientIDs: set<string>) {
    && t.spec != OtherKind
    && after == before.(version := after.version, spec := after.spec)
    && after.spec == before.spec.(vrcs := after.spec.vrcs, vgrcs := after.spec.vgrcs)
    && (ListsClass(after, t) <==> Wanted(t, before.spec, clientIDs))
    && ListsClass(after, t) != ListsClass(before, t)
    && Others(after.spec.vrcs, t.name) == Others(before.spec.vrcs, t.name)
    && Others(after.spec.vgrcs, t.name) == Others(before.spec.vgrcs, t.name)
    && (t.spec == VolumeReplicationClass ==> after.spec.vgrcs == before.spec.vgrcs)
    && (t.spec == VolumeGroupReplicationClass ==> after.spec.vrcs == before.spec.vrcs)
    && UniqueClasses(after.spec)
  }

  lemma ExpectedChangesOneClass(c: Consumer, t: Template, clientIDs: set<string>)
    requires UniqueClasses(c.spec)
    ensures var e := Expected(c, t, clientIDs);
      && (e != c ==> OneClassChanged(t, c, e, clientIDs))
      && (e == c <==> t.spec == OtherKind || (ListsClass(c, t) <==> Wanted(t, c.spec, clientIDs)))
  {
    match t.spec {
      case VolumeReplicationClass => AdjustedMeetsWish(c.spec.vrcs, t.name, Wanted(t, c.spec, clientIDs));
      case VolumeGroupReplicationClass => AdjustedMeetsWish(c.spec.vgrcs, t.name, Wanted(t, c.spec, clientIDs));
      case OtherKind =>
    }
  }

  /** Another template is listed after the change iff it was before. */
  lemma OtherTemplatesUnmoved(t: Template, u: Template, before: Consumer, after: Consumer, clientIDs: set<string>)
    requires OneClassChanged(t, before, after, clientIDs) && u.name != t.name
    ensures ListsClass(after, u) <==> ListsClass(before, u)
    ensures Mentions(after.spec, u.name) <==> Mentions(before.spec, u.name)
  {
    OthersKeepMembers(before.spec.vrcs, t.name, u.name);
    OthersKeepMembers(after.spec.vrcs, t.name, u.name);
    OthersKeepMembers(before.spec.vgrcs, t.name, u.name);
    OthersKeepMembers(after.spec.vgrcs, t.name, u.name);
  }

  // ---------- the deletion lock ----------

  /** A ManifestWork in the spoke's namespace on the hub, as far as the lock is concerned:
      its deletion mark and its client-ID label, empty when there is none. */
  datatype WorkLabel = WorkLabel(deleting: bool, clientID: string)

  predicate NamedByLiveWork(works: seq<WorkLabel>, id: string) {
    id != "" && exists i :: 0 <= i < |works| && !works[i].deleting && works[i].clientID == id
  }

  function LockedIDs(works: seq<WorkLabel>): (m: map<string, string>) {
    if works == [] then map[]
    else
      var w := works[|works| - 1];
      var m := LockedIDs(works[..|works| - 1]);
      if !w.deleting && w.clientID != "" && w.clientID !in m then m[w.clientID := ""] else m
  }

  /** The lock holds exactly the client IDs that some live ManifestWork was created for, as keys without values. */
  lemma {:induction false} LockHoldsLiveClients(works: seq<WorkLabel>, id: string)
    ensures id in LockedIDs(works) <==> NamedByLiveWork(works, id)
    ensures id in LockedIDs(works) ==> LockedIDs(works)[id] == ""
  {
    if works != [] {
      var n := |works| - 1;
      var init := works[..n];
      LockHoldsLiveClients(init, id);
      if NamedByLiveWork(init, id) {
        var i :| 0 <= i < n && !init[i].deleting && init[i].clientID == id;
        assert works[i] == init[i];
      }
      if NamedByLiveWork(works, id) {
        var i :| 0 <= i < |works| && !works[i].deleting && works[i].clientID == id;
        if i < n { assert works[i] == init[i]; }
      }
    }
  }
}
