/** From a changed Placement back to the ProtectedApplicationViews that depend on it, by an index that the
    cache keeps of the DRPlacementControls, against the forward resolution each view makes. */
module ReverseWatch {
  import opened Options

  datatype Key = Key(namespace: string, name: string)

  // ---------- a field index of the cache ----------

  /** Objects of one kind with an index by namespace and field value; `values` extracts the values. */
  class FieldIndex<S(==)> {
    const values: S -> seq<string>
    var objects: map<Key, S>
    var index: map<(string, string), set<Key>>

    function Lookup(namespace: string, v: string): set<Key>
      reads this
    {
      if (namespace, v) in index then index[(namespace, v)] else {}
    }

    /** What a scan over all objects would find. */
    function Scan(namespace: string, v: string): set<Key>
      reads this
    {
      set k | k in objects && k.namespace == namespace && v in values(objects[k])
    }

    ghost predicate Valid()
      reads this
    {
      forall namespace, v :: Lookup(namespace, v) == Scan(namespace, v)
    }

    constructor (f: S -> seq<string>)
      ensures Valid() && objects == map[] && values == f
    {
      values, objects, index := f, map[], map[];
    }

    method Unlist(k: Key, vs: seq<string>)
      modifies `index
      ensures forall n, v :: Lookup(n, v) == old(Lookup(n, v)) - (if n == k.namespace && v in vs then {k} else {})
    {
      for i := 0 to |vs|
        invariant forall n, v :: Lookup(n, v) == old(Lookup(n, v)) - (if n == k.namespace && v in vs[..i] then {k} else {})
      {
        assert vs[..i + 1] == vs[..i] + [vs[i]];
        index := index[(k.namespace, vs[i]) := Lookup(k.namespace, vs[i]) - {k}];
      }
      assert vs[..|vs|] == vs;
    }

    method Enlist(k: Key, vs: seq<string>)
      modifies `index
      ensures forall n, v :: Lookup(n, v) == old(Lookup(n, v)) + (if n == k.namespace && v in vs then {k} else {})
    {
      for i := 0 to |vs|
        invariant forall n, v :: Lookup(n, v) == old(Lookup(n, v)) + (if n == k.namespace && v in vs[..i] then {k} else {})
      {
        assert vs[..i + 1] == vs[..i] + [vs[i]];
        index := index[(k.namespace, vs[i]) := Lookup(k.namespace, vs[i]) + {k}];
      }
      assert vs[..|vs|] == vs;
    }

    /** A new object, or a new version of one. */
    method Put(k: Key, s: S)
      requires Valid()
      modifies this
      ensures Valid() && objects == old(objects)[k := s]
    {
      if k in objects {
        Unlist(k, values(objects[k]));
      }
      assert forall n, v :: Lookup(n, v) == old(Scan(n, v)) - {k};
      Enlist(k, values(s));
      objects := objects[k := s];
      forall n, v ensures Lookup(n, v) == Scan(n, v) {
        assert Scan(n, v) == (old(Scan(n, v)) - {k}) + (if n == k.namespace && v in values(s) then {k} else {});
      }
    }

    method Remove(k: Key)
      requires Valid()
      modifies this
      ensures Valid() && objects == old(objects) - {k}
    {
      if k in objects {
        Unlist(k, values(objects[k]));
      }
      assert forall n, v :: Lookup(n, v) == old(Scan(n, v)) - {k};
      objects := objects - {k};
      assert forall n, v :: Scan(n, v) == old(Scan(n, v)) - {k};
    }

    /** The indexed list of a namespace, in no particular order. */
    method List(namespace: string, v: string) returns (items: seq<Key>)
      requires Valid()
      ensures forall k :: k in items <==> k in Scan(namespace, v)
      ensures forall i, j :: 0 <= i < j < |items| ==> items[i] != items[j]
    {
      var left := Lookup(namespace, v);
      items := [];
      while left != {}
        invariant left <= Lookup(namespace, v)
        invariant forall k :: k in items <==> k in Lookup(namespace, v) && k !in left
        invariant forall i, j :: 0 <= i < j < |items| ==> items[i] != items[j]
        decreases left
      {
        var k :| k in left;
        items := items + [k];
        left := left - {k};
      }
    }
  }

  // ---------- DRPlacementControls and views ----------

  datatype Drpc = Drpc(refName: string, refNamespace: string)

  /** A ProtectedApplicationView and the DRPlacementControl it refers to. */
  datatype View = View(drpc: Key, deleting: bool)

  type Views = map<Key, View>

  function IndexedPlacements(d: Drpc): seq<string> {
    [d.refName]
  }

  /** A view has the key of its DRPlacementControl. */
  predicate OwnKeys(views: Views) {
    forall k <- views :: views[k].drpc == k
  }

  /** The reconciler that makes the views. */
  method ReconcileDrpc(k: Key, drpcs: map<Key, Drpc>, views: Views) returns (views': Views)
    requires OwnKeys(views)
    ensures OwnKeys(views')
    ensures k in drpcs ==> k in views'
    ensures k in drpcs && k !in views ==> views'[k] == View(k, false)
    ensures k !in drpcs ==> views' == views
    ensures views' - {k} == views - {k} && (k in views ==> k in views' && views'[k].deleting == views[k].deleting)
  {
    if k !in drpcs {
      return views;
    }
    var view := if k in views then views[k].(drpc := k) else View(k, false);
    views' := views[k := view];
  }

  /** The Placement that a reconcile of view `k` fetches. */
  function Fetched(k: Key, drpcs: map<Key, Drpc>, views: Views): Option<Key> {
    if k !in views || views[k].deleting || views[k].drpc !in drpcs then None
    else
      var ref := views[k].drpc;
      var d := drpcs[ref];
      Some(Key(if d.refNamespace == "" then ref.namespace else d.refNamespace, d.refName))
  }

  /** The views to reconcile when this Placement changes, by a full scan. */
  function Dependents(drpcs: map<Key, Drpc>, placement: Key): set<Key> {
    set k | k in drpcs && k.namespace == placement.namespace && drpcs[k].refName == placement.name
  }

  predicate Live(k: Key, views: Views) {
    k in views && !views[k].deleting
  }

  /** The reference names no namespace or that of the DRPlacementControl. */
  predicate OwnNamespace(k: Key, d: Drpc) {
    d.refNamespace == "" || d.refNamespace == k.namespace
  }

  /** A reconcile of a view. With references of that kind the Placement it fetches is exactly the one whose
      changes ask for this view; with any other the fetched Placement is one whose changes do not. */
  method ReconcileView(k: Key, drpcs: map<Key, Drpc>, views: Views) returns (placement: Option<Key>)
    ensures placement == Fetched(k, drpcs, views)
    ensures placement.Some? <==> Live(k, views) && views[k].drpc in drpcs
    ensures placement.Some? ==>
              && placement.value.name == drpcs[views[k].drpc].refName
              && (drpcs[views[k].drpc].refNamespace == "" ==> placement.value.namespace == views[k].drpc.namespace)
              && (drpcs[views[k].drpc].refNamespace != "" ==> placement.value.namespace == drpcs[views[k].drpc].refNamespace)
    ensures OwnKeys(views) && k in drpcs && OwnNamespace(k, drpcs[k]) ==>
              forall p: Key :: placement == Some(p) <==> Live(k, views) && k in Dependents(drpcs, p)
    ensures OwnKeys(views) && k in drpcs && !OwnNamespace(k, drpcs[k]) && placement.Some? ==>
              k !in Dependents(drpcs, placement.value)
  {
    if k !in views || views[k].deleting {
      return None;
    }
    var drpcKey := views[k].drpc;
    if drpcKey !in drpcs {
      return None;
    }
    var placementNS := drpcs[drpcKey].refNamespace;
    if placementNS == "" {
      placementNS := drpcKey.namespace;
    }
    return Some(Key(placementNS, drpcs[drpcKey].refName));
  }

  method FindPAVsForPlacement(drpcs: FieldIndex<Drpc>, placement: Key) returns (requests: seq<Key>)
    requires drpcs.Valid() && drpcs.values == IndexedPlacements
    ensures forall k :: k in requests <==> k in Dependents(drpcs.objects, placement)
    ensures forall i, j :: 0 <= i < j < |requests| ==> requests[i] != requests[j]
  {
    var items := drpcs.List(placement.namespace, placement.name);
    assert forall k <- drpcs.objects :: drpcs.values(drpcs.objects[k]) == [drpcs.objects[k].refName];
    requests := [];
    for i := 0 to |items|
      invariant requests == items[..i]
    {
      requests := requests + [Key(items[i].namespace, items[i].name)];
    }
    assert requests == items;
  }

  /** A PlacementDecision names its Placement by a label. */
  method FindPAVsForPlacementDecision(
    drpcs: FieldIndex<Drpc>, placements: set<Key>, namespace: string, placementLabel: Option<string>) returns (requests: seq<Key>)
    requires drpcs.Valid() && drpcs.values == IndexedPlacements
    ensures placementLabel.Some? && Key(namespace, placementLabel.value) in placements ==>
              forall k :: k in requests <==> k in Dependents(drpcs.objects, Key(namespace, placementLabel.value))
    ensures !(placementLabel.Some? && Key(namespace, placementLabel.value) in placements) ==> requests == []
  {
    if placementLabel.None? || Key(namespace, placementLabel.value) !in placements {
      return [];
    }
    requests := FindPAVsForPlacement(drpcs, Key(namespace, placementLabel.value));
  }

  /** The view of a DRPlacementControl is found from every Placement it would fetch, and from no other,
      exactly if the reference names no namespace or the DRPlacementControl's own. */
  lemma WatchedIffOwnNamespace(drpcs: map<Key, Drpc>, views: Views, k: Key)
    requires OwnKeys(views) && k in views && !views[k].deleting && k in drpcs
    ensures (forall p: Key :: k in Dependents(drpcs, p) <==> Fetched(k, drpcs, views) == Some(p)) <==>
            OwnNamespace(k, drpcs[k])
  {
    var p := Key(k.namespace, drpcs[k].refName);
    assert k in Dependents(drpcs, p);
    if OwnNamespace(k, drpcs[k]) {
      assert Fetched(k, drpcs, views) == Some(p);
    }
  }

  /** So if all references are like that, the requests for a Placement are the views that would fetch it, and
      besides only such whose view is not there or is being deleted. */
  lemma RequestsAreDependentViews(drpcs: map<Key, Drpc>, views: Views, p: Key)
    requires OwnKeys(views)
    requires forall k <- drpcs :: OwnNamespace(k, drpcs[k])
    ensures (set k | k in views && Fetched(k, drpcs, views) == Some(p)) ==
            (set k | k in Dependents(drpcs, p) && k in views && !views[k].deleting)
  {
    forall k | k in views && k in drpcs && !views[k].deleting
      ensures k in Dependents(drpcs, p) <==> Fetched(k, drpcs, views) == Some(p)
    {
      WatchedIffOwnNamespace(drpcs, views, k);
    }
  }
}
