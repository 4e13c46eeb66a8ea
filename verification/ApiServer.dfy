/** The part of the Kubernetes API server that the reconcilers rely on: one shelf of
    named objects per kind, optimistic concurrency on Update, and finalizers. */
module ApiServer {
  datatype Object<+S> = Object(name: string, version: nat, deleting: bool, finalizers: seq<string>, spec: S)

  /** All stored objects of one kind; `clock` is the highest resourceVersion handed out. */
  datatype Shelf<+S> = Shelf(objects: map<string, Object<S>>, clock: nat)

  datatype Reply<+S> = Written(shelf: Shelf<S>) | NotFound | Conflict

  predicate Valid<S>(shelf: Shelf<S>) {
    forall n <- shelf.objects :: var o := shelf.objects[n];
      o.name == n && o.version <= shelf.clock && !(o.deleting && o.finalizers == [])
  }

  /** Update stores `o` if its resourceVersion is current. The deletion mark is the server's own,
      and an object that is marked and has no finalizer left disappears. */
  function Update<S>(shelf: Shelf<S>, o: Object<S>): (r: Reply<S>)
    ensures r.Written? <==> o.name in shelf.objects && shelf.objects[o.name].version == o.version
  {
    if o.name !in shelf.objects then NotFound
    else if shelf.objects[o.name].version != o.version then Conflict
    else
      var stored := o.(version := shelf.clock + 1, deleting := shelf.objects[o.name].deleting);
      if stored.deleting && stored.finalizers == [] then
        Written(Shelf(shelf.objects - {o.name}, shelf.clock + 1))
      else
        Written(Shelf(shelf.objects[o.name := stored], shelf.clock + 1))
  }

  /** What an accepted Update leaves: the object as it was sent, under the newest resourceVersion and with the
      server's own deletion mark, unless it was marked and has lost its last finalizer; every other object as is. */
  lemma UpdateStores<S>(shelf: Shelf<S>, o: Object<S>)
    requires Valid(shelf) && Update(shelf, o).Written?
    ensures var now, was := Update(shelf, o).shelf, shelf.objects[o.name];
      && now.clock > shelf.clock
      && (o.name in now.objects <==> !was.deleting || o.finalizers != [])
      && (o.name in now.objects ==>
            now.objects[o.name] == Object(o.name, now.clock, was.deleting, o.finalizers, o.spec))
      && now.objects - {o.name} == shelf.objects - {o.name}
  {
    var now := Update(shelf, o).shelf;
    assert now.objects - {o.name} == shelf.objects - {o.name};
  }

  /** `later` is reached from `earlier` by writes that each take a new resourceVersion. */
  predicate Since<S(==)>(earlier: Shelf<S>, later: Shelf<S>) {
    && earlier.clock <= later.clock
    && forall n <- later.objects :: later.objects[n].version <= earlier.clock ==>
         n in earlier.objects && earlier.objects[n] == later.objects[n]
  }

  lemma SinceTransitive<S>(a: Shelf<S>, b: Shelf<S>, c: Shelf<S>)
    requires Since(a, b) && Since(b, c)
    ensures Since(a, c)
  {
  }

  /** Why a stale write cannot lose an update: if Update accepts an object that was read from an
      earlier state of the shelf, then what is stored now is still exactly what was read. */
  lemma AcceptedWriteWasFresh<S>(read: Shelf<S>, now: Shelf<S>, was: Object<S>, o: Object<S>)
    requires Valid(read) && Valid(now) && Since(read, now)
    requires was.name in read.objects && read.objects[was.name] == was
    requires o.name == was.name && o.version == was.version
    requires Update(now, o).Written?
    ensures now.objects[was.name] == was
    ensures Valid(Update(now, o).shelf) && Since(now, Update(now, o).shelf)
  {
    var stored := now.objects[was.name];
    assert read.objects[was.name].version <= read.clock;
    assert stored.version <= read.clock;
  }

  /** The finalizers left when every occurrence of `f` is taken out. */
  function Without(fs: seq<string>, f: string): (r: seq<string>)
    ensures f !in r
    ensures forall g :: g in fs && g != f ==> g in r
    ensures forall g :: g in r ==> g in fs
    ensures f !in fs ==> r == fs
  {
    if fs == [] then []
    else (if fs[0] == f then [] else [fs[0]]) + Without(fs[1..], f)
  }

  predicate NamesIn<S>(items: seq<Object<S>>, n: string) {
    exists i :: 0 <= i < |items| && items[i].name == n
  }

  /** `items` is one possible answer to List: every stored object once, in any order. */
  ghost predicate IsListing<S>(shelf: Shelf<S>, items: seq<Object<S>>) {
    && (forall i :: 0 <= i < |items| ==> items[i].name in shelf.objects && shelf.objects[items[i].name] == items[i])
    && (forall i, j :: 0 <= i < j < |items| ==> items[i].name != items[j].name)
    && (forall n <- shelf.objects :: NamesIn(items, n))
  }

  method List<S>(shelf: Shelf<S>) returns (items: seq<Object<S>>)
    requires Valid(shelf)
    ensures IsListing(shelf, items)
  {
    items := [];
    var left := shelf.objects.Keys;
    while left != {}
      invariant left <= shelf.objects.Keys
      invariant forall i :: 0 <= i < |items| ==>
        items[i].name in shelf.objects && items[i].name !in left && shelf.objects[items[i].name] == items[i]
      invariant forall i, j :: 0 <= i < j < |items| ==> items[i].name != items[j].name
      invariant forall n <- shelf.objects :: n in left || NamesIn(items, n)
      decreases left
    {
      var n :| n in left;
      ghost var before := items;
      items := items + [shelf.objects[n]];
      left := left - {n};
      forall m <- shelf.objects | m !in left ensures NamesIn(items, m) {
        if m == n {
          assert items[|before|].name == m;
        } else {
          var i :| 0 <= i < |before| && before[i].name == m;
          assert items[i].name == m;
        }
      }
    }
  }
}
