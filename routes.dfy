/** The route record (src/scan/react/index.ts:20-25) and the
    `Map<string, Route>` the React parsers fill: a JavaScript `Map` keeps its
    keys in first-insertion order, and `set` on a key that is already present
    replaces the value and keeps the key's place. */
module Routes {
  import opened JsText

  /** A discovered route; `component` and `children` are the optional fields
      of the TypeScript interface, absent as `None`. */
  datatype Route = Route(path: string, component: Option<string>, tags: seq<string>, children: Option<seq<Route>>)

  /** The contents of a `Map<string, Route>`: its keys in insertion order and the value under each. */
  datatype Store = Store(order: seq<string>, entries: map<string, Route>)

  /** The order lists each key of the map exactly once. */
  ghost predicate Valid(st: Store) {
    Distinct(st.order) && (forall k :: k in st.entries <==> k in st.order)
  }

  /** Every route is stored under its own path, as every `routes.set(path, { path, … })` does. */
  ghost predicate Keyed(st: Store) {
    forall k :: k in st.entries ==> st.entries[k].path == k
  }

  const Empty: Store := Store([], map[])

  /** `map.set(k, v)`. */
  function Put(st: Store, k: string, v: Route): Store {
    Store(if k in st.order then st.order else st.order + [k], st.entries[k := v])
  }

  /** The routes written one after another, each under its own path. */
  function PutAll(st: Store, ws: seq<Route>): Store
    decreases |ws|
  {
    if ws == [] then st
    else Put(PutAll(st, ws[..|ws| - 1]), ws[|ws| - 1].path, ws[|ws| - 1])
  }

  /** `Array.from(map.values())`. */
  function Values(st: Store): (vs: seq<Route>)
    requires Valid(st)
    ensures |vs| == |st.order|
    ensures forall i :: 0 <= i < |vs| ==> vs[i] == st.entries[st.order[i]]
  {
    seq(|st.order|, i requires 0 <= i < |st.order| && st.order[i] in st.entries => st.entries[st.order[i]])
  }

  function Paths(ws: seq<Route>): (ps: seq<string>)
    ensures |ps| == |ws| && forall i :: 0 <= i < |ws| ==> ps[i] == ws[i].path
  {
    seq(|ws|, i requires 0 <= i < |ws| => ws[i].path)
  }

  /** The last route written under `k`, if any. */
  function LastWrite(ws: seq<Route>, k: string): (r: Option<Route>)
    ensures r.Some? ==> r.value in ws && r.value.path == k
    ensures r.None? ==> forall i :: 0 <= i < |ws| ==> ws[i].path != k
    decreases |ws|
  {
    if ws == [] then None
    else if ws[|ws| - 1].path == k then Some(ws[|ws| - 1])
    else LastWrite(ws[..|ws| - 1], k)
  }

  /** `set` keeps the map well formed. */
  lemma PutValid(st: Store, k: string, v: Route)
    requires Valid(st)
    ensures Valid(Put(st, k, v))
  {
  }

  /** Writing routes keeps the map well formed and keyed by path. */
  lemma {:induction false} PutAllValid(st: Store, ws: seq<Route>)
    requires Valid(st) && Keyed(st)
    ensures Valid(PutAll(st, ws)) && Keyed(PutAll(st, ws))
    decreases |ws|
  {
    if ws != [] {
      PutAllValid(st, ws[..|ws| - 1]);
      PutValid(PutAll(st, ws[..|ws| - 1]), ws[|ws| - 1].path, ws[|ws| - 1]);
    }
  }

  /** Writing `a` and then `b` is writing `a + b`. */
  lemma {:induction false} PutAllAppend(st: Store, a: seq<Route>, b: seq<Route>)
    ensures PutAll(st, a + b) == PutAll(PutAll(st, a), b)
    decreases |b|
  {
    if b == [] {
      assert a + b == a;
    } else {
      PutAllAppend(st, a, b[..|b| - 1]);
      assert (a + b)[..|a + b| - 1] == a + b[..|b| - 1];
    }
  }

  /** Writing at most one more route is one more `set`, or nothing. */
  lemma PutAllStep(st: Store, ws: seq<Route>, kid: seq<Route>)
    requires |kid| <= 1
    ensures kid == [] ==> PutAll(st, ws + kid) == PutAll(st, ws)
    ensures kid != [] ==> PutAll(st, ws + kid) == Put(PutAll(st, ws), kid[0].path, kid[0])
  {
    if kid == [] {
      assert ws + kid == ws;
    } else {
      assert (ws + kid)[..|ws + kid| - 1] == ws;
    }
  }

  /** The last write wins: a key holds the last route written under it, and
      keys nobody wrote keep their old value. */
  lemma {:induction false} PutAllLookup(st: Store, ws: seq<Route>, k: string)
    ensures LastWrite(ws, k).Some? ==> k in PutAll(st, ws).entries && PutAll(st, ws).entries[k] == LastWrite(ws, k).value
    ensures LastWrite(ws, k).None? ==> (k in PutAll(st, ws).entries <==> k in st.entries)
    ensures LastWrite(ws, k).None? && k in st.entries ==> PutAll(st, ws).entries[k] == st.entries[k]
    decreases |ws|
  {
    if ws != [] {
      PutAllLookup(st, ws[..|ws| - 1], k);
    }
  }

  /** A key is in the order exactly when it was there before or some route was written under it. */
  lemma {:induction false} PutAllKeys(st: Store, ws: seq<Route>, k: string)
    ensures k in PutAll(st, ws).order <==> k in st.order || k in Paths(ws)
    decreases |ws|
  {
    if ws != [] {
      PutAllKeys(st, ws[..|ws| - 1], k);
      assert Paths(ws) == Paths(ws[..|ws| - 1]) + [ws[|ws| - 1].path];
    }
  }

  /** Starting from an empty map, keys are ordered by their first write. */
  lemma {:induction false} PutAllFirstWriteOrder(ws: seq<Route>)
    ensures var order := PutAll(Empty, ws).order;
      forall i, j :: 0 <= i < j < |order| ==>
        order[i] in Paths(ws) && order[j] in Paths(ws) && FirstIndex(Paths(ws), order[i]) < FirstIndex(Paths(ws), order[j])
    decreases |ws|
  {
    if ws != [] {
      var init := ws[..|ws| - 1];
      var last := ws[|ws| - 1];
      PutAllFirstWriteOrder(init);
      var before := PutAll(Empty, init).order;
      var order := PutAll(Empty, ws).order;
      var ps := Paths(ws);
      assert Paths(init) == ps[..|ps| - 1];
      forall k | k in Paths(init)
        ensures k in ps && FirstIndex(ps, k) == FirstIndex(Paths(init), k)
      {
        FirstIndexPrefix(ps, |ps| - 1, k);
      }
      forall k | k in before
        ensures k in Paths(init)
      {
        PutAllKeys(Empty, init, k);
      }
      if last.path !in before {
        PutAllKeys(Empty, init, last.path);
        assert last.path !in Paths(init);
        assert order == before + [last.path];
        assert ps[|ps| - 1] == last.path;
        assert FirstIndex(ps, last.path) == |ps| - 1;
        forall i, j | 0 <= i < j < |order|
          ensures order[i] in ps && order[j] in ps && FirstIndex(ps, order[i]) < FirstIndex(ps, order[j])
        {
          assert order[i] == before[i] && order[i] in Paths(init);
          if j < |before| {
            assert order[j] == before[j];
          } else {
            assert order[j] == last.path;
          }
        }
      } else {
        assert order == before;
        forall i, j | 0 <= i < j < |order|
          ensures order[i] in ps && order[j] in ps && FirstIndex(ps, order[i]) < FirstIndex(ps, order[j])
        {
          assert order[i] == before[i] && order[j] == before[j];
        }
      }
    }
  }

  /** The values of a map filled from empty by `ws`: each written path once,
      holding the last route written under it, in first-write order. */
  lemma ValuesAreLastWrites(ws: seq<Route>)
    ensures Valid(PutAll(Empty, ws))
    ensures var r := Values(PutAll(Empty, ws));
      && Distinct(Paths(r))
      && (forall i :: 0 <= i < |r| ==> LastWrite(ws, r[i].path) == Some(r[i]))
      && (forall p :: p in Paths(ws) <==> p in Paths(r))
      && (forall i, j :: 0 <= i < j < |r| ==> FirstIndex(Paths(ws), r[i].path) < FirstIndex(Paths(ws), r[j].path))
  {
    var st := PutAll(Empty, ws);
    PutAllValid(Empty, ws);
    var r := Values(st);
    assert Paths(r) == st.order by {
      forall i | 0 <= i < |r|
        ensures r[i].path == st.order[i]
      {
      }
    }
    forall i | 0 <= i < |r|
      ensures LastWrite(ws, r[i].path) == Some(r[i])
    {
      PutAllLookup(Empty, ws, st.order[i]);
    }
    forall p
      ensures p in Paths(ws) <==> p in Paths(r)
    {
      PutAllKeys(Empty, ws, p);
    }
    PutAllFirstWriteOrder(ws);
  }

  /** The JavaScript `Map` the scanner writes into. */
  class RouteMap {
    var order: seq<string>
    var entries: map<string, Route>

    function State(): Store
      reads this
    {
      Store(order, entries)
    }

    /** `new Map<string, Route>()`. */
    constructor ()
      ensures State() == Empty
    {
      order := [];
      entries := map[];
    }

    /** `map.set(key, value)`. */
    method Set(key: string, value: Route)
      modifies this
      ensures State() == Put(old(State()), key, value)
    {
      if key !in order {
        order := order + [key];
      }
      entries := entries[key := value];
    }

    /** `Array.from(map.values())`. */
    method ValuesInOrder() returns (vs: seq<Route>)
      requires Valid(State())
      ensures vs == Values(State())
    {
      vs := [];
      var i := 0;
      while i < |order|
        invariant 0 <= i <= |order|
        invariant vs == Values(State())[..i]
      {
        vs := vs + [entries[order[i]]];
        i := i + 1;
      }
    }
  }
}
