/**
 Dictionaries and lists as objects reached by reference, the trees they stand for, and what setting one key
 of one object does to all of them (src/state_store.py:223-232, :286-292).
 */
module StateHeap {
  import opened Common
  import opened StateTree

  // ---------- Dictionaries and lists on the heap ----------

  datatype Cell = Atom(text: string) | Ref(obj: Obj)

  /** A Python dictionary, or a list when isMap is false. */
  class Obj {
    const isMap: bool
    var cells: map<Key, Cell>

    constructor (isMap: bool)
      ensures this.isMap == isMap && cells == map[]
    {
      this.isMap := isMap;
      cells := map[];
    }
  }

  /** The cells of a set of objects at one moment. */
  type Heap = map<Obj, map<Key, Cell>>

  ghost function Cells(objs: set<Obj>): Heap
    reads objs
  {
    map o | o in objs :: o.cells
  }

  lemma CellsJoined(a: set<Obj>, b: set<Obj>)
    ensures Cells(a + b) == Cells(a) + Cells(b)
  {}

  /** A set of objects, each with the tree it stands for. */
  type Model = map<Obj, Tree>

  ghost predicate Within(c: Cell, m: Model) {
    c.Ref? ==> c.obj in m
  }

  ghost function Seen(c: Cell, m: Model): Tree
    requires Within(c, m)
  {
    match c
    case Atom(text) => Leaf(text)
    case Ref(o) => m[o]
  }

  ghost function SeenOption(c: Option<Cell>, m: Model): Option<Tree>
    requires c.Some? ==> Within(c.value, m)
  {
    if c.Some? then Some(Seen(c.value, m)) else None
  }

  /** Through m, these cells read as t. */
  ghost predicate Shows(cells: map<Key, Cell>, m: Model, t: Entries) {
    && cells.Keys == t.Keys
    && forall k :: k in cells ==> Within(cells[k], m) && Seen(cells[k], m) == t[k]
  }

  ghost predicate Settled(h: Heap, m: Model, o: Obj) {
    o in h && o in m && m[o].Branch? && m[o].isMap == o.isMap && Shows(h[o], m, m[o].entries)
  }

  /** m gives every object of the heap the tree it reads as; an object may be held in several places. */
  ghost predicate AllSettled(h: Heap, m: Model) {
    h.Keys == m.Keys && forall o {:trigger Settled(h, m, o)} :: o in m ==> Settled(h, m, o)
  }

  ghost predicate Holds(h: Heap, older o: Obj, k: Key, older c: Obj) {
    o in h && k in h[o] && h[o][k] == Ref(c)
  }

  /** No object is held twice. */
  ghost predicate Unshared(h: Heap) {
    forall o, k, p, l, c :: Holds(h, o, k, c) && Holds(h, p, l, c) ==> o == p && k == l
  }

  ghost predicate Unheld(h: Heap, c: Obj) {
    forall o, k :: Holds(h, o, k, c) ==> false
  }

  ghost predicate Describes(h: Heap, m: Model, root: Obj) {
    AllSettled(h, m) && root in m && Unheld(h, root)
  }

  predicate IsMapCell(c: Cell) {
    c.Ref? && c.obj.isMap
  }

  lemma SettledAt(h: Heap, m: Model, o: Obj)
    requires AllSettled(h, m) && o in m
    ensures Settled(h, m, o)
  {}

  lemma SettledKeys(h: Heap, m: Model)
    requires AllSettled(h, m)
    ensures h.Keys == m.Keys
  {}

  lemma ChildIsSmaller(h: Heap, m: Model, o: Obj, k: Key)
    requires AllSettled(h, m) && o in m && k in h[o] && h[o][k].Ref?
    ensures h[o][k].obj in m && m[o].Branch? && k in m[o].entries && m[o].entries[k] == m[h[o][k].obj]
    ensures m[h[o][k].obj] < m[o]
  {
    SettledAt(h, m, o);
  }

  // ---------- Setting one key ----------

  /** The tree of o once the key k of the object at is set to something that reads as t. */
  ghost function Rebuild(h: Heap, m: Model, at: Obj, k: Key, t: Tree, o: Obj): Tree
    requires AllSettled(h, m) && o in m
    decreases m[o]
  {
    SettledAt(h, m, o);
    if o == at then Branch(o.isMap, m[o].entries[k := t])
    else
      Branch(o.isMap, map l | l in h[o] ::
        if h[o][l].Ref? then Rebuild(h, m, at, k, t, h[o][l].obj) else m[o].entries[l])
  }

  ghost function Rebuilt(h: Heap, m: Model, at: Obj, k: Key, t: Tree): (r: Model)
    requires AllSettled(h, m)
    ensures r.Keys == m.Keys
  {
    map o | o in m :: Rebuild(h, m, at, k, t, o)
  }

  /** An object smaller than the changed one cannot hold it, so it stays as it is. */
  lemma {:induction false} SmallerStays(h: Heap, m: Model, at: Obj, k: Key, t: Tree, o: Obj)
    requires AllSettled(h, m) && o in m && at in m && m[o] < m[at]
    ensures Rebuild(h, m, at, k, t, o) == m[o]
    decreases m[o]
  {
    SettledAt(h, m, o);
    forall l | l in h[o] && h[o][l].Ref? ensures Rebuild(h, m, at, k, t, h[o][l].obj) == m[o].entries[l] {
      ChildIsSmaller(h, m, o, l);
      SmallerStays(h, m, at, k, t, h[o][l].obj);
    }
  }

  /** What cannot reach the changed object stays as it is: here, the objects of a value that does not contain it. */
  lemma {:induction false} ValueStays(h: Heap, m: Model, at: Obj, k: Key, t: Tree, hx: Heap, mx: Model, o: Obj)
    requires AllSettled(h, m) && AllSettled(hx, mx) && Agree(h, m, hx, mx) && at !in mx && o in m && o in mx
    ensures Rebuild(h, m, at, k, t, o) == m[o]
    decreases m[o]
  {
    SettledAt(h, m, o);
    SettledAt(hx, mx, o);
    forall l | l in h[o] && h[o][l].Ref? ensures Rebuild(h, m, at, k, t, h[o][l].obj) == m[o].entries[l] {
      ChildIsSmaller(h, m, o, l);
      assert Within(hx[o][l], mx);
      ValueStays(h, m, at, k, t, hx, mx, h[o][l].obj);
    }
  }

  /** Where two sets of objects overlap, they are seen alike. */
  ghost predicate Agree(h: Heap, m: Model, hx: Heap, mx: Model) {
    && (forall o :: o in m && o in mx ==> m[o] == mx[o])
    && (forall o :: o in h && o in hx ==> h[o] == hx[o])
  }

  /** The objects that a cell to be stored consists of. */
  ghost predicate Given(x: Option<Cell>, hx: Heap, mx: Model) {
    AllSettled(hx, mx) && (x.Some? ==> Within(x.value, mx))
  }

  lemma GivenKeys(x: Option<Cell>, hx: Heap, mx: Model)
    requires Given(x, hx, mx)
    ensures hx.Keys == mx.Keys && (x.Some? ==> Within(x.value, mx))
  {}

  /** The heap after storing the cell x, whose objects join the others. */
  ghost function Stored(h: Heap, at: Obj, k: Key, x: Cell, hx: Heap): Heap
    requires at in h
  {
    h[at := h[at][k := x]] + hx
  }

  /** The object whose key is set reads as before, except at that key. */
  lemma ChangedSettled(h: Heap, m: Model, at: Obj, k: Key, x: Cell, hx: Heap, mx: Model)
    requires AllSettled(h, m) && at in m && Given(Some(x), hx, mx) && Agree(h, m, hx, mx) && at !in mx
    ensures Settled(Stored(h, at, k, x, hx), Rebuilt(h, m, at, k, Seen(x, mx)) + mx, at)
  {
    GivenKeys(Some(x), hx, mx);
    SettledAt(h, m, at);
    var t := Seen(x, mx);
    var next := Rebuilt(h, m, at, k, t) + mx;
    forall l | l in h[at] && l != k ensures Within(h[at][l], next) && Seen(h[at][l], next) == m[at].entries[l] {
      if h[at][l].Ref? {
        ChildIsSmaller(h, m, at, l);
        SmallerStays(h, m, at, k, t, h[at][l].obj);
      }
    }
    assert Seen(x, next) == t;
  }

  lemma OtherSettled(h: Heap, m: Model, at: Obj, k: Key, x: Cell, hx: Heap, mx: Model, o: Obj)
    requires AllSettled(h, m) && at in m && Given(Some(x), hx, mx) && Agree(h, m, hx, mx) && at !in mx
    requires o in m && o !in mx && o != at
    ensures Settled(Stored(h, at, k, x, hx), Rebuilt(h, m, at, k, Seen(x, mx)) + mx, o)
  {
    GivenKeys(Some(x), hx, mx);
    SettledAt(h, m, o);
    var t := Seen(x, mx);
    var next := Rebuilt(h, m, at, k, t) + mx;
    forall l | l in h[o]
      ensures Within(h[o][l], next) && Seen(h[o][l], next) == Rebuild(h, m, at, k, t, o).entries[l]
    {
      if h[o][l].Ref? {
        var b := h[o][l].obj;
        ChildIsSmaller(h, m, o, l);
        if b in mx {
          ValueStays(h, m, at, k, t, hx, mx, b);
        }
      }
    }
  }

  /** After one key is set every object reads as rebuilt. */
  lemma StoreSettles(h: Heap, m: Model, at: Obj, k: Key, x: Cell, hx: Heap, mx: Model)
    requires AllSettled(h, m) && at in m && Given(Some(x), hx, mx) && Agree(h, m, hx, mx) && at !in mx
    ensures AllSettled(Stored(h, at, k, x, hx), Rebuilt(h, m, at, k, Seen(x, mx)) + mx)
  {
    hide Settled, Rebuild;
    GivenKeys(Some(x), hx, mx);
    var next := Rebuilt(h, m, at, k, Seen(x, mx)) + mx;
    forall o | o in next ensures Settled(Stored(h, at, k, x, hx), next, o) {
      if o in mx {
        SettledAt(hx, mx, o);
        JoinedSettled(Stored(h, at, k, x, hx), next, hx, mx, o);
      } else if o == at {
        ChangedSettled(h, m, at, k, x, hx, mx);
      } else {
        OtherSettled(h, m, at, k, x, hx, mx, o);
      }
    }
  }

  lemma JoinedSettled(h: Heap, m: Model, hx: Heap, mx: Model, o: Obj)
    requires Settled(hx, mx, o) && o in h && h[o] == hx[o] && (forall p :: p in mx ==> p in m && m[p] == mx[p])
    ensures Settled(h, m, o)
  {}

  lemma AllWithin(h: Heap, m: Model)
    requires AllSettled(h, m)
    ensures h.Keys == m.Keys && forall o, k :: o in h && k in h[o] ==> Within(h[o][k], m)
  {
    forall o, k | o in h && k in h[o] ensures Within(h[o][k], m) {
      SettledAt(h, m, o);
    }
  }

  lemma StoredHolds(h: Heap, at: Obj, k0: Key, x: Cell, hx: Heap, o: Obj, k: Key, c: Obj)
    requires at in h && Holds(Stored(h, at, k0, x, hx), o, k, c)
    ensures Holds(h, o, k, c) || Holds(hx, o, k, c) || (o == at && k == k0 && x == Ref(c))
  {}

  lemma StoreKeepsUnheld(h: Heap, m: Model, root: Obj, at: Obj, k: Key, x: Cell, hx: Heap, mx: Model)
    requires AllSettled(h, m) && at in m && Given(Some(x), hx, mx) && root !in mx && Unheld(h, root)
    ensures Unheld(Stored(h, at, k, x, hx), root)
  {
    AllWithin(hx, mx);
    hide AllSettled;
    forall o, l | Holds(Stored(h, at, k, x, hx), o, l, root) ensures false {
      StoredHolds(h, at, k, x, hx, o, l, root);
    }
  }

  /** A value of its own, held by nobody, keeps everything unshared. */
  lemma StoreKeepsUnshared(h: Heap, m: Model, at: Obj, k0: Key, x: Cell, hx: Heap, mx: Model)
    requires AllSettled(h, m) && at in m && Given(Some(x), hx, mx) && Separate(Some(x), h, hx)
    ensures Unshared(Stored(h, at, k0, x, hx))
  {
    AllWithin(h, m);
    AllWithin(hx, mx);
    hide AllSettled;
    var h1 := Stored(h, at, k0, x, hx);
    forall o, k, p, l, c | Holds(h1, o, k, c) && Holds(h1, p, l, c) ensures o == p && k == l {
      OwnHolder(h, m, at, k0, x, hx, mx, o, k, c);
      OwnHolder(h, m, at, k0, x, hx, mx, p, l, c);
    }
  }

  /** A value of separate objects that hold it nowhere themselves, in a heap without sharing. */
  ghost predicate Separate(x: Option<Cell>, h: Heap, hx: Heap) {
    Unshared(h) && Unshared(hx) && h.Keys !! hx.Keys && (x.Some? && x.value.Ref? ==> Unheld(hx, x.value.obj))
  }

  lemma OwnHolder(h: Heap, m: Model, at: Obj, k0: Key, x: Cell, hx: Heap, mx: Model, o: Obj, k: Key, c: Obj)
    requires m.Keys !! mx.Keys && h.Keys == m.Keys && hx.Keys == mx.Keys && at in h && Within(x, mx)
    requires forall q, l :: q in h && l in h[q] ==> Within(h[q][l], m)
    requires forall q, l :: q in hx && l in hx[q] ==> Within(hx[q][l], mx)
    requires Holds(Stored(h, at, k0, x, hx), o, k, c)
    ensures c in m ==> Holds(h, o, k, c)
    ensures c in mx ==> Holds(hx, o, k, c) || (o == at && k == k0 && x == Ref(c))
    ensures c in m || c in mx
  {
    if o in hx {
      assert Within(hx[o][k], mx);
    } else if o != at || k != k0 {
      assert Within(h[o][k], m);
    }
  }

  // ---------- The save loop as one change ----------

  /** The last dictionary that exists along a path, and the keys still to go from there. */
  ghost function Pivot(h: Heap, o: Obj, path: Path): Obj
    decreases |path|
  {
    if |path| > 1 && o in h && path[0] in h[o] && IsMapCell(h[o][path[0]])
    then Pivot(h, h[o][path[0]].obj, path[1..])
    else o
  }

  ghost function ToGo(h: Heap, o: Obj, path: Path): (rest: Path)
    ensures |rest| <= |path| && (path != [] ==> rest != [])
    decreases |path|
  {
    if |path| > 1 && o in h && path[0] in h[o] && IsMapCell(h[o][path[0]])
    then ToGo(h, h[o][path[0]].obj, path[1..])
    else path
  }

  /** What is put at the next key: the value itself, or new dictionaries that lead to it. */
  function NewTree(rest: Path, v: Option<Tree>): Option<Tree>
    requires rest != []
  {
    if |rest| == 1 then v else Some(Branch(true, Place(map[], rest[1..], v)))
  }

  /** The trees of all objects after a save below root: all that hold the changed dictionary see the change. */
  ghost function InPlace(h: Heap, m: Model, root: Obj, path: Path, v: Option<Tree>): (r: Model)
    requires AllSettled(h, m) && path != []
    ensures r.Keys == m.Keys
  {
    var rest := ToGo(h, root, path);
    var t := NewTree(rest, v);
    if t.Some? then Rebuilt(h, m, Pivot(h, root, path), rest[0], t.value) else m
  }

  /** Where a path of keys leads, through dictionaries and lists. */
  ghost function Reached(h: Heap, o: Obj, p: Path): Option<Obj>
    decreases |p|
  {
    if p == [] then Some(o)
    else if o in h && p[0] in h[o] && h[o][p[0]].Ref? then Reached(h, h[o][p[0]].obj, p[1..])
    else None
  }

  ghost predicate OnlyRoute(h: Heap, o: Obj, p: Path, c: Obj) {
    forall q: Path :: Reached(h, o, q) == Some(c) <==> q == p
  }

  /** Nothing holds itself, however indirectly. */
  lemma {:induction false} Descends(h: Heap, m: Model, o: Obj, p: Path)
    requires AllSettled(h, m) && o in m && Reached(h, o, p).Some?
    ensures Reached(h, o, p).value in m
    ensures p != [] ==> m[Reached(h, o, p).value] < m[o]
    decreases |p|
  {
    if p != [] {
      ChildIsSmaller(h, m, o, p[0]);
      Descends(h, m, h[o][p[0]].obj, p[1..]);
    }
  }

  lemma {:induction false} PivotReached(h: Heap, o: Obj, path: Path)
    requires path != []
    ensures Reached(h, o, path[..|path| - |ToGo(h, o, path)|]) == Some(Pivot(h, o, path))
    decreases |path|
  {
    if |path| > 1 && o in h && path[0] in h[o] && IsMapCell(h[o][path[0]]) {
      var rest := ToGo(h, o, path);
      assert path[..|path| - |rest|][1..] == path[1..][..|path| - 1 - |rest|];
      PivotReached(h, h[o][path[0]].obj, path[1..]);
    }
  }

  /** An object that reaches the changed one is changed itself, if that one is. */
  lemma {:induction false} ReachersChange(h: Heap, m: Model, at: Obj, k: Key, t: Tree, o: Obj, q: Path)
    requires AllSettled(h, m) && o in m && at in m && Reached(h, o, q) == Some(at)
    requires Rebuild(h, m, at, k, t, at) != m[at]
    ensures Rebuild(h, m, at, k, t, o) != m[o]
    decreases |q|
  {
    if q != [] && o != at {
      ChildIsSmaller(h, m, o, q[0]);
      ReachersChange(h, m, at, k, t, h[o][q[0]].obj, q[1..]);
      assert Rebuild(h, m, at, k, t, o).entries[q[0]] != m[o].entries[q[0]];
    }
  }

  ghost predicate Apart(h: Heap, o: Obj, c: Obj) {
    forall q: Path :: Reached(h, o, q) != Some(c)
  }

  lemma ApartBelow(h: Heap, o: Obj, l: Key, c: Obj)
    requires Apart(h, o, c) && o in h && l in h[o] && h[o][l].Ref?
    ensures Apart(h, h[o][l].obj, c) && o != c
  {
    assert Reached(h, o, []) == Some(o);
    forall q: Path ensures Reached(h, h[o][l].obj, q) != Some(c) {
      RouteVia(h, o, l, q);
    }
  }

  /** An object that does not reach the changed one is not changed, and no object is if that one is not. */
  lemma {:induction false} OthersStay(h: Heap, m: Model, at: Obj, k: Key, t: Tree, o: Obj)
    requires AllSettled(h, m) && o in m && (Apart(h, o, at) || (at in m && Rebuild(h, m, at, k, t, at) == m[at]))
    ensures Rebuild(h, m, at, k, t, o) == m[o]
    decreases m[o]
  {
    hide Apart;
    SettledAt(h, m, o);
    if o == at {
      if Apart(h, o, at) {
        ApartSelf(h, o);
      }
    } else {
      forall l | l in h[o] && h[o][l].Ref? ensures Rebuild(h, m, at, k, t, h[o][l].obj) == m[o].entries[l] {
        ChildIsSmaller(h, m, o, l);
        if Apart(h, o, at) {
          ApartBelow(h, o, l, at);
        }
        OthersStay(h, m, at, k, t, h[o][l].obj);
      }
    }
  }

  lemma ApartSelf(h: Heap, o: Obj)
    ensures !Apart(h, o, o)
  {
    assert Reached(h, o, []) == Some(o);
  }

  lemma RouteVia(h: Heap, o: Obj, l: Key, q: Path)
    requires o in h && l in h[o] && h[o][l].Ref?
    ensures Reached(h, o, [l] + q) == Reached(h, h[o][l].obj, q)
  {
    assert ([l] + q)[1..] == q;
  }

  /** At a dictionary that exists, one key further down, the update is that of the subtree. */
  lemma PlaceBelow(h: Heap, m: Model, o: Obj, path: Path, v: Option<Tree>)
    requires AllSettled(h, m) && o in m && |path| > 1 && path[0] in h[o] && IsMapCell(h[o][path[0]])
    ensures m[o].Branch? && h[o][path[0]].obj in m && m[h[o][path[0]].obj].Branch?
    ensures Place(m[o].entries, path, v)
         == m[o].entries[path[0] := Branch(true, Place(m[h[o][path[0]].obj].entries, path[1..], v))]
  {
    ChildIsSmaller(h, m, o, path[0]);
    SettledAt(h, m, h[o][path[0]].obj);
  }

  /** Where no dictionary is next, the update is that of a single key. */
  lemma PlaceHere(h: Heap, m: Model, o: Obj, path: Path, v: Option<Tree>)
    requires AllSettled(h, m) && o in m && path != []
    requires |path| > 1 && path[0] in h[o] ==> !IsMapCell(h[o][path[0]])
    ensures m[o].Branch?
    ensures Place(m[o].entries, path, v)
         == if NewTree(path, v).Some? then m[o].entries[path[0] := NewTree(path, v).value] else m[o].entries
  {
    SettledAt(h, m, o);
    if path[0] in h[o] && h[o][path[0]].Ref? {
      ChildIsSmaller(h, m, o, path[0]);
      SettledAt(h, m, h[o][path[0]].obj);
    }
  }

  /** If the only route to the changed dictionary is along the path, the save reads as the update. */
  lemma {:induction false} OneRoutePlaces(h: Heap, m: Model, o: Obj, path: Path, v: Option<Tree>)
    requires AllSettled(h, m) && o in m && path != [] && (o.isMap || |path| == 1) && NewTree(ToGo(h, o, path), v).Some?
    requires OnlyRoute(h, o, path[..|path| - |ToGo(h, o, path)|], Pivot(h, o, path))
    ensures m[o].Branch? && InPlace(h, m, o, path, v)[o] == Branch(o.isMap, Place(m[o].entries, path, v))
    decreases |path|
  {
    hide Place, NewTree, OnlyRoute;
    var at, rest := Pivot(h, o, path), ToGo(h, o, path);
    var t := NewTree(rest, v).value;
    SettledAt(h, m, o);
    if |path| > 1 && path[0] in h[o] && IsMapCell(h[o][path[0]]) {
      var b := h[o][path[0]].obj;
      ChildIsSmaller(h, m, o, path[0]);
      RouteBelow(h, o, path, at, |path| - |rest|);
      OneRoutePlaces(h, m, b, path[1..], v);
      PlaceBelow(h, m, o, path, v);
      OneRouteStep(h, m, o, path, at, rest[0], t, |path| - |rest|);
    } else {
      PlaceHere(h, m, o, path, v);
    }
  }

  /** Along a longer route, the rest of it is the only route from the next object, and no other child leads there. */
  lemma RouteBelow(h: Heap, o: Obj, path: Path, at: Obj, n: nat)
    requires path != [] && o in h && path[0] in h[o] && h[o][path[0]].Ref? && 1 <= n <= |path|
    requires OnlyRoute(h, o, path[..n], at)
    ensures OnlyRoute(h, h[o][path[0]].obj, path[1..][..n - 1], at) && o != at
  {
    var b := h[o][path[0]].obj;
    assert Reached(h, o, []) == Some(o);
    forall q: Path ensures Reached(h, b, q) == Some(at) <==> q == path[1..][..n - 1] {
      RouteVia(h, o, path[0], q);
      assert path[..n] == [path[0]] + path[1..][..n - 1];
      assert [path[0]] + q == path[..n] <==> q == path[1..][..n - 1] by {
        assert ([path[0]] + q)[1..] == q;
      }
    }
  }

  lemma OtherChildApart(h: Heap, o: Obj, path: Path, at: Obj, n: nat, l: Key)
    requires path != [] && o in h && l in h[o] && h[o][l].Ref? && 1 <= n <= |path| && l != path[0]
    requires OnlyRoute(h, o, path[..n], at)
    ensures Apart(h, h[o][l].obj, at)
  {
    forall q: Path ensures Reached(h, h[o][l].obj, q) != Some(at) {
      RouteVia(h, o, l, q);
      assert ([l] + q)[0] == l && path[..n][0] == path[0];
    }
  }

  lemma OneRouteStep(h: Heap, m: Model, o: Obj, path: Path, at: Obj, k: Key, t: Tree, n: nat)
    requires AllSettled(h, m) && o in m && path != [] && path[0] in h[o] && h[o][path[0]].Ref? && 1 <= n <= |path|
    requires OnlyRoute(h, o, path[..n], at)
    ensures h[o][path[0]].obj in m && m[o].Branch?
    ensures Rebuild(h, m, at, k, t, o)
         == Branch(o.isMap, m[o].entries[path[0] := Rebuild(h, m, at, k, t, h[o][path[0]].obj)])
  {
    hide OnlyRoute;
    SettledAt(h, m, o);
    ChildIsSmaller(h, m, o, path[0]);
    RouteBelow(h, o, path, at, n);
    forall l | l in h[o] && h[o][l].Ref? && l != path[0]
      ensures h[o][l].obj in m && Rebuild(h, m, at, k, t, h[o][l].obj) == m[o].entries[l]
    {
      OtherChildApart(h, o, path, at, n, l);
      ChildIsSmaller(h, m, o, l);
      OthersStay(h, m, at, k, t, h[o][l].obj);
    }
  }

  /** If the save changes its dictionary and still reads as the update, then no other route leads to it. */
  lemma {:induction false} PlacesOneRoute(h: Heap, m: Model, o: Obj, path: Path, v: Option<Tree>, at: Obj, k: Key,
                                          t: Tree)
    requires AllSettled(h, m) && o in m && at in m && path != [] && (o.isMap || |path| == 1)
    requires at == Pivot(h, o, path) && k == ToGo(h, o, path)[0] && NewTree(ToGo(h, o, path), v) == Some(t)
    requires Rebuild(h, m, at, k, t, at) != m[at]
    requires m[o].Branch? && Rebuild(h, m, at, k, t, o) == Branch(o.isMap, Place(m[o].entries, path, v))
    ensures OnlyRoute(h, o, path[..|path| - |ToGo(h, o, path)|], at)
    decreases |path|
  {
    hide Place, NewTree, Rebuild, Pivot, OnlyRoute, AllSettled, Reached;
    SettledKeys(h, m);
    if |path| > 1 && path[0] in h[o] && IsMapCell(h[o][path[0]]) {
      var b := h[o][path[0]].obj;
      PivotBelow(h, m, o, path);
      PlaceBelow(h, m, o, path, v);
      RebuildChild(h, m, at, k, t, o, path[0]);
      PlacesOneRoute(h, m, b, path[1..], v, at, k, t);
      RouteAbove(h, m, o, path, at, k, t, |path| - |ToGo(h, o, path)|);
    } else {
      RouteToSelf(h, m, o, path);
    }
  }

  lemma RebuildChild(h: Heap, m: Model, at: Obj, k: Key, t: Tree, o: Obj, l: Key)
    requires AllSettled(h, m) && o in m && o != at && l in h[o] && h[o][l].Ref?
    ensures h[o][l].obj in m && Rebuild(h, m, at, k, t, o).Branch? && l in Rebuild(h, m, at, k, t, o).entries
    ensures Rebuild(h, m, at, k, t, o).entries[l] == Rebuild(h, m, at, k, t, h[o][l].obj)
  {
    ChildIsSmaller(h, m, o, l);
  }

  lemma RouteToSelf(h: Heap, m: Model, o: Obj, path: Path)
    requires AllSettled(h, m) && o in m
    requires |path| > 1 && path[0] in h[o] ==> !IsMapCell(h[o][path[0]])
    ensures Pivot(h, o, path) == o && OnlyRoute(h, o, path[..|path| - |ToGo(h, o, path)|], o)
  {
    forall q: Path ensures Reached(h, o, q) == Some(o) <==> q == [] {
      if Reached(h, o, q) == Some(o) {
        Descends(h, m, o, q);
      }
    }
  }

  /** If only the child along the path changes, the routes go through it. */
  lemma RouteAbove(h: Heap, m: Model, o: Obj, path: Path, at: Obj, k: Key, t: Tree, n: nat)
    requires AllSettled(h, m) && o in m && at in m && o != at && path != [] && path[0] in h[o] && h[o][path[0]].Ref?
    requires 1 <= n <= |path| && Rebuild(h, m, at, k, t, at) != m[at]
    requires m[o].Branch? && Rebuild(h, m, at, k, t, o).Branch?
    requires forall l :: (l in Rebuild(h, m, at, k, t, o).entries && l in m[o].entries && l != path[0] ==>
      Rebuild(h, m, at, k, t, o).entries[l] == m[o].entries[l])
    requires OnlyRoute(h, h[o][path[0]].obj, path[1..][..n - 1], at)
    ensures OnlyRoute(h, o, path[..n], at)
  {
    hide Rebuild;
    assert path[..n] == [path[0]] + path[1..][..n - 1];
    RouteVia(h, o, path[0], path[1..][..n - 1]);
    forall q: Path | Reached(h, o, q) == Some(at) ensures q == path[..n] {
      ChildIsSmaller(h, m, o, q[0]);
      RebuildChild(h, m, at, k, t, o, q[0]);
      ReachersChange(h, m, at, k, t, h[o][q[0]].obj, q[1..]);
      assert q[0] == path[0];
      assert q == [q[0]] + q[1..];
    }
  }

  /** The last dictionary along a longer path is not the object it starts from. */
  lemma PivotBelow(h: Heap, m: Model, o: Obj, path: Path)
    requires AllSettled(h, m) && o in m && |path| > 1 && path[0] in h[o] && IsMapCell(h[o][path[0]])
    ensures Pivot(h, o, path) in m && Pivot(h, o, path) != o && |ToGo(h, o, path)| < |path|
    ensures Pivot(h, o, path) == Pivot(h, h[o][path[0]].obj, path[1..])
  {
    PivotReached(h, h[o][path[0]].obj, path[1..]);
    ChildIsSmaller(h, m, o, path[0]);
    Descends(h, m, h[o][path[0]].obj, path[1..][..|path| - 1 - |ToGo(h, o, path)|]);
  }

  /** The save puts something where there was nothing, or something else, before. */
  ghost predicate Changes(h: Heap, m: Model, root: Obj, path: Path, v: Option<Tree>)
    requires AllSettled(h, m) && root in m && path != []
  {
    var at, rest := Pivot(h, root, path), ToGo(h, root, path);
    && at in m && m[at].Branch? && NewTree(rest, v).Some?
    && (rest[0] in m[at].entries ==> m[at].entries[rest[0]] != NewTree(rest, v).value)
  }

  lemma ChangesIs(h: Heap, m: Model, root: Obj, path: Path, v: Option<Tree>)
    requires AllSettled(h, m) && root in m && path != []
    ensures Pivot(h, root, path) in m
    ensures Changes(h, m, root, path, v)
      <==> InPlace(h, m, root, path, v)[Pivot(h, root, path)] != m[Pivot(h, root, path)]
  {
    hide Pivot, ToGo, AllSettled, NewTree;
    PivotInside(h, m, root, path);
    SettledAt(h, m, Pivot(h, root, path));
  }

  lemma PivotInside(h: Heap, m: Model, root: Obj, path: Path)
    requires AllSettled(h, m) && root in m && path != []
    ensures Pivot(h, root, path) in m
  {
    PivotReached(h, root, path);
    Descends(h, m, root, path[..|path| - |ToGo(h, root, path)|]);
  }

  ghost predicate ReadsAsUpdate(h: Heap, m: Model, root: Obj, path: Path, v: Option<Tree>)
    requires AllSettled(h, m) && root in m && path != []
  {
    m[root].Branch? && InPlace(h, m, root, path, v)[root] == Branch(root.isMap, Place(m[root].entries, path, v))
  }

  /** The last dictionary that exists along the path is reached in no other way, or is not changed. */
  ghost predicate OneWay(h: Heap, m: Model, root: Obj, path: Path, v: Option<Tree>)
    requires AllSettled(h, m) && root in m && path != []
  {
    || OnlyRoute(h, root, path[..|path| - |ToGo(h, root, path)|], Pivot(h, root, path))
    || !Changes(h, m, root, path, v)
  }

  /**
   A save below root reads as the update exactly if the last dictionary that exists along its path is reached
   in no other way, or is not changed by it.
   */
  lemma SaveIsUpdate(h: Heap, m: Model, root: Obj, path: Path, v: Option<Tree>)
    requires AllSettled(h, m) && root in m && path != [] && (root.isMap || |path| == 1)
    ensures ReadsAsUpdate(h, m, root, path, v) <==> OneWay(h, m, root, path, v)
  {
    hide OnlyRoute, AllSettled, Pivot, Rebuild, Place, Changes;
    var at, rest := Pivot(h, root, path), ToGo(h, root, path);
    ChangesIs(h, m, root, path, v);
    SettledAt(h, m, root);
    if NewTree(rest, v).None? {
      RefusedStays(h, m, root, path);
    } else {
      var t := NewTree(rest, v).value;
      if !Changes(h, m, root, path, v) {
        OthersStay(h, m, at, rest[0], t, root);
        UnchangedPlaces(h, m, root, path, v);
      } else if OnlyRoute(h, root, path[..|path| - |rest|], at) {
        OneRoutePlaces(h, m, root, path, v);
      } else if ReadsAsUpdate(h, m, root, path, v) {
        PlacesOneRoute(h, m, root, path, v, at, rest[0], t);
      }
    }
  }

  lemma {:induction false} RefusedStays(h: Heap, m: Model, o: Obj, path: Path)
    requires AllSettled(h, m) && o in m && path != [] && |ToGo(h, o, path)| == 1
    ensures m[o].Branch? && Place(m[o].entries, path, None) == m[o].entries
    decreases |path|
  {
    SettledAt(h, m, o);
    if |path| > 1 {
      var b := h[o][path[0]].obj;
      PlaceBelow(h, m, o, path, None);
      ChildIsSmaller(h, m, o, path[0]);
      SettledAt(h, m, b);
      RefusedStays(h, m, b, path[1..]);
    }
  }

  /** If the last dictionary along the path is not changed, neither is the tree by the update. */
  lemma {:induction false} UnchangedPlaces(h: Heap, m: Model, o: Obj, path: Path, v: Option<Tree>)
    requires AllSettled(h, m) && o in m && path != [] && !Changes(h, m, o, path, v)
    ensures m[o].Branch? && Place(m[o].entries, path, v) == m[o].entries
    decreases |path|
  {
    SettledAt(h, m, o);
    PivotInside(h, m, o, path);
    if |path| > 1 && path[0] in h[o] && IsMapCell(h[o][path[0]]) {
      var b := h[o][path[0]].obj;
      PlaceBelow(h, m, o, path, v);
      ChildIsSmaller(h, m, o, path[0]);
      SettledAt(h, m, b);
      UnchangedPlaces(h, m, b, path[1..], v);
    } else {
      PlaceHere(h, m, o, path, v);
    }
  }

  /** Where nothing is held twice, there is one route to everything below an object that nothing holds. */
  lemma TreeHasOneRoute(h: Heap, root: Obj, p: Path, c: Obj)
    requires Unshared(h) && Unheld(h, root) && Reached(h, root, p) == Some(c)
    ensures OnlyRoute(h, root, p, c)
  {
    forall q: Path | Reached(h, root, q) == Some(c) ensures q == p {
      SameRoute(h, root, p, q);
    }
  }

  lemma {:induction false} SameRoute(h: Heap, root: Obj, p: Path, q: Path)
    requires Unshared(h) && Unheld(h, root) && Reached(h, root, p).Some? && Reached(h, root, p) == Reached(h, root, q)
    ensures p == q
    decreases |p|
  {
    if p != [] {
      LastStep(h, root, p);
    }
    if q != [] {
      LastStep(h, root, q);
    }
    if p != [] && q != [] {
      assert p == p[..|p| - 1] + [p[|p| - 1]] && q == q[..|q| - 1] + [q[|q| - 1]];
      SameRoute(h, root, p[..|p| - 1], q[..|q| - 1]);
    }
  }

  lemma {:induction false} LastStep(h: Heap, o: Obj, p: Path)
    requires p != [] && Reached(h, o, p).Some?
    ensures var b := Reached(h, o, p[..|p| - 1]);
      b.Some? && Holds(h, b.value, p[|p| - 1], Reached(h, o, p).value)
    decreases |p|
  {
    if |p| > 1 {
      assert p[..|p| - 1][1..] == p[1..][..|p| - 2];
      LastStep(h, h[o][p[0]].obj, p[1..]);
    }
  }

  /** Where every dictionary is held in one place only, every save reads as the update. */
  lemma TreeSaves(h: Heap, m: Model, root: Obj, path: Path, v: Option<Tree>)
    requires Describes(h, m, root) && Unshared(h) && path != [] && (root.isMap || |path| == 1)
    ensures ReadsAsUpdate(h, m, root, path, v)
  {
    hide Unshared, OnlyRoute, Changes, AllSettled, ReadsAsUpdate;
    PivotReached(h, root, path);
    TreeHasOneRoute(h, root, path[..|path| - |ToGo(h, root, path)|], Pivot(h, root, path));
    SaveIsUpdate(h, m, root, path, v);
  }

  predicate AllMaps(t: Entries) {
    forall k :: k in t ==> t[k].Branch? && t[k].isMap
  }

  lemma RebuiltKind(h: Heap, m: Model, at: Obj, k: Key, t: Tree, o: Obj)
    requires AllSettled(h, m) && o in m
    ensures Rebuild(h, m, at, k, t, o).Branch? && Rebuild(h, m, at, k, t, o).isMap == o.isMap
    ensures m[o].Branch? && m[o].isMap == o.isMap
  {
    SettledAt(h, m, o);
  }

  lemma RebuildKeepsMaps(h: Heap, m: Model, at: Obj, k: Key, t: Tree, root: Obj)
    requires AllSettled(h, m) && root in m && m[root].Branch? && AllMaps(m[root].entries)
    requires root == at ==> t.Branch? && t.isMap
    ensures Rebuild(h, m, at, k, t, root).Branch? && AllMaps(Rebuild(h, m, at, k, t, root).entries)
  {
    hide AllSettled;
    SettledAt(h, m, root);
    if root != at {
      forall l | l in h[root] && h[root][l].Ref?
        ensures h[root][l].obj in m && Rebuild(h, m, at, k, t, h[root][l].obj).Branch?
          && Rebuild(h, m, at, k, t, h[root][l].obj).isMap
      {
        ChildIsSmaller(h, m, root, l);
        RebuiltKind(h, m, at, k, t, h[root][l].obj);
      }
    }
  }

  /** A save further down keeps a dictionary of dictionaries one. */
  lemma SaveKeepsMaps(h: Heap, m: Model, root: Obj, path: Path, v: Option<Tree>)
    requires AllSettled(h, m) && root in m && |path| > 1 && m[root].Branch? && AllMaps(m[root].entries)
    ensures var t := InPlace(h, m, root, path, v)[root];
      t.Branch? && t.isMap == root.isMap && AllMaps(t.entries)
  {
    hide Place, AllSettled, AllMaps, Rebuild;
    var at, rest := Pivot(h, root, path), ToGo(h, root, path);
    RebuiltKind(h, m, at, rest[0], Leaf(""), root);
    if NewTree(rest, v).Some? {
      RebuiltKind(h, m, at, rest[0], NewTree(rest, v).value, root);
      LongRest(h, m, root, path);
      RebuildKeepsMaps(h, m, at, rest[0], NewTree(rest, v).value, root);
    }
  }

  lemma LongRest(h: Heap, m: Model, root: Obj, path: Path)
    requires AllSettled(h, m) && root in m && |path| > 1
    ensures Pivot(h, root, path) == root ==> |ToGo(h, root, path)| > 1
  {
    if path[0] in h[root] && IsMapCell(h[root][path[0]]) {
      PivotBelow(h, m, root, path);
    }
  }
}
