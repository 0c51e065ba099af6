/**
 The two state stores (src/state_store.py:116-302): the save loop on dictionaries held by reference, copies and
 documents, and both stores proved against the tree update of StateTree.
 */
module StateStore {
  import opened Common
  import opened StateTree
  import opened StateHeap

  // ---------- The save loop ----------

  /** The new dictionaries of the loop: all read as meant, and current will once the rest is placed in it. */
  ghost predicate Chain(h: Heap, m: Model, first: Obj, top: Tree, current: Obj, rest: Path, v: Option<Tree>)
    requires rest != []
  {
    && h.Keys == m.Keys && first in m && m[first] == top
    && current in m && current.isMap && h[current] == map[]
    && m[current] == Branch(true, Place(map[], rest, v))
    && (forall o {:trigger Settled(h, m, o)} :: o in m && o != current ==> Settled(h, m, o))
    && Unshared(h) && Unheld(h, first)
  }

  lemma ChainStarts(d: Obj, rest: Path, v: Option<Tree>)
    requires d.isMap && rest != []
    ensures var top := Branch(true, Place(map[], rest, v)); Chain(map[d := map[]], map[d := top], d, top, d, rest, v)
  {
    var h: Heap := map[d := map[]];
    assert forall o, k, c :: !Holds(h, o, k, c);
  }

  lemma ChainCells(h: Heap, m: Model, first: Obj, top: Tree, current: Obj, rest: Path, v: Option<Tree>)
    requires rest != [] && Chain(h, m, first, top, current, rest, v)
    ensures h.Keys == m.Keys && first in m && m[first] == top && current in m && h[current] == map[]
    ensures forall o, k :: o in h && k in h[o] ==> Within(h[o][k], m)
  {
    forall o, k | o in h && k in h[o] ensures Within(h[o][k], m) {
      assert o != current && Settled(h, m, o);
    }
  }

  lemma ChainGrows(h: Heap, m: Model, first: Obj, top: Tree, current: Obj, rest: Path, v: Option<Tree>, d: Obj)
    requires |rest| > 1 && Chain(h, m, first, top, current, rest, v) && d.isMap && d !in m
    ensures Chain(h[d := map[]][current := map[rest[0] := Ref(d)]], m[d := Branch(true, Place(map[], rest[1..], v))],
                  first, top, d, rest[1..], v)
  {
    hide Unshared, Unheld;
    var h1, m1 := h[d := map[]][current := map[rest[0] := Ref(d)]], m[d := Branch(true, Place(map[], rest[1..], v))];
    ChainCells(h, m, first, top, current, rest, v);
    forall o | o in m && o != current ensures Settled(h1, m1, o) {
      assert Settled(h, m, o);
    }
    assert Settled(h1, m1, current);
    GrownUnshared(h, m, current, rest[0], d);
    GrownUnheld(h, first, current, rest[0], d);
  }

  lemma GrownUnshared(h: Heap, m: Model, cur: Obj, k0: Key, d: Obj)
    requires h.Keys == m.Keys && cur in m && h[cur] == map[] && d !in m && Unshared(h)
    requires forall o, k :: o in h && k in h[o] ==> Within(h[o][k], m)
    ensures Unshared(h[d := map[]][cur := map[k0 := Ref(d)]])
  {
    var h1 := h[d := map[]][cur := map[k0 := Ref(d)]];
    forall o, k, p, l, c | Holds(h1, o, k, c) && Holds(h1, p, l, c) ensures o == p && k == l {
      if c != d {
        assert Holds(h, o, k, c) && Holds(h, p, l, c);
      } else {
        assert !Holds(h, o, k, d) && !Holds(h, p, l, d);
      }
    }
  }

  lemma GrownUnheld(h: Heap, first: Obj, cur: Obj, k0: Key, d: Obj)
    requires first in h && cur in h && d !in h && Unheld(h, first)
    ensures Unheld(h[d := map[]][cur := map[k0 := Ref(d)]], first)
  {
    var h1 := h[d := map[]][cur := map[k0 := Ref(d)]];
    forall o, l | Holds(h1, o, l, first) ensures false {
      assert Holds(h, o, l, first);
    }
  }

  /** The chain once the value is placed at its end, with the objects of the value. */
  ghost function Ended(h: Heap, current: Obj, k: Key, x: Option<Cell>, hv: Heap): Heap
    requires current in h
  {
    (if x.Some? then h[current := h[current][k := x.value]] else h) + hv
  }

  lemma ChainEnds(h: Heap, m: Model, first: Obj, top: Tree, current: Obj, k: Key, x: Option<Cell>, hv: Heap, mv: Model)
    requires Given(x, hv, mv) && m.Keys !! mv.Keys && Chain(h, m, first, top, current, [k], SeenOption(x, mv))
    ensures AllSettled(Ended(h, current, k, x, hv), m + mv)
  {
    GivenKeys(x, hv, mv);
    var h1 := Ended(h, current, k, x, hv);
    forall o | o in m + mv ensures Settled(h1, m + mv, o) {
      if o in mv {
        SettledAt(hv, mv, o);
        JoinedSettled(h1, m + mv, hv, mv, o);
      } else if o != current {
        assert Settled(h, m, o);
      }
    }
  }

  lemma ChainEndsApart(h: Heap, m: Model, first: Obj, top: Tree, current: Obj, k: Key, x: Option<Cell>, hv: Heap,
                       mv: Model)
    requires Given(x, hv, mv) && m.Keys !! mv.Keys && Chain(h, m, first, top, current, [k], SeenOption(x, mv))
    ensures Unheld(Ended(h, current, k, x, hv), first)
    ensures (Unshared(hv) && (x.Some? && x.value.Ref? ==> Unheld(hv, x.value.obj)) ==>
      Unshared(Ended(h, current, k, x, hv)))
  {
    ChainCells(h, m, first, top, current, [k], SeenOption(x, mv));
    AllWithin(hv, mv);
    hide AllSettled, Chain;
    var h1 := Ended(h, current, k, x, hv);
    assert Unheld(h, first) && Unshared(h) by { ChainApart(h, m, first, top, current, [k], SeenOption(x, mv)); }
    forall o, l | Holds(h1, o, l, first) ensures false {
      EndedHolder(h, m, current, k, x, hv, mv, o, l, first);
    }
    if Unshared(hv) && (x.Some? && x.value.Ref? ==> Unheld(hv, x.value.obj)) {
      forall o, i, p, j, c | Holds(h1, o, i, c) && Holds(h1, p, j, c) ensures o == p && i == j {
        EndedHolder(h, m, current, k, x, hv, mv, o, i, c);
        EndedHolder(h, m, current, k, x, hv, mv, p, j, c);
      }
    }
  }

  lemma ChainApart(h: Heap, m: Model, first: Obj, top: Tree, current: Obj, rest: Path, v: Option<Tree>)
    requires rest != [] && Chain(h, m, first, top, current, rest, v)
    ensures Unheld(h, first) && Unshared(h)
  {}

  lemma EndedHolder(h: Heap, m: Model, cur: Obj, k0: Key, x: Option<Cell>, hv: Heap, mv: Model, o: Obj, k: Key, c: Obj)
    requires m.Keys !! mv.Keys && h.Keys == m.Keys && hv.Keys == mv.Keys && cur in h && h[cur] == map[]
    requires x.Some? ==> Within(x.value, mv)
    requires forall q, l :: q in h && l in h[q] ==> Within(h[q][l], m)
    requires forall q, l :: q in hv && l in hv[q] ==> Within(hv[q][l], mv)
    requires Holds(Ended(h, cur, k0, x, hv), o, k, c)
    ensures c in m ==> Holds(h, o, k, c)
    ensures c in mv ==> Holds(hv, o, k, c) || (o == cur && k == k0 && x == Some(Ref(c)))
    ensures c in m || c in mv
  {
    if o in hv {
      assert Within(hv[o][k], mv);
    } else if o != cur {
      assert Within(h[o][k], m);
    }
  }

  /** A save under way: the cells and trees it began with, the object below which it saves, path and value. */
  datatype Walk = Walk(h: Heap, m: Model, root: Obj, path: Path, v: Option<Tree>)

  /** How far it is: the dictionary it has come to, and the first new one and the new ones, if there are any. */
  datatype Spot = Spot(i: nat, current: Obj, first: Option<Obj>, made: Model)

  ghost predicate Begun(w: Walk) {
    && w.path != [] && (w.root.isMap || |w.path| == 1) && w.root in w.m && AllSettled(w.h, w.m)
  }

  /** What the loop has done: nothing, or new dictionaries from the last one on that existed. */
  ghost predicate WalkedTo(w: Walk, s: Spot, now: Heap, chain: Heap) {
    var at, rest := Pivot(w.h, w.root, w.path), ToGo(w.h, w.root, w.path);
    && s.i < |w.path| && rest != []
    && if s.first.None? then
         && s.made == map[] && chain == map[] && now == w.h && s.current in w.m
         && Pivot(w.h, s.current, w.path[s.i..]) == at && ToGo(w.h, s.current, w.path[s.i..]) == rest
       else
         && |rest| > 1 && at in w.h && |w.path| - s.i < |rest|
         && now == w.h[at := w.h[at][rest[0] := Ref(s.first.value)]]
         && Chain(chain, s.made, s.first.value, NewTree(rest, w.v).value, s.current, w.path[s.i..], w.v)
  }

  ghost predicate Walking(w: Walk, s: Spot)
    reads w.m.Keys, s.made.Keys
  {
    WalkedTo(w, s, Cells(w.m.Keys), Cells(s.made.Keys))
  }

  lemma MadeTree(w: Walk, s: Spot, now: Heap, chain: Heap)
    requires WalkedTo(w, s, now, chain)
    ensures ToGo(w.h, w.root, w.path) != []
    ensures s.first.Some? ==> NewTree(ToGo(w.h, w.root, w.path), w.v).Some?
  {
    hide Chain, Pivot, ToGo;
  }

  lemma WalkedCells(w: Walk, s: Spot, now: Heap, chain: Heap)
    requires Begun(w) && WalkedTo(w, s, now, chain)
    ensures chain.Keys == s.made.Keys && now.Keys == w.m.Keys
    ensures if s.first.None? then s.current in w.m && now == w.h && chain == map[]
            else s.current in s.made && chain[s.current] == map[]
  {
    hide AllSettled, Chain, Pivot, ToGo, NewTree;
    SettledKeys(w.h, w.m);
    MadeTree(w, s, now, chain);
    if s.first.Some? {
      var top := NewTree(ToGo(w.h, w.root, w.path), w.v).value;
      ChainCells(chain, s.made, s.first.value, top, s.current, w.path[s.i..], w.v);
    }
  }

  /** The heap once the key of an object, if it is one of them, holds d. */
  ghost function Holding(h: Heap, o: Obj, k: Key, d: Obj): Heap {
    if o in h then h[o := h[o][k := Ref(d)]] else h
  }

  /** The loop begins the new dictionaries, or continues them. */
  lemma StepNew(w: Walk, s: Spot, now: Heap, chain: Heap, d: Obj) returns (next: Spot)
    requires Begun(w) && WalkedTo(w, s, now, chain) && s.i < |w.path| - 1 && w.m.Keys !! s.made.Keys
    requires d.isMap && d !in w.m && d !in s.made
    requires s.first.None? && w.path[s.i] in w.h[s.current] ==> !IsMapCell(w.h[s.current][w.path[s.i]])
    ensures next.current == d && next.i == s.i + 1 && next.first.Some? && next.made.Keys == s.made.Keys + {d}
    ensures WalkedTo(w, next, Holding(now, s.current, w.path[s.i], d),
                     Holding(chain[d := map[]], s.current, w.path[s.i], d))
  {
    hide WalkedTo, Begun;
    if s.first.None? {
      next := StartsNew(w, s, now, chain, d);
    } else {
      next := ExtendsNew(w, s, now, chain, d);
    }
  }

  lemma StartsNew(w: Walk, s: Spot, now: Heap, chain: Heap, d: Obj) returns (next: Spot)
    requires Begun(w) && WalkedTo(w, s, now, chain) && s.i < |w.path| - 1 && s.first.None?
    requires d.isMap && d !in w.m
    requires w.path[s.i] in w.h[s.current] ==> !IsMapCell(w.h[s.current][w.path[s.i]])
    ensures next.current == d && next.i == s.i + 1 && next.first.Some? && next.made.Keys == s.made.Keys + {d}
    ensures WalkedTo(w, next, Holding(now, s.current, w.path[s.i], d),
                     Holding(chain[d := map[]], s.current, w.path[s.i], d))
  {
    hide Chain, AllSettled, Place, Pivot, ToGo;
    WalkedCells(w, s, now, chain);
    AtPivot(w, s, now, chain);
    SettledKeys(w.h, w.m);
    var rest := w.path[s.i..];
    assert rest[1..] == w.path[s.i + 1..];
    next := Spot(s.i + 1, d, Some(d), map[d := NewTree(rest, w.v).value]);
    ChainStarts(d, rest[1..], w.v);
  }

  lemma ExtendsNew(w: Walk, s: Spot, now: Heap, chain: Heap, d: Obj) returns (next: Spot)
    requires Begun(w) && WalkedTo(w, s, now, chain) && s.i < |w.path| - 1 && w.m.Keys !! s.made.Keys && s.first.Some?
    requires d.isMap && d !in w.m && d !in s.made
    ensures next.current == d && next.i == s.i + 1 && next.first.Some? && next.made.Keys == s.made.Keys + {d}
    ensures WalkedTo(w, next, Holding(now, s.current, w.path[s.i], d),
                     Holding(chain[d := map[]], s.current, w.path[s.i], d))
  {
    hide Chain, AllSettled, Place, Pivot, ToGo, NewTree;
    WalkedCells(w, s, now, chain);
    MadeTree(w, s, now, chain);
    var rest := w.path[s.i..];
    assert rest[1..] == w.path[s.i + 1..];
    next := Spot(s.i + 1, d, s.first, s.made[d := Branch(true, Place(map[], rest[1..], w.v))]);
    ChainGrows(chain, s.made, s.first.value, NewTree(ToGo(w.h, w.root, w.path), w.v).value, s.current, rest, w.v, d);
  }

  lemma StepDown(w: Walk, s: Spot, now: Heap, chain: Heap) returns (next: Spot)
    requires Begun(w) && WalkedTo(w, s, now, chain) && s.i < |w.path| - 1 && s.first.None?
    requires w.path[s.i] in w.h[s.current] && IsMapCell(w.h[s.current][w.path[s.i]])
    ensures next == s.(i := s.i + 1, current := w.h[s.current][w.path[s.i]].obj) && WalkedTo(w, next, now, chain)
  {
    assert w.path[s.i..][1..] == w.path[s.i + 1..];
    ChildIsSmaller(w.h, w.m, s.current, w.path[s.i]);
    next := s.(i := s.i + 1, current := w.h[s.current][w.path[s.i]].obj);
  }

  /** A new dictionary under a key of the current one. */
  method AddDict(current: Obj, key: Key, ghost olds: set<Obj>, ghost news: set<Obj>) returns (d: Obj)
    requires olds !! news && current in olds + news
    modifies current
    ensures fresh(d) && d.isMap && d !in olds && d !in news
    ensures Cells(olds) == Holding(old(Cells(olds)), current, key, d)
    ensures Cells(news + {d}) == Holding(old(Cells(news))[d := map[]], current, key, d)
  {
    d := new Obj(true);
    current.cells := current.cells[key := Ref(d)];
  }

  /** One step of the loop. */
  method Enter(current: Obj, key: Key, ghost w: Walk, ghost s: Spot) returns (d: Obj, ghost next: Spot)
    requires Begun(w) && Walking(w, s) && s.i < |w.path| - 1 && s.current == current && w.path[s.i] == key
    requires w.m.Keys !! s.made.Keys
    modifies if key in current.cells && IsMapCell(current.cells[key]) then {} else {current}
    ensures next.i == s.i + 1 && next.current == d && Walking(w, next)
    ensures forall o :: o in next.made && o !in s.made ==> fresh(o)
  {
    hide WalkedTo, Begun;
    ghost var now, chain := Cells(w.m.Keys), Cells(s.made.Keys);
    WalkedCells(w, s, now, chain);
    if key !in current.cells || !IsMapCell(current.cells[key]) {
      d := AddDict(current, key, w.m.Keys, s.made.Keys);
      next := StepNew(w, s, now, chain, d);
    } else {
      d := current.cells[key].obj;
      next := StepDown(w, s, now, chain);
    }
  }

  /** What the loop may touch: the last dictionary that existed, and new ones. */
  lemma AtPivot(w: Walk, s: Spot, now: Heap, chain: Heap)
    requires Begun(w) && WalkedTo(w, s, now, chain) && s.first.None?
    requires s.i < |w.path| - 1 && w.path[s.i] in w.h[s.current] ==> !IsMapCell(w.h[s.current][w.path[s.i]])
    ensures s.current == Pivot(w.h, w.root, w.path) && ToGo(w.h, w.root, w.path) == w.path[s.i..]
  {}

  /** The loop of both stores: down to the dictionary that takes the last key, making those that are missing. */
  method Descend(root: Obj, path: Path, ghost w: Walk) returns (current: Obj, ghost s: Spot)
    requires Begun(w) && w.root == root && w.path == path && w.h == Cells(w.m.Keys)
    modifies Pivot(w.h, root, path)
    ensures fresh(s.made.Keys) && s.i == |path| - 1 && s.current == current && Walking(w, s)
  {
    hide WalkedTo, Begun;
    current, s := root, Spot(0, root, None, map[]);
    WalkBegins(w);
    var i := 0;
    while i < |path| - 1
      invariant 0 <= i < |path| && fresh(s.made.Keys)
      invariant s.i == i && s.current == current && Walking(w, s)
    {
      WalkedCells(w, s, Cells(w.m.Keys), Cells(s.made.Keys));
      if s.first.None? && !(path[i] in current.cells && IsMapCell(current.cells[path[i]])) {
        AtPivot(w, s, Cells(w.m.Keys), Cells(s.made.Keys));
      }
      current, s := Enter(current, path[i], w, s);
      i := i + 1;
    }
  }

  lemma WalkBegins(w: Walk)
    requires Begun(w)
    ensures w.path != [] && WalkedTo(w, Spot(0, w.root, None, map[]), w.h, map[])
  {
    assert w.path[0..] == w.path;
  }

  /** What contains root contains every dictionary along the path. */
  lemma {:induction false} ValueContains(h: Heap, m: Model, hx: Heap, mx: Model, o: Obj, p: Path)
    requires AllSettled(h, m) && AllSettled(hx, mx) && Agree(h, m, hx, mx)
    requires o in m && o in mx && Reached(h, o, p).Some?
    ensures Reached(h, o, p).value in mx
    decreases |p|
  {
    if p != [] {
      ChildIsSmaller(h, m, o, p[0]);
      ChildIsSmaller(hx, mx, o, p[0]);
      ValueContains(h, m, hx, mx, h[o][p[0]].obj, p[1..]);
    }
  }

  lemma RootOutside(w: Walk, hv: Heap, mv: Model)
    requires Begun(w) && AllSettled(hv, mv) && Agree(w.h, w.m, hv, mv) && Pivot(w.h, w.root, w.path) !in mv
    ensures w.root !in mv
  {
    PivotReached(w.h, w.root, w.path);
    if w.root in mv {
      ValueContains(w.h, w.m, hv, mv, w.root, w.path[..|w.path| - |ToGo(w.h, w.root, w.path)|]);
    }
  }

  /** The cells once the last key is set, of those objects among which current is. */
  ghost function Written(h: Heap, current: Obj, k: Key, x: Option<Cell>): Heap {
    if current in h && x.Some? then h[current := h[current][k := x.value]] else h
  }

  /** What a save is given: the cell to store, its objects, and that the path does not end inside them. */
  ghost predicate Fits(w: Walk, x: Option<Cell>, hv: Heap, mv: Model) {
    && Begun(w) && Unheld(w.h, w.root)
    && Given(x, hv, mv) && Agree(w.h, w.m, hv, mv) && w.v == SeenOption(x, mv)
    && Pivot(w.h, w.root, w.path) !in mv
  }

  /** What a save leaves: every old object reads as rebuilt, and a separate value keeps the heap a tree. */
  ghost predicate Saved(w: Walk, x: Option<Cell>, hv: Heap, h1: Heap, after: Model) {
    && Begun(w) && Describes(h1, after, w.root)
    && (forall o :: o in w.m ==> o in after && after[o] == InPlace(w.h, w.m, w.root, w.path, w.v)[o])
    && (Separate(x, w.h, hv) ==> Unshared(h1))
  }

  lemma JoinSettles(h: Heap, m: Model, hv: Heap, mv: Model)
    requires AllSettled(h, m) && AllSettled(hv, mv) && Agree(h, m, hv, mv)
    ensures AllSettled(h + hv, m + mv)
  {
    forall o | o in m + mv ensures Settled(h + hv, m + mv, o) {
      if o in mv {
        SettledAt(hv, mv, o);
        JoinedSettled(h + hv, m + mv, hv, mv, o);
      } else {
        SettledAt(h, m, o);
      }
    }
  }

  lemma JoinKeepsApart(h: Heap, m: Model, root: Obj, hv: Heap, mv: Model)
    requires AllSettled(h, m) && AllSettled(hv, mv) && Unheld(h, root) && root !in mv
    ensures Unheld(h + hv, root)
    ensures Unshared(h) && Unshared(hv) && h.Keys !! hv.Keys ==> Unshared(h + hv)
  {
    AllWithin(h, m);
    AllWithin(hv, mv);
    hide AllSettled;
    assert forall o, l :: Holds(h + hv, o, l, root) ==> Holds(h, o, l, root) || Holds(hv, o, l, root);
    assert forall o, l :: Holds(hv, o, l, root) ==> Within(hv[o][l], mv);
    if Unshared(h) && Unshared(hv) && h.Keys !! hv.Keys {
      forall o, k, p, l, c | Holds(h + hv, o, k, c) && Holds(h + hv, p, l, c) ensures o == p && k == l {
        assert if o in hv then Holds(hv, o, k, c) && c in mv else Holds(h, o, k, c) && c in m;
        assert if p in hv then Holds(hv, p, l, c) && c in mv else Holds(h, p, l, c) && c in m;
      }
    }
  }

  lemma RefusedSaved(w: Walk, hv: Heap, mv: Model)
    requires Fits(w, None, hv, mv) && |ToGo(w.h, w.root, w.path)| == 1
    ensures Saved(w, None, hv, w.h + hv, w.m + mv)
  {
    hide AllSettled, Unshared, Unheld, Pivot, InPlace, Agree, Saved, Fits;
    FitsBegun(w, None, hv, mv);
    RootOutside(w, hv, mv);
    JoinSettles(w.h, w.m, hv, mv);
    JoinKeepsApart(w.h, w.m, w.root, hv, mv);
    RefusedInPlace(w);
    JoinAgrees(w.h, w.m, hv, mv);
    MakeSaved(w, None, hv, w.h + hv, w.m + mv);
  }

  lemma JoinAgrees(h: Heap, m: Model, hv: Heap, mv: Model)
    requires Agree(h, m, hv, mv)
    ensures forall o :: o in m ==> o in m + mv && (m + mv)[o] == m[o]
  {}

  lemma RefusedInPlace(w: Walk)
    requires Begun(w) && w.v.None? && |ToGo(w.h, w.root, w.path)| == 1
    ensures InPlace(w.h, w.m, w.root, w.path, w.v) == w.m
  {}

  lemma StoredInPlace(w: Walk, t: Tree)
    requires Begun(w) && NewTree(ToGo(w.h, w.root, w.path), w.v) == Some(t)
    ensures InPlace(w.h, w.m, w.root, w.path, w.v)
         == Rebuilt(w.h, w.m, Pivot(w.h, w.root, w.path), ToGo(w.h, w.root, w.path)[0], t)
  {}

  /** The objects of the stored value read as they would if rebuilt. */
  lemma RebuiltJoined(h: Heap, m: Model, at: Obj, k: Key, t: Tree, hx: Heap, mx: Model)
    requires AllSettled(h, m) && AllSettled(hx, mx) && Agree(h, m, hx, mx) && at !in mx
    ensures forall o :: o in m ==> (Rebuilt(h, m, at, k, t) + mx)[o] == Rebuilt(h, m, at, k, t)[o]
  {
    hide AllSettled, Rebuild;
    forall o | o in m && o in mx ensures mx[o] == Rebuild(h, m, at, k, t, o) {
      ValueStays(h, m, at, k, t, hx, mx, o);
    }
  }

  lemma StoredSaved(w: Walk, x: Option<Cell>, hv: Heap, mv: Model, c: Cell, hx: Heap, mx: Model)
    requires Fits(w, x, hv, mv) && Given(Some(c), hx, mx) && Agree(w.h, w.m, hx, mx)
    requires Pivot(w.h, w.root, w.path) !in mx && NewTree(ToGo(w.h, w.root, w.path), w.v) == Some(Seen(c, mx))
    requires Separate(x, w.h, hv) ==> Separate(Some(c), w.h, hx)
    ensures var at, k := Pivot(w.h, w.root, w.path), ToGo(w.h, w.root, w.path)[0];
      && at in w.h
      && Saved(w, x, hv, Stored(w.h, at, k, c, hx), Rebuilt(w.h, w.m, at, k, Seen(c, mx)) + mx)
  {
    hide AllSettled, Rebuilt, Unshared, Unheld, Separate, Pivot, ToGo, InPlace, Stored, Agree, Saved, Fits;
    FitsBegun(w, x, hv, mv);
    var at, k, t := Pivot(w.h, w.root, w.path), ToGo(w.h, w.root, w.path)[0], Seen(c, mx);
    PivotInside(w.h, w.m, w.root, w.path);
    SettledKeys(w.h, w.m);
    RootOutside(w, hx, mx);
    StoreSettles(w.h, w.m, at, k, c, hx, mx);
    StoreKeepsUnheld(w.h, w.m, w.root, at, k, c, hx, mx);
    if Separate(x, w.h, hv) {
      StoreKeepsUnshared(w.h, w.m, at, k, c, hx, mx);
    }
    StoredInPlace(w, t);
    RebuiltJoined(w.h, w.m, at, k, t, hx, mx);
    MakeSaved(w, x, hv, Stored(w.h, at, k, c, hx), Rebuilt(w.h, w.m, at, k, t) + mx);
  }

  lemma MakeSaved(w: Walk, x: Option<Cell>, hv: Heap, h1: Heap, after: Model)
    requires Begun(w) && AllSettled(h1, after) && w.root in after && Unheld(h1, w.root)
    requires forall o :: o in w.m ==> o in after && after[o] == InPlace(w.h, w.m, w.root, w.path, w.v)[o]
    requires Separate(x, w.h, hv) ==> Unshared(h1)
    ensures Saved(w, x, hv, h1, after)
  {
    hide AllSettled, InPlace, Separate, Unshared, Unheld;
  }

  /** The cells of all objects once the last key is set. */
  ghost function Finished(w: Walk, s: Spot, now: Heap, chain: Heap, x: Option<Cell>, hv: Heap): Heap
    requires s.i < |w.path|
  {
    Written(now, s.current, w.path[s.i], x) + Written(chain, s.current, w.path[s.i], x) + hv
  }

  /** The save once the last key is set, whether new dictionaries were made or not. */
  lemma WalkSaved(w: Walk, s: Spot, now: Heap, chain: Heap, x: Option<Cell>, hv: Heap, mv: Model) returns (after: Model)
    requires Fits(w, x, hv, mv) && WalkedTo(w, s, now, chain) && s.i == |w.path| - 1
    requires s.made.Keys !! w.m.Keys && s.made.Keys !! mv.Keys
    ensures after.Keys == w.m.Keys + s.made.Keys + mv.Keys
    ensures Saved(w, x, hv, Finished(w, s, now, chain, x, hv), after)
  {
    hide AllSettled, Saved, Fits, WalkedTo, Finished;
    FitsBegun(w, x, hv, mv);
    WalkedCells(w, s, now, chain);
    if s.first.Some? {
      after := ChainSaved(w, s, now, chain, x, hv, mv);
    } else {
      after := PlainSaved(w, s, now, chain, x, hv, mv);
    }
  }

  lemma FitsBegun(w: Walk, x: Option<Cell>, hv: Heap, mv: Model)
    requires Fits(w, x, hv, mv)
    ensures Begun(w) && Given(x, hv, mv) && Agree(w.h, w.m, hv, mv) && w.v == SeenOption(x, mv)
    ensures Pivot(w.h, w.root, w.path) !in mv && Unheld(w.h, w.root)
  {}

  lemma PlainSaved(w: Walk, s: Spot, now: Heap, chain: Heap, x: Option<Cell>, hv: Heap,
                   mv: Model) returns (after: Model)
    requires Fits(w, x, hv, mv) && WalkedTo(w, s, now, chain) && s.i == |w.path| - 1 && s.first.None?
    ensures after.Keys == w.m.Keys + s.made.Keys + mv.Keys
    ensures Saved(w, x, hv, Finished(w, s, now, chain, x, hv), after)
  {
    hide AllSettled, Saved, Fits, WalkedTo, Rebuilt, Agree, Unheld, Pivot, ToGo, Written, Stored;
    FitsBegun(w, x, hv, mv);
    WalkedCells(w, s, now, chain);
    AtPivot(w, s, now, chain);
    SettledKeys(w.h, w.m);
    GivenKeys(x, hv, mv);
    var k := w.path[s.i];
    assert w.path[s.i..] == [k];
    PlainFinished(w.h, s.current, k, x, hv);
    if x.None? {
      after := w.m + mv;
      RefusedSaved(w, hv, mv);
    } else {
      after := Rebuilt(w.h, w.m, s.current, k, Seen(x.value, mv)) + mv;
      StoredSaved(w, x, hv, mv, x.value, hv, mv);
    }
  }

  lemma ChainSaved(w: Walk, s: Spot, now: Heap, chain: Heap, x: Option<Cell>, hv: Heap,
                   mv: Model) returns (after: Model)
    requires Fits(w, x, hv, mv) && WalkedTo(w, s, now, chain) && s.i == |w.path| - 1 && s.first.Some?
    requires s.made.Keys !! w.m.Keys && s.made.Keys !! mv.Keys
    ensures after.Keys == w.m.Keys + s.made.Keys + mv.Keys
    ensures Saved(w, x, hv, Finished(w, s, now, chain, x, hv), after)
  {
    hide AllSettled, Saved, Fits, Rebuilt, Chain, Agree, Pivot, ToGo, Separate, NewTree, Ended, Written;
    FitsBegun(w, x, hv, mv);
    WalkedCells(w, s, now, chain);
    MadeTree(w, s, now, chain);
    SettledKeys(w.h, w.m);
    GivenKeys(x, hv, mv);
    var k, first, top := w.path[s.i], s.first.value, NewTree(ToGo(w.h, w.root, w.path), w.v).value;
    var at, k0 := Pivot(w.h, w.root, w.path), ToGo(w.h, w.root, w.path)[0];
    assert w.path[s.i..] == [k];
    var hx, mx := Ended(chain, s.current, k, x, hv), s.made + mv;
    ChainCells(chain, s.made, first, top, s.current, [k], w.v);
    ChainEnds(chain, s.made, first, top, s.current, k, x, hv, mv);
    ChainSeparate(w.h, chain, s.made, first, top, s.current, k, x, hv, mv);
    SettledKeys(hx, mx);
    ChainAgrees(w, x, hv, mv, chain, s, k);
    after := Rebuilt(w.h, w.m, at, k0, top) + mx;
    PivotInside(w.h, w.m, w.root, w.path);
    assert Seen(Ref(first), mx) == top;
    StoredSaved(w, x, hv, mv, Ref(first), hx, mx);
    ChainFinished(now, chain, s.current, k, x, hv);
  }

  lemma ChainSeparate(h: Heap, chain: Heap, made: Model, first: Obj, top: Tree, current: Obj, k: Key, x: Option<Cell>,
                      hv: Heap, mv: Model)
    requires Given(x, hv, mv) && made.Keys !! mv.Keys && Chain(chain, made, first, top, current, [k], SeenOption(x, mv))
    requires made.Keys !! h.Keys
    ensures current in chain
    ensures Separate(x, h, hv) ==> Separate(Some(Ref(first)), h, Ended(chain, current, k, x, hv))
  {
    hide AllSettled, Chain, Unheld, Unshared;
    ChainCells(chain, made, first, top, current, [k], SeenOption(x, mv));
    ChainEndsApart(chain, made, first, top, current, k, x, hv, mv);
    GivenKeys(x, hv, mv);
  }

  lemma ChainFinished(h: Heap, chain: Heap, current: Obj, k: Key, x: Option<Cell>, hv: Heap)
    requires current in chain && current !in h
    ensures Written(h, current, k, x) + Written(chain, current, k, x) + hv == h + Ended(chain, current, k, x, hv)
  {}

  lemma PlainFinished(h: Heap, current: Obj, k: Key, x: Option<Cell>, hv: Heap)
    requires current in h
    ensures Written(h, current, k, x) + Written(map[], current, k, x) + hv
         == if x.Some? then Stored(h, current, k, x.value, hv) else h + hv
  {}

  lemma ChainAgrees(w: Walk, x: Option<Cell>, hv: Heap, mv: Model, chain: Heap, s: Spot, k: Key)
    requires Agree(w.h, w.m, hv, mv) && s.made.Keys !! w.m.Keys && s.made.Keys !! mv.Keys
    requires w.h.Keys == w.m.Keys && chain.Keys == s.made.Keys && hv.Keys == mv.Keys && s.current in chain
    ensures Agree(w.h, w.m, Ended(chain, s.current, k, x, hv), s.made + mv)
  {}

  /** The value under the last key, or nothing if it is refused. */
  method SetLast(current: Obj, k: Key, x: Option<Cell>, ghost olds: set<Obj>, ghost news: set<Obj>,
                 ghost given: set<Obj>)
    requires current in olds + news && current !in given
    modifies if x.Some? then {current} else {}
    ensures Cells(olds + news + given)
         == Written(old(Cells(olds)), current, k, x) + Written(old(Cells(news)), current, k, x) + old(Cells(given))
    ensures x.Some? ==> current.cells == old(current.cells)[k := x.value]
  {
    ghost var h, n, g := Cells(olds), Cells(news), Cells(given);
    if x.Some? {
      current.cells := current.cells[k := x.value];
    }
    assert Cells(olds) == Written(h, current, k, x);
    assert Cells(news) == Written(n, current, k, x);
    assert Cells(given) == g;
    CellsJoined(olds, news);
    CellsJoined(olds + news, given);
  }

  /** The end of the save. */
  method Finish(current: Obj, k: Key, x: Option<Cell>, ghost w: Walk, ghost s: Spot, ghost mv: Model)
      returns (ghost after: Model)
    requires Fits(w, x, Cells(mv.Keys), mv) && Walking(w, s) && s.i == |w.path| - 1 && k == w.path[s.i]
    requires s.current == current && s.made.Keys !! w.m.Keys && s.made.Keys !! mv.Keys && current !in mv
    modifies if x.Some? then {current} else {}
    ensures after.Keys == w.m.Keys + s.made.Keys + mv.Keys
    ensures Saved(w, x, old(Cells(mv.Keys)), Cells(after.Keys), after)
    ensures x.Some? ==> current.cells == old(current.cells)[k := x.value]
  {
    hide Fits, WalkedTo, Saved, Written;
    ghost var now, chain := Cells(w.m.Keys), Cells(s.made.Keys);
    FitsBegun(w, x, Cells(mv.Keys), mv);
    WalkedCells(w, s, now, chain);
    after := WalkSaved(w, s, now, chain, x, Cells(mv.Keys), mv);
    SetLast(current, k, x, w.m.Keys, s.made.Keys, mv.Keys);
  }

  /**
   Sets a key at the end of a path. The object to store is kept by reference, not copied; it may be one that is
   stored already, as long as the dictionary in which the path ends is not part of it. Every object that holds the
   changed dictionary, however indirectly, reads differently afterwards.
   */
  method SetPath(root: Obj, path: Path, x: Option<Cell>, ghost m: Model, ghost mv: Model) returns (ghost after: Model)
    requires path != [] && (root.isMap || |path| == 1) && Describes(Cells(m.Keys), m, root)
    requires Given(x, Cells(mv.Keys), mv) && (forall o :: o in m && o in mv ==> m[o] == mv[o])
    requires Pivot(Cells(m.Keys), root, path) !in mv
    modifies Pivot(Cells(m.Keys), root, path)
    ensures Describes(Cells(after.Keys), after, root)
    ensures m.Keys + mv.Keys <= after.Keys && fresh(after.Keys - m.Keys - mv.Keys)
    ensures forall o :: o in m ==> after[o] == InPlace(old(Cells(m.Keys)), m, root, path, SeenOption(x, mv))[o]
    ensures old(Separate(x, Cells(m.Keys), Cells(mv.Keys))) ==> Unshared(Cells(after.Keys))
    ensures var at := old(Pivot(Cells(m.Keys), root, path));
      x.Some? && old(|ToGo(Cells(m.Keys), root, path)|) == 1 ==>
        at.cells == old(Pivot(Cells(m.Keys), root, path).cells)[path[|path| - 1] := x.value]
  {
    hide AllSettled, Unshared, Unheld, WalkedTo, Pivot, InPlace, Fits, Separate;
    ghost var w, hv := FitsNow(root, path, x, m, mv);
    var current, s := Descend(root, path, w);
    WalkedCells(w, s, Cells(m.Keys), Cells(s.made.Keys));
    SetLastFrame(w, s, Cells(m.Keys), Cells(s.made.Keys));
    after := Finish(current, path[|path| - 1], x, w, s, mv);
  }

  lemma FitsNow(root: Obj, path: Path, x: Option<Cell>, m: Model, mv: Model) returns (w: Walk, hv: Heap)
    requires path != [] && (root.isMap || |path| == 1) && Describes(Cells(m.Keys), m, root)
    requires Given(x, Cells(mv.Keys), mv) && (forall o :: o in m && o in mv ==> m[o] == mv[o])
    requires Pivot(Cells(m.Keys), root, path) !in mv
    ensures hv == Cells(mv.Keys) && w == Walk(Cells(m.Keys), m, root, path, SeenOption(x, mv))
    ensures Fits(w, x, hv, mv) && Begun(w) && Pivot(w.h, root, path) in m
  {
    hide AllSettled, Unheld, Pivot;
    GivenKeys(x, Cells(mv.Keys), mv);
    w, hv := Walk(Cells(m.Keys), m, root, path, SeenOption(x, mv)), Cells(mv.Keys);
    PivotInside(w.h, m, root, path);
  }

  lemma SetLastFrame(w: Walk, s: Spot, now: Heap, chain: Heap)
    requires Begun(w) && WalkedTo(w, s, now, chain) && s.i == |w.path| - 1
    ensures s.first.None? ==> s.current == Pivot(w.h, w.root, w.path)
    ensures |ToGo(w.h, w.root, w.path)| == 1 ==> s.first.None?
  {
    if s.first.None? {
      AtPivot(w, s, now, chain);
    }
  }

  // ---------- Copies, parsing and dumping ----------

  /** m gives a tree to each of its objects. */
  ghost predicate Readable(m: Model)
    reads m.Keys
  {
    forall o :: o in m ==> Settled(Cells(m.Keys), m, o)
  }

  method SetChild(d: Obj, k: Key, child: Cell, ghost done: Entries, ghost m: Model, ghost mc: Model)
      returns (ghost after: Model, ghost more: Entries)
    requires Describes(Cells(m.Keys), m, d) && m[d] == Branch(d.isMap, done)
    requires Given(Some(child), Cells(mc.Keys), mc) && m.Keys !! mc.Keys
    modifies m.Keys
    ensures Describes(Cells(after.Keys), after, d) && d in after && after[d] == Branch(d.isMap, more)
    ensures fresh(after.Keys - m.Keys - mc.Keys)
    ensures more == done[k := Seen(child, mc)]
    ensures old(Separate(Some(child), Cells(m.Keys), Cells(mc.Keys))) ==> Unshared(Cells(after.Keys))
  {
    hide AllSettled, Unshared, Unheld, Separate;
    after := SetPath(d, [k], Some(child), m, mc);
    more := done[k := Seen(child, mc)];
  }

  method NewObj(isMap: bool) returns (d: Obj, ghost m: Model)
    ensures fresh(d) && d.isMap == isMap && d.cells == map[] && m == map[d := Branch(isMap, map[])]
    ensures Describes(Cells(m.Keys), m, d) && Unshared(Cells(m.Keys))
  {
    d := new Obj(isMap);
    m := map[d := Branch(isMap, map[])];
    assert forall o, k, c :: !Holds(Cells(m.Keys), o, k, c);
  }

  lemma ReadableAt(m: Model, o: Obj)
    requires Readable(m) && o in m
    ensures m[o].Branch? && o.isMap == m[o].isMap && o.cells.Keys == m[o].entries.Keys
    ensures forall k :: k in o.cells ==> Within(o.cells[k], m) && Seen(o.cells[k], m) == m[o].entries[k]
  {
    assert Settled(Cells(m.Keys), m, o);
  }

  /** A deep copy reads the same and consists of new objects only. */
  method Copy(c: Cell, ghost m: Model) returns (r: Cell, ghost mr: Model)
    requires Readable(m) && Within(c, m)
    ensures fresh(mr.Keys) && Given(Some(r), Cells(mr.Keys), mr)
    ensures Seen(r, mr) == Seen(c, m)
    ensures Unshared(Cells(m.Keys)) ==> Unshared(Cells(mr.Keys)) && (r.Ref? ==> Unheld(Cells(mr.Keys), r.obj))
    decreases Seen(c, m), 1
  {
    match c
    case Atom(text) =>
      r, mr := c, map[];
    case Ref(o) =>
      var d;
      d, mr := CopyObj(o, m);
      r := Ref(d);
  }

  method CopyObj(o: Obj, ghost m: Model) returns (d: Obj, ghost md: Model)
    requires Readable(m) && o in m
    ensures fresh(md.Keys) && Describes(Cells(md.Keys), md, d)
    ensures d in md && md[d] == m[o]
    ensures Unshared(Cells(m.Keys)) ==> Unshared(Cells(md.Keys))
    decreases m[o], 0
  {
    hide Describes, Settled, Shows, Readable, Given, Seen, Unshared;
    ReadableAt(m, o);
    var cells := o.cells;
    ghost var all := m[o].entries;
    d, md := NewObj(o.isMap);
    ghost var done: Entries := map[];
    var keys := cells.Keys;
    while keys != {}
      invariant Readable(m)
      invariant keys !! done.Keys && keys + done.Keys == cells.Keys
      invariant forall k :: k in done ==> done[k] == all[k]
      invariant fresh(md.Keys) && Describes(Cells(md.Keys), md, d)
      invariant d in md && md[d] == Branch(d.isMap, done)
      invariant Unshared(Cells(m.Keys)) ==> Unshared(Cells(md.Keys))
    {
      var k :| k in keys;
      md, done := CopyChild(cells[k], m, d, k, done, md);
      keys := keys - {k};
    }
    assert done == all;
  }

  method CopyChild(c: Cell, ghost m: Model, d: Obj, k: Key, ghost done: Entries, ghost md: Model)
      returns (ghost after: Model, ghost more: Entries)
    requires Readable(m) && Within(c, m) && m.Keys !! md.Keys
    requires Describes(Cells(md.Keys), md, d) && md[d] == Branch(d.isMap, done)
    modifies md.Keys
    ensures Describes(Cells(after.Keys), after, d) && d in after && after[d] == Branch(d.isMap, more)
    ensures fresh(after.Keys - md.Keys)
    ensures more == done[k := Seen(c, m)]
    ensures Unshared(Cells(m.Keys)) && old(Unshared(Cells(md.Keys))) ==> Unshared(Cells(after.Keys))
    decreases Seen(c, m), 2
  {
    hide Describes, Settled, Shows, Readable, Given, Seen, Unshared, Unheld;
    var child, mc := Copy(c, m);
    after, more := SetChild(d, k, child, done, md, mc);
  }

  /** Parsing a document builds new objects that read as the document. */
  method Parse(t: Tree) returns (r: Cell, ghost mr: Model)
    ensures fresh(mr.Keys) && Given(Some(r), Cells(mr.Keys), mr) && Seen(r, mr) == t
    ensures Unshared(Cells(mr.Keys)) && (r.Ref? ==> Unheld(Cells(mr.Keys), r.obj))
    decreases t, 1
  {
    match t
    case Leaf(text) =>
      r, mr := Atom(text), map[];
    case Branch(isMap, entries) =>
      var d;
      d, mr := ParseObj(t);
      r := Ref(d);
  }

  method ParseObj(t: Tree) returns (d: Obj, ghost md: Model)
    requires t.Branch?
    ensures fresh(md.Keys) && Describes(Cells(md.Keys), md, d) && Unshared(Cells(md.Keys))
    ensures d in md && d.isMap == t.isMap && md[d] == t
    decreases t, 0
  {
    hide Describes, Given, Unshared, Unheld;
    var entries := t.entries;
    d, md := NewObj(t.isMap);
    ghost var done: Entries := map[];
    var keys := entries.Keys;
    while keys != {}
      invariant keys !! done.Keys && keys + done.Keys == entries.Keys
      invariant forall k :: k in done ==> done[k] == entries[k]
      invariant fresh(md.Keys) && Describes(Cells(md.Keys), md, d)
      invariant Unshared(Cells(md.Keys))
      invariant d in md && md[d] == Branch(t.isMap, done)
    {
      var k :| k in keys;
      var child, mc := Parse(entries[k]);
      GivenKeys(Some(child), Cells(mc.Keys), mc);
      md, done := SetChild(d, k, child, done, md, mc);
      keys := keys - {k};
    }
    assert done == entries;
  }

  /** Dumping writes out the tree that the objects read as. */
  method Dump(c: Cell, ghost m: Model) returns (t: Tree)
    requires Readable(m) && Within(c, m)
    ensures t == Seen(c, m)
    decreases Seen(c, m)
  {
    hide Settled, Shows, Readable;
    match c
    case Atom(text) =>
      t := Leaf(text);
    case Ref(o) =>
      ReadableAt(m, o);
      var entries: Entries := map[];
      var keys := o.cells.Keys;
      while keys != {}
        invariant keys !! entries.Keys && keys + entries.Keys == o.cells.Keys
        invariant forall k :: k in entries ==> entries[k] == m[o].entries[k]
      {
        var k :| k in keys;
        var child := Dump(o.cells[k], m);
        entries := entries[k := child];
        keys := keys - {k};
      }
      assert entries == m[o].entries;
      t := Branch(o.isMap, entries);
  }

  // ---------- The two stores ----------

  /** What the value handed to save is, as far as serialisation asks. */
  datatype Value =
    | Enum(payload: Cell)
    | Address(text: string)
    | Record
    | Plain(cell: Cell)

  /** Enum members become their value, addresses their text; dataclass instances are refused. */
  function Serialize(v: Value): Option<Cell> {
    match v
    case Enum(payload) => Some(payload)
    case Address(text) => Some(Atom(text))
    case Record => None
    case Plain(cell) => Some(cell)
  }

  /**
   What a value becomes in a document: an enum member its payload, an address its text, any other value itself; a
   dataclass instance is the only one refused.
   */
  lemma ValuesAre(v: Value, m: Model)
    requires Serialize(v).Some? ==> Within(Serialize(v).value, m)
    ensures SeenOption(Serialize(v), m) == None <==> v == Record
    ensures v.Address? ==> SeenOption(Serialize(v), m) == Some(Leaf(v.text))
    ensures forall c :: (v == Enum(c) || v == Plain(c) ==>
      Within(c, m) && SeenOption(Serialize(v), m) == Some(Seen(c, m)))
  {}

  /** What opening and parsing a state file gives; Falsy is any document that Python takes for false, {} aside. */
  datatype File = Missing | Corrupt | Falsy | Mapping(entries: Entries) | Other

  function LoadFile(f: File): Entries {
    if f.Mapping? then f.entries else map[]
  }

  type Files = map<string, File>

  function FileAt(files: Files, k: string): File {
    if k in files then files[k] else Missing
  }

  /** One call of save; None stands for a value that serialisation refuses. */
  datatype SaveOp = SaveOp(stateKey: string, path: Path, value: Option<Tree>)

  /** What a save makes of a file. */
  function SaveFile(f: File, path: Path, v: Option<Tree>): File {
    if path == [] || v.None? || f.Other? then f
    else Mapping(Update(LoadFile(f), path, v.value))
  }

  /** What a save makes of the files: at most its own one is written. */
  function SaveToFiles(files: Files, op: SaveOp): Files {
    var f := FileAt(files, op.stateKey);
    if SaveFile(f, op.path, op.value) == f then files
    else files[op.stateKey := SaveFile(f, op.path, op.value)]
  }

  function SaveFileError(f: File, path: Path, v: Option<Tree>): Option<Error> {
    if path == [] then Some(EmptyPath)
    else if f.Other? && (|path| > 1 || v.Some?) then Some(NotAMapping)
    else if v.None? then Some(DataclassValue)
    else None
  }

  /** What a save makes of the dictionaries in memory, if each of them is held in one place only. */
  function SaveToMemory(data: Entries, op: SaveOp): Entries {
    if op.path == [] then data else Place(data, [Name(op.stateKey)] + op.path, op.value)
  }

  class YamlFileStateStore {
    var files: Files

    constructor ()
      ensures files == map[]
    {
      files := map[];
    }

    /** A dictionary of new objects: nothing the caller does to it reaches the store. */
    method Load(stateKey: string) returns (d: Obj, ghost md: Model)
      ensures fresh(md.Keys) && Describes(Cells(md.Keys), md, d)
      ensures md[d] == Branch(true, LoadFile(FileAt(files, stateKey)))
    {
      d, md := ParseObj(Branch(true, LoadFile(FileAt(files, stateKey))));
    }

    method Save(stateKey: string, path: Path, value: Value, ghost mv: Model) returns (error: Option<Error>)
      requires Given(Serialize(value), Cells(mv.Keys), mv)
      modifies this
      ensures var v := SeenOption(Serialize(value), mv);
        && error == SaveFileError(FileAt(old(files), stateKey), path, v)
        && files == SaveToFiles(old(files), SaveOp(stateKey, path, v))
    {
      hide Place, Update, Given;
      if path == [] {
        return Some(EmptyPath);
      }
      var f := FileAt(files, stateKey);
      if f.Other? {
        return Some(if |path| == 1 && Serialize(value).None? then DataclassValue else NotAMapping);
      }
      var written;
      error, written := Rewrite(LoadFile(f), path, Serialize(value), mv);
      if error.None? {
        files := files[stateKey := Mapping(written)];
      }
    }
  }

  /** Reading, updating and dumping a document. */
  method Rewrite(document: Entries, path: Path, x: Option<Cell>, ghost mv: Model)
      returns (error: Option<Error>, written: Entries)
    requires path != [] && Given(x, Cells(mv.Keys), mv)
    ensures error == if x.None? then Some(DataclassValue) else None
    ensures x.Some? ==> Within(x.value, mv) && written == Update(document, path, Seen(x.value, mv))
  {
    hide Place, Update, AllSettled, Unshared, Unheld, Given;
    GivenKeys(x, Cells(mv.Keys), mv);
    var data, md := ParseObj(Branch(true, document));
    md := SaveInTree(data, path, x, md, mv);
    if x.None? {
      return Some(DataclassValue), document;
    }
    DescribedReadable(md, data);
    var t := Dump(Ref(data), md);
    PlaceIsUpdate(document, path, Seen(x.value, mv));
    return None, t.entries;
  }

  /** A save below an object of its own, of a value made before it. */
  method SaveInTree(data: Obj, path: Path, x: Option<Cell>, ghost md: Model,
                    ghost mv: Model) returns (ghost after: Model)
    requires path != [] && data.isMap && Describes(Cells(md.Keys), md, data) && Unshared(Cells(md.Keys))
    requires Given(x, Cells(mv.Keys), mv) && md.Keys !! mv.Keys
    modifies md.Keys
    ensures Describes(Cells(after.Keys), after, data) && md[data].Branch?
    ensures after[data] == Branch(true, Place(md[data].entries, path, SeenOption(x, mv)))
  {
    hide Place, AllSettled, Unshared, Unheld, InPlace, Pivot, Given;
    GivenKeys(x, Cells(mv.Keys), mv);
    PivotInside(Cells(md.Keys), md, data, path);
    TreeSaves(Cells(md.Keys), md, data, path, SeenOption(x, mv));
    after := SetPath(data, path, x, md, mv);
  }

  lemma DescribedReadable(m: Model, root: Obj)
    requires Describes(Cells(m.Keys), m, root)
    ensures Readable(m) && root in m
  {}

  class InMemoryStateStore {
    var data: Obj
    ghost var model: Model

    ghost predicate Valid()
      reads this, model.Keys
    {
      && data.isMap
      && Describes(Cells(model.Keys), model, data)
      && model[data].Branch? && AllMaps(model[data].entries)
    }

    /** No stored object is held in two places. */
    ghost predicate OwnTree()
      reads this, model.Keys
    {
      Unshared(Cells(model.Keys))
    }

    /** The stored dictionaries by state key. */
    ghost function Contents(): Entries
      requires Valid()
      reads this, model.Keys
    {
      model[data].entries
    }

    /** Starts from a deep copy of the given state, or from nothing. */
    constructor (initial: Option<Obj>, ghost mi: Model)
      requires initial.Some? ==>
        && initial.value.isMap && Describes(Cells(mi.Keys), mi, initial.value)
        && mi[initial.value].Branch? && AllMaps(mi[initial.value].entries)
      ensures Valid() && fresh(model.Keys)
      ensures Contents() == if initial.Some? then mi[initial.value].entries else map[]
      ensures initial.None? || Unshared(Cells(mi.Keys)) ==> OwnTree()
    {
      hide Describes, Settled, Unshared;
      var d: Obj;
      ghost var md: Model;
      if initial.Some? {
        DescribedReadable(mi, initial.value);
        d, md := CopyObj(initial.value, mi);
      } else {
        d, md := NewObj(true);
      }
      RootIsMap(md, d);
      if initial.Some? {
        RootIsMap(mi, initial.value);
      }
      data, model := d, md;
    }

    /** A dictionary of new objects: nothing the caller does to it reaches the store. */
    method Load(stateKey: string) returns (d: Obj, ghost md: Model)
      requires Valid()
      ensures fresh(md.Keys) && Describes(Cells(md.Keys), md, d)
      ensures md[d] == Branch(true, Below(Contents(), Name(stateKey)))
    {
      hide Describes, Shows;
      DescribedReadable(model, data);
      ReadableAt(model, data);
      var k := Name(stateKey);
      if k in data.cells && data.cells[k].Ref? {
        d, md := CopyObj(data.cells[k].obj, model);
      } else {
        d, md := NewObj(true);
      }
    }

    /** All stored state, in new objects. */
    method Snapshot() returns (d: Obj, ghost md: Model)
      requires Valid()
      ensures fresh(md.Keys) && Describes(Cells(md.Keys), md, d)
      ensures md[d] == Branch(true, Contents())
    {
      hide Describes;
      DescribedReadable(model, data);
      ReadableAt(model, data);
      d, md := CopyObj(data, model);
    }

    /**
     Saves under a state key. The key's dictionary is made when missing, and as stored dictionaries are
     maps this is one more step of the same loop. The objects of the value join the store as they are, so the
     store holds the update exactly if the changed dictionary is reached in one way only or stays as it is.
     */
    method Save(stateKey: string, path: Path, value: Value, ghost mv: Model) returns (error: Option<Error>)
      requires Valid() && Given(Serialize(value), Cells(mv.Keys), mv)
      requires forall o :: o in model && o in mv ==> model[o] == mv[o]
      requires path != [] ==> Pivot(Cells(model.Keys), data, [Name(stateKey)] + path) !in mv
      modifies this, model.Keys
      ensures Valid() && data == old(data)
      ensures old(model.Keys) <= model.Keys && fresh(model.Keys - old(model.Keys) - mv.Keys)
      ensures path == [] ==> error == Some(EmptyPath) && Contents() == old(Contents())
      ensures var v, full := SeenOption(Serialize(value), mv), [Name(stateKey)] + path;
        path != [] ==>
          && error == (if v.None? then Some(DataclassValue) else None)
          && (forall o :: o in old(model) ==> model[o] == InPlace(old(Cells(model.Keys)), old(model), data, full, v)[o])
          && (Contents() == Place(old(Contents()), full, v)
              <==> OneWay(old(Cells(model.Keys)), old(model), data, full, v))
      ensures (old(OwnTree()) && (path == [] || old(Separate(Serialize(value), Cells(model.Keys), Cells(mv.Keys)))) ==>
        OwnTree())
    {
      hide Place, Given, AllSettled, InPlace, Pivot, ToGo, OneWay, Unshared, Unheld, Separate, AllMaps;
      GivenKeys(Serialize(value), Cells(mv.Keys), mv);
      if path == [] {
        return Some(EmptyPath);
      }
      SaveFacts(Cells(model.Keys), model, data, [Name(stateKey)] + path, SeenOption(Serialize(value), mv));
      model := SetPath(data, [Name(stateKey)] + path, Serialize(value), model, mv);
      error := if Serialize(value).None? then Some(DataclassValue) else None;
    }
  }

  lemma SaveFacts(h: Heap, m: Model, root: Obj, path: Path, v: Option<Tree>)
    requires AllSettled(h, m) && root in m && root.isMap && |path| > 1 && m[root].Branch? && AllMaps(m[root].entries)
    ensures Pivot(h, root, path) in m
    ensures var t := InPlace(h, m, root, path, v)[root];
      && t.Branch? && t.isMap && AllMaps(t.entries)
      && (t.entries == Place(m[root].entries, path, v) <==> OneWay(h, m, root, path, v))
  {
    hide Place, AllSettled, InPlace, OneWay, AllMaps;
    SaveIsUpdate(h, m, root, path, v);
    SaveKeepsMaps(h, m, root, path, v);
    PivotInside(h, m, root, path);
  }

  lemma RootIsMap(m: Model, d: Obj)
    requires Describes(Cells(m.Keys), m, d)
    ensures d in m && m[d].Branch? && m[d].isMap == d.isMap
  {
    assert Settled(Cells(m.Keys), m, d);
  }

  // ---------- The stores agree ----------

  function FilesAfter(files: Files, ops: seq<SaveOp>): Files
    decreases ops
  {
    if ops == [] then files else FilesAfter(SaveToFiles(files, ops[0]), ops[1..])
  }

  function MemoryAfter(data: Entries, ops: seq<SaveOp>): Entries
    decreases ops
  {
    if ops == [] then data else MemoryAfter(SaveToMemory(data, ops[0]), ops[1..])
  }

  /** Loading any state key gives the same dictionary from both, and no file holds a truthy non-mapping. */
  ghost predicate Mirrors(files: Files, data: Entries) {
    && (forall k: string :: LoadFile(FileAt(files, k)) == Below(data, Name(k)))
    && (forall k: string :: !FileAt(files, k).Other?)
  }

  predicate Accepted(op: SaveOp) {
    op.path != [] && op.value.Some?
  }

  /** The last step of a path leads to a dictionary that is already there. */
  predicate Prepared(t: Entries, path: Path)
    requires path != []
  {
    var above := Read(t, path[..|path| - 1]);
    above.Some? && above.value.Branch? && above.value.isMap
  }

  /** A refused value leaves the in-memory tree alone exactly if no dictionary was missing on the way. */
  lemma {:induction false} RefusedUnchanged(t: Entries, path: Path)
    requires path != []
    ensures Place(t, path, None) == t <==> Prepared(t, path)
    decreases |path|
  {
    if |path| > 1 {
      var k, rest := path[0], path[1..];
      RefusedUnchanged(Below(t, k), rest);
      var init := path[..|path| - 1];
      assert init[1..] == rest[..|rest| - 1] && init[0] == k;
      Step(t, init);
      if init[1..] != [] {
        BelowReads(t, k, init[1..]);
      }
      if k in t && t[k].Branch? && t[k].isMap {
        assert Place(t, path, None)[k] == Branch(true, Place(Below(t, k), rest, None));
        assert Place(t, path, None) == t <==> Place(Below(t, k), rest, None) == Below(t, k);
      } else {
        assert k in Place(t, path, None);
      }
    }
  }

  /** One save keeps the stores in step exactly if it is accepted or makes no dictionary before being refused. */
  lemma SavesMirror(files: Files, data: Entries, op: SaveOp)
    requires Mirrors(files, data)
    ensures Mirrors(SaveToFiles(files, op), SaveToMemory(data, op))
      <==> Accepted(op) || op.path == [] || Prepared(Below(data, Name(op.stateKey)), op.path)
  {
    var f1, d1 := SaveToFiles(files, op), SaveToMemory(data, op);
    var k0 := op.stateKey;
    var before := Below(data, Name(k0));
    assert LoadFile(FileAt(files, k0)) == before;
    forall k: string | k != k0
      ensures FileAt(f1, k) == FileAt(files, k) && Below(d1, Name(k)) == Below(data, Name(k))
    {}
    if op.path != [] {
      var full := [Name(k0)] + op.path;
      assert full[1..] == op.path;
      assert Below(d1, Name(k0)) == Place(before, op.path, op.value);
      RefusedUnchanged(before, op.path);
      if op.value.Some? {
        PlaceIsUpdate(before, op.path, op.value.value);
      }
      assert LoadFile(FileAt(f1, k0)) == if op.value.Some? then Update(before, op.path, op.value.value) else before;
    }
  }

  /** A refused value at a path of two keys: a dictionary in memory, nothing in the file. */
  lemma RefusedExample()
    ensures var op := SaveOp("p", [Name("a"), Name("b")], None);
      Mirrors(map[], map[]) && !Mirrors(SaveToFiles(map[], op), SaveToMemory(map[], op))
  {
    var op := SaveOp("p", [Name("a"), Name("b")], None);
    SavesMirror(map[], map[], op);
    assert op.path[..1] == [Name("a")];
    Step(Below(map[], Name("p")), op.path[..1]);
  }

  /** After any history of accepted saves, every load gives the same from either store. */
  lemma {:induction false} StoresAgree(files: Files, data: Entries, ops: seq<SaveOp>)
    requires Mirrors(files, data)
    requires forall op :: op in ops ==> Accepted(op)
    ensures Mirrors(FilesAfter(files, ops), MemoryAfter(data, ops))
    decreases ops
  {
    if ops != [] {
      SavesMirror(files, data, ops[0]);
      StoresAgree(SaveToFiles(files, ops[0]), SaveToMemory(data, ops[0]), ops[1..]);
    }
  }

  // ---------- Histories of saves ----------

  /** The value of a call, in objects of its own. */
  method ValueOf(t: Option<Tree>) returns (value: Value, ghost mv: Model)
    ensures fresh(mv.Keys) && Given(Serialize(value), Cells(mv.Keys), mv) && SeenOption(Serialize(value), mv) == t
    ensures Unshared(Cells(mv.Keys))
    ensures Serialize(value).Some? && Serialize(value).value.Ref? ==> Unheld(Cells(mv.Keys), Serialize(value).value.obj)
  {
    if t.None? {
      value, mv := Record, map[];
    } else {
      var cell;
      cell, mv := Parse(t.value);
      value := Plain(cell);
    }
  }

  /** Any history of saves on files, accepted or not, leaves what the updates one after the other leave. */
  method SaveAllToFiles(store: YamlFileStateStore, ops: seq<SaveOp>)
    modifies store
    ensures store.files == FilesAfter(old(store.files), ops)
  {
    hide Given, Unshared, Unheld;
    for i := 0 to |ops|
      invariant FilesAfter(old(store.files), ops) == FilesAfter(store.files, ops[i..])
    {
      assert ops[i..][1..] == ops[i + 1..];
      var value, mv := ValueOf(ops[i].value);
      var error := store.Save(ops[i].stateKey, ops[i].path, value, mv);
    }
  }

  /** The same in memory, from a store whose dictionaries are each held once, with values of their own. */
  method SaveAllToMemory(store: InMemoryStateStore, ops: seq<SaveOp>)
    requires store.Valid() && store.OwnTree()
    modifies store, store.model.Keys
    ensures store.Valid() && store.OwnTree()
    ensures store.Contents() == MemoryAfter(old(store.Contents()), ops)
  {
    hide Given, Unshared, Unheld, Describes, Place, Separate, AllMaps;
    for i := 0 to |ops|
      invariant store.Valid() && store.OwnTree() && fresh(store.model.Keys - old(store.model.Keys))
      invariant MemoryAfter(old(store.Contents()), ops) == MemoryAfter(store.Contents(), ops[i..])
    {
      assert ops[i..][1..] == ops[i + 1..];
      SaveOne(store, ops[i]);
    }
  }

  method SaveOne(store: InMemoryStateStore, op: SaveOp)
    requires store.Valid() && store.OwnTree()
    modifies store, store.model.Keys
    ensures store.Valid() && store.OwnTree() && fresh(store.model.Keys - old(store.model.Keys))
    ensures store.Contents() == SaveToMemory(old(store.Contents()), op)
  {
    hide Given, Unheld, Place, OneWay, Pivot, ToGo, InPlace, AllSettled, AllMaps;
    var value, mv := ValueOf(op.value);
    GivenKeys(Serialize(value), Cells(mv.Keys), mv);
    if op.path != [] {
      TreePivot(Cells(store.model.Keys), store.model, store.data, [Name(op.stateKey)] + op.path, op.value);
    }
    var error := store.Save(op.stateKey, op.path, value, mv);
  }

  lemma TreePivot(h: Heap, m: Model, root: Obj, path: Path, v: Option<Tree>)
    requires Describes(h, m, root) && Unshared(h) && path != [] && root.isMap
    ensures Pivot(h, root, path) in m && OneWay(h, m, root, path, v)
  {
    hide AllSettled, Unshared, ReadsAsUpdate, OneWay;
    PivotInside(h, m, root, path);
    TreeSaves(h, m, root, path, v);
    SaveIsUpdate(h, m, root, path, v);
  }

  // ---------- A dictionary stored under two keys ----------

  /** A dictionary of two keys that hold the same dictionary. */
  method SharedDict() returns (root: Obj, d: Obj, ghost m: Model)
    ensures fresh(m.Keys) && Describes(Cells(m.Keys), m, root) && root.isMap && d.isMap && d in m && root != d
    ensures root.cells == map[Name("a") := Ref(d), Name("b") := Ref(d)] && d.cells == map[]
  {
    hide AllSettled, Unshared, Unheld, Given, Describes;
    ghost var md;
    d, md := NewObj(true);
    root, m := NewObj(true);
    m := SetKey(root, Name("a"), d, m, md);
    EmptyReads(m, root, d);
    m := SetKey(root, Name("b"), d, m, md);
  }

  lemma EmptyGiven(md: Model, d: Obj)
    requires md == map[d := Branch(d.isMap, map[])] && d.cells == map[]
    ensures Given(Some(Ref(d)), Cells(md.Keys), md)
  {}

  /** One dictionary under a key of another. */
  method SetKey(root: Obj, k: Key, d: Obj, ghost m: Model, ghost md: Model) returns (ghost after: Model)
    requires Describes(Cells(m.Keys), m, root) && d != root
    requires md == map[d := Branch(d.isMap, map[])] && d.cells == map[]
    requires d in m ==> m[d] == md[d]
    modifies root
    ensures Describes(Cells(after.Keys), after, root) && d in after && m.Keys <= after.Keys
    ensures fresh(after.Keys - m.Keys - {d}) && root.cells == old(root.cells)[k := Ref(d)]
  {
    hide AllSettled, Unshared, Unheld, InPlace, Separate, Pivot, ToGo, Given;
    PivotHere(Cells(m.Keys), root, k);
    EmptyGiven(md, d);
    after := SetPath(root, [k], Some(Ref(d)), m, md);
  }

  lemma PivotHere(h: Heap, o: Obj, k: Key)
    ensures Pivot(h, o, [k]) == o && ToGo(h, o, [k]) == [k]
  {}

  lemma EmptyReads(m: Model, root: Obj, d: Obj)
    requires Describes(Cells(m.Keys), m, root) && d in m && d.cells == map[]
    ensures m[d] == Branch(d.isMap, map[])
  {
    SettledAt(Cells(m.Keys), m, d);
  }

  /** A save through the first key is read through the second as well; the update would leave the second alone. */
  method SharedDictExample() returns (root: Obj, ghost m: Model)
    ensures Describes(Cells(m.Keys), m, root) && root.isMap
    ensures var one := Branch(true, map[Name("k") := Leaf("1")]);
      m[root] == Branch(true, map[Name("a") := one, Name("b") := one])
  {
    hide AllSettled, Unshared, Unheld, InPlace, Separate, Pivot, ToGo, Given;
    var d;
    root, d, m := SharedDict();
    PivotNext(Cells(m.Keys), root, Name("a"), Name("k"));
    NoneGiven();
    m := SetPath(root, [Name("a"), Name("k")], Some(Atom("1")), m, map[]);
    assert root.cells == map[Name("a") := Ref(d), Name("b") := Ref(d)] && d.cells == map[Name("k") := Atom("1")];
    SharedReads(m, root, d);
  }

  lemma PivotNext(h: Heap, o: Obj, k: Key, l: Key)
    requires o in h && k in h[o] && IsMapCell(h[o][k])
    ensures Pivot(h, o, [k, l]) == h[o][k].obj && ToGo(h, o, [k, l]) == [l]
  {
    assert [k, l][1..] == [l];
    PivotHere(h, h[o][k].obj, l);
  }

  lemma SharedReads(m: Model, root: Obj, d: Obj)
    requires Describes(Cells(m.Keys), m, root) && root.isMap && d.isMap && d in m
    requires root.cells == map[Name("a") := Ref(d), Name("b") := Ref(d)] && d.cells == map[Name("k") := Atom("1")]
    ensures var one := Branch(true, map[Name("k") := Leaf("1")]);
      m[root] == Branch(true, map[Name("a") := one, Name("b") := one])
  {
    hide AllSettled, Unheld;
    SettledAt(Cells(m.Keys), m, root);
    SettledAt(Cells(m.Keys), m, d);
    assert m[d].entries == map[Name("k") := Leaf("1")];
  }

  lemma NoneGiven()
    ensures Given(Some(Atom("1")), map[], map[])
  {}
}
