/**
 The nested dictionaries of the state store as values, and the update that a save performs on them
 (src/state_store.py:224-232, :286-292).

 Dictionaries are compared as Python compares them, by keys and values, so insertion order is not kept.
 */
module StateTree {
  import opened Common

  /** A dictionary key, or a position in a list. */
  datatype Key = Name(text: string) | At(index: nat)

  /** Anything a state file can hold. A list is a branch that is not a map, keyed by position. */
  datatype Tree = Leaf(text: string) | Branch(isMap: bool, entries: map<Key, Tree>)

  type Entries = map<Key, Tree>

  type Path = seq<Key>

  datatype Error = EmptyPath | DataclassValue | NotAMapping

  /** The dictionary stored under k, or a new one where nothing or something else is stored. */
  function Below(t: Entries, k: Key): Entries {
    if k in t && t[k].Branch? && t[k].isMap then t[k].entries else map[]
  }

  /** The tree after saving v at a path. */
  function Update(t: Entries, path: Path, v: Tree): Entries
    requires path != []
    decreases |path|
  {
    if |path| == 1 then t[path[0] := v]
    else t[path[0] := Branch(true, Update(Below(t, path[0]), path[1..], v))]
  }

  /** What is stored at a path, through dictionaries only. */
  function Lookup(t: Tree, path: Path): Option<Tree>
    decreases |path|
  {
    if path == [] then Some(t)
    else if t.Branch? && t.isMap && path[0] in t.entries then Lookup(t.entries[path[0]], path[1..])
    else None
  }

  function Read(t: Entries, path: Path): Option<Tree> {
    Lookup(Branch(true, t), path)
  }

  predicate Comparable(p: Path, q: Path) {
    p <= q || q <= p
  }

  lemma Tails(p: Path, q: Path)
    requires p != [] && q != [] && p[0] == q[0]
    ensures Comparable(p, q) <==> Comparable(p[1..], q[1..])
    ensures p <= q <==> p[1..] <= q[1..]
    ensures p == q <==> p[1..] == q[1..]
  {
    assert p == [p[0]] + p[1..] && q == [q[0]] + q[1..];
  }

  /** At and below the saved path, a read sees exactly the saved value. */
  lemma {:induction false} ReadBack(t: Entries, path: Path, v: Tree, rest: Path)
    requires path != []
    ensures Read(Update(t, path, v), path + rest) == Lookup(v, rest)
    decreases |path|
  {
    assert (path + rest)[1..] == path[1..] + rest;
    if |path| > 1 {
      ReadBack(Below(t, path[0]), path[1..], v, rest);
    } else {
      assert path[1..] + rest == rest;
    }
  }

  /** A read at a path not comparable to the saved one is unaffected. */
  lemma {:induction false} ReadElsewhere(t: Entries, path: Path, v: Tree, other: Path)
    requires path != [] && !Comparable(path, other)
    ensures Read(Update(t, path, v), other) == Read(t, other)
    decreases |path|
  {
    assert other != [];
    if other[0] == path[0] {
      Tails(path, other);
      if |path| > 1 {
        ReadElsewhere(Below(t, path[0]), path[1..], v, other[1..]);
        BelowReads(t, path[0], other[1..]);
      }
    }
  }

  lemma BelowReads(t: Entries, k: Key, rest: Path)
    requires rest != []
    ensures Read(Below(t, k), rest) == (if k in t then Lookup(t[k], rest) else None)
  {}

  /**
   Above the saved path, a read finds a dictionary, whatever was there before, and this
   dictionary differs from the old one, or from the empty one, by the rest of the save only.
   */
  lemma {:induction false} ReadAbove(t: Entries, above: Path, rest: Path, v: Tree)
    requires rest != []
    ensures Read(Update(t, above + rest, v), above) == Some(Branch(true, Update(DictAt(t, above), rest, v)))
    decreases |above|
  {
    var path := above + rest;
    if above == [] {
      assert path == rest;
    } else {
      assert path[1..] == above[1..] + rest;
      ReadAbove(Below(t, above[0]), above[1..], rest, v);
      DictBelow(t, above);
      Step(Update(t, path, v), above);
    }
  }

  lemma Step(t: Entries, path: Path)
    requires path != []
    ensures Read(t, path) == if path[0] in t then Lookup(t[path[0]], path[1..]) else None
  {}

  lemma DictBelow(t: Entries, path: Path)
    requires path != []
    ensures DictAt(Below(t, path[0]), path[1..]) == DictAt(t, path)
  {
    Step(t, path);
    if path[1..] != [] {
      BelowReads(t, path[0], path[1..]);
    } else if path[0] in t {
      assert Lookup(t[path[0]], path[1..]) == Some(t[path[0]]);
    }
  }

  /** The dictionary at a path, or an empty one where the path does not lead to a dictionary. */
  function DictAt(t: Entries, path: Path): Entries {
    var r := Read(t, path);
    if r.Some? && r.value.Branch? && r.value.isMap then r.value.entries else map[]
  }

  /** Saves at paths that are not comparable commute. */
  lemma {:induction false} UpdatesCommute(t: Entries, p: Path, v: Tree, q: Path, w: Tree)
    requires p != [] && q != [] && !Comparable(p, q)
    ensures Update(Update(t, p, v), q, w) == Update(Update(t, q, w), p, v)
    decreases |p|
  {
    if p[0] == q[0] {
      Tails(p, q);
      var sub := Below(t, p[0]);
      UpdatesCommute(sub, p[1..], v, q[1..], w);
      BelowUpdate(t, p, v);
      BelowUpdate(t, q, w);
      TwiceAt(t, p[0], Branch(true, Update(sub, p[1..], v)), Branch(true, Update(sub, q[1..], w)),
        Branch(true, Update(Update(sub, p[1..], v), q[1..], w)));
    } else {
      OtherKey(t, p, v, q, w);
      OtherKey(t, q, w, p, v);
      SwapAt(t, p[0], Update(t, p, v)[p[0]], q[0], Update(t, q, w)[q[0]]);
    }
  }

  lemma BelowUpdate(t: Entries, p: Path, v: Tree)
    requires |p| > 1
    ensures Below(Update(t, p, v), p[0]) == Update(Below(t, p[0]), p[1..], v)
  {}

  lemma OtherKey(t: Entries, p: Path, v: Tree, q: Path, w: Tree)
    requires p != [] && q != [] && p[0] != q[0]
    ensures Update(t, p, v) == t[p[0] := Update(t, p, v)[p[0]]]
    ensures Update(Update(t, p, v), q, w) == Update(t, p, v)[q[0] := Update(t, q, w)[q[0]]]
  {
    assert Below(Update(t, p, v), q[0]) == Below(t, q[0]);
  }

  lemma SwapAt(t: Entries, k: Key, v: Tree, l: Key, w: Tree)
    requires k != l
    ensures t[k := v][l := w] == t[l := w][k := v]
  {}

  lemma TwiceAt(t: Entries, k: Key, v: Tree, w: Tree, x: Tree)
    ensures t[k := v][k := x] == t[k := w][k := x]
  {}

  /** A save at a path wipes out an earlier save at the same path or below it. */
  lemma {:induction false} UpdateOverwrites(t: Entries, p: Path, v: Tree, q: Path, w: Tree)
    requires q != [] && q <= p
    ensures Update(Update(t, p, v), q, w) == Update(t, q, w)
    decreases |q|
  {
    if |q| > 1 {
      Tails(q, p);
      UpdateOverwrites(Below(t, q[0]), p[1..], v, q[1..], w);
    }
  }

  /**
   The update is the only tree with these reads: the value at the path, everything else not
   comparable unchanged, and a dictionary at every path above.
   */
  lemma {:induction false} UpdateIsDetermined(t: Entries, path: Path, v: Tree, r: Entries)
    requires path != []
    requires Read(r, path) == Some(v)
    requires forall other: Path :: !Comparable(path, other) ==> Read(r, other) == Read(t, other)
    ensures r == Update(t, path, v)
    decreases |path|
  {
    var u := Update(t, path, v);
    var k0 := path[0];
    assert k0 in r;
    forall k | k != k0 ensures (k in r <==> k in u) && (k in r ==> r[k] == u[k]) {
      assert Read(r, [k]) == Read(t, [k]);
      OneStep(r, k);
      OneStep(t, k);
    }
    if |path| > 1 {
      Step(r, path);
      var sub := Below(r, k0);
      assert r[k0] == Branch(true, sub);
      BelowReads(r, k0, path[1..]);
      forall other: Path | !Comparable(path[1..], other) ensures Read(sub, other) == Read(Below(t, k0), other) {
        assert ([k0] + other)[1..] == other;
        Tails(path, [k0] + other);
        assert Read(r, [k0] + other) == Read(t, [k0] + other);
        BelowReads(r, k0, other);
        BelowReads(t, k0, other);
      }
      UpdateIsDetermined(Below(t, k0), path[1..], v, sub);
    } else {
      assert Lookup(r[k0], path[1..]) == Some(r[k0]);
    }
    assert r.Keys == u.Keys by {
      forall k ensures k in r <==> k in u {
        if k != k0 {}
      }
    }
  }

  lemma OneStep(t: Entries, k: Key)
    ensures Read(t, [k]) == if k in t then Some(t[k]) else None
  {
    Step(t, [k]);
    assert [k][1..] == [];
  }

  /** What the loop of a save leaves behind: the update, or, for a refused value, only the dictionaries on the way. */
  function Place(t: Entries, path: Path, v: Option<Tree>): Entries
    requires path != []
    decreases |path|
  {
    if |path| == 1 then (if v.Some? then t[path[0] := v.value] else t)
    else t[path[0] := Branch(true, Place(Below(t, path[0]), path[1..], v))]
  }

  lemma {:induction false} PlaceIsUpdate(t: Entries, path: Path, v: Tree)
    requires path != []
    ensures Place(t, path, Some(v)) == Update(t, path, v)
    decreases |path|
  {
    if |path| > 1 {
      PlaceIsUpdate(Below(t, path[0]), path[1..], v);
    }
  }
}
