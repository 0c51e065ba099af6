/** Python's stable sort, as insertion from the right, and what makes its result independent of the input order. */
module StableSort {
  import opened Common

  /** Text order by code points. */
  predicate TextLeq(a: string, b: string) {
    a == "" || (b != "" && (a[0] < b[0] || (a[0] == b[0] && TextLeq(a[1..], b[1..]))))
  }

  /** a comes first if it is the beginning of b or is smaller where they first differ. */
  ghost predicate Before(a: string, b: string, k: nat) {
    && k <= |a| && k <= |b| && a[..k] == b[..k]
    && (k == |a| || (k < |b| && a[k] < b[k]))
  }

  lemma {:induction false} TextLeqIs(a: string, b: string)
    ensures TextLeq(a, b) <==> exists k: nat :: Before(a, b, k)
  {
    if a == "" {
      assert Before(a, b, 0);
    } else if b != "" && a[0] < b[0] {
      assert Before(a, b, 0);
    } else if b != "" && a[0] == b[0] {
      TextLeqIs(a[1..], b[1..]);
      if k: nat :| Before(a[1..], b[1..], k) {
        assert a[..k + 1] == [a[0]] + a[1..][..k] && b[..k + 1] == [b[0]] + b[1..][..k];
        assert Before(a, b, k + 1);
      }
      if k: nat :| Before(a, b, k) {
        assert k > 0;
        assert a[1..][..k - 1] == a[..k][1..] && b[1..][..k - 1] == b[..k][1..];
        assert Before(a[1..], b[1..], k - 1);
      }
    } else {
      forall k: nat ensures !Before(a, b, k) {
        HeadsDecide(a, b, k);
      }
    }
  }

  lemma HeadsDecide(a: string, b: string, k: nat)
    requires a != "" && (b == "" || a[0] > b[0])
    ensures !Before(a, b, k)
  {
    if 0 < k <= |a| && k <= |b| {
      assert a[..k][0] == a[0] && b[..k][0] == b[0];
    }
  }

  lemma {:induction false} TextTotal(a: string, b: string)
    ensures TextLeq(a, b) || TextLeq(b, a)
    ensures TextLeq(a, b) && TextLeq(b, a) ==> a == b
  {
    if a != "" && b != "" && a[0] == b[0] {
      TextTotal(a[1..], b[1..]);
      assert a == [a[0]] + a[1..] && b == [b[0]] + b[1..];
    }
  }

  lemma {:induction false} TextTransitive(a: string, b: string, c: string)
    requires TextLeq(a, b) && TextLeq(b, c)
    ensures TextLeq(a, c)
  {
    if a != "" && a[0] == b[0] && b[0] == c[0] {
      TextTransitive(a[1..], b[1..], c[1..]);
    }
  }

  ghost predicate TotalOrder<T(!new)>(leq: (T, T) -> bool) {
    && (forall x, y :: leq(x, y) || leq(y, x))
    && (forall x, y, z :: leq(x, y) && leq(y, z) ==> leq(x, z))
  }

  function Insert<T>(x: T, xs: seq<T>, leq: (T, T) -> bool): seq<T> {
    if xs == [] || leq(x, xs[0]) then [x] + xs
    else [xs[0]] + Insert(x, xs[1..], leq)
  }

  function Sort<T>(xs: seq<T>, leq: (T, T) -> bool): seq<T> {
    if xs == [] then [] else Insert(xs[0], Sort(xs[1..], leq), leq)
  }

  predicate Ordered<T>(xs: seq<T>, leq: (T, T) -> bool) {
    forall i, j :: 0 <= i < j < |xs| ==> leq(xs[i], xs[j])
  }

  lemma {:induction false} InsertOrdered<T(!new)>(x: T, xs: seq<T>, leq: (T, T) -> bool)
    requires TotalOrder(leq) && Ordered(xs, leq)
    ensures Ordered(Insert(x, xs, leq), leq)
  {
    if xs != [] && !leq(x, xs[0]) {
      InsertOrdered(x, xs[1..], leq);
      InsertKeeps(x, xs[1..], leq);
      var rest := Insert(x, xs[1..], leq);
      forall j | 0 <= j < |rest| ensures leq(xs[0], rest[j]) {
        assert rest[j] in multiset(rest);
        assert rest[j] == x || rest[j] in xs[1..];
      }
    }
  }

  lemma {:induction false} InsertKeeps<T>(x: T, xs: seq<T>, leq: (T, T) -> bool)
    ensures multiset(Insert(x, xs, leq)) == multiset{x} + multiset(xs)
  {
    if xs != [] && !leq(x, xs[0]) {
      InsertKeeps(x, xs[1..], leq);
      assert xs == [xs[0]] + xs[1..];
    }
  }

  lemma {:induction false} SortOrders<T(!new)>(xs: seq<T>, leq: (T, T) -> bool)
    requires TotalOrder(leq)
    ensures Ordered(Sort(xs, leq), leq) && multiset(Sort(xs, leq)) == multiset(xs)
  {
    if xs != [] {
      SortOrders(xs[1..], leq);
      InsertOrdered(xs[0], Sort(xs[1..], leq), leq);
      InsertKeeps(xs[0], Sort(xs[1..], leq), leq);
      assert xs == [xs[0]] + xs[1..];
    }
  }

  predicate Alike<T>(x: T, y: T, leq: (T, T) -> bool) {
    leq(x, y) && leq(y, x)
  }

  lemma {:induction false} InsertStable<T(!new)>(x: T, xs: seq<T>, k: T, leq: (T, T) -> bool)
    requires TotalOrder(leq) && Ordered(xs, leq)
    ensures Filter(Insert(x, xs, leq), (y: T) => Alike(y, k, leq)) == Filter([x] + xs, (y: T) => Alike(y, k, leq))
  {
    var like := (y: T) => Alike(y, k, leq);
    if xs != [] && !leq(x, xs[0]) {
      InsertStable(x, xs[1..], k, leq);
      assert ([x] + xs[1..])[1..] == xs[1..] && ([x] + xs)[1..] == xs;
      if like(x) {
        assert !like(xs[0]);
      }
    }
  }

  /** Elements with equal keys keep their order. */
  lemma {:induction false} SortIsStable<T(!new)>(xs: seq<T>, k: T, leq: (T, T) -> bool)
    requires TotalOrder(leq)
    ensures Filter(Sort(xs, leq), (y: T) => Alike(y, k, leq)) == Filter(xs, (y: T) => Alike(y, k, leq))
  {
    if xs != [] {
      var rest := Sort(xs[1..], leq);
      SortIsStable(xs[1..], k, leq);
      SortOrders(xs[1..], leq);
      InsertStable(xs[0], rest, k, leq);
      assert ([xs[0]] + rest)[1..] == rest;
    }
  }

  predicate Differ<T>(x: T, y: T, leq: (T, T) -> bool) {
    !(leq(x, y) && leq(y, x))
  }

  lemma {:induction false} InsertsCommute<T(!new)>(x: T, y: T, xs: seq<T>, leq: (T, T) -> bool)
    requires TotalOrder(leq) && Differ(x, y, leq)
    ensures Insert(x, Insert(y, xs, leq), leq) == Insert(y, Insert(x, xs, leq), leq)
  {
    if xs != [] && !leq(x, xs[0]) && !leq(y, xs[0]) {
      InsertsCommute(x, y, xs[1..], leq);
    }
  }

  lemma {:induction false} SortMoves<T(!new)>(a: seq<T>, x: T, b: seq<T>, leq: (T, T) -> bool)
    requires TotalOrder(leq) && forall y :: y in a ==> Differ(x, y, leq)
    ensures Sort(a + [x] + b, leq) == Sort([x] + a + b, leq)
  {
    if a == [] {
      assert a + [x] + b == [x] + a + b;
    } else {
      var y, rest := a[0], a[1..];
      assert a + [x] + b == [y] + (rest + [x] + b) && [x] + a + b == [x] + ([y] + (rest + b));
      SortMoves(rest, x, b, leq);
      assert [x] + rest + b == [x] + (rest + b);
      InsertsCommute(x, y, Sort(rest + b, leq), leq);
    }
  }

  /** Two blocks without equal keys between them may trade places. */
  lemma {:induction false} SortMovesBlock<T(!new)>(a: seq<T>, p: seq<T>, b: seq<T>, leq: (T, T) -> bool)
    requires TotalOrder(leq) && forall x, y :: x in p && y in a ==> Differ(x, y, leq)
    ensures Sort(a + p + b, leq) == Sort(p + (a + b), leq)
    decreases |p|
  {
    if p == [] {
      assert a + p + b == p + (a + b);
    } else {
      var x, rest := p[0], p[1..];
      assert x in p;
      assert a + p + b == a + [x] + (rest + b) && [x] + a + (rest + b) == [x] + (a + rest + b);
      SortMoves(a, x, rest + b, leq);
      SortMovesBlock(a, rest, b, leq);
      assert p + (a + b) == [x] + (rest + (a + b));
    }
  }

  lemma {:induction false} SortCongruent<T(!new)>(p: seq<T>, b: seq<T>, c: seq<T>, leq: (T, T) -> bool)
    requires Sort(b, leq) == Sort(c, leq)
    ensures Sort(p + b, leq) == Sort(p + c, leq)
  {
    if p == [] {
      assert p + b == b && p + c == c;
    } else {
      assert p + b == [p[0]] + (p[1..] + b) && p + c == [p[0]] + (p[1..] + c);
      SortCongruent(p[1..], b, c, leq);
    }
  }
}
