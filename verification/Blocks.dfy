/** IPv4 blocks as Python's ipaddress module treats them: addresses are the integers below 2**32. */
module Blocks {
  import opened Common

  const ADDRESSES: int := 0x1_0000_0000

  /** The number of addresses in a block with a prefix of p bits. */
  function Size(p: nat): (n: nat)
    requires p <= 32
    ensures n > 0
    decreases 32 - p
  {
    if p == 32 then 1 else 2 * Size(p + 1)
  }

  datatype Block = Block(base: int, prefix: nat)

  /** No host bits are set. */
  predicate Aligned(b: Block) {
    b.prefix <= 32 && 0 <= b.base && b.base % Size(b.prefix) == 0 && b.base + Size(b.prefix) <= ADDRESSES
  }

  predicate Holds(b: Block, a: int)
    requires b.prefix <= 32
  {
    b.base <= a < b.base + Size(b.prefix)
  }

  function Last(b: Block): int
    requires b.prefix <= 32
  {
    b.base + Size(b.prefix) - 1
  }

  /** The test of overlaps(): one block holds the first or last address of the other. */
  predicate Overlaps(a: Block, b: Block)
    requires a.prefix <= 32 && b.prefix <= 32
  {
    Holds(a, b.base) || Holds(a, Last(b)) || Holds(b, a.base) || Holds(b, Last(a))
  }

  /** The block an address lies in when its host bits are dropped. */
  function Masked(addr: int, prefix: nat): (b: Block)
    requires 0 <= addr < ADDRESSES && prefix <= 32
    ensures Aligned(b) && Holds(b, addr) && b.prefix == prefix
    ensures b.base == addr <==> addr % Size(prefix) == 0
  {
    var k := Size(prefix);
    AllAddresses(prefix);
    RoundDown(addr, k);
    MultipleGap(addr - addr % k, ADDRESSES, k);
    Block(addr - addr % k, prefix)
  }

  lemma RoundDown(n: int, k: int)
    requires k > 0 && n >= 0
    ensures 0 <= n - n % k <= n < n - n % k + k && (n - n % k) % k == 0
  {
    assert n == k * (n / k) + n % k;
    Exact(n / k, k);
  }

  lemma Exact(m: int, k: int)
    requires k > 0
    ensures (k * m) % k == 0
  {
    Quotient(k * m, k, m, 0);
  }

  /** Different multiples of k lie at least k apart. */
  lemma MultipleGap(x: int, y: int, k: int)
    requires k > 0 && x % k == 0 && y % k == 0 && x < y
    ensures x + k <= y
  {
    assert x == k * (x / k) && y == k * (y / k);
    assert y - x == k * (y / k - x / k);
    AtLeastOnce(y / k - x / k, k);
    Signs(y / k - x / k, k);
  }

  lemma Signs(d: int, k: int)
    requires k > 0
    ensures d <= 0 ==> k * d <= 0
  {}

  /** Larger blocks are multiples of smaller ones. */
  lemma {:induction false} SizesDivide(p: nat, q: nat)
    requires p <= q <= 32
    ensures Size(p) % Size(q) == 0 && Size(q) <= Size(p)
    decreases q - p
  {
    if p == q {
      Exact(1, Size(p));
    } else {
      SizesDivide(p + 1, q);
      SumMultiple(Size(p + 1), Size(p + 1), Size(q));
    }
  }

  lemma SumMultiple(x: int, y: int, k: int)
    requires k > 0 && x % k == 0 && y % k == 0
    ensures (x + y) % k == 0
  {
    assert x == k * (x / k) && y == k * (y / k);
    assert x + y == k * (x / k + y / k);
    Exact(x / k + y / k, k);
  }

  lemma MultipleOfMultiple(n: int, m: int, k: int)
    requires k > 0 && m > 0 && n % m == 0 && m % k == 0
    ensures n % k == 0
  {
    assert n == m * (n / m) && m == k * (m / k);
    assert n == k * ((m / k) * (n / m));
    Exact((m / k) * (n / m), k);
  }

  lemma AllAddresses(p: nat)
    requires p <= 32
    ensures ADDRESSES % Size(p) == 0
  {
    SizesDivide(0, p);
    WholeSpace();
  }

  lemma WholeSpace()
    ensures Size(0) == ADDRESSES
  {
    assert Size(28) == 16 && Size(24) == 256 * Size(32);
    assert Size(20) == 16 * Size(24) && Size(16) == 16 * Size(20) && Size(12) == 16 * Size(16);
    assert Size(8) == 16 * Size(12) && Size(4) == 16 * Size(8) && Size(0) == 16 * Size(4);
  }

  /** Overlap means a common address. */
  lemma OverlapMeansShared(a: Block, b: Block)
    requires a.prefix <= 32 && b.prefix <= 32
    ensures Overlaps(a, b) <==> exists x :: Holds(a, x) && Holds(b, x)
  {
    if Overlaps(a, b) {
      assert Holds(a, a.base) && Holds(a, Last(a)) && Holds(b, b.base) && Holds(b, Last(b));
    }
  }

  /** Blocks without host bits are nested or disjoint. */
  lemma NestedOrDisjoint(a: Block, b: Block)
    requires Aligned(a) && Aligned(b) && a.prefix <= b.prefix
    ensures (forall x :: Holds(b, x) ==> Holds(a, x)) || !Overlaps(a, b)
  {
    hide Size;
    var m, k := Size(a.prefix), Size(b.prefix);
    SizesDivide(a.prefix, b.prefix);
    MultipleOfMultiple(a.base, m, k);
    SumMultiple(a.base, m, k);
    if b.base < a.base {
      MultipleGap(b.base, a.base, k);
    } else if b.base < a.base + m {
      MultipleGap(b.base, a.base + m, k);
    }
  }
}
