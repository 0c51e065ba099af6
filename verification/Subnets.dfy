/**
 Subnet defaults, subnet validation and the overlap check between projects, for IPv4
 (src/config_resolver.py:154-207, src/models/network.py:37-105, src/config_validator.py:41-61,
 src/config_loader.py:253-288).
 */
module Subnets {
  import opened Common
  import opened Blocks
  import opened Projects

  /** A cidr value: not a string, a string ipaddress rejects, or an address with a prefix length. */
  datatype Cidr = NoString | Unparsable | Net(addr: int, prefix: nat)

  /** A gateway value: no key, no string, a string that is no address, or an address. */
  datatype Gateway = NoKey | NotText | BadText | Ip(addr: int)

  /**
   One entry of a pool list. NoEnds lacks one of its two keys, OddEnds has both but not both as strings;
   Pool has two strings, None where such a string is no address.
   */
  datatype PoolData = NoMapping | NoEnds | OddEnds | Pool(start: Option<int>, end: Option<int>)

  /** NothingIn is an empty mapping or an empty string, NoList anything else that is no list. */
  datatype Pools = PoolsAbsent | NothingIn | NoList | PoolList(pools: seq<PoolData>)

  datatype SubnetData = SubnetData(cidr: Cidr, gateway: Gateway, pools: Pools)

  predicate Parsed(c: Cidr) {
    c.Net? && 0 <= c.addr < ADDRESSES && c.prefix <= 32
  }

  /** What the text of addresses can denote. */
  predicate Sensible(s: SubnetData) {
    && (s.cidr.Net? ==> Parsed(s.cidr))
    && (s.gateway.Ip? ==> 0 <= s.gateway.addr < ADDRESSES)
  }

  // ---------- Defaults ----------

  function Range(lo: int, hi: int): (r: seq<int>)
    ensures |r| == Max(0, hi - lo) && forall i :: 0 <= i < |r| ==> r[i] == lo + i
  {
    if lo >= hi then [] else seq(hi - lo, i => lo + i)
  }

  /** The usable hosts: without the first and last address, unless the block has two addresses or one. */
  function HostList(b: Block): seq<int>
    requires b.prefix <= 32
  {
    if b.prefix <= 30 then Range(b.base + 1, Last(b)) else Range(b.base, Last(b) + 1)
  }

  /** list.remove: without the first occurrence. */
  function Remove(xs: seq<int>, x: int): seq<int> {
    if xs == [] then []
    else if xs[0] == x then xs[1..]
    else [xs[0]] + Remove(xs[1..], x)
  }

  function GatewayOf(g: Gateway): Option<int> {
    if g.Ip? then Some(g.addr) else None
  }

  function WithoutGateway(hosts: seq<int>, gateway: Option<int>): seq<int> {
    if gateway.Some? && gateway.value in hosts then Remove(hosts, gateway.value) else hosts
  }

  function DefaultPools(b: Block, gateway: Option<int>): Pools
    requires b.prefix <= 32
  {
    var hosts := WithoutGateway(HostList(b), gateway);
    if hosts == [] then PoolsAbsent
    else PoolList([Pool(Some(hosts[0]), Some(hosts[|hosts| - 1]))])
  }

  /** The first default: one above the network address, an uncaught error past the last address of all. */
  predicate GatewayOverflows(s: SubnetData)
    requires Sensible(s)
  {
    s.cidr.Net? && s.gateway.NoKey? && Masked(s.cidr.addr, s.cidr.prefix).base + 1 >= ADDRESSES
  }

  function Populate(s: SubnetData): SubnetData
    requires Sensible(s) && !GatewayOverflows(s)
  {
    if !s.cidr.Net? then s
    else
      var b := Masked(s.cidr.addr, s.cidr.prefix);
      var gateway := if s.gateway.NoKey? then Ip(b.base + 1) else s.gateway;
      var pools := if s.pools.PoolsAbsent? then DefaultPools(b, GatewayOf(gateway)) else s.pools;
      SubnetData(s.cidr, gateway, pools)
  }

  /** The subnet part of a project's configuration, edited in place. */
  class SubnetDict {
    var data: SubnetData

    constructor (data: SubnetData)
      ensures this.data == data
    {
      this.data := data;
    }

    method ListHosts(b: Block) returns (hosts: seq<int>)
      requires b.prefix <= 32
      ensures hosts == HostList(b)
    {
      var lo, hi := b.base, Last(b) + 1;
      if b.prefix <= 30 {
        lo, hi := b.base + 1, Last(b);
      }
      hosts := [];
      var a := lo;
      while a < hi
        invariant hosts == Range(lo, a) && lo <= a <= Max(lo, hi)
      {
        hosts := hosts + [a];
        a := a + 1;
      }
      assert hosts == Range(lo, hi);
    }

    method AutoPopulate() returns (crashed: bool)
      requires Sensible(data)
      modifies this
      ensures crashed == old(GatewayOverflows(data))
      ensures data == if crashed then old(data) else Populate(old(data))
    {
      crashed := false;
      if !data.cidr.Net? {
        return;
      }
      var network := Masked(data.cidr.addr, data.cidr.prefix);
      if data.gateway.NoKey? {
        if network.base + 1 >= ADDRESSES {
          return true;
        }
        data := data.(gateway := Ip(network.base + 1));
      }
      if data.pools.PoolsAbsent? {
        var gateway := GatewayOf(data.gateway);
        var hosts := ListHosts(network);
        if hosts != [] {
          if gateway.Some? && gateway.value in hosts {
            hosts := Remove(hosts, gateway.value);
          }
          if hosts != [] {
            data := data.(pools := PoolList([Pool(Some(hosts[0]), Some(hosts[|hosts| - 1]))]));
          }
        }
      }
    }
  }

  lemma {:induction false} RemoveSkips(xs: seq<int>, x: int)
    requires forall i, j :: 0 <= i < j < |xs| ==> xs[i] < xs[j]
    requires x in xs
    ensures var r := Remove(xs, x);
      && |r| == |xs| - 1
      && (|r| > 0 ==> r[0] == (if xs[0] == x then xs[1] else xs[0]))
      && (|r| > 0 ==> r[|r| - 1] == (if xs[|xs| - 1] == x then xs[|xs| - 2] else xs[|xs| - 1]))
  {
    if xs[0] != x {
      assert x in xs[1..];
      RemoveSkips(xs[1..], x);
    }
  }

  /** The first and last usable address. */
  function FirstHost(b: Block): int {
    if b.prefix <= 30 then b.base + 1 else b.base
  }

  function LastHost(b: Block): int
    requires b.prefix <= 32
  {
    if b.prefix <= 30 then Last(b) - 1 else Last(b)
  }

  /** The pool without enumeration: the usable addresses, with the gateway cut off only where it is at an end. */
  function ClosedPool(b: Block, gateway: Option<int>): Pools
    requires b.prefix <= 32
  {
    var lo := if gateway == Some(FirstHost(b)) then FirstHost(b) + 1 else FirstHost(b);
    var hi := if gateway == Some(LastHost(b)) then LastHost(b) - 1 else LastHost(b);
    if lo > hi then PoolsAbsent else PoolList([Pool(Some(lo), Some(hi))])
  }

  lemma SmallSizes(p: nat)
    requires p <= 32
    ensures p == 32 ==> Size(p) == 1
    ensures p == 31 ==> Size(p) == 2
    ensures p <= 30 ==> Size(p) >= 4
  {
    if p <= 30 {
      SizesDivide(p, 30);
      assert Size(30) == 4 * Size(32);
    }
  }

  /** The enumeration of all hosts computes the closed form, for every block and every gateway. */
  lemma EnumerationIsClosedForm(b: Block, gateway: Option<int>)
    requires b.prefix <= 32
    ensures DefaultPools(b, gateway) == ClosedPool(b, gateway)
  {
    hide HostList, Remove, FirstHost, LastHost;
    HostsRange(b);
    var hosts := HostList(b);
    if gateway.Some? && gateway.value in hosts {
      RemoveSkips(hosts, gateway.value);
    } else if gateway.Some? {
      assert hosts[0] in hosts && hosts[|hosts| - 1] in hosts;
    }
  }

  lemma HostsRange(b: Block)
    requires b.prefix <= 32
    ensures var hosts := HostList(b);
      && |hosts| == LastHost(b) - FirstHost(b) + 1 && |hosts| > 0
      && hosts[0] == FirstHost(b) && hosts[|hosts| - 1] == LastHost(b)
      && (forall i, j :: 0 <= i < j < |hosts| ==> hosts[i] < hosts[j])
      && (|hosts| > 1 ==> hosts[1] == FirstHost(b) + 1 && hosts[|hosts| - 2] == LastHost(b) - 1)
  {
    SmallSizes(b.prefix);
    hide Size;
  }

  /**
   The gateway is the address after the network address, the pool runs over the usable addresses less a gateway
   at either end, and nothing that is given is touched.
   */
  predicate HasDefaults(s: SubnetData, base: int, t: SubnetData)
    requires Parsed(s.cidr)
  {
    var first := if s.cidr.prefix <= 30 then base + 1 else base;
    var last := base + Size(s.cidr.prefix) - if s.cidr.prefix <= 30 then 2 else 1;
    var lo := if t.gateway == Ip(first) then first + 1 else first;
    var hi := if t.gateway == Ip(last) then last - 1 else last;
    && t.cidr == s.cidr
    && t.gateway == (if s.gateway.NoKey? then Ip(base + 1) else s.gateway)
    && t.pools == (if !s.pools.PoolsAbsent? then s.pools
                   else if lo > hi then PoolsAbsent else PoolList([Pool(Some(lo), Some(hi))]))
  }

  /** What defaults come to, from the text of the block. */
  lemma DefaultsAre(s: SubnetData)
    requires Sensible(s) && !GatewayOverflows(s)
    ensures !s.cidr.Net? ==> Populate(s) == s
    ensures s.cidr.Net? ==> HasDefaults(s, s.cidr.addr - s.cidr.addr % Size(s.cidr.prefix), Populate(s))
  {
    hide Populate, DefaultPools, ClosedPool, Size, HasDefaults, Masked;
    PopulateIs(s);
    if s.cidr.Net? {
      PopulatedHasDefaults(s, Masked(s.cidr.addr, s.cidr.prefix), Populate(s));
    }
  }

  lemma PopulatedHasDefaults(s: SubnetData, b: Block, t: SubnetData)
    requires Parsed(s.cidr) && b.prefix == s.cidr.prefix
    requires var gateway := if s.gateway.NoKey? then Ip(b.base + 1) else s.gateway;
      t == SubnetData(s.cidr, gateway,
                      if s.pools.PoolsAbsent? then DefaultPools(b, GatewayOf(gateway)) else s.pools)
    ensures HasDefaults(s, b.base, t)
  {
    hide DefaultPools, ClosedPool, Size;
    EnumerationIsClosedForm(b, GatewayOf(t.gateway));
    ClosedPoolIs(b, t.gateway);
  }

  lemma PopulateIs(s: SubnetData)
    requires Sensible(s) && !GatewayOverflows(s)
    ensures !s.cidr.Net? ==> Populate(s) == s
    ensures s.cidr.Net? ==>
      var b := Masked(s.cidr.addr, s.cidr.prefix);
      var gateway := if s.gateway.NoKey? then Ip(b.base + 1) else s.gateway;
      && b.base == s.cidr.addr - s.cidr.addr % Size(s.cidr.prefix)
      && Populate(s) == SubnetData(s.cidr, gateway, if s.pools.PoolsAbsent? then DefaultPools(b, GatewayOf(gateway))
                                                    else s.pools)
  {
    hide DefaultPools, Size;
  }

  lemma ClosedPoolIs(b: Block, gateway: Gateway)
    requires b.prefix <= 32
    ensures var first := if b.prefix <= 30 then b.base + 1 else b.base;
      var last := b.base + Size(b.prefix) - if b.prefix <= 30 then 2 else 1;
      var lo := if gateway == Ip(first) then first + 1 else first;
      var hi := if gateway == Ip(last) then last - 1 else last;
      ClosedPool(b, GatewayOf(gateway)) == if lo > hi then PoolsAbsent else PoolList([Pool(Some(lo), Some(hi))])
  {
    hide Size;
  }

  // ---------- Validation ----------

  datatype Problem =
    | CidrMissing | CidrInvalid | GatewayOutside | GatewayInvalid
    | PoolNoMapping(index: nat) | PoolNoEnds(index: nat) | PoolStartInvalid(index: nat) | PoolEndInvalid(index: nat)
    | PoolStartOutside(index: nat) | PoolEndOutside(index: nat) | PoolInverted(index: nat)

  /** A subnet that was constructed; a gateway or pool end that is no address is kept as it is. */
  datatype Subnet = Subnet(cidr: Cidr, gateway: Gateway, pools: seq<PoolData>)

  /** Crashed stands for an error that is not reported but raised. */
  datatype Verdict = Verdict(subnet: Option<Subnet>, problems: seq<Problem>, crashed: bool)

  /** ip_network with strict: no host bits. */
  function StrictBlock(c: Cidr): (b: Option<Block>)
    ensures b.Some? ==> Aligned(b.value)
  {
    if Parsed(c) && c.addr % Size(c.prefix) == 0 then Some(Masked(c.addr, c.prefix)) else None
  }

  function GatewayProblems(g: Gateway, b: Block): seq<Problem>
    requires b.prefix <= 32
  {
    match g
    case BadText => [GatewayInvalid]
    case Ip(a) => if Holds(b, a) then [] else [GatewayOutside]
    case _ => []
  }

  function PoolProblems(p: PoolData, index: nat, b: Block): seq<Problem>
    requires b.prefix <= 32
  {
    match p
    case NoMapping => [PoolNoMapping(index)]
    case NoEnds => [PoolNoEnds(index)]
    case OddEnds => [PoolNoEnds(index)]
    case Pool(start, end) =>
      if start.None? then [PoolStartInvalid(index)]
      else if end.None? then [PoolEndInvalid(index)]
      else
        (if Holds(b, start.value) then [] else [PoolStartOutside(index)])
        + (if Holds(b, end.value) then [] else [PoolEndOutside(index)])
        + (if start.value > end.value then [PoolInverted(index)] else [])
  }

  function AllPoolProblems(ps: seq<PoolData>, n: nat, b: Block): seq<Problem>
    requires b.prefix <= 32 && n <= |ps|
  {
    if n == 0 then [] else AllPoolProblems(ps, n - 1, b) + PoolProblems(ps[n - 1], n - 1, b)
  }

  /** Construction iterates over the pools, whatever they are, and reads both ends of every one. */
  predicate Constructible(pools: Pools) {
    match pools
    case PoolsAbsent => true
    case NothingIn => true
    case NoList => false
    case PoolList(ps) => forall p :: p in ps ==> p.Pool? || p.OddEnds?
  }

  function Construct(s: SubnetData, problems: seq<Problem>): Verdict {
    if !Constructible(s.pools) then Verdict(None, problems, true)
    else Verdict(Some(Subnet(s.cidr, s.gateway, if s.pools.PoolList? then s.pools.pools else [])), problems, false)
  }

  function Validate(s: SubnetData): Verdict {
    if s.cidr.NoString? then Verdict(None, [CidrMissing], false)
    else
      var b := StrictBlock(s.cidr);
      if b.None? then Construct(s, [CidrInvalid])
      else
        var early := GatewayProblems(s.gateway, b.value);
        var late := if s.pools.PoolList? then AllPoolProblems(s.pools.pools, |s.pools.pools|, b.value) else [];
        if late != [] then Verdict(None, early + late, false) else Construct(s, early)
  }

  lemma NoPoolProblems(pools: Pools)
    ensures pools.PoolList? ==> forall b: Block :: b.prefix <= 32 ==> AllPoolProblems(pools.pools, 0, b) == []
  {}

  lemma PoolProblemsStep(ps: seq<PoolData>, n: nat, b: Block)
    requires b.prefix <= 32 && n < |ps|
    ensures AllPoolProblems(ps, n + 1, b) == AllPoolProblems(ps, n, b) + PoolProblems(ps[n], n, b)
  {}

  class ProblemList {
    var problems: seq<Problem>

    constructor ()
      ensures problems == []
    {
      problems := [];
    }

    /** Appends the problems of one subnet; the subnet is left out after a problem with a pool. */
    method ValidateSubnet(s: SubnetData) returns (subnet: Option<Subnet>, crashed: bool)
      modifies this
      ensures problems == old(problems) + Validate(s).problems
      ensures subnet == Validate(s).subnet && crashed == Validate(s).crashed
    {
      hide AllPoolProblems, Constructible, GatewayProblems, StrictBlock;
      NoPoolProblems(s.pools);
      crashed := false;
      if s.cidr.NoString? {
        problems := problems + [CidrMissing];
        return None, false;
      }
      var network := StrictBlock(s.cidr);
      if network.None? {
        problems := problems + [CidrInvalid];
      } else {
        problems := problems + GatewayProblems(s.gateway, network.value);
      }
      var before := |problems|;
      if s.pools.PoolList? && network.Some? {
        ghost var first := problems;
        for i := 0 to |s.pools.pools|
          invariant problems == first + AllPoolProblems(s.pools.pools, i, network.value)
        {
          PoolProblemsStep(s.pools.pools, i, network.value);
          problems := problems + PoolProblems(s.pools.pools[i], i, network.value);
        }
      }
      if |problems| > before {
        return None, false;
      }
      var v := Construct(s, []);
      return v.subnet, v.crashed;
    }
  }

  predicate Inside(p: PoolData, b: Block)
    requires b.prefix <= 32
  {
    && p.Pool? && p.start.Some? && p.end.Some?
    && Holds(b, p.start.value) && Holds(b, p.end.value) && p.start.value <= p.end.value
  }

  lemma {:induction false} PoolProblemsExact(ps: seq<PoolData>, n: nat, b: Block)
    requires b.prefix <= 32 && n <= |ps|
    ensures AllPoolProblems(ps, n, b) == [] <==> forall i :: 0 <= i < n ==> Inside(ps[i], b)
  {
    hide PoolProblems, Inside;
    if n > 0 {
      PoolProblemsExact(ps, n - 1, b);
      PoolIsInside(ps[n - 1], n - 1, b);
    }
  }

  lemma PoolIsInside(p: PoolData, index: nat, b: Block)
    requires b.prefix <= 32
    ensures PoolProblems(p, index, b) == [] <==> Inside(p, b)
  {
    hide Holds;
  }

  lemma {:induction false} PoolProblemFrom(ps: seq<PoolData>, n: nat, b: Block, e: Problem)
    requires b.prefix <= 32 && n <= |ps|
    ensures e in AllPoolProblems(ps, n, b) <==> exists i :: 0 <= i < n && e in PoolProblems(ps[i], i, b)
  {
    hide PoolProblems;
    if n > 0 {
      PoolProblemFrom(ps, n - 1, b, e);
    }
  }

  /** The end of a pool is an address, and lies outside the block or not. */
  predicate Strays(end: Option<int>, b: Block)
    requires b.prefix <= 32
  {
    end.Some? && !(b.base <= end.value < b.base + Size(b.prefix))
  }

  /** What each problem with a pool says, of a subnet whose block is a strict one. */
  predicate PoolFault(p: PoolData, i: nat, b: Block, e: Problem)
    requires b.prefix <= 32
  {
    match e
    case PoolNoMapping(j) => j == i && p.NoMapping?
    case PoolNoEnds(j) => j == i && (p.NoEnds? || p.OddEnds?)
    case PoolStartInvalid(j) => j == i && p.Pool? && p.start.None?
    case PoolEndInvalid(j) => j == i && p.Pool? && p.start.Some? && p.end.None?
    case PoolStartOutside(j) => j == i && p.Pool? && p.end.Some? && Strays(p.start, b)
    case PoolEndOutside(j) => j == i && p.Pool? && p.start.Some? && Strays(p.end, b)
    case PoolInverted(j) => j == i && p.Pool? && p.start.Some? && p.end.Some? && p.start.value > p.end.value
    case _ => false
  }

  lemma PoolFaults(p: PoolData, i: nat, b: Block, e: Problem)
    requires b.prefix <= 32
    ensures e in PoolProblems(p, i, b) <==> PoolFault(p, i, b, e)
  {
    hide Size;
  }

  /** What each problem says, with b the block if the text of the cidr denotes one without host bits. */
  ghost predicate IsProblem(s: SubnetData, b: Option<Block>, e: Problem)
    requires b.Some? ==> b.value.prefix <= 32
  {
    match e
    case CidrMissing => s.cidr == NoString
    case CidrInvalid => s.cidr != NoString && b == None
    case GatewayInvalid => b.Some? && s.gateway == BadText
    case GatewayOutside =>
      b.Some? && s.gateway.Ip? && !(b.value.base <= s.gateway.addr < b.value.base + Size(b.value.prefix))
    case _ => b.Some? && s.pools.PoolList? && SomeFault(s.pools.pools, b.value, e)
  }

  ghost predicate SomeFault(ps: seq<PoolData>, b: Block, e: Problem)
    requires b.prefix <= 32
  {
    exists i: nat :: i < |ps| && PoolFault(ps[i], i, b, e)
  }

  /** Exactly which problems are reported of a subnet. */
  lemma ProblemsAre(s: SubnetData, e: Problem)
    ensures e in Validate(s).problems <==> IsProblem(s, StrictBlock(s.cidr), e)
    ensures StrictBlock(s.cidr)
         == if Parsed(s.cidr) && s.cidr.addr % Size(s.cidr.prefix) == 0 then Some(Block(s.cidr.addr, s.cidr.prefix))
            else None
  {
    var b := StrictBlock(s.cidr);
    hide AllPoolProblems, SomeFault, Size, GatewayProblems, Construct, StrictBlock, Holds;
    ConstructKeeps(s);
    StrictBlockIs(s.cidr);
    if b.Some? {
      EarlyProblems(s.gateway, b.value, e);
      if s.pools.PoolList? {
        LateProblems(s.pools.pools, b.value, e);
      }
    }
  }

  lemma StrictBlockIs(c: Cidr)
    ensures StrictBlock(c)
         == if Parsed(c) && c.addr % Size(c.prefix) == 0 then Some(Block(c.addr, c.prefix)) else None
  {
    hide Size;
  }

  lemma LateProblems(ps: seq<PoolData>, b: Block, e: Problem)
    requires b.prefix <= 32
    ensures e in AllPoolProblems(ps, |ps|, b) <==> SomeFault(ps, b, e)
    ensures SomeFault(ps, b, e) ==> !(e.CidrMissing? || e.CidrInvalid? || e.GatewayInvalid? || e.GatewayOutside?)
  {
    hide AllPoolProblems, PoolFault, PoolProblems;
    PoolProblemFrom(ps, |ps|, b, e);
    forall i: nat | i < |ps| ensures e in PoolProblems(ps[i], i, b) <==> PoolFault(ps[i], i, b, e) {
      PoolFaults(ps[i], i, b, e);
    }
    GatewayFaults(e);
  }

  lemma EarlyProblems(g: Gateway, b: Block, e: Problem)
    requires b.prefix <= 32
    ensures e in GatewayProblems(g, b) <==>
      || (e == GatewayInvalid && g == BadText)
      || (e == GatewayOutside && g.Ip? && !(b.base <= g.addr < b.base + Size(b.prefix)))
  {
    hide Size;
  }

  lemma ConstructKeeps(s: SubnetData)
    ensures forall problems :: Construct(s, problems).problems == problems
  {}

  lemma GatewayFaults(e: Problem)
    ensures (e.CidrMissing? || e.CidrInvalid? || e.GatewayInvalid? || e.GatewayOutside?) ==>
      forall p, i: nat, b: Block :: b.prefix <= 32 ==> !PoolFault(p, i, b, e)
  {}

  /** A subnet passes without a problem exactly if its block has no host bits and its addresses lie in the block. */
  predicate Sound(s: SubnetData) {
    && StrictBlock(s.cidr).Some?
    && !s.gateway.BadText? && (s.gateway.Ip? ==> Holds(StrictBlock(s.cidr).value, s.gateway.addr))
    && (s.pools.PoolList? ==> forall p :: p in s.pools.pools ==> Inside(p, StrictBlock(s.cidr).value))
  }

  /**
   No problem is reported exactly for a sound subnet. An error is raised instead exactly if there is a block
   as text, and either the pools are no list and not empty, or the block is no strict one, so that the pools go
   unchecked, and some pool lacks an end.
   */
  lemma ValidationExact(s: SubnetData)
    ensures Validate(s).problems == [] <==> Sound(s)
    ensures Sound(s) && !s.pools.NoList? ==> Validate(s).subnet.Some? && !Validate(s).crashed
    ensures Validate(s).crashed
      <==> (&& !s.cidr.NoString?
            && (s.pools.NoList? || (StrictBlock(s.cidr).None? && !Constructible(s.pools))))
  {
    if StrictBlock(s.cidr).Some? && s.pools.PoolList? {
      PoolProblemsExact(s.pools.pools, |s.pools.pools|, StrictBlock(s.cidr).value);
    }
    hide Holds, StrictBlock, AllPoolProblems;
  }

  /**
   With only a block given, the defaults pass validation exactly if the block has no host bits and
   at least two addresses. For the very last address as a block of one, computing the defaults raises.
   */
  lemma DefaultsAreValid(c: Cidr)
    requires Parsed(c)
    ensures var s := SubnetData(c, NoKey, PoolsAbsent);
      && (GatewayOverflows(s) <==> c.prefix == 32 && c.addr == ADDRESSES - 1)
      && (!GatewayOverflows(s) ==>
            (Validate(Populate(s)).problems == [] <==> c.addr % Size(c.prefix) == 0 && c.prefix <= 31))
  {
    var s := SubnetData(c, NoKey, PoolsAbsent);
    var b := Masked(c.addr, c.prefix);
    SmallSizes(c.prefix);
    hide Size;
    if !GatewayOverflows(s) {
      EnumerationIsClosedForm(b, Some(b.base + 1));
      var t := Populate(s);
      ValidationExact(t);
      DefaultGateway(b);
      hide Validate, Masked, DefaultPools;
      assert StrictBlock(t.cidr) == if c.addr % Size(c.prefix) == 0 then Some(b) else None;
    }
  }

  /** A block of one address gets a gateway outside itself; for the last address there is none to give. */
  lemma SingleAddressExample()
    ensures Validate(Populate(SubnetData(Net(0, 32), NoKey, PoolsAbsent))).problems != []
    ensures GatewayOverflows(SubnetData(Net(ADDRESSES - 1, 32), NoKey, PoolsAbsent))
  {
    hide Validate, Populate, GatewayOverflows;
    DefaultsAreValid(Net(0, 32));
    DefaultsAreValid(Net(ADDRESSES - 1, 32));
  }

  /** The default pool lies in its block; the default gateway does unless the block is a single address. */
  lemma DefaultGateway(b: Block)
    requires Aligned(b)
    ensures Holds(b, b.base + 1) <==> b.prefix <= 31
    ensures var pools := ClosedPool(b, Some(b.base + 1));
      pools.PoolList? && |pools.pools| == 1 && Inside(pools.pools[0], b)
  {
    SmallSizes(b.prefix);
    hide Size;
  }

  /** With an explicit gateway, the default pools are never to blame. */
  lemma GivenGatewayDecides(c: Cidr, g: Gateway)
    requires Parsed(c) && !g.NoKey? && (g.Ip? ==> 0 <= g.addr < ADDRESSES)
    ensures Validate(Populate(SubnetData(c, g, PoolsAbsent))).problems == []
      <==> c.addr % Size(c.prefix) == 0 && !g.BadText? && (g.Ip? ==> Holds(Masked(c.addr, c.prefix), g.addr))
  {
    var b := Masked(c.addr, c.prefix);
    var t := Populate(SubnetData(c, g, PoolsAbsent));
    EnumerationIsClosedForm(b, GatewayOf(g));
    ClosedPoolInside(b, GatewayOf(g));
    ValidationExact(t);
    hide Validate, Masked, DefaultPools, Size;
    assert StrictBlock(t.cidr) == if c.addr % Size(c.prefix) == 0 then Some(b) else None;
  }

  lemma ClosedPoolInside(b: Block, gateway: Option<int>)
    requires b.prefix <= 32
    ensures var pools := ClosedPool(b, gateway);
      pools.PoolsAbsent? || (pools.PoolList? && |pools.pools| == 1 && Inside(pools.pools[0], b))
  {
    SmallSizes(b.prefix);
    hide Size;
  }

  // ---------- Overlaps between projects ----------

  datatype Project = Project(name: string, state: ProjectState, network: Option<Subnet>)

  datatype Named = Named(name: string, block: Block)

  datatype Clash = Clash(i: nat, j: nat)

  function Networks(ps: seq<Project>): (r: seq<Named>)
    ensures forall n :: n in r ==> n.block.prefix <= 32
  {
    if ps == [] then []
    else
      var p := ps[|ps| - 1];
      var before := Networks(ps[..|ps| - 1]);
      if p.state == Absent || p.network.None? || StrictBlock(p.network.value.cidr).None? then before
      else before + [Named(p.name, StrictBlock(p.network.value.cidr).value)]
  }

  type Nets = ns: seq<Named> | forall n :: n in ns ==> n.block.prefix <= 32

  /** The clashes of network i with networks i + 1 up to below j. */
  function ClashesWith(ns: Nets, i: nat, j: nat): seq<Clash>
    requires i < j <= |ns|
  {
    if j == i + 1 then []
    else ClashesWith(ns, i, j - 1) + if Overlaps(ns[i].block, ns[j - 1].block) then [Clash(i, j - 1)] else []
  }

  function ClashesBefore(ns: Nets, i: nat): seq<Clash>
    requires i <= |ns|
  {
    if i == 0 then [] else ClashesBefore(ns, i - 1) + ClashesWith(ns, i - 1, |ns|)
  }

  method CollectNetworks(ps: seq<Project>) returns (networks: seq<Named>)
    ensures networks == Networks(ps)
  {
    hide StrictBlock;
    networks := [];
    for k := 0 to |ps|
      invariant networks == Networks(ps[..k])
    {
      assert ps[..k + 1][..k] == ps[..k];
      var p := ps[k];
      if p.state != Absent && p.network.Some? {
        var block := StrictBlock(p.network.value.cidr);
        if block.Some? {
          networks := networks + [Named(p.name, block.value)];
        }
      }
    }
    assert ps[..|ps|] == ps;
  }

  method ReportRow(ns: Nets, i: nat, errors: seq<Clash>) returns (all: seq<Clash>)
    requires i < |ns|
    ensures all == errors + ClashesWith(ns, i, |ns|)
  {
    hide Overlaps;
    all := errors;
    for j := i + 1 to |ns|
      invariant all == errors + ClashesWith(ns, i, j)
    {
      assert ns[i] in ns && ns[j] in ns;
      if Overlaps(ns[i].block, ns[j].block) {
        all := all + [Clash(i, j)];
      }
    }
  }

  method ReportClashes(ns: Nets, errors: seq<Clash>) returns (all: seq<Clash>)
    ensures all == errors + ClashesBefore(ns, |ns|)
  {
    hide ClashesWith;
    all := errors;
    for i := 0 to |ns|
      invariant all == errors + ClashesBefore(ns, i)
    {
      all := ReportRow(ns, i, all);
    }
  }

  method CheckCidrOverlaps(ps: seq<Project>, errors: seq<Clash>) returns (all: seq<Clash>)
    ensures all == errors + ClashesBefore(Networks(ps), |Networks(ps)|)
  {
    var networks := CollectNetworks(ps);
    all := ReportClashes(networks, errors);
  }

  predicate Clashing(ns: Nets, a: nat, b: nat) {
    a < b < |ns| && Overlaps(ns[a].block, ns[b].block)
  }

  lemma {:induction false} RowExact(ns: Nets, i: nat, j: nat, a: nat, b: nat)
    requires i < j <= |ns|
    ensures Clash(a, b) in ClashesWith(ns, i, j) <==> a == i && b < j && Clashing(ns, a, b)
  {
    if j > i + 1 {
      hide Overlaps;
      RowExact(ns, i, j - 1, a, b);
    }
  }

  lemma ClashBounds(ns: Nets, a: nat, b: nat)
    ensures Clashing(ns, a, b) ==> a < b < |ns|
  {}

  /** The double loop reports exactly the pairs of networks that overlap. */
  lemma {:induction false} ClashesExact(ns: Nets, i: nat, a: nat, b: nat)
    requires i <= |ns|
    ensures Clash(a, b) in ClashesBefore(ns, i) <==> a < i && Clashing(ns, a, b)
  {
    hide Overlaps, ClashesWith, Clashing;
    if i > 0 {
      ClashesExact(ns, i - 1, a, b);
      RowExact(ns, i - 1, |ns|, a, b);
      ClashBounds(ns, a, b);
    }
  }

  // ---------- Accepted configurations ----------

  /** A project's configuration as it is handed to the pipeline. */
  datatype RawProject = RawProject(name: string, state: ProjectState, subnet: Option<SubnetData>)

  predicate AllSensible(raw: seq<RawProject>) {
    forall r :: r in raw ==> r.subnet.Some? ==> Sensible(r.subnet.value)
  }

  /** The subnet that is validated: with defaults, unless the project is to be absent. */
  function Resolved(r: RawProject): Option<SubnetData>
    requires r.subnet.Some? ==> Sensible(r.subnet.value)
  {
    if r.subnet.None? then None
    else if r.state == Absent || GatewayOverflows(r.subnet.value) then r.subnet
    else Some(Populate(r.subnet.value))
  }

  datatype Built = Built(projects: seq<Project>, problems: seq<Problem>, clashes: seq<Clash>, crashed: bool)

  /** The subnet's defaults can be computed, and with them it is sound and its pools are a list, empty or absent. */
  predicate Acceptable(r: RawProject)
    requires r.subnet.Some? ==> Sensible(r.subnet.value)
  {
    r.subnet.Some? ==>
      && (r.state == Absent || !GatewayOverflows(r.subnet.value))
      && Sound(Resolved(r).value) && !Resolved(r).value.pools.NoList?
  }

  /** The address lies in the block that the text of a cidr denotes. */
  predicate InBlock(c: Cidr, a: int) {
    Parsed(c) && var base := c.addr - c.addr % Size(c.prefix);
      base <= a < base + Size(c.prefix)
  }

  /** No address lies in the blocks of two projects that are not absent. */
  ghost predicate Apart(raw: seq<RawProject>) {
    forall k, l, a :: 0 <= k < l < |raw| ==> !(Occupies(raw[k], a) && Occupies(raw[l], a))
  }

  predicate Occupies(r: RawProject, a: int) {
    r.state != Absent && r.subnet.Some? && InBlock(r.subnet.value.cidr, a)
  }

  /** Defaults, validation and construction of each project, then the overlap check where it is asked for. */
  method BuildProjects(raw: seq<RawProject>, enforceUnique: bool) returns (b: Built)
    requires AllSensible(raw)
    ensures !b.crashed && b.problems == [] <==> forall r :: r in raw ==> Acceptable(r)
    ensures Accepted(b) <==> (forall r :: r in raw ==> Acceptable(r)) && (enforceUnique ==> Apart(raw))
    ensures Accepted(b) ==> |b.projects| == |raw|
    ensures Accepted(b) ==> forall k :: 0 <= k < |raw| ==> Matches(raw[k], b.projects[k])
    ensures Accepted(b) && enforceUnique ==> ClashesBefore(Networks(b.projects), |Networks(b.projects)|) == []
  {
    hide Sound, SoundSubnet, Validate, Populate, GatewayOverflows, Sensible, Typed, Apart;
    var list := new ProblemList();
    var projects: seq<Project> := [];
    for k := 0 to |raw|
      invariant |projects| == k
      invariant list.problems == [] <==> forall i :: 0 <= i < k ==> Acceptable(raw[i])
      invariant list.problems == [] ==> forall i :: 0 <= i < k ==> Matches(raw[i], projects[i])
    {
      var r := raw[k];
      assert r in raw;
      var network: Option<Subnet> := None;
      if r.subnet.Some? {
        var dict := new SubnetDict(r.subnet.value);
        if r.state != Absent {
          var overflow := dict.AutoPopulate();
          if overflow {
            return Built([], [], [], true);
          }
        }
        assert Some(dict.data) == Resolved(r);
        ValidSubnet(dict.data);
        var crashed;
        network, crashed := list.ValidateSubnet(dict.data);
        if crashed {
          return Built([], list.problems, [], true);
        }
      }
      projects := projects + [Project(r.name, r.state, network)];
    }
    var clashes := [];
    if enforceUnique {
      clashes := CheckCidrOverlaps(projects, []);
      if list.problems == [] {
        ClashFreeIsApart(raw, projects);
      }
    }
    b := Built(if list.problems == [] && clashes == [] then projects else [], list.problems, clashes, false);
  }

  /** The subnet that a configuration without problems is turned into. */
  function Typed(s: SubnetData): Subnet {
    Subnet(s.cidr, s.gateway, if s.pools.PoolList? then s.pools.pools else [])
  }

  lemma ValidSubnet(s: SubnetData)
    ensures var v := Validate(s);
      && (v.problems == [] && !v.crashed <==> Sound(s) && !s.pools.NoList?)
      && (v.problems == [] && !v.crashed ==> v.subnet == Some(Typed(s)) && SoundSubnet(Typed(s)))
  {
    ValidationExact(s);
    hide Holds, StrictBlock, AllPoolProblems;
  }

  predicate Accepted(b: Built) {
    !b.crashed && b.problems == [] && b.clashes == []
  }

  /** An accepted project has the resolved subnet, and this subnet is sound. */
  predicate Matches(r: RawProject, p: Project)
    requires r.subnet.Some? ==> Sensible(r.subnet.value)
  {
    && p.name == r.name && p.state == r.state
    && (r.subnet.None? ==> p.network.None?)
    && (r.subnet.Some? ==> p.network == Some(Typed(Resolved(r).value)) && SoundSubnet(p.network.value))
  }

  predicate SoundSubnet(s: Subnet) {
    Sound(SubnetData(s.cidr, s.gateway, PoolList(s.pools)))
  }

  /** The addresses a project claims: its gateway and everything in its pools. */
  predicate Claims(s: Subnet, a: int) {
    || s.gateway == Ip(a)
    || exists i :: 0 <= i < |s.pools| && InPool(s.pools[i], a)
  }

  predicate InPool(p: PoolData, a: int) {
    p.Pool? && p.start.Some? && p.end.Some? && p.start.value <= a <= p.end.value
  }

  lemma ClaimsAreInBlock(s: Subnet, a: int)
    requires SoundSubnet(s) && Claims(s, a)
    ensures StrictBlock(s.cidr).Some? && Holds(StrictBlock(s.cidr).value, a)
  {
    hide StrictBlock;
    if s.gateway != Ip(a) {
      var i :| 0 <= i < |s.pools| && InPool(s.pools[i], a);
      assert s.pools[i] in s.pools;
    }
  }

  /** The network of the project at position k, in the list the overlap check makes. */
  lemma {:induction false} NetworkOf(ps: seq<Project>, k: nat) returns (n: nat)
    requires k < |ps| && ps[k].state != Absent && ps[k].network.Some? && StrictBlock(ps[k].network.value.cidr).Some?
    ensures n < |Networks(ps)| && Networks(ps)[n].block == StrictBlock(ps[k].network.value.cidr).value
    ensures n == |Networks(ps[..k])|
    decreases |ps|
  {
    hide StrictBlock;
    var last := |ps| - 1;
    if k == last {
      n := |Networks(ps[..last])|;
    } else {
      n := NetworkOf(ps[..last], k);
      assert ps[..last][..k] == ps[..k];
    }
  }

  lemma {:induction false} NetworksGrow(ps: seq<Project>, k: nat, l: nat)
    requires k <= l <= |ps|
    ensures |Networks(ps[..k])| <= |Networks(ps[..l])|
    decreases l
  {
    if k < l {
      hide StrictBlock;
      assert ps[..l][..l - 1] == ps[..l - 1];
      NetworksGrow(ps, k, l - 1);
    }
  }

  /** The block that the overlap check sees of a project is the one its configuration gives. */
  lemma OccupiesItsBlock(r: RawProject, p: Project, a: int)
    requires r.subnet.Some? ==> Sensible(r.subnet.value)
    requires Matches(r, p)
    ensures Occupies(r, a) ==> p.state != Absent && p.network.Some?
    ensures p.network.Some? ==> StrictBlock(p.network.value.cidr).Some?
    ensures p.state != Absent && p.network.Some? ==>
      (Occupies(r, a) <==> Holds(StrictBlock(p.network.value.cidr).value, a))
  {}

  /** The project that a network in the list of the overlap check comes from. */
  lemma {:induction false} NetworkFrom(ps: seq<Project>, n: nat) returns (k: nat)
    requires n < |Networks(ps)|
    ensures k < |ps| && ps[k].state != Absent && ps[k].network.Some? && StrictBlock(ps[k].network.value.cidr).Some?
    ensures Networks(ps)[n] == Named(ps[k].name, StrictBlock(ps[k].network.value.cidr).value)
    ensures n == |Networks(ps[..k])|
    decreases |ps|
  {
    hide StrictBlock;
    var last := |ps| - 1;
    if n < |Networks(ps[..last])| {
      k := NetworkFrom(ps[..last], n);
      assert ps[..last][..k] == ps[..k];
    } else {
      k := last;
    }
  }

  /** The overlap check finds nothing exactly if no two blocks share an address. */
  lemma ClashFreeIsApart(raw: seq<RawProject>, ps: seq<Project>)
    requires AllSensible(raw) && |raw| == |ps| && forall k :: 0 <= k < |raw| ==> Matches(raw[k], ps[k])
    ensures ClashesBefore(Networks(ps), |Networks(ps)|) == [] <==> Apart(raw)
  {
    hide Matches, Occupies, StrictBlock, Sensible;
    var ns: Nets := Networks(ps);
    if ClashesBefore(ns, |ns|) == [] {
      forall k, l, a | 0 <= k < l < |raw| ensures !(Occupies(raw[k], a) && Occupies(raw[l], a)) {
        ClashFreeApart(raw, ps, k, l, a);
      }
    } else {
      ClashIsShared(raw, ps);
    }
  }

  lemma ClashFreeApart(raw: seq<RawProject>, ps: seq<Project>, k: nat, l: nat, a: int)
    requires AllSensible(raw) && |raw| == |ps| && forall k :: 0 <= k < |raw| ==> Matches(raw[k], ps[k])
    requires k < l < |raw| && ClashesBefore(Networks(ps), |Networks(ps)|) == []
    ensures !(Occupies(raw[k], a) && Occupies(raw[l], a))
  {
    hide Matches, Occupies, StrictBlock, Sensible;
    assert raw[k] in raw && raw[l] in raw;
    OccupiesItsBlock(raw[k], ps[k], a);
    OccupiesItsBlock(raw[l], ps[l], a);
    if Occupies(raw[k], a) && Occupies(raw[l], a) {
      var m := NetworkOf(ps, k);
      var n := NetworkOf(ps, l);
      NetworkBefore(ps, k, l);
      var ns: Nets := Networks(ps);
      assert ns[m] in ns && ns[n] in ns;
      OverlapMeansShared(ns[m].block, ns[n].block);
      ClashesExact(ns, |ns|, m, n);
      assert false;
    }
  }

  lemma {:induction false} EveryClashExact(ns: Nets, i: nat, c: Clash)
    requires i <= |ns| && c in ClashesBefore(ns, i)
    ensures Clashing(ns, c.i, c.j)
  {
    ClashesExact(ns, i, c.i, c.j);
    assert c == Clash(c.i, c.j);
  }

  lemma ClashIsShared(raw: seq<RawProject>, ps: seq<Project>)
    requires AllSensible(raw) && |raw| == |ps| && forall k :: 0 <= k < |raw| ==> Matches(raw[k], ps[k])
    requires ClashesBefore(Networks(ps), |Networks(ps)|) != []
    ensures !Apart(raw)
  {
    hide Matches, Occupies, StrictBlock, Sensible, Networks;
    var ns: Nets := Networks(ps);
    var c := ClashesBefore(ns, |ns|)[0];
    EveryClashExact(ns, |ns|, c);
    assert ns[c.i] in ns && ns[c.j] in ns;
    var k := NetworkFrom(ps, c.i);
    var l := NetworkFrom(ps, c.j);
    if l <= k {
      NetworksGrow(ps, l, k);
      assert false;
    }
    OverlapMeansShared(ns[c.i].block, ns[c.j].block);
    var a :| Holds(ns[c.i].block, a) && Holds(ns[c.j].block, a);
    assert raw[k] in raw && raw[l] in raw;
    OccupiesItsBlock(raw[k], ps[k], a);
    OccupiesItsBlock(raw[l], ps[l], a);
  }

  /**
   In a configuration without clashes, the gateways and pools of two different projects that are not
   absent share no address.
   */
  lemma AcceptedSubnetsAreDisjoint(ps: seq<Project>, k: nat, l: nat, a: int)
    requires k < l < |ps| && ClashesBefore(Networks(ps), |Networks(ps)|) == []
    requires ps[k].state != Absent && ps[k].network.Some? && SoundSubnet(ps[k].network.value)
    requires ps[l].state != Absent && ps[l].network.Some? && SoundSubnet(ps[l].network.value)
    ensures !(Claims(ps[k].network.value, a) && Claims(ps[l].network.value, a))
  {
    if Claims(ps[k].network.value, a) && Claims(ps[l].network.value, a) {
      ClaimsAreInBlock(ps[k].network.value, a);
      ClaimsAreInBlock(ps[l].network.value, a);
      var m := NetworkOf(ps, k);
      var n := NetworkOf(ps, l);
      NetworkBefore(ps, k, l);
      var ns: Nets := Networks(ps);
      assert ns[m] in ns && ns[n] in ns;
      OverlapMeansShared(ns[m].block, ns[n].block);
      ClashesExact(ns, |ns|, m, n);
      assert false;
    }
  }

  lemma NetworkBefore(ps: seq<Project>, k: nat, l: nat)
    requires k < l < |ps| && ps[k].state != Absent && ps[k].network.Some? && StrictBlock(ps[k].network.value.cidr).Some?
    ensures |Networks(ps[..k])| < |Networks(ps[..l])|
  {
    hide StrictBlock;
    assert ps[..k + 1][..k] == ps[..k];
    NetworksGrow(ps, k + 1, l);
  }
}
