/** How far the promises of src/resources/prealloc/fip.py go: what reclaiming brings back, and what room is left. */
module FloatingIpLimits {
  import opened Common
  import opened FloatingIps
  import opened FloatingIpProofs
  import opened FloatingIpTheorems

  // ------------------------------------------------------------------ one reclaim, under any script

  /** The fault of the first attempt that is not Busy; Busy if all of them are. */
  function FirstReply(script: Script, pos: nat, left: nat): Fault
    decreases left
  {
    if left == 0 then Busy
    else if script(pos).fault == Busy then FirstReply(script, pos + 1, left - 1)
    else script(pos).fault
  }

  predicate Possible(w: World, address: Address) {
    |w.fips| < w.quota && InPool(w, address)
  }

  /** v has one more floating IP than w, a new one with this address. */
  predicate Gained(w: World, v: World, ext: NetId, address: Address) {
    && |v.fips| == |w.fips| + 1 && v.fips == w.fips + [v.fips[|w.fips|]]
    && Fresh(v.fips[|w.fips|], w.nextId, ext) && v.fips[|w.fips|].address == address
  }

  /**
   A reclaim that gets an answer has allocated exactly if that was possible; and then the answer is a
   conflict exactly if the first reply was lost, because the repetition finds the address held.
   */
  lemma {:induction false} ReclaimEffect(w: World, ext: NetId, address: Address, script: Script, left: nat)
    ensures var p := ReclaimAttempts(w, ext, address, script, left);
      && w.nextId <= p.world.nextId
      && (p.world.fips == w.fips || (Possible(w, address) && Gained(w, p.world, ext, address)))
      && (p.Going? && Possible(w, address) ==>
            Gained(w, p.world, ext, address) && (p.value.Refused? <==> FirstReply(script, w.pos, left) == Echo))
      && (p.Going? && p.value.Accepted? ==> |p.world.fips| > |w.fips| && p.value.fip == p.world.fips[|w.fips|])
    decreases left
  {
    hide InPool;
    if left > 0 {
      var w0 := Tick(w);
      var v := ReclaimOnce(w0, ext, address).0;
      SamePool(w, w0, address);
      if script(w.pos).fault == Busy {
        ReclaimEffect(w0, ext, address, script, left - 1);
      } else if script(w.pos).fault == Echo {
        ReclaimEffect(v, ext, address, script, left - 1);
        if Possible(w, address) {
          HeldAfter(w0, ext, address);
        } else {
          SamePool(w, v, address);
        }
      }
    }
  }

  lemma SamePool(w: World, v: World, address: Address)
    requires v.fips == w.fips && v.elsewhere == w.elsewhere
    ensures InPool(v, address) == InPool(w, address)
  {}

  lemma HeldAfter(w: World, ext: NetId, address: Address)
    ensures !InPool(Allocate(w, ext, address), address)
  {
    var v := Allocate(w, ext, address);
    assert v.fips[|w.fips|] in v.fips;
  }

  // ------------------------------------------------------------------ the reclaim loop, under any script

  /** The missing addresses that nobody holds. */
  function Free(w: World, missing: seq<FipEntry>): set<Address> {
    set e | e in missing && InPool(w, e.address) :: e.address
  }

  /** A free address is allocated, the reply is lost, and there was room for it. */
  predicate LostReclaim(w: World, address: Address, script: Script) {
    Possible(w, address) && FirstReply(script, w.pos, MAX_ATTEMPTS) == Echo
  }

  /** The addresses to which that happens in the reclaim loop. */
  function LostReclaims(w: World, missing: seq<FipEntry>, ext: NetId, script: Script): set<Address>
    decreases |missing|
  {
    if missing == [] then {}
    else
      var lost := if LostReclaim(w, missing[0].address, script) then {missing[0].address} else {};
      match ReclaimStep(w, missing[0], ext, Recovery([], []), script)
      case Halted(_) => lost
      case Going(w1, _) => lost + LostReclaims(w1, missing[1..], ext, script)
  }

  lemma StepGains(w: World, e: FipEntry, ext: NetId, acc: Recovery, script: Script)
    ensures var p := ReclaimStep(w, e, ext, acc, script);
      && p.world == ReclaimStep(w, e, ext, Recovery([], []), script).world
      && p.Going? == ReclaimStep(w, e, ext, Recovery([], []), script).Going?
      && p.world.elsewhere == w.elsewhere && p.world.quota == w.quota && w.nextId <= p.world.nextId
      && (p.world.fips == w.fips || (Possible(w, e.address) && Gained(w, p.world, ext, e.address)))
      && (p.Going? ==>
            && (Possible(w, e.address) <==> Gained(w, p.world, ext, e.address))
            && (if Possible(w, e.address) && !LostReclaim(w, e.address, script)
                then p.value.reclaimed == acc.reclaimed + [EntryOf(p.world.fips[|w.fips|])]
                else p.value.reclaimed == acc.reclaimed))
  {
    hide ReclaimAttempts, InPool;
    ReclaimEffect(w, ext, e.address, script, MAX_ATTEMPTS);
    ReclaimFrame(w, ext, e.address, script, MAX_ATTEMPTS);
  }

  lemma FreeAfterGain(w: World, v: World, missing: seq<FipEntry>, ext: NetId)
    requires missing != [] && v.elsewhere == w.elsewhere
    requires Gained(w, v, ext, missing[0].address) && InPool(w, missing[0].address)
    ensures Free(v, missing[1..]) == Free(w, missing) - {missing[0].address}
    ensures FipAddresses(v.fips) == FipAddresses(w.fips) + {missing[0].address}
  {
    assert forall g :: g in v.fips <==> g in w.fips || g == v.fips[|w.fips|];
    assert forall e :: e in missing <==> e == missing[0] || e in missing[1..];
  }

  lemma FreeAfterRefusal(w: World, v: World, missing: seq<FipEntry>)
    requires missing != [] && v.elsewhere == w.elsewhere && v.fips == w.fips
    ensures Free(v, missing[1..]) <= Free(w, missing)
    ensures !InPool(w, missing[0].address) ==> Free(v, missing[1..]) == Free(w, missing)
  {
    assert forall e :: e in missing <==> e == missing[0] || e in missing[1..];
  }

  lemma EntryAddressesSnoc(es: seq<FipEntry>, e: FipEntry)
    ensures EntryAddresses(es + [e]) == EntryAddresses(es) + {e.address}
  {
    assert forall x :: x in es + [e] <==> x in es || x == e;
  }

  /** What the loop put back, what it allocated without knowing, and what was free to begin with. */
  ghost predicate Counted(w: World, missing: seq<FipEntry>, acc: Recovery, v: World, rec: Recovery,
                          gained: set<Address>, lost: set<Address>) {
    && EntryAddresses(rec.reclaimed) == EntryAddresses(acc.reclaimed) + gained
    && |rec.reclaimed| == |acc.reclaimed| + |gained|
    && gained !! lost && gained + lost <= Free(w, missing)
    && |gained| + |lost| == Min(|Free(w, missing)|, Max(0, w.quota - |w.fips|))
    && FipAddresses(v.fips) == FipAddresses(w.fips) + gained + lost
    && |v.fips| == |w.fips| + |gained| + |lost|
  }

  /** The loop allocates as many free addresses as there is room for, and puts back all but the lost ones. */
  lemma {:induction false} ReclaimCount(w: World, missing: seq<FipEntry>, ext: NetId, acc: Recovery, script: Script)
    returns (gained: set<Address>)
    ensures var p := ReclaimAll(w, missing, ext, acc, script);
      p.Going? ==> Counted(w, missing, acc, p.world, p.value, gained, LostReclaims(w, missing, ext, script))
    decreases |missing|
  {
    hide ReclaimStep, Gained, Counted, LostReclaim;
    gained := {};
    if missing == [] {
      NothingCounted(w, acc);
    } else {
      StepGains(w, missing[0], ext, acc, script);
      var p := ReclaimStep(w, missing[0], ext, acc, script);
      if p.Going? {
        gained := ReclaimCount(p.world, missing[1..], ext, p.value, script);
        var q := ReclaimAll(p.world, missing[1..], ext, p.value, script);
        var lost := LostReclaims(p.world, missing[1..], ext, script);
        if q.Going? {
          gained := CountStep(w, missing, ext, acc, script, p, q, gained, lost);
        }
      }
    }
  }

  lemma NothingCounted(w: World, acc: Recovery)
    ensures Counted(w, [], acc, w, acc, {}, {})
  {}

  lemma CountStep(w: World, missing: seq<FipEntry>, ext: NetId, acc: Recovery, script: Script, p: Progress<Recovery>,
                  q: Progress<Recovery>, gained0: set<Address>, lost: set<Address>) returns (gained: set<Address>)
    requires missing != [] && p == ReclaimStep(w, missing[0], ext, acc, script) && p.Going? && q.Going?
    requires Counted(p.world, missing[1..], p.value, q.world, q.value, gained0, lost)
    ensures Counted(w, missing, acc, q.world, q.value, gained,
                    (if LostReclaim(w, missing[0].address, script) then {missing[0].address} else {}) + lost)
  {
    hide ReclaimStep, InPool, Gained, Counted, FirstReply;
    var e := missing[0];
    StepGains(w, e, ext, acc, script);
    gained := gained0;
    assert {} + lost == lost;
    if LostReclaim(w, e.address, script) {
      CountLoss(w, missing, ext, acc, p, q, gained0, lost);
    } else if Possible(w, e.address) {
      CountGain(w, missing, ext, acc, p, q, gained0, lost);
      gained := {e.address} + gained0;
    } else {
      CountRefusal(w, missing, acc, p, q, gained0, lost);
    }
  }

  /** Taking an address out of the free ones, and the room that goes with it. */
  lemma OneTaken(w: World, v: World, missing: seq<FipEntry>, ext: NetId)
    requires missing != [] && v.elsewhere == w.elsewhere && v.quota == w.quota
    requires Possible(w, missing[0].address) && Gained(w, v, ext, missing[0].address)
    ensures var a := missing[0].address;
      && a in Free(w, missing) && Free(v, missing[1..]) == Free(w, missing) - {a}
      && Min(|Free(w, missing)|, Max(0, w.quota - |w.fips|))
         == 1 + Min(|Free(v, missing[1..])|, Max(0, v.quota - |v.fips|))
      && FipAddresses(v.fips) == FipAddresses(w.fips) + {a}
  {
    FreeAfterGain(w, v, missing, ext);
    FreeHead(w, missing);
    hide Free, InPool, FipAddresses;
  }

  lemma CountGain(w: World, missing: seq<FipEntry>, ext: NetId, acc: Recovery, p: Progress<Recovery>,
                  q: Progress<Recovery>, gained: set<Address>, lost: set<Address>)
    requires missing != [] && p.Going? && q.Going? && p.world.elsewhere == w.elsewhere && p.world.quota == w.quota
    requires Possible(w, missing[0].address) && Gained(w, p.world, ext, missing[0].address)
    requires p.value.reclaimed == acc.reclaimed + [EntryOf(p.world.fips[|w.fips|])]
    requires Counted(p.world, missing[1..], p.value, q.world, q.value, gained, lost)
    ensures Counted(w, missing, acc, q.world, q.value, {missing[0].address} + gained, lost)
  {
    hide InPool, Free, EntryAddresses, FipAddresses, Possible;
    OneTaken(w, p.world, missing, ext);
    EntryAddressesSnoc(acc.reclaimed, EntryOf(p.world.fips[|w.fips|]));
    AddTaken(Free(w, missing), missing[0].address, gained, lost);
    MoveTaken(EntryAddresses(acc.reclaimed), FipAddresses(w.fips), missing[0].address, gained, lost);
  }

  lemma AddTaken(free: set<Address>, a: Address, some: set<Address>, others: set<Address>)
    requires a in free && some !! others && some + others <= free - {a}
    ensures |{a} + some| == 1 + |some| && {a} + some !! others && {a} + some + others <= free
    ensures others !! {a} + some && others + ({a} + some) <= free
  {
    assert a !in some;
  }

  lemma MoveTaken(entries: set<Address>, held: set<Address>, a: Address, some: set<Address>, others: set<Address>)
    ensures entries + {a} + some == entries + ({a} + some)
    ensures held + {a} + some + others == held + ({a} + some) + others
    ensures held + {a} + some + others == held + some + ({a} + others)
  {}

  lemma CountLoss(w: World, missing: seq<FipEntry>, ext: NetId, acc: Recovery, p: Progress<Recovery>,
                  q: Progress<Recovery>, gained: set<Address>, lost: set<Address>)
    requires missing != [] && p.Going? && q.Going? && p.world.elsewhere == w.elsewhere && p.world.quota == w.quota
    requires Possible(w, missing[0].address) && Gained(w, p.world, ext, missing[0].address)
    requires p.value.reclaimed == acc.reclaimed
    requires Counted(p.world, missing[1..], p.value, q.world, q.value, gained, lost)
    ensures Counted(w, missing, acc, q.world, q.value, gained, {missing[0].address} + lost)
  {
    hide InPool, Free, EntryAddresses, FipAddresses, Possible;
    OneTaken(w, p.world, missing, ext);
    AddTaken(Free(w, missing), missing[0].address, lost, gained);
    MoveTaken(EntryAddresses(acc.reclaimed), FipAddresses(w.fips), missing[0].address, gained, lost);
  }

  lemma CountRefusal(w: World, missing: seq<FipEntry>, acc: Recovery, p: Progress<Recovery>, q: Progress<Recovery>,
                     gained: set<Address>, lost: set<Address>)
    requires missing != [] && p.Going? && q.Going?
    requires p.world.elsewhere == w.elsewhere && p.world.quota == w.quota && p.world.fips == w.fips
    requires !Possible(w, missing[0].address) && p.value.reclaimed == acc.reclaimed
    requires Counted(p.world, missing[1..], p.value, q.world, q.value, gained, lost)
    ensures Counted(w, missing, acc, q.world, q.value, gained, lost)
  {
    hide InPool, Free, EntryAddresses, FipAddresses;
    FreeAfterRefusal(w, p.world, missing);
  }

  lemma FreeHead(w: World, missing: seq<FipEntry>)
    requires missing != [] && InPool(w, missing[0].address)
    ensures missing[0].address in Free(w, missing)
  {
    assert missing[0] in missing;
  }

  lemma {:induction false} FreeBound(w: World, missing: seq<FipEntry>)
    ensures |Free(w, missing)| <= |missing|
  {
    if missing != [] {
      FreeBound(w, missing[1..]);
      var a := missing[0].address;
      assert forall e :: e in missing <==> e == missing[0] || e in missing[1..];
      assert Free(w, missing) == Free(w, missing[1..]) + (if InPool(w, a) then {a} else {});
    }
  }

  /** Nobody holds some missing address, and usage plus these addresses exceed the quota set for reclaiming. */
  predicate Overfull(w: World, missing: seq<FipEntry>, cfg: Config) {
    Free(w, missing) != {} && |w.fips| + |Free(w, missing)| > cfg.desired + |missing|
  }

  /** The state in which reclaiming begins. */
  function Raised(w: World, missing: seq<FipEntry>, cfg: Config): World {
    Tick(w).(quota := cfg.desired + |missing|)
  }

  /** The free addresses that are recorded as taken by another project. */
  function Misread(w: World, missing: seq<FipEntry>, rec: Recovery): set<Address> {
    Free(w, missing) - EntryAddresses(rec.reclaimed)
  }

  /**
   A missing address that nobody holds is recorded as taken by another project exactly if usage plus the
   free addresses exceed desired plus the missing ones, or the reply to an allocation that had room was
   lost. In the second case the project holds the address all the same.
   */
  lemma ReclaimMisreports(w: World, missing: seq<FipEntry>, cfg: Config, script: Script)
    requires WellFormed(w) && cfg.reclaim
    ensures var p := Recover(w, missing, cfg, script);
      var lost := LostReclaims(Raised(w, missing, cfg), missing, cfg.ext, script);
      p.Going? ==>
        && (Misread(w, missing, p.value) != {} <==> Overfull(w, missing, cfg) || lost != {})
        && Misread(w, missing, p.value) <= ReleasedAddresses(p.value.newly)
        && lost <= Misread(w, missing, p.value) * FipAddresses(p.world.fips)
        && (|w.fips| <= cfg.desired ==> Misread(w, missing, p.value) == lost)
  {
    hide ReclaimAll, InPool, FipAddresses, EntryAddresses, WellFormed, Preserves, Accounts, LostReclaims, Free;
    var q := Raised(w, missing, cfg);
    var p := Recover(w, missing, cfg, script);
    if p.Going? {
      assert p == ReclaimAll(q, missing, cfg.ext, Recovery([], []), script);
      RecoverPreserves(w, missing, cfg, script);
      AccountedFree(w, missing, p.value, p.world.nextId);
      ReclaimOutcome(w, missing, cfg, script, p);
    }
  }

  lemma ReclaimOutcome(w: World, missing: seq<FipEntry>, cfg: Config, script: Script, p: Progress<Recovery>)
    requires p == ReclaimAll(Raised(w, missing, cfg), missing, cfg.ext, Recovery([], []), script) && p.Going?
    ensures var lost := LostReclaims(Raised(w, missing, cfg), missing, cfg.ext, script);
      && (Misread(w, missing, p.value) != {} <==> Overfull(w, missing, cfg) || lost != {})
      && lost <= Misread(w, missing, p.value) * FipAddresses(p.world.fips)
      && (|w.fips| <= cfg.desired ==> Misread(w, missing, p.value) == lost)
  {
    hide ReclaimAll, InPool, FipAddresses, EntryAddresses, LostReclaims, Free;
    var q := Raised(w, missing, cfg);
    var gained := ReclaimCount(q, missing, cfg.ext, Recovery([], []), script);
    SameFree(w, q, missing);
    FreeBound(w, missing);
    NoEntryAddresses();
    MisreadCount(Free(w, missing), gained, LostReclaims(q, missing, cfg.ext, script));
  }

  /** Two floating IPs in use, one wanted, one missing: the room for it is taken. */
  lemma OverfullExample(script: Script)
    requires Calm(script)
    ensures var gone := FipEntry(9, 20, false);
      var w := World([Fip(1, 10, 0, true), Fip(2, 11, 0, true)], 1, false, {}, 12, [gone], [], NoSnapshot, [], 0, 0, 0);
      var p := Recover(w, [gone], Config(1, true, true, 0), script);
      && p.Going? && 20 !in FipAddresses(p.world.fips) + w.elsewhere && 20 in ReleasedAddresses(p.value.newly)
  {
    var gone := FipEntry(9, 20, false);
    var w := World([Fip(1, 10, 0, true), Fip(2, 11, 0, true)], 1, false, {}, 12, [gone], [], NoSnapshot, [], 0, 0, 0);
    var q := Raised(w, [gone], Config(1, true, true, 0));
    var p := ReclaimStep(q, gone, 0, Recovery([], []), script);
    assert ReclaimAttempts(q, 0, 20, script, 5) == Going(Tick(q).(overQuota := 1), Refused);
    assert p.value.newly == [ReleasedOf(gone, TakenElsewhere)];
    assert ReclaimAll(q, [gone], 0, Recovery([], []), script) == p;
    assert ReleasedOf(gone, TakenElsewhere) in p.value.newly;
  }

  /** The reply to the only reclaim is lost, with room to spare. */
  lemma LostReplyExample(script: Script)
    requires script(0).fault == Fine && script(1).fault == Echo && script(2).fault == Fine
    ensures var gone := FipEntry(9, 20, false);
      var w := World([], 1, true, {}, 12, [gone], [], NoSnapshot, [], 0, 0, 0);
      var p := Recover(w, [gone], Config(5, true, true, 0), script);
      && p.Going? && 20 in FipAddresses(p.world.fips) && 20 in ReleasedAddresses(p.value.newly)
  {
    var gone := FipEntry(9, 20, false);
    var cfg := Config(5, true, true, 0);
    var w := World([], 1, true, {}, 12, [gone], [], NoSnapshot, [], 0, 0, 0);
    var q := Raised(w, [gone], cfg);
    var a := Allocate(q.(pos := 2), 0, 20);
    HeldAfter(q.(pos := 2), 0, 20);
    assert ReclaimAttempts(a, 0, 20, script, 4) == Going(Tick(a), Refused);
    assert ReclaimCall(q, 0, 20, script) == Going(Tick(a), Refused);
    var p := ReclaimStep(q, gone, 0, Recovery([], []), script);
    assert ReclaimAll(q, [gone], 0, Recovery([], []), script) == p;
    assert ReleasedOf(gone, TakenElsewhere) in p.value.newly && a.fips[0] in p.world.fips;
  }

  lemma NoEntryAddresses()
    ensures EntryAddresses([]) == {}
  {}

  lemma SameFree(w: World, v: World, missing: seq<FipEntry>)
    requires v.fips == w.fips && v.elsewhere == w.elsewhere
    ensures Free(v, missing) == Free(w, missing)
  {}

  lemma MisreadCount(free: set<Address>, gained: set<Address>, lost: set<Address>)
    requires gained !! lost && gained + lost <= free
    ensures |free - gained| == |free| - |gained| && lost <= free - gained
    ensures |free| == |gained| + |lost| ==> free - gained == lost
  {
    assert |gained + (free - gained)| == |gained| + |free - gained|;
    assert gained + (free - gained) == free;
    assert |lost + (free - gained - lost)| == |lost| + |free - gained - lost|;
    assert lost + (free - gained - lost) == free - gained;
  }

  lemma AccountedFree(w: World, missing: seq<FipEntry>, rec: Recovery, bound: FipId)
    requires Accounts(missing, Recovery([], []), rec, bound)
    ensures Misread(w, missing, rec) <= ReleasedAddresses(rec.newly)
  {}

  // ------------------------------------------------------------------ a scale-up beside foreign floating IPs

  lemma {:induction false} NothingLostCalm(w: World, missing: seq<FipEntry>, ext: NetId, script: Script)
    requires Calm(script)
    ensures LostReclaims(w, missing, ext, script) == {}
    decreases |missing|
  {
    hide ReclaimStep, InPool;
    if missing != [] {
      var p := ReclaimStep(w, missing[0], ext, Recovery([], []), script);
      if p.Going? {
        NothingLostCalm(p.world, missing[1..], ext, script);
      }
    }
  }

  /** How many of these entries are brought back when served: the free ones, as far as there is room. */
  function BroughtBack(w: World, missing: seq<FipEntry>, cfg: Config): nat {
    if cfg.reclaim then Min(|Free(w, missing)|, Max(0, cfg.desired + |missing| - |w.fips|)) else 0
  }

  function Recovered(w: World, cfg: Config): nat {
    BroughtBack(w, Missing(w.stored, Managed(w.fips, cfg.ext)), cfg)
  }

  lemma RecoverCount(w: World, missing: seq<FipEntry>, cfg: Config, script: Script)
    requires Calm(script)
    ensures var p := Recover(w, missing, cfg, script);
      p.Going? ==> |p.world.fips| == |w.fips| + BroughtBack(w, missing, cfg)
  {
    hide ReclaimAll, Free;
    var q := Raised(w, missing, cfg);
    if cfg.reclaim && Recover(w, missing, cfg, script).Going? {
      assert Recover(w, missing, cfg, script) == ReclaimAll(q, missing, cfg.ext, Recovery([], []), script);
      var gained := ReclaimCount(q, missing, cfg.ext, Recovery([], []), script);
      NothingLostCalm(q, missing, cfg.ext, script);
      SameFree(w, q, missing);
    }
  }

  lemma DriftCount(w: World, cfg: Config, script: Script)
    requires Calm(script)
    ensures var p := Drift(w, w.stored, w.released, Managed(w.fips, cfg.ext), cfg, script);
      p.Going? ==> |p.world.fips| == |w.fips| + Recovered(w, cfg)
  {
    hide Adopt, Recover, Missing, Surviving, Managed, MergedReleased, Free;
    var missing := Missing(w.stored, Managed(w.fips, cfg.ext));
    AdoptCalm(w, w.stored, Managed(w.fips, cfg.ext), script);
    var a := Adopt(w, w.stored, Managed(w.fips, cfg.ext), script);
    SameFree(w, a.world, missing);
    RecoverCount(a.world, missing, cfg, script);
    NothingFree(w);
  }

  lemma NothingFree(w: World)
    ensures Free(w, []) == {}
  {}

  /**
   Served, from any state of cloud and file: the run completes exactly if the raise before reclaiming is
   accepted and, with a foreign floating IP in the project, nothing has to be created. The quota
   raised for a scale-up is the desired count, and the foreign ones use it up.
   */
  lemma ForeignBlocksScaleUp(w: World, cfg: Config, script: Script)
    requires Calm(script) && WellFormed(w) && cfg.desired >= 1
    ensures Run(w, cfg, script).outcome == Completed
      <==> (&& !Blocked(w, cfg)
            && (Foreign(w.fips, cfg.ext) == [] || |Managed(w.fips, cfg.ext)| + Recovered(w, cfg) >= cfg.desired))
  {
    hide WellFormed, Preserves, Drift, Scale, Managed, Unused, Foreign, Missing, Scaled, RaiseAccepted, Free;
    var w1 := Listed(w, cfg);
    WellFormedListed(w, cfg);
    RaiseListed(w, w1, cfg);
    var made := DriftAndRelistCalm(w1, cfg, script);
    RecoveredListed(w, w1, cfg);
    DriftCount(w1, cfg, script);
    var d := DriftAndRelist(w1, w1.stored, w1.released, cfg, script);
    if d.Going? {
      ScaleCalm(d.world, w.stored, d.value, cfg, script);
    }
  }

  /** One foreign floating IP, none managed, one wanted. */
  lemma ForeignExample(script: Script)
    requires Calm(script)
    ensures var w := World([Fip(1, 10, 7, false)], 1, true, {}, 2, [], [], NoSnapshot, [], 0, 0, 0);
      Run(w, Config(1, true, true, 0), script).outcome == Aborted
  {
    var cfg := Config(1, true, true, 0);
    var w := World([Fip(1, 10, 7, false)], 1, true, {}, 2, [], [], NoSnapshot, [], 0, 0, 0);
    ForeignBlocksScaleUp(w, cfg, script);
    RecoveredListed(w, w, cfg);
  }

  lemma RecoveredListed(w: World, w1: World, cfg: Config)
    requires w1.fips == w.fips && w1.stored == w.stored && w1.elsewhere == w.elsewhere
    ensures Recovered(w1, cfg) == Recovered(w, cfg)
    ensures w.stored == [] ==> Recovered(w, cfg) == 0
  {
    NothingFree(w);
    SameFree(w, w1, Missing(w.stored, Managed(w.fips, cfg.ext)));
  }

  // ------------------------------------------------------------------ headroom

  /** How many attempts of a call reach the service. */
  function Sent(script: Script, pos: nat, left: nat): nat
    decreases left
  {
    if left == 0 then 0
    else match script(pos).fault
      case FailsBefore => 0
      case Busy => Sent(script, pos + 1, left - 1)
      case Echo => 1 + Sent(script, pos + 1, left - 1)
      case _ => 1
  }

  /** The slot after a call that is answered. */
  function Answered(script: Script, pos: nat, left: nat): Option<nat>
    decreases left
  {
    if left == 0 then None
    else match script(pos).fault
      case FailsBefore => None
      case FailsAfter => None
      case Fine => Some(pos + 1)
      case _ => Answered(script, pos + 1, left - 1)
  }

  /** The attempts that reach the service while n calls are made one after the other. */
  function SentInAll(script: Script, pos: nat, n: nat): nat
    decreases n
  {
    if n == 0 then 0
    else
      var next := Answered(script, pos, MAX_ATTEMPTS);
      Sent(script, pos, MAX_ATTEMPTS) + if next.Some? then SentInAll(script, next.value, n - 1) else 0
  }

  lemma OnceSent(w: World, ext: NetId, hint: Address)
    requires |w.fips| <= w.quota
    ensures var (v, r) := CreateOnce(w, ext, hint);
      && v.quota == w.quota && v.pos == w.pos
      && (r.Accepted? <==> |w.fips| < w.quota)
      && |v.fips| == |w.fips| + (if r.Accepted? then 1 else 0)
      && v.overQuota == w.overQuota + (if r.Accepted? then 0 else 1)
  {
    hide Offer;
  }

  /** Every attempt that reaches the service takes a floating IP while there is room, and meets the quota after. */
  lemma {:induction false} CreateSent(w: World, ext: NetId, script: Script, left: nat)
    requires |w.fips| <= w.quota
    ensures var p := CreateAttempts(w, ext, script, left);
      var sent, room := Sent(script, w.pos, left), w.quota - |w.fips|;
      && p.world.quota == w.quota
      && |p.world.fips| == |w.fips| + Min(sent, room)
      && p.world.overQuota == w.overQuota + Max(0, sent - room)
      && (p.Going? ==> 1 <= sent <= room)
      && (sent <= room ==> (p.Going? <==> Answered(script, w.pos, left).Some?))
      && (p.Going? ==> p.world.pos == Answered(script, w.pos, left).value)
    decreases left
  {
    hide CreateOnce;
    if left > 0 {
      OnceSent(Tick(w), ext, script(w.pos).hint);
      if script(w.pos).fault == Busy {
        CreateSent(Tick(w), ext, script, left - 1);
      } else if script(w.pos).fault == Echo {
        CreateSent(CreateOnce(Tick(w), ext, script(w.pos).hint).0, ext, script, left - 1);
      }
    }
  }

  lemma {:induction false} CreateAllSent(w: World, n: nat, ext: NetId, acc: seq<FipEntry>, script: Script)
    requires |w.fips| <= w.quota
    ensures var v := CreateAll(w, n, ext, acc, script).world;
      && w.overQuota <= v.overQuota
      && (v.overQuota == w.overQuota <==> SentInAll(script, w.pos, n) <= w.quota - |w.fips|)
    decreases n
  {
    hide CreateAttempts, Sent, Answered;
    if n > 0 {
      CreateSent(w, ext, script, MAX_ATTEMPTS);
      var p := CreateCall(w, ext, script);
      if p.Going? {
        CreateAllSent(Note(p.world, Created(p.value.id)), n - 1, ext, acc + [EntryOf(p.value)], script);
      }
    }
  }

  lemma QuotaHeadroom(w: World, desired: int, actual: int, script: Script)
    ensures SetQuotaAndRecord(w, desired, actual, script).world.overQuota == w.overQuota
  {}

  lemma StoreHeadroom(w: World, entries: seq<FipEntry>, cfg: Config, script: Script)
    ensures StoreAndSetQuota(w, entries, cfg, script).world.overQuota == w.overQuota
  {
    hide SetQuotaAndRecord;
    var p := SaveStored(w, entries, script);
    QuotaHeadroom(p.world, cfg.desired, |entries|, script);
  }

  lemma DownHeadroom(w: World, existing: seq<Fip>, cfg: Config, script: Script)
    requires |existing| > cfg.desired
    ensures ScaleDown(w, existing, cfg, script).world.overQuota == w.overQuota
  {
    hide DeleteAll, StoreAndSetQuota, ToDelete;
    var todo := ToDelete(existing, cfg.desired);
    var ids := DeleteAllRemoves(w, todo, script);
    var p := DeleteAll(w, todo, script);
    var excess := |existing| - cfg.desired;
    var w2 := if excess > |todo| then Note(p.world, StillInUse(excess - |todo|)) else p.world;
    StoreHeadroom(w2, Entries(Without(existing, FipIds(todo))), cfg, script);
  }

  /**
   A scale-up meets an exhausted quota exactly if more creates reach the service than there is room for:
   lost replies make them more than are needed.
   */
  lemma EchoesExhaustQuota(w: World, existing: seq<Fip>, cfg: Config, script: Script)
    requires |existing| <= |w.fips| <= cfg.desired && |existing| < cfg.desired
    requires !script(w.pos).fault.FailsBefore? && !script(w.pos).fault.FailsAfter?
    ensures ScaleUp(w, existing, cfg, script).world.overQuota == w.overQuota
      <==> SentInAll(script, w.pos + 1, cfg.desired - |existing|) <= cfg.desired - |w.fips|
  {
    hide CreateAll, StoreAndSetQuota, SentInAll;
    var q := QuotaCall(w, cfg.desired, script);
    CreateAllSent(q.world, cfg.desired - |existing|, cfg.ext, [], script);
    var p := CreateAll(q.world, cfg.desired - |existing|, cfg.ext, [], script);
    if p.Going? {
      StoreHeadroom(p.world, Entries(existing) + p.value, cfg, script);
    }
  }

  lemma NoForeignArises(w: World, v: World, ext: NetId)
    requires Preserves(w, v, ext) && Foreign(w.fips, ext) == []
    ensures Foreign(v.fips, ext) == []
  {
    assert forall f :: f in w.fips && f.net != ext ==> f in Foreign(w.fips, ext);
    FilterNone(v.fips, (f: Fip) => f.net != ext);
  }

  // ------------------------------------------------------------------ released addresses that come back

  ghost predicate Disjoint(stored: seq<FipEntry>, released: seq<Released>) {
    EntryAddresses(stored) * ReleasedAddresses(released) == {}
  }

  lemma {:induction false} CreateAllKeepsReleased(w: World, n: nat, ext: NetId, acc: seq<FipEntry>, script: Script)
    ensures var v := CreateAll(w, n, ext, acc, script).world; v.released == w.released && v.snapshot == w.snapshot
    decreases n
  {
    hide CreateAttempts;
    if n > 0 {
      var p := CreateCall(w, ext, script);
      CreateFrame(w, ext, script, MAX_ATTEMPTS);
      if p.Going? {
        CreateAllKeepsReleased(Note(p.world, Created(p.value.id)), n - 1, ext, acc + [EntryOf(p.value)], script);
      }
    }
  }

  lemma QuotaKeepsLists(w: World, desired: int, actual: int, script: Script)
    ensures var v := SetQuotaAndRecord(w, desired, actual, script).world;
      v.released == w.released && v.stored == w.stored && v.snapshot == w.snapshot
  {}

  lemma StoreKeepsReleased(w: World, entries: seq<FipEntry>, cfg: Config, script: Script)
    ensures var e := StoreAndSetQuota(w, entries, cfg, script);
      && e.world.released == w.released && e.world.snapshot == w.snapshot
      && (e.outcome == Completed ==> e.world.stored == entries)
  {
    hide SetQuotaAndRecord;
    QuotaKeepsLists(SaveStored(w, entries, script).world, cfg.desired, |entries|, script);
  }

  /** The address the pool hands out when these are taken. */
  function OfferFrom(taken: set<Address>, hint: Address): (a: Address)
    ensures a !in taken
  {
    HighestBounds(taken);
    if hint !in taken then hint else Highest(taken) + 1
  }

  /** What a create leaves taken, the address it is answered with, if any, and the next slot. */
  datatype Handing = Handing(taken: set<Address>, answer: Option<Address>, pos: nat)

  /** A create as long as there is room: every attempt that reaches the service takes an address. */
  function HandOut(taken: set<Address>, script: Script, pos: nat, left: nat): (h: Handing)
    ensures taken <= h.taken
    ensures h.answer.Some? ==> h.answer.value in h.taken - taken
    decreases left
  {
    if left == 0 then Handing(taken, None, pos)
    else
      var a := OfferFrom(taken, script(pos).hint);
      match script(pos).fault
      case Fine => Handing(taken + {a}, Some(a), pos + 1)
      case Busy => HandOut(taken, script, pos + 1, left - 1)
      case Echo => HandOut(taken + {a}, script, pos + 1, left - 1)
      case _ => Handing(taken, None, pos + 1)
  }

  /** The addresses that n creates are answered with, one after the other. */
  function HandedOut(taken: set<Address>, script: Script, pos: nat, n: nat): (handed: set<Address>)
    ensures handed !! taken
    decreases n
  {
    if n == 0 then {}
    else
      var h := HandOut(taken, script, pos, MAX_ATTEMPTS);
      if h.answer.None? then {} else {h.answer.value} + HandedOut(h.taken, script, h.pos, n - 1)
  }

  function Taken(w: World): set<Address> {
    FipAddresses(w.fips) + w.elsewhere
  }

  lemma TakenAfter(w: World, net: NetId, a: Address)
    ensures Taken(Allocate(w, net, a)) == Taken(w) + {a}
  {
    var v := Allocate(w, net, a);
    assert forall f :: f in v.fips <==> f in w.fips || f == v.fips[|w.fips|];
  }

  lemma OnceHands(w: World, ext: NetId, hint: Address)
    ensures var (v, r) := CreateOnce(w, ext, hint);
      && v.quota == w.quota && v.pos == w.pos
      && (r.Accepted? <==> |w.fips| < w.quota)
      && (r.Accepted? ==>
            && Taken(v) == Taken(w) + {OfferFrom(Taken(w), hint)} && |v.fips| == |w.fips| + 1
            && r.fip.address == OfferFrom(Taken(w), hint))
      && (r.Refused? ==> v.fips == w.fips && v.elsewhere == w.elsewhere)
  {
    TakenAfter(w, ext, Offer(w, hint));
    hide Highest;
  }

  /** A create that goes on had room for every attempt, and is answered as the pool hands out. */
  lemma {:induction false} CreateHands(w: World, ext: NetId, script: Script, left: nat)
    ensures var p := CreateAttempts(w, ext, script, left);
      && p.world.quota == w.quota
      && (p.Going? ==>
            && |w.fips| < w.quota && |w.fips| < |p.world.fips| <= w.quota
            && HandOut(Taken(w), script, w.pos, left) == Handing(Taken(p.world), Some(p.value.address), p.world.pos))
    decreases left
  {
    hide CreateOnce, OfferFrom, Taken;
    if left > 0 {
      var w0 := Tick(w);
      SameTaken(w, w0);
      OnceHands(w0, ext, script(w.pos).hint);
      var v := CreateOnce(w0, ext, script(w.pos).hint).0;
      if script(w.pos).fault == Busy {
        CreateHands(w0, ext, script, left - 1);
      } else if script(w.pos).fault == Echo {
        CreateHands(v, ext, script, left - 1);
      }
    }
  }

  lemma SameTaken(w: World, v: World)
    requires v.fips == w.fips && v.elsewhere == w.elsewhere
    ensures Taken(v) == Taken(w)
  {}

  /** Creates that all go on had room, and record exactly the addresses handed out. */
  lemma {:induction false} CreateAllHands(w: World, n: nat, ext: NetId, acc: seq<FipEntry>, script: Script)
    ensures var p := CreateAll(w, n, ext, acc, script);
      p.Going? ==>
        && (n == 0 || |w.fips| + n <= w.quota)
        && EntryAddresses(p.value) == EntryAddresses(acc) + HandedOut(Taken(w), script, w.pos, n)
    decreases n
  {
    hide CreateAttempts, HandOut, EntryAddresses, Taken;
    if n > 0 {
      CreateHands(w, ext, script, MAX_ATTEMPTS);
      var p := CreateCall(w, ext, script);
      if p.Going? {
        var w1 := Note(p.world, Created(p.value.id));
        CreateAllHands(w1, n - 1, ext, acc + [EntryOf(p.value)], script);
        SameTaken(p.world, w1);
        EntryAddressesSnoc(acc, EntryOf(p.value));
      }
    }
  }

  /**
   A completed scale-up ends with the two lists disjoint exactly if no address that the pool hands out, from
   what is taken at the start and the script, is a released one.
   */
  lemma ScaleUpHandsOut(w: World, existing: seq<Fip>, cfg: Config, script: Script)
    requires |existing| < cfg.desired && Disjoint(Entries(existing), w.released)
    requires ScaleUp(w, existing, cfg, script).outcome == Completed
    ensures var v := ScaleUp(w, existing, cfg, script).world;
      && v.released == w.released
      && (Disjoint(v.stored, v.released) <==>
            HandedOut(Taken(w), script, w.pos + 1, cfg.desired - |existing|) !! ReleasedAddresses(w.released))
  {
    hide ScaleUp, EntryAddresses, ReleasedAddresses, HandedOut, Taken, Entries, Disjoint;
    var created := ScaleUpStores(w, existing, cfg, script);
    DisjointSplit(Entries(existing), created, w.released);
  }

  /** What a completed scale-up stores. */
  lemma ScaleUpStores(w: World, existing: seq<Fip>, cfg: Config, script: Script) returns (created: seq<FipEntry>)
    requires |existing| < cfg.desired && ScaleUp(w, existing, cfg, script).outcome == Completed
    ensures var v := ScaleUp(w, existing, cfg, script).world;
      v.released == w.released && v.stored == Entries(existing) + created
    ensures EntryAddresses(created) == HandedOut(Taken(w), script, w.pos + 1, cfg.desired - |existing|)
  {
    hide CreateAll, StoreAndSetQuota, EntryAddresses, HandedOut, Taken, Entries;
    var q := QuotaCall(w, cfg.desired, script);
    var n := cfg.desired - |existing|;
    SameTaken(w, q.world);
    CreateAllHands(q.world, n, cfg.ext, [], script);
    CreateAllKeepsReleased(q.world, n, cfg.ext, [], script);
    var p := CreateAll(q.world, n, cfg.ext, [], script);
    created := p.value;
    StoreKeepsReleased(p.world, Entries(existing) + created, cfg, script);
    NoEntryAddresses();
  }

  lemma DisjointSplit(a: seq<FipEntry>, b: seq<FipEntry>, released: seq<Released>)
    requires Disjoint(a, released)
    ensures Disjoint(a + b, released) <==> EntryAddresses(b) !! ReleasedAddresses(released)
  {
    EntryAddressesConcat(a, b);
    hide EntryAddresses, ReleasedAddresses;
    SplitSets(EntryAddresses(a), EntryAddresses(b), ReleasedAddresses(released));
  }

  lemma SplitSets(a: set<Address>, b: set<Address>, gone: set<Address>)
    requires a * gone == {}
    ensures (a + b) * gone == {} <==> b !! gone
  {
    forall x | x in (a + b) * gone ensures x in b * gone {
      assert x in a ==> x in a * gone;
    }
    if x :| x in b && x in gone {
      assert x in (a + b) * gone;
    }
  }

  lemma EntryAddressesConcat(a: seq<FipEntry>, b: seq<FipEntry>)
    ensures EntryAddresses(a + b) == EntryAddresses(a) + EntryAddresses(b)
  {
    assert forall e :: e in a + b <==> e in a || e in b;
  }

  /** However the pool and the calls behave, a scale-up that completes ends with the two lists disjoint. */
  ghost predicate NeverReuses(w: World, existing: seq<Fip>, cfg: Config)
    requires |existing| < cfg.desired
  {
    forall script: Script :: (ScaleUp(w, existing, cfg, script).outcome == Completed ==>
      Disjoint(ScaleUp(w, existing, cfg, script).world.stored, ScaleUp(w, existing, cfg, script).world.released))
  }

  /**
   A scale-up does not look at the released list: it can end with an address in both lists exactly if some
   released address is in the pool. With a foreign floating IP it never ends at all.
   */
  lemma ScaleUpMayReuseReleased(w: World, existing: seq<Fip>, cfg: Config)
    requires WellFormed(w) && existing == Managed(w.fips, cfg.ext) && |existing| < cfg.desired
    requires Disjoint(Entries(existing), w.released)
    ensures NeverReuses(w, existing, cfg)
      <==> Foreign(w.fips, cfg.ext) != [] || forall a :: a in ReleasedAddresses(w.released) ==> !InPool(w, a)
  {
    hide ScaleUp, WellFormed, Managed, Foreign, ReleasedAddresses, HandedOut, Disjoint, Entries;
    ManagedAndForeign(w.fips, cfg.ext);
    if a :| a in ReleasedAddresses(w.released) && InPool(w, a) && Foreign(w.fips, cfg.ext) == [] {
      var script: Script := n => Slot(Fine, a);
      ScaleUpCalm(w, existing, cfg, script);
      ScaleUpHandsOut(w, existing, cfg, script);
      FirstHanded(w, script, w.pos + 1, cfg.desired - |existing|, a);
    } else {
      forall script: Script | ScaleUp(w, existing, cfg, script).outcome == Completed
        ensures var v := ScaleUp(w, existing, cfg, script).world; Disjoint(v.stored, v.released)
      {
        RoomToScale(w, existing, cfg, script);
        ScaleUpHandsOut(w, existing, cfg, script);
      }
    }
  }

  lemma FirstHanded(w: World, script: Script, pos: nat, n: nat, a: Address)
    requires n > 0 && script(pos) == Slot(Fine, a) && InPool(w, a)
    ensures a in HandedOut(Taken(w), script, pos, n)
  {
    assert HandOut(Taken(w), script, pos, MAX_ATTEMPTS) == Handing(Taken(w) + {a}, Some(a), pos + 1);
  }

  lemma RoomToScale(w: World, existing: seq<Fip>, cfg: Config, script: Script)
    requires |existing| < cfg.desired && ScaleUp(w, existing, cfg, script).outcome == Completed
    ensures |w.fips| <= |existing|
  {
    hide CreateAll, StoreAndSetQuota, HandedOut;
    var q := QuotaCall(w, cfg.desired, script);
    CreateAllHands(q.world, cfg.desired - |existing|, cfg.ext, [], script);
  }

  /** The next drift pass that gets through separates the lists again, whatever it meets. */
  lemma NextPassSeparates(w: World, cfg: Config, script: Script)
    requires WellFormed(w) && w.stored != []
    ensures var d := DriftAndRelist(w, w.stored, w.released, cfg, script);
      d.Going? ==> Disjoint(d.world.stored, d.world.released)
  {
    hide WellFormed, Preserves, Drift, Managed;
    DriftPartitions(w, w.stored, w.released, Managed(w.fips, cfg.ext), cfg, script);
  }

  /** The pool hands out the address that was released before. */
  lemma ReuseExample(script: Script)
    requires Calm(script) && script(1).hint == 10
    ensures var w := World([], 1, true, {}, 2, [], [Released(10, DeletedExternally, false)], NoSnapshot, [], 0, 0, 0);
      var e := ScaleUp(w, [], Config(1, true, true, 0), script);
      && e.outcome == Completed && 10 in EntryAddresses(e.world.stored) && 10 in ReleasedAddresses(e.world.released)
  {
    var gone := Released(10, DeletedExternally, false);
    var cfg := Config(1, true, true, 0);
    var w := World([], 1, true, {}, 2, [], [gone], NoSnapshot, [], 0, 0, 0);
    var q := w.(pos := 1);
    assert QuotaCall(w, 1, script) == Going(q, true);
    var f := Fip(2, 10, 0, false);
    var v := q.(fips := [f], nextId := 3, creates := 1, pos := 2);
    assert CreateCall(q, 0, script) == Going(v, f) by {
      assert CreateAttempts(q, 0, script, 5) == Going(v, f);
    }
    assert [] + [EntryOf(f)] == [EntryOf(f)];
    assert CreateAll(q, 1, 0, [], script) == Going(Note(v, Created(2)), [EntryOf(f)]);
    StoreKeepsReleased(Note(v, Created(2)), Entries([]) + [EntryOf(f)], cfg, script);
    assert EntryOf(f) in Entries([]) + [EntryOf(f)] && gone in w.released;
    ScaleUpCalm(w, [], cfg, script);
  }
}
