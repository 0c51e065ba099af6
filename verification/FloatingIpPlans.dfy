/**
 What a drift pass of src/resources/prealloc/fip.py comes to, computed from the script and the state it starts
 from: which missing entries are put back, what the stored list becomes, and at which slot the pass ends.
 */
module FloatingIpPlans {
  import opened Common
  import opened FloatingIps
  import opened FloatingIpProofs
  import opened FloatingIpTheorems
  import opened FloatingIpLimits

  predicate Fails(f: Fault) {
    f == FailsBefore || f == FailsAfter
  }

  function MissingNow(w: World, cfg: Config): seq<FipEntry> {
    Missing(w.stored, Managed(w.fips, cfg.ext))
  }

  function UntrackedNow(w: World, cfg: Config): seq<Fip> {
    Untracked(w.stored, Managed(w.fips, cfg.ext))
  }

  function SurvivingNow(w: World, cfg: Config): seq<FipEntry> {
    Surviving(w.stored, MissingNow(w, cfg))
  }

  /** The raise before reclaiming these entries would be rejected. */
  predicate Rejected(w: World, missing: seq<FipEntry>, cfg: Config) {
    missing != [] && cfg.reclaim && w.strict && |w.fips| > cfg.desired + |missing|
  }

  // ------------------------------------------------------------------ the reclaim loop

  /** What becomes of a missing entry: put back, allocated without the answer arriving, or not allocated. */
  datatype Fate = PutBack | Unanswered | Denied

  /** end is the slot after the loop, if it gets through. */
  datatype Plan = Plan(fates: seq<Fate>, end: Option<nat>)

  /** The loop, from the addresses held, the room left and the script. */
  function PlanOf(held: set<Address>, elsewhere: set<Address>, room: int, missing: seq<FipEntry>, script: Script,
                  pos: nat): Plan
    decreases |missing|
  {
    if missing == [] then Plan([], Some(pos))
    else
      var a, next := missing[0].address, Answered(script, pos, MAX_ATTEMPTS);
      if next.None? then Plan([], None)
      else
        var possible := room > 0 && a !in held && a !in elsewhere;
        var rest := PlanOf(if possible then held + {a} else held, elsewhere, if possible then room - 1 else room,
                           missing[1..], script, next.value);
        var fate := if !possible then Denied
                    else if FirstReply(script, pos, MAX_ATTEMPTS) == Echo then Unanswered else PutBack;
        Plan([fate] + rest.fates, rest.end)
  }

  /** The floating IPs that are new. */
  function MadeOf(missing: seq<FipEntry>, fates: seq<Fate>, net: NetId, id: FipId): seq<Fip>
    decreases |fates|
  {
    if fates == [] || missing == [] then []
    else if fates[0] == Denied then MadeOf(missing[1..], fates[1..], net, id)
    else [Fip(id, missing[0].address, net, false)] + MadeOf(missing[1..], fates[1..], net, id + 1)
  }

  /** The entries that are put back. */
  function BackOf(missing: seq<FipEntry>, fates: seq<Fate>, id: FipId): seq<FipEntry>
    decreases |fates|
  {
    if fates == [] || missing == [] then []
    else
      var rest := BackOf(missing[1..], fates[1..], if fates[0] == Denied then id else id + 1);
      if fates[0] == PutBack then [FipEntry(id, missing[0].address, false)] + rest else rest
  }

  /** The entries that are given up. */
  function GivenUpOf(missing: seq<FipEntry>, fates: seq<Fate>): seq<Released>
    decreases |fates|
  {
    if fates == [] || missing == [] then []
    else
      (if fates[0] == PutBack then [] else [Released(missing[0].address, TakenElsewhere, missing[0].inUse)])
      + GivenUpOf(missing[1..], fates[1..])
  }

  /** A reclaim goes on exactly if it is answered; it has allocated exactly if that was possible. */
  lemma {:induction false} ReclaimExactly(w: World, ext: NetId, address: Address, script: Script, left: nat)
    ensures var p := ReclaimAttempts(w, ext, address, script, left);
      && (p.Going? <==> Answered(script, w.pos, left).Some?)
      && (p.Going? ==>
            && p.world.pos == Answered(script, w.pos, left).value
            && p.world.fips == w.fips + (if Possible(w, address) then [Fip(w.nextId, address, ext, false)] else [])
            && p.world.nextId == w.nextId + (if Possible(w, address) then 1 else 0)
            && (p.value.Accepted? <==> Possible(w, address) && FirstReply(script, w.pos, left) != Echo)
            && (p.value.Accepted? ==> p.value.fip == Fip(w.nextId, address, ext, false)))
    decreases left
  {
    hide InPool;
    assert w.fips + [] == w.fips;
    if left > 0 {
      var w0 := Tick(w);
      var v := ReclaimOnce(w0, ext, address).0;
      SamePool(w, w0, address);
      if script(w.pos).fault == Busy {
        ReclaimExactly(w0, ext, address, script, left - 1);
      } else if script(w.pos).fault == Echo {
        ReclaimExactly(v, ext, address, script, left - 1);
        assert v.fips + [] == v.fips;
        if Possible(w, address) {
          HeldAfter(w0, ext, address);
        } else {
          SamePool(w, v, address);
        }
      }
    }
  }

  lemma StepExactly(w: World, e: FipEntry, ext: NetId, acc: Recovery, script: Script)
    ensures var p := ReclaimStep(w, e, ext, acc, script);
      var possible := Possible(w, e.address);
      var lost := FirstReply(script, w.pos, MAX_ATTEMPTS) == Echo;
      && (p.Going? <==> Answered(script, w.pos, MAX_ATTEMPTS).Some?)
      && (p.Going? ==>
            && p.world.pos == Answered(script, w.pos, MAX_ATTEMPTS).value
            && p.world.elsewhere == w.elsewhere && p.world.quota == w.quota
            && p.world.fips == w.fips + (if possible then [Fip(w.nextId, e.address, ext, false)] else [])
            && p.world.nextId == w.nextId + (if possible then 1 else 0)
            && p.value.reclaimed
               == acc.reclaimed + (if possible && !lost then [FipEntry(w.nextId, e.address, false)] else [])
            && p.value.newly
               == acc.newly + (if possible && !lost then [] else [ReleasedOf(e, TakenElsewhere)]))
  {
    hide ReclaimAttempts, InPool, FirstReply, Answered;
    ReclaimExactly(w, ext, e.address, script, MAX_ATTEMPTS);
    ReclaimFrame(w, ext, e.address, script, MAX_ATTEMPTS);
    assert acc.reclaimed + [] == acc.reclaimed && acc.newly + [] == acc.newly;
  }

  /** The loop does what is planned. */
  ghost predicate Carried(w: World, missing: seq<FipEntry>, ext: NetId, acc: Recovery, plan: Plan,
                          p: Progress<Recovery>) {
    && (p.Going? <==> plan.end.Some?)
    && (p.Going? ==>
          && p.world.pos == plan.end.value
          && p.world.fips == w.fips + MadeOf(missing, plan.fates, ext, w.nextId)
          && p.value.reclaimed == acc.reclaimed + BackOf(missing, plan.fates, w.nextId)
          && p.value.newly == acc.newly + GivenUpOf(missing, plan.fates))
  }

  /** v and acc1 are the world and the lists after the first entry met this fate. */
  predicate Met(w: World, v: World, e: FipEntry, ext: NetId, acc: Recovery, acc1: Recovery, fate: Fate) {
    && v.nextId == w.nextId + (if fate == Denied then 0 else 1)
    && v.fips == w.fips + (if fate == Denied then [] else [Fip(w.nextId, e.address, ext, false)])
    && acc1.reclaimed == acc.reclaimed + (if fate == PutBack then [FipEntry(w.nextId, e.address, false)] else [])
    && acc1.newly == acc.newly + (if fate == PutBack then [] else [ReleasedOf(e, TakenElsewhere)])
  }

  lemma CarryOn(w: World, v: World, missing: seq<FipEntry>, ext: NetId, acc: Recovery, acc1: Recovery, fate: Fate,
                rest: Plan, q: Progress<Recovery>)
    requires missing != [] && Met(w, v, missing[0], ext, acc, acc1, fate)
    requires Carried(v, missing[1..], ext, acc1, rest, q)
    ensures Carried(w, missing, ext, acc, Plan([fate] + rest.fates, rest.end), q)
  {
    hide MadeOf, BackOf, GivenUpOf;
    FatesCons(missing, fate, rest.fates, ext, w.nextId);
    var next := if fate == Denied then w.nextId else w.nextId + 1;
    Joined(w.fips, v.fips, MadeOf(missing[1..], rest.fates, ext, next));
    Joined(acc.reclaimed, acc1.reclaimed, BackOf(missing[1..], rest.fates, next));
    Joined(acc.newly, acc1.newly, GivenUpOf(missing[1..], rest.fates));
  }

  lemma Joined<T>(a: seq<T>, b: seq<T>, c: seq<T>)
    requires a <= b
    ensures b + c == a + (b[|a|..] + c)
  {}

  lemma {:induction false} PlanHolds(w: World, missing: seq<FipEntry>, ext: NetId, acc: Recovery, script: Script)
    ensures Carried(w, missing, ext, acc,
                    PlanOf(FipAddresses(w.fips), w.elsewhere, w.quota - |w.fips|, missing, script, w.pos),
                    ReclaimAll(w, missing, ext, acc, script))
    decreases |missing|
  {
    hide ReclaimStep, FirstReply, Answered, FipAddresses;
    if missing == [] {
      NothingMade(w, ext, acc);
    } else {
      StepExactly(w, missing[0], ext, acc, script);
      var p := ReclaimStep(w, missing[0], ext, acc, script);
      if p.Going? {
        AddressesAfter(w, p.world, missing[0].address, ext);
        PlanHolds(p.world, missing[1..], ext, p.value, script);
        var plan := PlanOf(FipAddresses(w.fips), w.elsewhere, w.quota - |w.fips|, missing, script, w.pos);
        PlanStep(w, p.world, missing, script);
        hide PlanOf, Carried;
        CarryOn(w, p.world, missing, ext, acc, p.value, plan.fates[0],
                PlanOf(FipAddresses(p.world.fips), p.world.elsewhere, p.world.quota - |p.world.fips|, missing[1..],
                       script, p.world.pos),
                ReclaimAll(p.world, missing[1..], ext, p.value, script));
      }
    }
  }

  lemma NothingMade(w: World, ext: NetId, acc: Recovery)
    ensures w.fips + MadeOf([], [], ext, w.nextId) == w.fips
    ensures acc.reclaimed + BackOf([], [], w.nextId) == acc.reclaimed
    ensures acc.newly + GivenUpOf([], []) == acc.newly
  {}

  lemma AddressesAfter(w: World, v: World, a: Address, ext: NetId)
    requires v.fips == w.fips + (if Possible(w, a) then [Fip(w.nextId, a, ext, false)] else [])
    ensures FipAddresses(v.fips) == FipAddresses(w.fips) + (if Possible(w, a) then {a} else {})
  {
    forall f ensures f in v.fips <==> f in w.fips || (Possible(w, a) && f == Fip(w.nextId, a, ext, false)) {}
  }

  lemma PlanStep(w: World, v: World, missing: seq<FipEntry>, script: Script)
    requires missing != [] && Answered(script, w.pos, MAX_ATTEMPTS) == Some(v.pos)
    requires v.quota == w.quota && v.elsewhere == w.elsewhere
    requires |v.fips| == |w.fips| + (if Possible(w, missing[0].address) then 1 else 0)
    requires FipAddresses(v.fips)
          == FipAddresses(w.fips) + (if Possible(w, missing[0].address) then {missing[0].address} else {})
    ensures var plan := PlanOf(FipAddresses(w.fips), w.elsewhere, w.quota - |w.fips|, missing, script, w.pos);
      var rest := PlanOf(FipAddresses(v.fips), v.elsewhere, v.quota - |v.fips|, missing[1..], script, v.pos);
      && plan.fates != [] && plan == Plan([plan.fates[0]] + rest.fates, rest.end)
      && plan.fates[0] == (if !Possible(w, missing[0].address) then Denied
                           else if FirstReply(script, w.pos, MAX_ATTEMPTS) == Echo then Unanswered else PutBack)
  {
    hide FipAddresses, FirstReply, Answered;
    var none: set<Address> := {};
    assert FipAddresses(w.fips) + none == FipAddresses(w.fips);
    hide PlanOf;
    PlanUnfolds(FipAddresses(w.fips), w.elsewhere, w.quota - |w.fips|, missing, script, w.pos, v.pos);
  }

  lemma PlanUnfolds(held: set<Address>, elsewhere: set<Address>, room: int, missing: seq<FipEntry>, script: Script,
                    pos: nat, next: nat)
    requires missing != [] && Answered(script, pos, MAX_ATTEMPTS) == Some(next)
    ensures var a := missing[0].address;
      var possible := room > 0 && a !in held && a !in elsewhere;
      var rest := PlanOf(if possible then held + {a} else held, elsewhere, if possible then room - 1 else room,
                         missing[1..], script, next);
      var fate := if !possible then Denied
                  else if FirstReply(script, pos, MAX_ATTEMPTS) == Echo then Unanswered else PutBack;
      PlanOf(held, elsewhere, room, missing, script, pos) == Plan([fate] + rest.fates, rest.end)
  {}

  lemma FatesCons(missing: seq<FipEntry>, fate: Fate, rest: seq<Fate>, net: NetId, id: FipId)
    requires missing != []
    ensures var next := if fate == Denied then id else id + 1;
      && MadeOf(missing, [fate] + rest, net, id)
         == (if fate == Denied then [] else [Fip(id, missing[0].address, net, false)])
            + MadeOf(missing[1..], rest, net, next)
      && BackOf(missing, [fate] + rest, id)
         == (if fate == PutBack then [FipEntry(id, missing[0].address, false)] else [])
            + BackOf(missing[1..], rest, next)
      && GivenUpOf(missing, [fate] + rest)
         == (if fate == PutBack then [] else [ReleasedOf(missing[0], TakenElsewhere)]) + GivenUpOf(missing[1..], rest)
  {
    assert ([fate] + rest)[1..] == rest;
  }

  // ------------------------------------------------------------------ the drift pass

  /** What recovery makes, puts back and gives up, and the slot after it. */
  datatype Recovering = Recovering(made: seq<Fip>, back: seq<FipEntry>, given: seq<Released>, end: nat)

  /** None if the run ends in it. */
  function RecoveryPlan(w: World, missing: seq<FipEntry>, cfg: Config, script: Script, pos: nat): Option<Recovering> {
    if !cfg.reclaim then Some(Recovering([], [], ReleaseAll(missing), pos))
    else if Fails(script(pos).fault) || Rejected(w, missing, cfg) then None
    else
      var plan := PlanOf(FipAddresses(w.fips), w.elsewhere, cfg.desired + |missing| - |w.fips|, missing, script,
                         pos + 1);
      if plan.end.None? then None
      else Some(Recovering(MadeOf(missing, plan.fates, cfg.ext, w.nextId), BackOf(missing, plan.fates, w.nextId),
                           GivenUpOf(missing, plan.fates), plan.end.value))
  }

  lemma RecoveryHolds(w: World, missing: seq<FipEntry>, cfg: Config, script: Script)
    requires missing != []
    ensures var p := Recover(w, missing, cfg, script);
      var plan := RecoveryPlan(w, missing, cfg, script, w.pos);
      && (p.Going? <==> plan.Some?)
      && (p.Going? ==>
            && p.world.pos == plan.value.end && p.world.fips == w.fips + plan.value.made
            && p.value == Recovery(plan.value.back, plan.value.given)
            && p.world.stored == w.stored && p.world.released == w.released && p.world.snapshot == w.snapshot)
  {
    hide ReclaimAll, PlanOf, MadeOf, BackOf, GivenUpOf, FipAddresses;
    assert w.fips + [] == w.fips;
    if cfg.reclaim {
      var q := QuotaCall(w, cfg.desired + |missing|, script);
      if q.Going? && q.value {
        PlanHolds(q.world, missing, cfg.ext, Recovery([], []), script);
        ReclaimAllFrame(q.world, missing, cfg.ext, Recovery([], []), script);
        var plan := PlanOf(FipAddresses(w.fips), w.elsewhere, cfg.desired + |missing| - |w.fips|, missing, script,
                           w.pos + 1);
        NothingBefore(BackOf(missing, plan.fates, w.nextId), GivenUpOf(missing, plan.fates));
      }
    }
  }

  lemma NothingBefore<S, T>(a: seq<S>, b: seq<T>)
    ensures [] + a == a && [] + b == b
  {}

  /** The slot after adoption, if the run gets past it. */
  function AdoptEnd(w: World, cfg: Config, script: Script, pos: nat): Option<nat> {
    if UntrackedNow(w, cfg) == [] then Some(pos) else if Fails(script(pos).fault) then None else Some(pos + 1)
  }

  /** What a drift pass and the listing after it leave: new floating IPs, the two lists, and the slot. */
  datatype End = End(made: seq<Fip>, stored: seq<FipEntry>, released: seq<Released>, pos: nat)

  /** The released list is written if it changes, and the listing repeated if there was anything to do. */
  function TailEnd(w: World, made: seq<Fip>, stored: seq<FipEntry>, given: seq<Released>, acted: bool, script: Script,
                   pos: nat): Option<End>
  {
    var merged := MergedReleased(w.released, given, stored);
    var writes := merged != w.released;
    if writes && Fails(script(pos).fault) then None
    else
      var p := if writes then pos + 1 else pos;
      if acted && Fails(script(p).fault) then None else Some(End(made, stored, merged, if acted then p + 1 else p))
  }

  /** None if the run ends in the drift pass or the listing after it. */
  function DriftEnd(w: World, cfg: Config, script: Script, pos: nat): Option<End> {
    var missing, adopted := MissingNow(w, cfg), Entries(UntrackedNow(w, cfg));
    if w.stored == [] then Some(End([], [], w.released, pos))
    else
      var p := AdoptEnd(w, cfg, script, pos);
      if p.None? then None
      else if missing == [] then TailEnd(w, [], w.stored + adopted, [], adopted != [], script, p.value)
      else
        var r := RecoveryPlan(w, missing, cfg, script, p.value);
        if r.None? || Fails(script(r.value.end).fault) then None
        else TailEnd(w, r.value.made, SurvivingNow(w, cfg) + r.value.back + adopted, r.value.given, true, script,
                     r.value.end + 1)
  }

  /** v is where the plan ends, or one listing before. */
  predicate Reaches(w: World, v: World, end: End, listing: nat) {
    && v.fips == w.fips + end.made && v.stored == end.stored && v.released == end.released && v.snapshot == w.snapshot
    && v.pos + listing == end.pos
  }

  lemma AdoptHolds(w: World, cfg: Config, script: Script)
    ensures var a := Adopt(w, w.stored, Managed(w.fips, cfg.ext), script);
      var end := AdoptEnd(w, cfg, script, w.pos);
      var adopted := Entries(UntrackedNow(w, cfg));
      && (a.Going? <==> end.Some?)
      && (a.Going? ==>
            && a == Going(a.world, adopted)
            && a.world == w.(stored := w.stored + adopted, actions := a.world.actions, pos := end.value))
  {
    hide Untracked, Managed;
    assert w.stored + [] == w.stored;
  }

  lemma TailHolds(w: World, v: World, made: seq<Fip>, stored: seq<FipEntry>, given: seq<Released>, acted: bool,
                  script: Script)
    requires v.released == w.released
    ensures var r := ReconcileReleased(v, w.released, stored, given, script);
      var end := TailEnd(w, made, stored, given, acted, script, v.pos);
      && (r.Halted? ==> end.None?)
      && (r.Going? && !acted ==> end == Some(End(made, stored, r.world.released, r.world.pos)))
      && (r.Going? && acted ==>
            end == if ReadCall(r.world, script).Going?
                   then Some(End(made, stored, r.world.released, r.world.pos + 1)) else None)
      && r.world.fips == v.fips && r.world.stored == v.stored && r.world.snapshot == v.snapshot
      && r.world.actions == v.actions
  {
    hide MergedReleased;
  }

  /** The drift pass and the listing after it do what is planned. */
  lemma DriftEndHolds(w: World, cfg: Config, script: Script)
    ensures var d := DriftAndRelist(w, w.stored, w.released, cfg, script);
      var end := DriftEnd(w, cfg, script, w.pos);
      && (d.Going? <==> end.Some?)
      && (d.Going? ==> Reaches(w, d.world, end.value, 0))
  {
    hide Drift, DriftEnd;
    assert w.fips + [] == w.fips;
    if w.stored == [] {
      NoDriftEnd(w, cfg, script);
    } else {
      DriftHolds(w, cfg, script);
    }
  }

  lemma NoDriftEnd(w: World, cfg: Config, script: Script)
    requires w.stored == []
    ensures DriftEnd(w, cfg, script, w.pos) == Some(End([], [], w.released, w.pos))
  {}

  /** The pass itself, before the listing. */
  lemma DriftHolds(w: World, cfg: Config, script: Script)
    requires w.stored != []
    ensures var p := Drift(w, w.stored, w.released, Managed(w.fips, cfg.ext), cfg, script);
      var end := DriftEnd(w, cfg, script, w.pos);
      && (p.Halted? ==> end.None?)
      && (p.Going? ==>
            if p.world.actions == w.actions then end.Some? else end.Some? == ReadCall(p.world, script).Going?)
      && (p.Going? && end.Some? ==> Reaches(w, p.world, end.value, if p.world.actions == w.actions then 0 else 1))
  {
    hide Adopt, Recover, Missing, Untracked, Surviving, Managed, MergedReleased, AdoptEnd, RecoveryPlan, TailEnd,
      Entries;
    var existing, missing := Managed(w.fips, cfg.ext), MissingNow(w, cfg);
    var adopted := Entries(UntrackedNow(w, cfg));
    AdoptHolds(w, cfg, script);
    ActedIs(w, cfg, script);
    var a := Adopt(w, w.stored, existing, script);
    assert w.fips + [] == w.fips;
    if a.Going? {
      if missing == [] {
        TailHolds(w, a.world, [], w.stored + adopted, [], adopted != [], script);
      } else {
        RecoveryAt(w, a.world, missing, cfg, script);
        RecoveryHolds(a.world, missing, cfg, script);
        var b := Recover(a.world, missing, cfg, script);
        if b.Going? {
          var updated := SurvivingNow(w, cfg) + b.value.reclaimed + adopted;
          var c := SaveStored(b.world, updated, script);
          if c.Going? {
            TailHolds(w, c.world, RecoveryPlan(w, missing, cfg, script, a.world.pos).value.made, updated, b.value.newly,
                      true, script);
          }
        }
      }
    }
  }

  /** A plan depends on the floating IPs and not on the lists. */
  lemma RecoveryAt(w: World, v: World, missing: seq<FipEntry>, cfg: Config, script: Script)
    requires v.fips == w.fips && v.elsewhere == w.elsewhere && v.strict == w.strict && v.nextId == w.nextId
    ensures RecoveryPlan(v, missing, cfg, script, v.pos) == RecoveryPlan(w, missing, cfg, script, v.pos)
  {
    hide PlanOf, MadeOf, BackOf, GivenUpOf, FipAddresses;
  }

  /** A pass that gets through has recorded something exactly if there was anything to adopt or recover. */
  lemma ActedIs(w: World, cfg: Config, script: Script)
    ensures var p := Drift(w, w.stored, w.released, Managed(w.fips, cfg.ext), cfg, script);
      p.Going? ==> (p.world.actions != w.actions <==> UntrackedNow(w, cfg) != [] || MissingNow(w, cfg) != [])
  {
    hide Missing, Untracked, Surviving, MergedReleased, ReclaimAll, Managed;
    var existing, missing := Managed(w.fips, cfg.ext), MissingNow(w, cfg);
    SilentDriftIsIdle(w, w.stored, w.released, existing, cfg, script);
    assert w.actions + [] == w.actions;
  }

  // ------------------------------------------------------------------ headroom

  /** How many of the attempts of a reclaim meet an exhausted quota. */
  function HitsOf(room: int, free: bool, sent: nat): nat {
    if room <= 0 then sent else if free && room == 1 then Max(0, sent - 1) else 0
  }

  /** A reclaim takes the last room itself, and its repetition after a lost reply finds none. */
  lemma {:induction false} ReclaimHits(w: World, ext: NetId, address: Address, script: Script, left: nat)
    ensures ReclaimAttempts(w, ext, address, script, left).world.overQuota
         == w.overQuota + HitsOf(w.quota - |w.fips|, InPool(w, address), Sent(script, w.pos, left))
    decreases left
  {
    hide InPool;
    if left > 0 {
      var w0 := Tick(w);
      var v := ReclaimOnce(w0, ext, address).0;
      SamePool(w, w0, address);
      if script(w.pos).fault == Busy {
        ReclaimHits(w0, ext, address, script, left - 1);
      } else if script(w.pos).fault == Echo {
        ReclaimHits(v, ext, address, script, left - 1);
        if Possible(w, address) {
          HeldAfter(w0, ext, address);
        } else {
          SamePool(w, v, address);
        }
      }
    }
  }

  /** The slot after n calls that are all answered. */
  function AnsweredAll(script: Script, pos: nat, n: nat): Option<nat>
    decreases n
  {
    if n == 0 then Some(pos)
    else
      var next := Answered(script, pos, MAX_ATTEMPTS);
      if next.None? then None else AnsweredAll(script, next.value, n - 1)
  }

  /** All calls but the last are answered, and the last one is sent more than once. */
  predicate RepeatsLast(script: Script, pos: nat, n: nat) {
    n > 0 && var last := AnsweredAll(script, pos, n - 1);
      last.Some? && Sent(script, last.value, MAX_ATTEMPTS) > 1
  }

  /**
   With room for all entries, the loop meets an exhausted quota only at its last call, and only if all of them
   took their room.
   */
  lemma {:induction false} LoopHits(w: World, missing: seq<FipEntry>, ext: NetId, acc: Recovery, script: Script)
    requires |missing| <= w.quota - |w.fips|
    ensures var v := ReclaimAll(w, missing, ext, acc, script).world;
      v.overQuota != w.overQuota
      <==> (w.quota - |w.fips| == |missing| == |Free(w, missing)| && RepeatsLast(script, w.pos, |missing|))
    decreases |missing|
  {
    hide ReclaimStep, Sent, Answered, Free, InPool;
    if missing != [] {
      StepExactly(w, missing[0], ext, acc, script);
      StepHits(w, missing[0], ext, acc, script);
      ReclaimStepNotes(w, missing[0], ext, acc, script);
      FreeSplits(w, ReclaimStep(w, missing[0], ext, acc, script).world, missing, ext);
      var p := ReclaimStep(w, missing[0], ext, acc, script);
      if p.Going? {
        LoopHits(p.world, missing[1..], ext, p.value, script);
      }
    }
  }

  lemma StepHits(w: World, e: FipEntry, ext: NetId, acc: Recovery, script: Script)
    ensures ReclaimStep(w, e, ext, acc, script).world.overQuota
         == w.overQuota + HitsOf(w.quota - |w.fips|, InPool(w, e.address), Sent(script, w.pos, MAX_ATTEMPTS))
  {
    hide ReclaimAttempts, InPool, Sent;
    ReclaimHits(w, ext, e.address, script, MAX_ATTEMPTS);
  }

  /** All entries are free exactly if the first one is, and then the others are. */
  lemma FreeSplits(w: World, v: World, missing: seq<FipEntry>, ext: NetId)
    requires missing != [] && v.elsewhere == w.elsewhere
    ensures |Free(w, missing)| <= |missing|
    ensures !InPool(w, missing[0].address) ==> |Free(w, missing)| < |missing|
    ensures (InPool(w, missing[0].address) && v.fips == w.fips + [Fip(w.nextId, missing[0].address, ext, false)] ==>
      |Free(w, missing)| == 1 + |Free(v, missing[1..])|)
    ensures |missing| == 1 && InPool(w, missing[0].address) ==> |Free(w, missing)| == 1
  {
    var a := missing[0].address;
    FreeBound(w, missing);
    FreeBound(w, missing[1..]);
    assert forall e :: e in missing <==> e == missing[0] || e in missing[1..];
    if !InPool(w, a) {
      assert Free(w, missing) == Free(w, missing[1..]);
    } else {
      FreeHead(w, missing);
      if v.fips == w.fips + [Fip(w.nextId, a, ext, false)] {
        FreeAfterGain(w, v, missing, ext);
      }
      if |missing| == 1 {
        assert Free(w, missing) == {a};
      }
    }
  }

  /**
   A reclaim meets an exhausted quota: usage is the desired count, every missing address is free, and the
   last reclaim is repeated after a lost reply.
   */
  predicate ReclaimMeets(w: World, cfg: Config, script: Script, pos: nat) {
    var missing, start := MissingNow(w, cfg), AdoptEnd(w, cfg, script, pos);
    && cfg.reclaim && w.stored != [] && start.Some? && !Fails(script(start.value).fault)
    && |w.fips| == cfg.desired && |Free(w, missing)| == |missing|
    && RepeatsLast(script, start.value + 1, |missing|)
  }

  lemma RecoverHits(w: World, missing: seq<FipEntry>, cfg: Config, script: Script)
    requires |w.fips| <= cfg.desired
    ensures Recover(w, missing, cfg, script).world.overQuota != w.overQuota
      <==> (&& cfg.reclaim && !Fails(script(w.pos).fault)
            && |w.fips| == cfg.desired && |Free(w, missing)| == |missing| && RepeatsLast(script, w.pos + 1, |missing|))
  {
    hide ReclaimAll, Free, RepeatsLast;
    if cfg.reclaim && !Fails(script(w.pos).fault) {
      var q := QuotaCall(w, cfg.desired + |missing|, script);
      LoopHits(q.world, missing, cfg.ext, Recovery([], []), script);
      SameFree(w, q.world, missing);
    }
  }

  lemma DriftHits(w: World, cfg: Config, script: Script)
    requires |w.fips| <= cfg.desired && w.stored != []
    ensures Drift(w, w.stored, w.released, Managed(w.fips, cfg.ext), cfg, script).world.overQuota != w.overQuota
      <==> ReclaimMeets(w, cfg, script, w.pos)
  {
    hide Adopt, Recover, Missing, Untracked, Surviving, Managed, MergedReleased, AdoptEnd, Free, RepeatsLast, Entries;
    AdoptHolds(w, cfg, script);
    AdoptCounts(w, cfg, script);
    var a := Adopt(w, w.stored, Managed(w.fips, cfg.ext), script);
    var missing := MissingNow(w, cfg);
    NoneRepeated(script, AdoptEnd(w, cfg, script, w.pos));
    if a.Going? {
      RecoverHits(a.world, missing, cfg, script);
      SameFree(w, a.world, missing);
    }
  }

  lemma AdoptCounts(w: World, cfg: Config, script: Script)
    ensures Adopt(w, w.stored, Managed(w.fips, cfg.ext), script).world.overQuota == w.overQuota
  {
    hide Untracked, Managed;
  }

  lemma NoneRepeated(script: Script, start: Option<nat>)
    ensures start.Some? ==> !RepeatsLast(script, start.value + 1, 0)
  {}

  /** A create meets an exhausted quota: more of them reach the service than are needed. */
  predicate ScaleMeets(there: nat, cfg: Config, script: Script, pos: nat) {
    && there < cfg.desired && !Fails(script(pos).fault)
    && SentInAll(script, pos + 1, cfg.desired - there) > cfg.desired - there
  }

  lemma ScaleHits(w: World, config: seq<FipEntry>, existing: seq<Fip>, cfg: Config, script: Script)
    requires existing == w.fips
    ensures Scale(w, config, existing, cfg, script).world.overQuota != w.overQuota
      <==> ScaleMeets(|w.fips|, cfg, script, w.pos)
    ensures Scale(w, config, existing, cfg, script).world.overQuota >= w.overQuota
  {
    hide SetQuotaAndRecord, ScaleDown, CreateAll, StoreAndSetQuota, SentInAll;
    if |existing| == cfg.desired {
      QuotaHeadroom(w, cfg.desired, |existing|, script);
    } else if |existing| > cfg.desired {
      DownHeadroom(w, existing, cfg, script);
    } else if !Fails(script(w.pos).fault) {
      EchoesExhaustQuota(w, existing, cfg, script);
      UpCounts(w, existing, cfg, script);
    }
  }

  lemma UpCounts(w: World, existing: seq<Fip>, cfg: Config, script: Script)
    requires existing == w.fips && |existing| < cfg.desired
    ensures ScaleUp(w, existing, cfg, script).world.overQuota >= w.overQuota
  {
    hide CreateAll, StoreAndSetQuota, SentInAll;
    var q := QuotaCall(w, cfg.desired, script);
    if q.Going? && q.value {
      CreateAllSent(q.world, cfg.desired - |existing|, cfg.ext, [], script);
      var p := CreateAll(q.world, cfg.desired - |existing|, cfg.ext, [], script);
      if p.Going? {
        StoreHeadroom(p.world, Entries(existing) + p.value, cfg, script);
      }
    }
  }

  /** Some request of the run meets an exhausted quota. */
  predicate MeetsQuota(w: World, cfg: Config, script: Script) {
    && cfg.desired > 0 && !Fails(script(w.pos).fault)
    && (|| ReclaimMeets(w, cfg, script, w.pos + 1)
        || (var end := DriftEnd(w, cfg, script, w.pos + 1);
            end.Some? && ScaleMeets(|w.fips| + |end.value.made|, cfg, script, end.value.pos)))
  }

  /**
   Whether any create or reclaim of a run meets an exhausted quota, from script and starting state, at every
   crash point of every run that starts with at most desired floating IPs, none of them foreign: exactly if a
   repetition after a lost reply uses up room that another one needs.
   */
  lemma QuotaIsMet(w: World, cfg: Config, script: Script)
    requires WellFormed(w) && Foreign(w.fips, cfg.ext) == [] && |w.fips| <= cfg.desired
    ensures Run(w, cfg, script).world.overQuota != w.overQuota <==> MeetsQuota(w, cfg, script)
  {
    hide WellFormed, Preserves, DriftAndRelist, Scale, Managed, Foreign, DriftEnd, ReclaimMeets, ScaleMeets;
    if cfg.desired != 0 && !Fails(script(w.pos).fault) {
      var w2 := Tick(w.(actions := []));
      SameRecordsPreserve(w, w2, cfg.ext);
      NoForeignAllManaged(w2.fips, cfg.ext);
      DriftAndRelistPreserves(w2, cfg, script);
      DriftEndHolds(w2, cfg, script);
      RelistHits(w2, cfg, script);
      SamePlans(w, w2, cfg, script);
      var d := DriftAndRelist(w2, w2.stored, w2.released, cfg, script);
      if d.Going? {
        NoForeignArises(w2, d.world, cfg.ext);
        NoForeignAllManaged(d.world.fips, cfg.ext);
        ScaleHits(d.world, w.stored, d.value, cfg, script);
      }
    }
  }

  lemma RelistHits(w: World, cfg: Config, script: Script)
    requires |w.fips| <= cfg.desired
    ensures var d := DriftAndRelist(w, w.stored, w.released, cfg, script);
      && (d.world.overQuota != w.overQuota <==> ReclaimMeets(w, cfg, script, w.pos))
      && d.world.overQuota >= w.overQuota
  {
    hide Drift, Managed;
    if w.stored != [] {
      DriftHits(w, cfg, script);
      DriftCounts(w, cfg, script);
    }
  }

  lemma DriftCounts(w: World, cfg: Config, script: Script)
    ensures Drift(w, w.stored, w.released, Managed(w.fips, cfg.ext), cfg, script).world.overQuota >= w.overQuota
  {
    hide Adopt, Missing, Untracked, Surviving, Managed, MergedReleased, ReclaimAll;
    AdoptCounts(w, cfg, script);
    var a := Adopt(w, w.stored, Managed(w.fips, cfg.ext), script);
    if a.Going? && cfg.reclaim {
      var missing := MissingNow(w, cfg);
      var q := QuotaCall(a.world, cfg.desired + |missing|, script);
      if q.Going? && q.value {
        LoopCounts(q.world, missing, cfg.ext, Recovery([], []), script);
      }
    }
  }

  lemma {:induction false} LoopCounts(w: World, missing: seq<FipEntry>, ext: NetId, acc: Recovery, script: Script)
    ensures ReclaimAll(w, missing, ext, acc, script).world.overQuota >= w.overQuota
    decreases |missing|
  {
    hide ReclaimStep;
    if missing != [] {
      StepHits(w, missing[0], ext, acc, script);
      var p := ReclaimStep(w, missing[0], ext, acc, script);
      if p.Going? {
        LoopCounts(p.world, missing[1..], ext, p.value, script);
      }
    }
  }

  /** Plans read neither the notes nor the slot the state is at. */
  lemma SamePlans(w: World, v: World, cfg: Config, script: Script)
    requires v == w.(actions := v.actions, pos := v.pos)
    ensures forall pos: nat :: DriftEnd(v, cfg, script, pos) == DriftEnd(w, cfg, script, pos)
    ensures forall pos: nat :: ReclaimMeets(v, cfg, script, pos) == ReclaimMeets(w, cfg, script, pos)
  {
    hide Missing, Untracked, Managed, Surviving, MergedReleased, PlanOf, MadeOf, BackOf, GivenUpOf, FipAddresses, Free;
    forall missing: seq<FipEntry> ensures Free(v, missing) == Free(w, missing) {
      SameFree(w, v, missing);
    }
  }

  ghost predicate NoEcho(script: Script) {
    forall n: nat :: script(n).fault != Echo
  }

  lemma {:induction false} SentOnce(script: Script, pos: nat, left: nat)
    requires NoEcho(script)
    ensures Sent(script, pos, left) <= 1
    decreases left
  {
    if left > 0 {
      SentOnce(script, pos + 1, left - 1);
    }
  }

  lemma {:induction false} SentInAllOnce(script: Script, pos: nat, n: nat)
    requires NoEcho(script)
    ensures SentInAll(script, pos, n) <= n
    decreases n
  {
    hide Sent;
    if n > 0 {
      SentOnce(script, pos, MAX_ATTEMPTS);
      var next := Answered(script, pos, MAX_ATTEMPTS);
      if next.Some? {
        SentInAllOnce(script, next.value, n - 1);
      }
    }
  }

  /** Without lost replies usage is strictly below the quota at every create and reclaim. */
  lemma AlwaysHeadroom(w: World, cfg: Config, script: Script)
    requires NoEcho(script) && WellFormed(w) && Foreign(w.fips, cfg.ext) == [] && |w.fips| <= cfg.desired
    ensures Run(w, cfg, script).world.overQuota == w.overQuota
  {
    hide WellFormed, Run, DriftEnd, Foreign, Sent, AdoptEnd, SentInAll;
    QuotaIsMet(w, cfg, script);
    forall pos: nat, n: nat ensures !RepeatsLast(script, pos, n) {
      if n > 0 && AnsweredAll(script, pos, n - 1).Some? {
        SentOnce(script, AnsweredAll(script, pos, n - 1).value, MAX_ATTEMPTS);
      }
    }
    forall there: nat, pos: nat | there < cfg.desired ensures !ScaleMeets(there, cfg, script, pos) {
      SentInAllOnce(script, pos + 1, cfg.desired - there);
    }
  }
}
