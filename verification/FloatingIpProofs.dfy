/** What every exit of a floating-IP run keeps, whatever the script did. */
module FloatingIpProofs {
  import opened Common
  import opened FloatingIps

  /** Facts the network service guarantees about its own records, and that stored ids come from it. */
  ghost predicate WellFormed(w: World) {
    && NoDup(w.fips)
    && (forall f, g :: f in w.fips && g in w.fips && f != g ==> f.id != g.id && f.address != g.address)
    && (forall f :: f in w.fips ==> f.id < w.nextId && f.address !in w.elsewhere)
    && (forall e :: e in w.stored ==> e.id < w.nextId)
  }

  /** The run may not lose this one: it is attached, or not from the configured network. */
  predicate Protected(f: Fip, ext: NetId) {
    f.inUse || f.net != ext
  }

  /** New ones are unattached and on the configured network. */
  predicate Fresh(f: Fip, from: FipId, ext: NetId) {
    f.id >= from && f.net == ext && !f.inUse
  }

  ghost predicate Preserves(w: World, v: World, ext: NetId) {
    && (forall f :: f in w.fips && Protected(f, ext) ==> f in v.fips)
    && (forall f :: f in v.fips ==> f in w.fips || Fresh(f, w.nextId, ext))
    && WellFormed(v)
    && v.elsewhere == w.elsewhere && v.strict == w.strict && w.nextId <= v.nextId
  }

  lemma PreservesCompose(w: World, u: World, v: World, ext: NetId)
    requires Preserves(w, u, ext) && Preserves(u, v, ext)
    ensures Preserves(w, v, ext) && WellFormed(u) && WellFormed(v)
  {}

  /** Steps that touch none of the records. */
  predicate SameRecords(w: World, v: World) {
    && v.fips == w.fips && v.elsewhere == w.elsewhere && v.strict == w.strict && v.nextId == w.nextId
    && v.stored == w.stored
  }

  lemma SameRecordsPreserve(w: World, v: World, ext: NetId)
    requires WellFormed(w) && SameRecords(w, v)
    ensures Preserves(w, v, ext) && WellFormed(v)
  {}

  lemma StoringPreserves(w: World, v: World, ext: NetId)
    requires WellFormed(w) && SameRecords(w.(stored := v.stored), v)
    requires forall e :: e in v.stored ==> e.id < w.nextId
    ensures Preserves(w, v, ext) && WellFormed(v)
  {}

  lemma AllocatePreserves(w: World, ext: NetId, address: Address)
    requires WellFormed(w) && InPool(w, address)
    ensures Preserves(w, Allocate(w, ext, address), ext)
  {}

  lemma CreateOncePreserves(w: World, ext: NetId, hint: Address)
    requires WellFormed(w)
    ensures var (v, r) := CreateOnce(w, ext, hint);
      Preserves(w, v, ext) && WellFormed(v) && v.stored == w.stored && w.nextId <= v.nextId
      && (r.Accepted? ==> EntryOf(r.fip).id < v.nextId)
  {
    OfferIsFree(w, hint);
    AllocatePreserves(w, ext, Offer(w, hint));
  }

  lemma {:induction false} CreateAttemptsPreserve(w: World, ext: NetId, script: Script, left: nat)
    requires WellFormed(w)
    ensures var p := CreateAttempts(w, ext, script, left);
      && Preserves(w, p.world, ext) && WellFormed(p.world) && p.world.stored == w.stored
      && w.nextId <= p.world.nextId
      && (p.Going? ==> EntryOf(p.value).id < p.world.nextId)
    decreases left
  {
    hide Preserves, WellFormed, CreateOnce;
    SameRecordsPreserve(w, w, ext);
    if left > 0 {
      var w0 := Tick(w);
      var hint := script(w.pos).hint;
      SameRecordsPreserve(w, w0, ext);
      CreateOncePreserves(w0, ext, hint);
      var (v, r) := CreateOnce(w0, ext, hint);
      PreservesCompose(w, w0, v, ext);
      if script(w.pos).fault == Busy {
        CreateAttemptsPreserve(w0, ext, script, left - 1);
        PreservesCompose(w, w0, CreateAttempts(w0, ext, script, left - 1).world, ext);
      } else if script(w.pos).fault == Echo {
        CreateAttemptsPreserve(v, ext, script, left - 1);
        PreservesCompose(w, v, CreateAttempts(v, ext, script, left - 1).world, ext);
      }
    }
  }

  lemma CreatePreserves(w: World, ext: NetId, script: Script)
    requires WellFormed(w)
    ensures var p := CreateCall(w, ext, script);
      && Preserves(w, p.world, ext) && WellFormed(p.world) && p.world.stored == w.stored
      && w.nextId <= p.world.nextId
      && (p.Going? ==> EntryOf(p.value).id < p.world.nextId)
  {
    CreateAttemptsPreserve(w, ext, script, MAX_ATTEMPTS);
  }

  lemma ReclaimOncePreserves(w: World, ext: NetId, address: Address)
    requires WellFormed(w)
    ensures var (v, r) := ReclaimOnce(w, ext, address);
      && Preserves(w, v, ext) && v.stored == w.stored && v.released == w.released
      && (r.Accepted? ==> r.fip.id < v.nextId && r.fip.address == address)
  {
    if InPool(w, address) {
      AllocatePreserves(w, ext, address);
    }
  }

  lemma {:induction false} ReclaimAttemptsPreserve(w: World, ext: NetId, address: Address, script: Script, left: nat)
    requires WellFormed(w)
    ensures var p := ReclaimAttempts(w, ext, address, script, left);
      && Preserves(w, p.world, ext) && p.world.stored == w.stored && p.world.released == w.released
      && (p.Going? && p.value.Accepted? ==> p.value.fip.id < p.world.nextId && p.value.fip.address == address)
    decreases left
  {
    hide Preserves, WellFormed, ReclaimOnce;
    SameRecordsPreserve(w, w, ext);
    if left > 0 {
      var w0 := Tick(w);
      SameRecordsPreserve(w, w0, ext);
      ReclaimOncePreserves(w0, ext, address);
      var (v, r) := ReclaimOnce(w0, ext, address);
      PreservesCompose(w, w0, v, ext);
      if script(w.pos).fault == Busy {
        ReclaimAttemptsPreserve(w0, ext, address, script, left - 1);
        PreservesCompose(w, w0, ReclaimAttempts(w0, ext, address, script, left - 1).world, ext);
      } else if script(w.pos).fault == Echo {
        ReclaimAttemptsPreserve(v, ext, address, script, left - 1);
        PreservesCompose(w, v, ReclaimAttempts(v, ext, address, script, left - 1).world, ext);
      }
    }
  }

  lemma ReclaimStepPreserves(w: World, e: FipEntry, ext: NetId, acc: Recovery, script: Script)
    requires WellFormed(w)
    ensures var p := ReclaimStep(w, e, ext, acc, script);
      && Preserves(w, p.world, ext) && WellFormed(p.world)
      && p.world.stored == w.stored && p.world.released == w.released
      && (p.Going? ==> OneMore(e, acc, p.value, p.world.nextId))
  {
    hide Preserves, WellFormed, ReclaimAttempts;
    ReclaimAttemptsPreserve(w, ext, e.address, script, MAX_ATTEMPTS);
    var c := ReclaimCall(w, ext, e.address, script);
    PreservesCompose(w, w, c.world, ext) by {
      SameRecordsPreserve(w, w, ext);
    }
    var v := ReclaimStep(w, e, ext, acc, script).world;
    SameRecordsPreserve(c.world, v, ext);
    PreservesCompose(w, c.world, v, ext);
  }

  /** One entry was put back or given up. */
  predicate OneMore(e: FipEntry, acc: Recovery, acc1: Recovery, bound: FipId) {
    || (&& acc1.newly == acc.newly && |acc1.reclaimed| == |acc.reclaimed| + 1
        && acc1.reclaimed == acc.reclaimed + [acc1.reclaimed[|acc.reclaimed|]]
        && acc1.reclaimed[|acc.reclaimed|].address == e.address
        && acc1.reclaimed[|acc.reclaimed|].id < bound)
    || (acc1.reclaimed == acc.reclaimed && acc1.newly == acc.newly + [ReleasedOf(e, TakenElsewhere)])
  }

  /** Every entry put back carries an address of the missing list; every other address is given up. */
  ghost predicate Accounts(missing: seq<FipEntry>, acc: Recovery, rec: Recovery, bound: FipId) {
    && (forall e :: e in acc.reclaimed ==> e in rec.reclaimed)
    && (forall r :: r in acc.newly ==> r in rec.newly)
    && (forall e :: e in rec.reclaimed ==>
          (e in acc.reclaimed || (e.id < bound && exists m :: m in missing && m.address == e.address)))
    && (forall r :: r in rec.newly ==> r in acc.newly || exists m :: m in missing && m.address == r.address)
    && (forall m :: m in missing ==>
          ((exists e :: e in rec.reclaimed && e.address == m.address)
            || (exists r :: r in rec.newly && r.address == m.address)))
  }

  lemma {:induction false} ReclaimAllPreserves(w: World, missing: seq<FipEntry>, ext: NetId, acc: Recovery,
                                               script: Script)
    requires WellFormed(w)
    ensures var p := ReclaimAll(w, missing, ext, acc, script);
      && Preserves(w, p.world, ext) && WellFormed(p.world)
      && p.world.stored == w.stored && p.world.released == w.released
      && (p.Going? ==> Accounts(missing, acc, p.value, p.world.nextId))
    decreases |missing|
  {
    hide Preserves, WellFormed, ReclaimStep, Accounts, OneMore;
    SameRecordsPreserve(w, w, ext);
    NothingAccounted(acc, w.nextId);
    if missing != [] {
      ReclaimStepPreserves(w, missing[0], ext, acc, script);
      var p := ReclaimStep(w, missing[0], ext, acc, script);
      if p.Going? {
        ReclaimAllPreserves(p.world, missing[1..], ext, p.value, script);
        var q := ReclaimAll(p.world, missing[1..], ext, p.value, script);
        PreservesCompose(w, p.world, q.world, ext);
        PreservedIds(p.world, q.world, ext);
        if q.Going? {
          AccountsCons(missing, acc, p.value, q.value, p.world.nextId, q.world.nextId);
        }
      }
    }
  }

  lemma PreservedIds(w: World, v: World, ext: NetId)
    requires Preserves(w, v, ext)
    ensures w.nextId <= v.nextId && v.strict == w.strict && v.elsewhere == w.elsewhere
  {}

  lemma NothingAccounted(acc: Recovery, bound: FipId)
    ensures Accounts([], acc, acc, bound)
  {}

  lemma AccountsCons(missing: seq<FipEntry>, acc: Recovery, acc1: Recovery, rec: Recovery, b1: FipId, b: FipId)
    requires missing != [] && b1 <= b
    requires Accounts(missing[1..], acc1, rec, b)
    requires OneMore(missing[0], acc, acc1, b1)
    ensures Accounts(missing, acc, rec, b)
  {
    assert missing[0] in missing;
    assert forall m :: m in missing <==> m == missing[0] || m in missing[1..];
    assert acc1.newly == acc.newly || ReleasedOf(missing[0], TakenElsewhere) in acc1.newly;
    assert |acc1.reclaimed| > |acc.reclaimed| ==> acc1.reclaimed[|acc.reclaimed|] in acc1.reclaimed;
  }

  lemma {:induction false} CreateAllPreserves(w: World, n: nat, ext: NetId, acc: seq<FipEntry>, script: Script)
    requires WellFormed(w)
    ensures var p := CreateAll(w, n, ext, acc, script);
      && Preserves(w, p.world, ext) && WellFormed(p.world) && p.world.stored == w.stored
      && (p.Going? ==> forall e :: e in p.value ==> e in acc || e.id < p.world.nextId)
      && (p.Going? ==> |p.value| == |acc| + n)
      && w.nextId <= p.world.nextId
    decreases n
  {
    hide Preserves, WellFormed, CreateCall;
    if n == 0 {
      SameRecordsPreserve(w, w, ext);
    } else {
      CreatePreserves(w, ext, script);
      var p := CreateCall(w, ext, script);
      if p.Going? {
        var w1 := Note(p.world, Created(p.value.id));
        var e := EntryOf(p.value);
        SameRecordsPreserve(p.world, w1, ext);
        CreateAllPreserves(w1, n - 1, ext, acc + [e], script);
        var v := CreateAll(w1, n - 1, ext, acc + [e], script).world;
        PreservesCompose(w, p.world, w1, ext);
        PreservesCompose(w, w1, v, ext);
      }
    }
  }

  lemma FipIdsCons(todo: seq<Fip>)
    requires todo != []
    ensures FipIds(todo) == {todo[0].id} + FipIds(todo[1..])
  {
    assert forall g :: g in todo <==> g == todo[0] || g in todo[1..];
  }

  /** Whatever the script, the delete loop removes some of what it was given and nothing else. */
  lemma {:induction false} DeleteAllRemoves(w: World, todo: seq<Fip>, script: Script) returns (ids: set<FipId>)
    ensures ids <= FipIds(todo)
    ensures var p := DeleteAll(w, todo, script);
      && p.world.fips == Without(w.fips, ids)
      && (p.Going? ==> ids == FipIds(todo))
      && p.world == w.(fips := p.world.fips, actions := p.world.actions, pos := p.world.pos)
    decreases |todo|
  {
    WithoutNone(w.fips);
    if todo == [] {
      ids := {};
    } else {
      FipIdsCons(todo);
      var f := todo[0];
      var c := DeleteCall(w, f.id, script);
      if c.Halted? {
        ids := if script(w.pos).fault == FailsBefore then {} else {f.id};
      } else {
        var rest := DeleteAllRemoves(Note(c.world, Freed(f.id)), todo[1..], script);
        ids := {f.id} + rest;
        WithoutTwice(w.fips, {f.id}, rest);
      }
    }
  }

  lemma {:induction false} WithoutNone(fips: seq<Fip>)
    ensures Without(fips, {}) == fips
  {
    if fips != [] {
      WithoutNone(fips[1..]);
    }
  }

  lemma {:induction false} WithoutTwice(fips: seq<Fip>, a: set<FipId>, b: set<FipId>)
    ensures Without(Without(fips, a), b) == Without(fips, a + b)
  {
    if fips != [] {
      WithoutTwice(fips[1..], a, b);
    }
  }

  lemma WithoutSubsequence(w: World, ids: set<FipId>)
    requires WellFormed(w)
    ensures WellFormed(w.(fips := Without(w.fips, ids)))
  {
    FilterNoDup(w.fips, (f: Fip) => f.id !in ids);
  }

  lemma DeleteAllPreserves(w: World, todo: seq<Fip>, ext: NetId, script: Script)
    requires WellFormed(w)
    requires forall f :: f in todo ==> f in w.fips && !Protected(f, ext)
    ensures var p := DeleteAll(w, todo, script);
      Preserves(w, p.world, ext) && WellFormed(p.world) && p.world.stored == w.stored && p.world.nextId == w.nextId
  {
    var ids := DeleteAllRemoves(w, todo, script);
    WithoutSubsequence(w, ids);
    forall f, g | f in w.fips && Protected(f, ext) && g in todo ensures f.id != g.id {
      DistinctIds(w, f, g);
    }
  }

  lemma DistinctIds(w: World, f: Fip, g: Fip)
    requires WellFormed(w) && f in w.fips && g in w.fips && f != g
    ensures f.id != g.id
  {
  }

  lemma QuotaKeepsRecords(w: World, desired: int, actual: int, script: Script)
    ensures SameRecords(w, SetQuotaAndRecord(w, desired, actual, script).world)
  {}

  lemma StoreAndSetQuotaPreserves(w: World, entries: seq<FipEntry>, cfg: Config, ext: NetId, script: Script)
    requires WellFormed(w) && forall e :: e in entries ==> e.id < w.nextId
    ensures Preserves(w, StoreAndSetQuota(w, entries, cfg, script).world, ext)
  {
    hide Preserves, WellFormed;
    var p := SaveStored(w, entries, script);
    if p.Going? {
      QuotaKeepsRecords(p.world, cfg.desired, |entries|, script);
      StoringPreserves(w, StoreAndSetQuota(w, entries, cfg, script).world, ext);
    } else {
      EntriesStored(w);
      StoringPreserves(w, p.world, ext);
    }
  }

  lemma EntriesStored(w: World)
    requires WellFormed(w)
    ensures forall e :: e in w.stored ==> e.id < w.nextId
  {}

  lemma ManagedSubset(fips: seq<Fip>, ext: NetId)
    ensures forall f :: f in Managed(fips, ext) ==> f in fips
  {}

  lemma EntriesBound(w: World, fips: seq<Fip>)
    requires WellFormed(w) && forall f :: f in fips ==> f in w.fips
    ensures forall e :: e in Entries(fips) ==> e.id < w.nextId
  {}

  lemma ScaleDownPreserves(w: World, existing: seq<Fip>, cfg: Config, script: Script)
    requires WellFormed(w) && existing == Managed(w.fips, cfg.ext) && |existing| > cfg.desired
    ensures Preserves(w, ScaleDown(w, existing, cfg, script).world, cfg.ext)
  {
    hide Preserves, WellFormed, DeleteAll, StoreAndSetQuota;
    var todo := ToDelete(existing, cfg.desired);
    forall f | f in todo ensures f in w.fips && !Protected(f, cfg.ext) {
      assert f in Unused(existing);
    }
    DeleteAllPreserves(w, todo, cfg.ext, script);
    var p := DeleteAll(w, todo, script);
    if p.Going? {
      var excess := |existing| - cfg.desired;
      var w2 := if excess > |todo| then Note(p.world, StillInUse(excess - |todo|)) else p.world;
      SameRecordsPreserve(p.world, w2, cfg.ext);
      PreservesCompose(w, p.world, w2, cfg.ext);
      var remaining := Without(existing, FipIds(todo));
      EntriesBound(w, remaining);
      StoreAndSetQuotaPreserves(w2, Entries(remaining), cfg, cfg.ext, script);
      PreservesCompose(w, w2, StoreAndSetQuota(w2, Entries(remaining), cfg, script).world, cfg.ext);
    }
  }

  lemma ScaleUpPreserves(w: World, existing: seq<Fip>, cfg: Config, script: Script)
    requires WellFormed(w) && existing == Managed(w.fips, cfg.ext) && |existing| < cfg.desired
    ensures Preserves(w, ScaleUp(w, existing, cfg, script).world, cfg.ext)
  {
    hide Preserves, WellFormed, CreateAll, StoreAndSetQuota, Managed;
    var q := QuotaCall(w, cfg.desired, script);
    SameRecordsPreserve(w, q.world, cfg.ext);
    if q.Going? && q.value {
      CreateAllPreserves(q.world, cfg.desired - |existing|, cfg.ext, [], script);
      var p := CreateAll(q.world, cfg.desired - |existing|, cfg.ext, [], script);
      PreservesCompose(w, q.world, p.world, cfg.ext);
      if p.Going? {
        ManagedSubset(w.fips, cfg.ext);
        EntriesBound(w, existing);
        StoreAndSetQuotaPreserves(p.world, Entries(existing) + p.value, cfg, cfg.ext, script);
        var v := StoreAndSetQuota(p.world, Entries(existing) + p.value, cfg, script).world;
        PreservesCompose(w, p.world, v, cfg.ext);
      }
    }
  }

  lemma ExactPreserves(w: World, config: seq<FipEntry>, existing: seq<Fip>, cfg: Config, script: Script)
    requires WellFormed(w) && existing == Managed(w.fips, cfg.ext) && |existing| == cfg.desired
    ensures Preserves(w, ExactMatch(w, config, existing, cfg, script).world, cfg.ext)
  {
    hide Preserves, WellFormed, SetQuotaAndRecord, Managed, EntryIds, FipIds;
    QuotaKeepsRecords(w, cfg.desired, |existing|, script);
    ManagedSubset(w.fips, cfg.ext);
    EntriesBound(w, existing);
    EntriesStored(w);
    StoringPreserves(w, ExactMatch(w, config, existing, cfg, script).world, cfg.ext);
  }

  lemma ScalePreserves(w: World, config: seq<FipEntry>, existing: seq<Fip>, cfg: Config, script: Script)
    requires WellFormed(w) && existing == Managed(w.fips, cfg.ext)
    ensures Preserves(w, Scale(w, config, existing, cfg, script).world, cfg.ext)
  {
    hide Preserves, WellFormed;
    if |existing| == cfg.desired {
      ExactPreserves(w, config, existing, cfg, script);
    } else if |existing| > cfg.desired {
      ScaleDownPreserves(w, existing, cfg, script);
    } else {
      ScaleUpPreserves(w, existing, cfg, script);
    }
  }

  // ------------------------------------------------------------------ drift

  function ReleasedAddresses(rs: seq<Released>): set<Address> {
    set r | r in rs :: r.address
  }

  lemma RaiseAndReclaimPreserves(w: World, missing: seq<FipEntry>, cfg: Config, script: Script)
    requires WellFormed(w)
    ensures var p := RaiseAndReclaim(w, missing, cfg, script);
      && Preserves(w, p.world, cfg.ext) && WellFormed(p.world)
      && p.world.stored == w.stored && p.world.released == w.released
      && (p.Going? ==> Accounts(missing, Recovery([], []), p.value, p.world.nextId))
  {
    hide Preserves, WellFormed, Accounts, ReclaimAll;
    var q := QuotaCall(w, cfg.desired + |missing|, script);
    SameRecordsPreserve(w, q.world, cfg.ext);
    if q.Going? && q.value {
      ReclaimAllPreserves(q.world, missing, cfg.ext, Recovery([], []), script);
      PreservesCompose(w, q.world, ReclaimAll(q.world, missing, cfg.ext, Recovery([], []), script).world, cfg.ext);
    }
  }

  lemma ReleaseAllAccounts(missing: seq<FipEntry>, bound: FipId)
    ensures Accounts(missing, Recovery([], []), Recovery([], ReleaseAll(missing)), bound)
  {
    var newly := ReleaseAll(missing);
    assert forall i :: 0 <= i < |missing| ==> newly[i] in newly && newly[i].address == missing[i].address;
  }

  lemma RecoverPreserves(w: World, missing: seq<FipEntry>, cfg: Config, script: Script)
    requires WellFormed(w)
    ensures var p := Recover(w, missing, cfg, script);
      && Preserves(w, p.world, cfg.ext) && WellFormed(p.world)
      && p.world.stored == w.stored && p.world.released == w.released
      && (p.Going? ==> Accounts(missing, Recovery([], []), p.value, p.world.nextId))
  {
    hide Preserves, WellFormed, Accounts, RaiseAndReclaim;
    if cfg.reclaim {
      RaiseAndReclaimPreserves(w, missing, cfg, script);
    } else {
      ReleaseAllAccounts(missing, w.nextId);
      SameRecordsPreserve(w, Recover(w, missing, cfg, script).world, cfg.ext);
    }
  }

  lemma AdoptPreserves(w: World, config: seq<FipEntry>, existing: seq<Fip>, ext: NetId, script: Script)
    requires WellFormed(w) && (forall f :: f in existing ==> f in w.fips) && config == w.stored
    ensures var p := Adopt(w, config, existing, script);
      && Preserves(w, p.world, ext) && WellFormed(p.world) && p.world.released == w.released && p.world.fips == w.fips
      && (p.Going? ==> p.value == Entries(Untracked(config, existing)) && p.world.stored == config + p.value)
      && p.world.nextId == w.nextId
  {
    hide Preserves, WellFormed;
    EntriesBound(w, Untracked(config, existing));
    EntriesStored(w);
    assert config + [] == config;
    StoringPreserves(w, Adopt(w, config, existing, script).world, ext);
  }

  /**
   The drift pass gone through: of all addresses the two lists had, the released list holds exactly those
   that are not in the stored list now.
   */
  ghost predicate Partitioned(config: seq<FipEntry>, loaded: seq<Released>, v: World) {
    ReleasedAddresses(v.released) == EntryAddresses(config) + ReleasedAddresses(loaded) - EntryAddresses(v.stored)
  }

  lemma MergedReleasedAddresses(loaded: seq<Released>, newly: seq<Released>, active: seq<FipEntry>)
    ensures ReleasedAddresses(MergedReleased(loaded, newly, active))
         == ReleasedAddresses(loaded) + ReleasedAddresses(newly) - EntryAddresses(active)
  {
    var merged := MergedReleased(loaded, newly, active);
    assert forall r :: r in loaded + newly <==> r in loaded || r in newly;
    forall r | r in loaded + newly && r.address !in EntryAddresses(active) ensures r in merged {}
  }

  lemma DriftPartitions(w: World, config: seq<FipEntry>, loaded: seq<Released>, existing: seq<Fip>, cfg: Config,
                        script: Script)
    requires WellFormed(w) && config == w.stored && loaded == w.released && existing == Managed(w.fips, cfg.ext)
    ensures var p := Drift(w, config, loaded, existing, cfg, script);
      && Preserves(w, p.world, cfg.ext) && WellFormed(p.world)
      && (p.Going? ==> Partitioned(config, loaded, p.world))
  {
    hide Preserves, WellFormed, Accounts, Partitioned, Adopt, Recover;
    var missing := Missing(config, existing);
    AdoptPreserves(w, config, existing, cfg.ext, script);
    var a := Adopt(w, config, existing, script);
    if a.Going? {
      if missing == [] {
        var r := ReconcileReleased(a.world, loaded, config + a.value, [], script);
        SameRecordsPreserve(a.world, r.world, cfg.ext);
        PreservesCompose(w, a.world, r.world, cfg.ext);
        NothingLost(a.world, config, loaded, a.value, script);
      } else {
        RecoverPreserves(a.world, missing, cfg, script);
        var b := Recover(a.world, missing, cfg, script);
        PreservesCompose(w, a.world, b.world, cfg.ext);
        if b.Going? {
          DriftTailPreserves(b.world, config, loaded, existing, a.value, b.value, cfg, script);
          DriftTailPartitions(b.world, config, loaded, existing, a.value, b.value, script);
          PreservesCompose(w, b.world, Drift(w, config, loaded, existing, cfg, script).world, cfg.ext);
        }
      }
    }
  }

  lemma NothingLost(w: World, config: seq<FipEntry>, loaded: seq<Released>, adopted: seq<FipEntry>, script: Script)
    requires w.stored == config + adopted && w.released == loaded
    ensures var r := ReconcileReleased(w, loaded, config + adopted, [], script);
      r.Going? ==> Partitioned(config, loaded, r.world)
  {
    MergedReleasedAddresses(loaded, [], config + adopted);
    assert forall e :: e in config ==> e in config + adopted;
  }

  /** What the drift pass does once recovery is decided. */
  function DriftTail(b: World, loaded: seq<Released>, updated: seq<FipEntry>, newly: seq<Released>, script: Script)
    : Progress<()>
  {
    match SaveStored(b, updated, script)
    case Halted(w1) => Halted(w1)
    case Going(w1, _) => ReconcileReleased(w1, loaded, updated, newly, script)
  }

  function UpdatedList(config: seq<FipEntry>, existing: seq<Fip>, adopted: seq<FipEntry>,
                       rec: Recovery): seq<FipEntry> {
    Surviving(config, Missing(config, existing)) + rec.reclaimed + adopted
  }

  lemma DriftTailPreserves(b: World, config: seq<FipEntry>, loaded: seq<Released>, existing: seq<Fip>,
                           adopted: seq<FipEntry>, rec: Recovery, cfg: Config, script: Script)
    requires WellFormed(b) && b.stored == config + adopted
    requires Accounts(Missing(config, existing), Recovery([], []), rec, b.nextId)
    ensures var v := DriftTail(b, loaded, UpdatedList(config, existing, adopted, rec), rec.newly, script).world;
      Preserves(b, v, cfg.ext) && WellFormed(v)
  {
    hide Preserves, WellFormed;
    var updated := UpdatedList(config, existing, adopted, rec);
    EntriesStored(b);
    forall e | e in updated ensures e.id < b.nextId {
      if e in Surviving(config, Missing(config, existing)) || e in adopted {
        assert e in config + adopted;
      }
    }
    StoringPreserves(b, DriftTail(b, loaded, updated, rec.newly, script).world, cfg.ext);
  }

  lemma DriftTailPartitions(b: World, config: seq<FipEntry>, loaded: seq<Released>, existing: seq<Fip>,
                            adopted: seq<FipEntry>, rec: Recovery, script: Script)
    requires b.released == loaded
    requires Accounts(Missing(config, existing), Recovery([], []), rec, b.nextId)
    ensures var p := DriftTail(b, loaded, UpdatedList(config, existing, adopted, rec), rec.newly, script);
      p.Going? ==> Partitioned(config, loaded, p.world)
  {
    hide UpdatedList, Accounts, EntryAddresses, ReleasedAddresses, MergedReleased;
    var updated := UpdatedList(config, existing, adopted, rec);
    MergedReleasedAddresses(loaded, rec.newly, updated);
    RecoveredAddresses(config, existing, adopted, rec, b.nextId);
    SameWithout(ReleasedAddresses(rec.newly), EntryAddresses(config), ReleasedAddresses(loaded),
                EntryAddresses(updated));
  }

  lemma SameWithout<T>(a: set<T>, b: set<T>, c: set<T>, gone: set<T>)
    requires a - gone == b - gone
    ensures c + a - gone == b + c - gone
  {
    assert c + a - gone == (c - gone) + (a - gone);
    assert b + c - gone == (b - gone) + (c - gone);
  }

  /** What is given up comes from the list, and what is not given up is in the new one. */
  lemma RecoveredAddresses(config: seq<FipEntry>, existing: seq<Fip>, adopted: seq<FipEntry>, rec: Recovery,
                           bound: FipId)
    requires Accounts(Missing(config, existing), Recovery([], []), rec, bound)
    ensures EntryAddresses(config) - EntryAddresses(UpdatedList(config, existing, adopted, rec))
         == ReleasedAddresses(rec.newly) - EntryAddresses(UpdatedList(config, existing, adopted, rec))
  {
    var missing := Missing(config, existing);
    var updated := Surviving(config, missing) + rec.reclaimed + adopted;
    forall e | e in config ensures e.address in EntryAddresses(updated) + ReleasedAddresses(rec.newly) {
      if e.id in FipIds(existing) {
        assert e.id !in EntryIds(missing);
        assert e in Surviving(config, missing);
        assert e in updated;
      } else {
        assert e in missing;
        if x :| x in rec.reclaimed && x.address == e.address {
          assert x in updated;
        }
      }
    }
    forall r | r in rec.newly ensures r.address in EntryAddresses(config) {
      var m :| m in missing && m.address == r.address;
      assert m in config;
    }
  }
}
