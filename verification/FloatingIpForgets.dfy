/** What runs of src/resources/prealloc/fip.py forget: addresses that end up in neither of the two lists. */
module FloatingIpForgets {
  import opened Common
  import opened FloatingIps
  import opened FloatingIpProofs
  import opened FloatingIpTheorems
  import opened FloatingIpLimits
  import opened FloatingIpPlans
  import opened FloatingIpCuts

  /** The addresses the two lists have between them. */
  function Known(w: World): set<Address> {
    EntryAddresses(w.stored) + ReleasedAddresses(w.released)
  }

  // ------------------------------------------------------------------ a drift pass cut between its two saves

  /** Recovery as planned, if there is any and the run gets through it. */
  function RecoveryFrom(w: World, cfg: Config, script: Script, pos: nat): Option<Recovering> {
    var start := AdoptEnd(w, cfg, script, pos);
    if MissingNow(w, cfg) == [] || start.None? then None
    else RecoveryPlan(w, MissingNow(w, cfg), cfg, script, start.value)
  }

  /** The save at this slot takes effect, and the one after it does not. */
  predicate DiesBetween(script: Script, pos: nat) {
    script(pos).fault == FailsAfter || (!Fails(script(pos).fault) && script(pos + 1).fault == FailsBefore)
  }

  /**
   What a drift pass that begins at this slot forgets: if it dies between its two saves, the addresses of the
   missing entries that are neither put back nor held by another stored or adopted entry nor released already.
   */
  function Forgets(w: World, cfg: Config, script: Script, pos: nat): set<Address> {
    var r := RecoveryFrom(w, cfg, script, pos);
    if r.None? || !DiesBetween(script, r.value.end) then {}
    else
      EntryAddresses(MissingNow(w, cfg)) - EntryAddresses(r.value.back) - EntryAddresses(SurvivingNow(w, cfg))
      - FipAddresses(UntrackedNow(w, cfg)) - ReleasedAddresses(w.released)
  }

  /** The addresses a drift pass leaves in neither list, from script and starting state, wherever it is cut. */
  lemma DriftForgets(w: World, cfg: Config, script: Script)
    requires WellFormed(w)
    ensures var v := Drift(w, w.stored, w.released, Managed(w.fips, cfg.ext), cfg, script).world;
      Known(w) - Known(v) == Forgets(w, cfg, script, w.pos)
  {
    hide WellFormed, Preserves, Adopt, Recover, Missing, Surviving, Managed, MergedReleased, Untracked, Entries,
      Accounts, EntryAddresses, ReleasedAddresses, FipAddresses, AdoptEnd, RecoveryPlan;
    var existing, missing := Managed(w.fips, cfg.ext), MissingNow(w, cfg);
    AdoptPreserves(w, w.stored, existing, cfg.ext, script) by { ManagedSubset(w.fips, cfg.ext); }
    AdoptKnows(w, existing, script);
    AdoptHolds(w, cfg, script);
    var a := Adopt(w, w.stored, existing, script);
    if a.Going? {
      EntryAddressesConcat(w.stored, a.value);
      if missing == [] {
        MergedReleasedAddresses(w.released, [], w.stored + a.value);
      } else {
        RecoverPreserves(a.world, missing, cfg, script);
        RecoveryHolds(a.world, missing, cfg, script);
        RecoveryAt(w, a.world, missing, cfg, script);
        var b := Recover(a.world, missing, cfg, script);
        if b.Going? {
          DriftIsTail(w, a, b, cfg, script);
          RecoveredAddresses(w.stored, existing, a.value, b.value, b.world.nextId);
          var updated := UpdatedList(w.stored, existing, a.value, b.value);
          TailForgets(b.world, w.stored, w.released, a.value, updated, b.value.newly, script);
          ListAddresses(w, cfg, b.value.reclaimed);
        }
      }
    }
  }

  /** The addresses of the old list and of the new one, by what became of the entries. */
  lemma ListAddresses(w: World, cfg: Config, back: seq<FipEntry>)
    ensures EntryAddresses(w.stored) == EntryAddresses(SurvivingNow(w, cfg)) + EntryAddresses(MissingNow(w, cfg))
    ensures EntryAddresses(SurvivingNow(w, cfg) + back + Entries(UntrackedNow(w, cfg)))
         == EntryAddresses(SurvivingNow(w, cfg)) + EntryAddresses(back) + FipAddresses(UntrackedNow(w, cfg))
  {
    var surviving, adopted := SurvivingNow(w, cfg), Entries(UntrackedNow(w, cfg));
    StoredSplits(w, cfg);
    hide Missing, Surviving, Managed, Untracked, Entries;
    EntryAddressesConcat(surviving, back);
    EntryAddressesConcat(surviving + back, adopted);
    AddressesOfEntries(UntrackedNow(w, cfg));
  }

  lemma StoredSplits(w: World, cfg: Config)
    ensures forall e :: e in w.stored <==> e in SurvivingNow(w, cfg) || e in MissingNow(w, cfg)
  {
    var missing := MissingNow(w, cfg);
    forall e | e in w.stored && e !in missing ensures e in SurvivingNow(w, cfg) {
      assert e.id !in EntryIds(missing);
    }
  }

  lemma AddressesOfEntries(fips: seq<Fip>)
    ensures EntryAddresses(Entries(fips)) == FipAddresses(fips)
  {
    var es := Entries(fips);
    forall f | f in fips ensures f.address in EntryAddresses(es) {
      var i :| 0 <= i < |fips| && fips[i] == f;
      assert es[i] in es;
    }
    forall e | e in es ensures e.address in FipAddresses(fips) {
      var i :| 0 <= i < |es| && es[i] == e;
      assert fips[i] in fips;
    }
  }

  lemma AdoptKnows(w: World, existing: seq<Fip>, script: Script)
    ensures Known(w) <= Known(Adopt(w, w.stored, existing, script).world)
  {
    EntryAddressesConcat(w.stored, Entries(Untracked(w.stored, existing)));
  }

  lemma TailForgets(b: World, config: seq<FipEntry>, loaded: seq<Released>, adopted: seq<FipEntry>,
                    updated: seq<FipEntry>, newly: seq<Released>, script: Script)
    requires b.released == loaded && b.stored == config + adopted
    requires EntryAddresses(b.stored) == EntryAddresses(config) + EntryAddresses(adopted)
    requires (EntryAddresses(config) - EntryAddresses(updated) == ReleasedAddresses(newly) - EntryAddresses(updated))
    ensures var v := DriftTail(b, loaded, updated, newly, script).world;
      var known := EntryAddresses(config) + ReleasedAddresses(loaded);
      known - Known(v)
      == if DiesBetween(script, b.pos)
         then EntryAddresses(config) - EntryAddresses(updated) - ReleasedAddresses(loaded)
         else {}
  {
    hide EntryAddresses, ReleasedAddresses, MergedReleased;
    MergedReleasedAddresses(loaded, newly, updated);
    var tracked, gone := EntryAddresses(config), ReleasedAddresses(loaded);
    ForgottenSets(tracked, EntryAddresses(updated), gone, ReleasedAddresses(newly));
    assert tracked + gone - (tracked + EntryAddresses(adopted) + gone) == {};
  }

  lemma ForgottenSets(tracked: set<Address>, updated: set<Address>, gone: set<Address>, newly: set<Address>)
    requires tracked - updated == newly - updated
    ensures tracked + gone - (updated + gone) == tracked - updated - gone
    ensures tracked + gone - (updated + (gone + newly - updated)) == {}
    ensures gone + newly - updated == gone ==> tracked - updated - gone == {}
  {
    assert forall a :: a in tracked - updated <==> a in newly - updated;
    assert forall a :: a in tracked && a !in updated ==> a in newly - updated;
  }

  lemma DriftReleases(w: World, cfg: Config, script: Script)
    requires WellFormed(w)
    ensures ReleasedAddresses(Drift(w, w.stored, w.released, Managed(w.fips, cfg.ext), cfg, script).world.released)
         <= Known(w)
  {
    hide WellFormed, Preserves, Adopt, Recover, Missing, Surviving, Managed, MergedReleased, Untracked, Entries,
      Accounts, EntryAddresses, ReleasedAddresses;
    var existing, missing := Managed(w.fips, cfg.ext), MissingNow(w, cfg);
    AdoptPreserves(w, w.stored, existing, cfg.ext, script) by { ManagedSubset(w.fips, cfg.ext); }
    var a := Adopt(w, w.stored, existing, script);
    if a.Going? {
      if missing == [] {
        MergedReleasedAddresses(w.released, [], w.stored + a.value);
        NothingReleased();
      } else {
        RecoverPreserves(a.world, missing, cfg, script);
        var b := Recover(a.world, missing, cfg, script);
        if b.Going? {
          DriftIsTail(w, a, b, cfg, script);
          var updated := UpdatedList(w.stored, existing, a.value, b.value);
          RecoveredAddresses(w.stored, existing, a.value, b.value, b.world.nextId);
          MergedReleasedAddresses(w.released, b.value.newly, updated);
          SameWithout(ReleasedAddresses(b.value.newly), EntryAddresses(w.stored), ReleasedAddresses(w.released),
                      EntryAddresses(updated));
        }
      }
    }
  }

  lemma NothingReleased()
    ensures ReleasedAddresses([]) == {}
  {}

  lemma ScaleKeepsReleased(w: World, config: seq<FipEntry>, existing: seq<Fip>, cfg: Config, script: Script)
    ensures Scale(w, config, existing, cfg, script).world.released == w.released
    ensures var e := Scale(w, config, existing, cfg, script);
      var noted := |existing| == cfg.desired && cfg.track && EntryIds(config) != FipIds(existing);
      e.outcome == Completed ==>
        e.world.snapshot == if noted then Snapshot(cfg.desired, |existing|) else w.snapshot
  {
    hide SetQuotaAndRecord, DeleteAll, CreateAll, StoreAndSetQuota, FipIds, EntryIds, Without;
    if |existing| == cfg.desired {
      QuotaKeepsLists(w, cfg.desired, |existing|, script);
    } else if |existing| > cfg.desired {
      var todo := ToDelete(existing, cfg.desired);
      var ids := DeleteAllRemoves(w, todo, script);
      var p := DeleteAll(w, todo, script);
      var excess := |existing| - cfg.desired;
      var w2 := if excess > |todo| then Note(p.world, StillInUse(excess - |todo|)) else p.world;
      StoreKeepsReleased(w2, Entries(Without(existing, FipIds(todo))), cfg, script);
    } else {
      var n := cfg.desired - |existing|;
      var q := QuotaCall(w, cfg.desired, script);
      CreateAllKeepsReleased(q.world, n, cfg.ext, [], script);
      var p := CreateAll(q.world, n, cfg.ext, [], script);
      if p.Going? {
        StoreKeepsReleased(p.world, Entries(existing) + p.value, cfg, script);
      }
    }
  }

  /** No run, wherever it is cut, puts an address on the released list that was in neither list before. */
  lemma ForgottenIsNotReleased(w: World, cfg: Config, script: Script)
    requires WellFormed(w)
    ensures ReleasedAddresses(Run(w, cfg, script).world.released) <= Known(w)
  {
    hide WellFormed, Preserves, Drift, Scale, Managed, Foreign, EntryAddresses, ReleasedAddresses;
    if cfg.desired != 0 && !Fails(script(w.pos).fault) {
      var w1 := Listed(w, cfg);
      WellFormedListed(w, cfg);
      DriftReleases(w1, cfg, script);
      var d := DriftAndRelist(w1, w1.stored, w1.released, cfg, script);
      if d.Going? {
        ScaleKeepsReleased(d.world, w.stored, d.value, cfg, script);
      }
    }
  }

  /** The only entry is given up, and the run dies before that is written down. */
  lemma ForgetsExample(script: Script)
    requires script(0).fault == Fine && script(1).fault == Fine && script(2).fault == FailsBefore
    ensures var w := World([], 1, true, {}, 2, [FipEntry(1, 10, false)], [], NoSnapshot, [], 0, 0, 0);
      var v := Run(w, Config(1, false, true, 0), script).world;
      v.stored == [] && v.released == []
  {
    var cfg := Config(1, false, true, 0);
    var gone := FipEntry(1, 10, false);
    var w := World([], 1, true, {}, 2, [gone], [], NoSnapshot, [], 0, 0, 0);
    var w1 := Listed(w, cfg);
    var newly := ReleaseAll([gone]);
    assert Missing([gone], []) == [gone] && Surviving([gone], [gone]) == []
      && MergedReleased([], newly, []) == newly by {
      FilterAll([gone], (e: FipEntry) => e.id !in FipIds([]));
      assert gone in [gone];
      FilterNone([gone], (e: FipEntry) => e.id !in EntryIds([gone]));
      FilterAll([] + newly, (r: Released) => r.address !in EntryAddresses([]));
    }
    var p := Drift(w1, w1.stored, [], [], cfg, script);
    assert p.Halted? && p.world.stored == [] && p.world.released == [];
  }

  // ------------------------------------------------------------------ whole runs

  /** A stored entry has the address its floating IP has. */
  ghost predicate Consistent(w: World) {
    forall e, f :: e in w.stored && f in w.fips && e.id == f.id ==> e.address == f.address
  }

  /** The addresses of tracked floating IPs that a run deletes and takes off its list. */
  function GivenBack(w: World, cfg: Config, script: Script): set<Address> {
    var end := DriftEnd(w, cfg, script, w.pos + 1);
    if cfg.desired == 0 || Fails(script(w.pos).fault) || end.None? then {}
    else
      var there := Managed(w.fips, cfg.ext) + end.value.made;
      if |there| <= cfg.desired then {}
      else DroppedFrom(there, end.value.stored, cfg, script, end.value.pos)
  }

  /** Of these listed and stored ones, unless the run dies before the shorter list is saved. */
  function DroppedFrom(there: seq<Fip>, stored: seq<FipEntry>, cfg: Config, script: Script, pos: nat): set<Address>
    requires |there| > cfg.desired
  {
    var todo := ToDelete(there, cfg.desired);
    if DeletedWhenCut(script, pos, |todo|).Some? then {} else FipAddresses(todo) * EntryAddresses(stored)
  }

  /** What a run leaves in neither list: what its drift pass forgets, and what it gives back to the pool. */
  function Loses(w: World, cfg: Config, script: Script): set<Address> {
    (if cfg.desired == 0 || Fails(script(w.pos).fault) then {} else Forgets(w, cfg, script, w.pos + 1))
    + Known(w) * GivenBack(w, cfg, script)
  }

  /** After a drift pass that gets through, every stored address is that of a floating IP listed. */
  ghost predicate Backed(w: World, there: seq<Fip>) {
    EntryAddresses(w.stored) <= FipAddresses(there)
  }

  lemma {:induction false} BackIsMade(missing: seq<FipEntry>, fates: seq<Fate>, ext: NetId, id: FipId)
    ensures EntryAddresses(BackOf(missing, fates, id)) <= FipAddresses(MadeOf(missing, fates, ext, id))
    decreases |fates|
  {
    if fates != [] && missing != [] {
      var next := if fates[0] == Denied then id else id + 1;
      BackIsMade(missing[1..], fates[1..], ext, next);
      var e, f := FipEntry(id, missing[0].address, false), Fip(id, missing[0].address, ext, false);
      EntryAddressesConcat([e], BackOf(missing[1..], fates[1..], next));
      FipAddressesConcat([f], MadeOf(missing[1..], fates[1..], ext, next));
      assert f in [f] && e in [e];
    }
  }

  lemma SurvivingBacked(w: World, cfg: Config)
    requires Consistent(w)
    ensures EntryAddresses(SurvivingNow(w, cfg)) <= FipAddresses(Managed(w.fips, cfg.ext))
    ensures FipAddresses(UntrackedNow(w, cfg)) <= FipAddresses(Managed(w.fips, cfg.ext))
  {
    var existing := Managed(w.fips, cfg.ext);
    SurvivingIds(w.stored, existing);
    forall e | e in SurvivingNow(w, cfg) ensures e.address in FipAddresses(existing) {
      assert e.id in EntryIds(SurvivingNow(w, cfg));
      var f :| f in existing && f.id == e.id;
    }
  }

  lemma FipAddressesConcat(a: seq<Fip>, b: seq<Fip>)
    ensures FipAddresses(a + b) == FipAddresses(a) + FipAddresses(b)
  {
    assert forall f :: f in a + b <==> f in a || f in b;
  }

  lemma RecoveryBacked(w: World, missing: seq<FipEntry>, cfg: Config, script: Script, pos: nat)
    requires RecoveryPlan(w, missing, cfg, script, pos).Some?
    ensures var r := RecoveryPlan(w, missing, cfg, script, pos).value; EntryAddresses(r.back) <= FipAddresses(r.made)
  {
    hide PlanOf, MadeOf, BackOf, GivenUpOf;
    if cfg.reclaim {
      var plan := PlanOf(FipAddresses(w.fips), w.elsewhere, cfg.desired + |missing| - |w.fips|, missing, script,
                         pos + 1);
      BackIsMade(missing, plan.fates, cfg.ext, w.nextId);
    } else {
      NoEntryAddresses();
    }
  }

  lemma EndIsBacked(w: World, cfg: Config, script: Script, pos: nat)
    requires Consistent(w) && DriftEnd(w, cfg, script, pos).Some?
    ensures var end := DriftEnd(w, cfg, script, pos).value;
      EntryAddresses(end.stored) <= FipAddresses(Managed(w.fips, cfg.ext) + end.made)
  {
    hide Missing, Untracked, Managed, Surviving, MergedReleased, RecoveryPlan, Entries, EntryAddresses, FipAddresses,
      Consistent, AdoptEnd;
    var existing, missing := Managed(w.fips, cfg.ext), MissingNow(w, cfg);
    var end := DriftEnd(w, cfg, script, pos).value;
    SurvivingBacked(w, cfg);
    NoEntryAddresses();
    FipAddressesConcat(existing, end.made);
    AddressesOfEntries(UntrackedNow(w, cfg));
    EntryAddressesConcat(w.stored, Entries(UntrackedNow(w, cfg)));
    if w.stored != [] {
      if missing == [] {
        ListAddresses(w, cfg, []);
      } else {
        var start := AdoptEnd(w, cfg, script, pos).value;
        RecoveryBacked(w, missing, cfg, script, start);
        ListAddresses(w, cfg, RecoveryPlan(w, missing, cfg, script, start).value.back);
      }
    }
  }

  // ------------------------------------------------------------------ the scaling part

  /** What the scaling part takes out of both lists. */
  lemma ScaleForgets(w: World, config: seq<FipEntry>, existing: seq<Fip>, cfg: Config, script: Script)
    requires WellFormed(w) && existing == Managed(w.fips, cfg.ext) && Backed(w, existing)
    requires Disjoint(w.stored, w.released)
    ensures Known(w) - Known(Scale(w, config, existing, cfg, script).world)
      == if |existing| > cfg.desired then DroppedFrom(existing, w.stored, cfg, script, w.pos) else {}
  {
    hide WellFormed, Managed, ScaleDown, ScaleUp, ExactMatch, EntryAddresses, ReleasedAddresses, FipAddresses,
      DroppedFrom;
    ScaleKeepsReleased(w, config, existing, cfg, script);
    var v := Scale(w, config, existing, cfg, script).world;
    if |existing| == cfg.desired {
      ExactStores(w, config, existing, cfg, script);
    } else if |existing| > cfg.desired {
      DownForgets(w, existing, cfg, script);
    } else {
      UpStores(w, existing, cfg, script);
    }
    KeptSets(EntryAddresses(w.stored), EntryAddresses(v.stored), ReleasedAddresses(w.released));
  }

  lemma KeptSets(before: set<Address>, after: set<Address>, gone: set<Address>)
    requires before * gone == {}
    ensures before + gone - (after + gone) == before - after
  {
    forall a | a in before ensures a !in gone {
      assert a in gone ==> a in before * gone;
    }
  }

  lemma ExactStores(w: World, config: seq<FipEntry>, existing: seq<Fip>, cfg: Config, script: Script)
    requires |existing| == cfg.desired && Backed(w, existing)
    ensures EntryAddresses(w.stored) <= EntryAddresses(ExactMatch(w, config, existing, cfg, script).world.stored)
  {
    hide SetQuotaAndRecord, EntryIds, FipIds, EntryAddresses, FipAddresses, Entries;
    QuotaKeepsLists(w, cfg.desired, |existing|, script);
    AddressesOfEntries(existing);
  }

  lemma UpStores(w: World, existing: seq<Fip>, cfg: Config, script: Script)
    requires |existing| < cfg.desired && Backed(w, existing)
    ensures EntryAddresses(w.stored) <= EntryAddresses(ScaleUp(w, existing, cfg, script).world.stored)
  {
    hide CreateAll, StoreAndSetQuota, EntryAddresses, FipAddresses, Entries;
    var q := QuotaCall(w, cfg.desired, script);
    var n := cfg.desired - |existing|;
    CreateAllKeepsStored(q.world, n, cfg.ext, [], script);
    var p := CreateAll(q.world, n, cfg.ext, [], script);
    if q.Going? && q.value && p.Going? {
      StoreCut(p.world, Entries(existing) + p.value, cfg, script);
      AddressesOfEntries(existing);
      EntryAddressesConcat(Entries(existing), p.value);
    }
  }

  lemma DownForgets(w: World, existing: seq<Fip>, cfg: Config, script: Script)
    requires WellFormed(w) && existing == Managed(w.fips, cfg.ext) && |existing| > cfg.desired && Backed(w, existing)
    ensures EntryAddresses(w.stored) - EntryAddresses(ScaleDown(w, existing, cfg, script).world.stored)
         == DroppedFrom(existing, w.stored, cfg, script, w.pos)
  {
    hide WellFormed, Managed, Without, FipIds, EntryAddresses, FipAddresses, DeletedWhenCut, Unused, Entries;
    var todo := ToDelete(existing, cfg.desired);
    DownStores(w, existing, cfg, script);
    AddressesOfEntries(Without(existing, FipIds(todo)));
    RemainingAddresses(w, existing, cfg);
  }

  lemma DownStores(w: World, existing: seq<Fip>, cfg: Config, script: Script)
    requires |existing| > cfg.desired
    ensures var todo := ToDelete(existing, cfg.desired);
      ScaleDown(w, existing, cfg, script).world.stored
      == if DeletedWhenCut(script, w.pos, |todo|).Some? then w.stored else Entries(Without(existing, FipIds(todo)))
  {
    hide Without, DeleteAll, FipIds, DeletedWhenCut, Unused, SetQuotaAndRecord, StoreAndSetQuota, Entries;
    var todo := ToDelete(existing, cfg.desired);
    DeleteAllCut(w, todo, script);
    var ids := DeleteAllRemoves(w, todo, script);
    var p := DeleteAll(w, todo, script);
    if p.Going? {
      var excess := |existing| - cfg.desired;
      var w2 := if excess > |todo| then Note(p.world, StillInUse(excess - |todo|)) else p.world;
      StoreCut(w2, Entries(Without(existing, FipIds(todo))), cfg, script);
    }
  }

  /** Addresses are distinct, so those that remain are those that are not deleted. */
  lemma RemainingAddresses(w: World, existing: seq<Fip>, cfg: Config)
    requires WellFormed(w) && existing == Managed(w.fips, cfg.ext) && |existing| > cfg.desired
    ensures var todo := ToDelete(existing, cfg.desired);
      FipAddresses(Without(existing, FipIds(todo))) == FipAddresses(existing) - FipAddresses(todo)
  {
    var todo := ToDelete(existing, cfg.desired);
    var remaining := Without(existing, FipIds(todo));
    assert forall f :: f in todo ==> f in Unused(existing);
    forall f | f in existing ensures f in remaining <==> f !in todo {
      if f !in todo {
        assert forall g :: g in todo ==> g in existing && g.id != f.id;
      }
    }
    forall f, g | f in remaining && g in todo ensures f.address != g.address {}
  }

  // ------------------------------------------------------------------ what a run loses

  lemma DriftPassForgets(w: World, cfg: Config, script: Script)
    requires WellFormed(w)
    ensures var d := DriftAndRelist(w, w.stored, w.released, cfg, script);
      && Known(w) - Known(d.world) == Forgets(w, cfg, script, w.pos)
      && (d.Going? ==> Known(w) <= Known(d.world))
      && (d.Going? && w.stored != [] ==> Disjoint(d.world.stored, d.world.released))
  {
    hide WellFormed, Preserves, Drift, Managed, Forgets, EntryAddresses, ReleasedAddresses;
    if w.stored == [] {
      NothingToForget(w, cfg, script);
    } else {
      DriftForgets(w, cfg, script);
      DriftPartitions(w, w.stored, w.released, Managed(w.fips, cfg.ext), cfg, script);
      NextPassSeparates(w, cfg, script);
    }
  }

  lemma NothingToForget(w: World, cfg: Config, script: Script)
    requires w.stored == []
    ensures Forgets(w, cfg, script, w.pos) == {} && Known(w) - Known(w) == {}
  {
    hide AdoptEnd, RecoveryPlan;
  }

  lemma SameForgets(w: World, v: World, cfg: Config, script: Script)
    requires v == w.(actions := v.actions, pos := v.pos)
    ensures Known(v) == Known(w) && forall pos: nat :: Forgets(v, cfg, script, pos) == Forgets(w, cfg, script, pos)
  {
    hide Missing, Untracked, Managed, Surviving, PlanOf, MadeOf, BackOf, GivenUpOf, FipAddresses, EntryAddresses,
      ReleasedAddresses;
  }

  /** The addresses a run leaves in neither list, from script and starting state, wherever it is cut. */
  lemma RunForgets(w: World, cfg: Config, script: Script)
    requires WellFormed(w) && Consistent(w)
    ensures Known(w) - Known(Run(w, cfg, script).world) == Loses(w, cfg, script)
  {
    hide WellFormed, Preserves, Consistent, DriftAndRelist, Scale, Managed, Foreign, Known, Forgets, DroppedFrom,
      DriftEnd;
    var v := Run(w, cfg, script).world;
    if cfg.desired == 0 || Fails(script(w.pos).fault) {
      SameKnown(w, v);
    } else {
      var w1 := Listed(w, cfg);
      WellFormedListed(w, cfg);
      SameForgets(w, w1, cfg, script);
      DriftPassForgets(w1, cfg, script);
      PlannedStart(w, cfg, script);
      var d := DriftAndRelist(w1, w1.stored, w1.released, cfg, script);
      if d.Going? {
        RunScaleForgets(w, d, cfg, script);
      }
    }
  }

  lemma SameKnown(w: World, v: World)
    requires v.stored == w.stored && v.released == w.released
    ensures Known(v) == Known(w) && Known(w) - Known(v) == {}
  {}

  lemma RunScaleForgets(w: World, d: Progress<seq<Fip>>, cfg: Config, script: Script)
    requires WellFormed(w) && Consistent(w) && cfg.desired != 0 && !Fails(script(w.pos).fault)
    requires (var w1 := Listed(w, cfg); d == DriftAndRelist(w1, w1.stored, w1.released, cfg, script)) && d.Going?
    requires Known(w) - Known(d.world) == Forgets(w, cfg, script, w.pos + 1) && Known(w) <= Known(d.world)
    requires w.stored != [] ==> Disjoint(d.world.stored, d.world.released)
    ensures Known(w) - Known(Scale(d.world, w.stored, d.value, cfg, script).world) == Loses(w, cfg, script)
  {
    hide WellFormed, Preserves, Consistent, DriftAndRelist, Scale, Managed, Foreign, Known, Forgets, DroppedFrom,
      DriftEnd, Disjoint;
    var w1 := Listed(w, cfg);
    WellFormedListed(w, cfg);
    PlannedStart(w, cfg, script);
    DriftAndRelistPreserves(w1, cfg, script);
    EndIsBacked(w, cfg, script, w.pos + 1);
    if w.stored == [] {
      NoneStored(w, d.world, cfg, script);
    }
    ScaleForgets(d.world, w.stored, d.value, cfg, script);
    LostSets(Known(w), Known(d.world), Known(Scale(d.world, w.stored, d.value, cfg, script).world));
  }

  lemma NoneStored(w: World, v: World, cfg: Config, script: Script)
    requires w.stored == [] && DriftEnd(w, cfg, script, w.pos + 1).Some?
    requires Reaches(w, v, DriftEnd(w, cfg, script, w.pos + 1).value, 0)
    ensures Disjoint(v.stored, v.released)
  {
    NoEntryAddresses();
  }

  lemma LostSets(first: set<Address>, middle: set<Address>, last: set<Address>)
    requires first <= middle
    ensures first - middle == {} && first - last == first * (middle - last)
  {}

  // ------------------------------------------------------------------ many runs

  /** The floating IPs a run meets; between runs anybody may change them. */
  datatype Cloud = Cloud(fips: seq<Fip>, elsewhere: set<Address>, nextId: FipId)

  datatype Pass = Pass(cloud: Cloud, cfg: Config, script: Script)

  function Meets(w: World, c: Cloud): World {
    w.(fips := c.fips, elsewhere := c.elsewhere, nextId := c.nextId)
  }

  function AfterPasses(w: World, passes: seq<Pass>): World
    decreases |passes|
  {
    if passes == [] then w
    else
      var n := |passes| - 1;
      Run(Meets(AfterPasses(w, passes[..n]), passes[n].cloud), passes[n].cfg, passes[n].script).world
  }

  /** The state in which run i begins. */
  function StartOf(w: World, passes: seq<Pass>, i: nat): World
    requires i < |passes|
  {
    Meets(AfterPasses(w, passes[..i]), passes[i].cloud)
  }

  ghost predicate SoundPass(w: World) {
    WellFormed(w) && Consistent(w)
  }

  /** What every run meets is in order: ids are never given out twice, and keep their addresses. */
  ghost predicate SoundPasses(w: World, passes: seq<Pass>) {
    forall i :: 0 <= i < |passes| ==> SoundPass(StartOf(w, passes, i))
  }

  ghost predicate KnownAfter(w: World, passes: seq<Pass>, a: Address, i: int)
    requires 0 <= i <= |passes|
  {
    a in Known(AfterPasses(w, passes[..i]))
  }

  /** In one of the lists at the start, or after some run. */
  ghost predicate EverKnown(w: World, passes: seq<Pass>, a: Address) {
    exists i :: 0 <= i <= |passes| && KnownAfter(w, passes, a, i)
  }

  ghost predicate StoredAfter(w: World, passes: seq<Pass>, a: Address, i: int)
    requires 0 <= i <= |passes|
  {
    a in EntryAddresses(AfterPasses(w, passes[..i]).stored)
  }

  /** Run i loses the address, and no later run stores it. */
  ghost predicate LostAt(w: World, passes: seq<Pass>, a: Address, i: int)
    requires 0 <= i < |passes|
  {
    && a in Loses(StartOf(w, passes, i), passes[i].cfg, passes[i].script)
    && forall j :: i < j <= |passes| ==> !StoredAfter(w, passes, a, j)
  }

  ghost predicate Lost(w: World, passes: seq<Pass>, a: Address) {
    exists i :: 0 <= i < |passes| && LostAt(w, passes, a, i)
  }

  /**
   Over any number of runs, cut anywhere, with anything done to the cloud between them: an address once in one of
   the lists is in neither at the end exactly if some run lost it and no later run stored it.
   */
  lemma {:induction false} HistoryForgets(w: World, passes: seq<Pass>, a: Address)
    requires SoundPasses(w, passes)
    ensures EverKnown(w, passes, a) ==> (a !in Known(AfterPasses(w, passes)) <==> Lost(w, passes, a))
    ensures Lost(w, passes, a) ==> EverKnown(w, passes, a)
    decreases |passes|
  {
    hide Run, Loses, Known, SoundPass, EntryAddresses, ReleasedAddresses, EverKnown, Lost;
    if passes == [] {
      NoPasses(w, a);
    } else {
      var n := |passes| - 1;
      SoundBefore(w, passes);
      HistoryForgets(w, passes[..n], a);
      if a in Known(AfterPasses(w, passes[..n])) {
        KnownNow(w, passes[..n], a);
      }
      EverKnownStep(w, passes, a);
      LostStep(w, passes, a);
      LastRun(StartOf(w, passes, n), passes[n].cfg, passes[n].script, a);
      MetKnown(AfterPasses(w, passes[..n]), passes[n].cloud);
      assert SoundPass(StartOf(w, passes, n));
    }
  }

  lemma NoPasses(w: World, a: Address)
    ensures EverKnown(w, [], a) <==> a in Known(w)
    ensures !Lost(w, [], a) && AfterPasses(w, []) == w
  {
    var none: seq<Pass> := [];
    assert none[..0] == none;
    if a in Known(w) {
      assert KnownAfter(w, none, a, 0);
    }
  }

  lemma KnownNow(w: World, passes: seq<Pass>, a: Address)
    requires a in Known(AfterPasses(w, passes))
    ensures EverKnown(w, passes, a)
  {
    hide Known, AfterPasses;
    assert passes[..|passes|] == passes;
    assert KnownAfter(w, passes, a, |passes|);
  }

  lemma SoundBefore(w: World, passes: seq<Pass>)
    requires passes != [] && SoundPasses(w, passes)
    ensures SoundPasses(w, passes[..|passes| - 1])
    ensures SoundPass(StartOf(w, passes, |passes| - 1))
  {
    hide SoundPass, AfterPasses;
    var before := passes[..|passes| - 1];
    forall i | 0 <= i < |before| ensures SoundPass(StartOf(w, before, i)) {
      assert before[i] == passes[i] && before[..i] == passes[..i];
      assert SoundPass(StartOf(w, passes, i));
    }
  }

  lemma EverKnownStep(w: World, passes: seq<Pass>, a: Address)
    requires passes != []
    ensures EverKnown(w, passes, a)
      <==> EverKnown(w, passes[..|passes| - 1], a) || a in Known(AfterPasses(w, passes))
  {
    hide Known, AfterPasses;
    var n := |passes| - 1;
    var before := passes[..n];
    assert passes[..n + 1] == passes;
    assert forall i :: 0 <= i <= n ==> before[..i] == passes[..i];
    if i :| 0 <= i <= |before| && KnownAfter(w, before, a, i) {
      assert KnownAfter(w, passes, a, i);
    }
    if i :| 0 <= i <= |passes| && KnownAfter(w, passes, a, i) && i <= n {
      assert KnownAfter(w, before, a, i);
    }
    if a in Known(AfterPasses(w, passes)) {
      assert KnownAfter(w, passes, a, n + 1);
    }
  }

  lemma LostStep(w: World, passes: seq<Pass>, a: Address)
    requires passes != []
    ensures var n := |passes| - 1;
      var stored := a in EntryAddresses(AfterPasses(w, passes).stored);
      Lost(w, passes, a)
      <==> (!stored && (|| Lost(w, passes[..n], a)
                        || a in Loses(StartOf(w, passes, n), passes[n].cfg, passes[n].script)))
  {
    hide Loses, AfterPasses, EntryAddresses;
    var n := |passes| - 1;
    var before := passes[..n];
    assert passes[..n + 1] == passes;
    assert forall i :: 0 <= i <= n ==> before[..i] == passes[..i];
    assert forall i :: 0 <= i < n ==> before[i] == passes[i];
    assert StoredAfter(w, passes, a, n + 1) <==> a in EntryAddresses(AfterPasses(w, passes).stored);
    forall j | 0 <= j <= n ensures StoredAfter(w, before, a, j) <==> StoredAfter(w, passes, a, j) {}
    if i :| 0 <= i < |before| && LostAt(w, before, a, i) && !StoredAfter(w, passes, a, n + 1) {
      assert LostAt(w, passes, a, i);
    }
    if i :| 0 <= i < |passes| && LostAt(w, passes, a, i) && i < n {
      assert LostAt(w, before, a, i);
    }
    if a in Loses(StartOf(w, passes, n), passes[n].cfg, passes[n].script) && !StoredAfter(w, passes, a, n + 1) {
      assert LostAt(w, passes, a, n);
    }
  }

  /** A run loses the address, keeps it, stores it anew, or leaves it unknown. */
  lemma LastRun(w: World, cfg: Config, script: Script, a: Address)
    requires SoundPass(w)
    ensures var v := Run(w, cfg, script).world;
      && (a in Loses(w, cfg, script) <==> a in Known(w) && a !in Known(v))
      && (a !in Known(w) ==> (a in Known(v) <==> a in EntryAddresses(v.stored)))
      && (a in EntryAddresses(v.stored) ==> a in Known(v))
  {
    hide Run, Loses, WellFormed, Consistent, EntryAddresses, ReleasedAddresses;
    RunForgets(w, cfg, script);
    ForgottenIsNotReleased(w, cfg, script);
    var v := Run(w, cfg, script).world;
    assert a in Known(w) - Known(v) <==> a in Loses(w, cfg, script);
  }

  lemma MetKnown(w: World, c: Cloud)
    ensures Known(Meets(w, c)) == Known(w)
  {}
}
