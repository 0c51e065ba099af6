/** Runs of src/resources/prealloc/fip.py that die on the way, and what the next run can still put right. */
module FloatingIpCuts {
  import opened Common
  import opened FloatingIps
  import opened FloatingIpProofs
  import opened FloatingIpTheorems
  import opened FloatingIpLimits
  import opened FloatingIpPlans

  // ------------------------------------------------------------------ growth, under any script

  lemma {:induction false} ReclaimAllGrows(w: World, missing: seq<FipEntry>, ext: NetId, acc: Recovery, script: Script)
    returns (made: seq<Fip>)
    ensures var p := ReclaimAll(w, missing, ext, acc, script);
      && p.world.fips == w.fips + made && (forall f :: f in made ==> Fresh(f, w.nextId, ext))
      && (made == [] || |p.world.fips| <= w.quota)
      && (p.Going? ==> EntryIds(p.value.reclaimed) <= EntryIds(acc.reclaimed) + FipIds(made))
    decreases |missing|
  {
    hide ReclaimStep, EntryIds, FipIds, InPool, LostReclaim;
    made := [];
    assert w.fips + [] == w.fips;
    if missing != [] {
      StepGains(w, missing[0], ext, acc, script);
      var p := ReclaimStep(w, missing[0], ext, acc, script);
      var first := if p.world.fips == w.fips then [] else [p.world.fips[|w.fips|]];
      if p.Going? {
        var rest := ReclaimAllGrows(p.world, missing[1..], ext, p.value, script);
        made := first + rest;
        assert w.fips + first + rest == w.fips + (first + rest);
        GrownIds(acc.reclaimed, p.value.reclaimed, first, rest);
      } else {
        made := first;
      }
    }
  }

  lemma GrownIds(old1: seq<FipEntry>, new1: seq<FipEntry>, first: seq<Fip>, rest: seq<Fip>)
    requires new1 == old1 || (first != [] && new1 == old1 + [EntryOf(first[0])])
    ensures EntryIds(new1) <= EntryIds(old1) + FipIds(first)
    ensures FipIds(first + rest) == FipIds(first) + FipIds(rest)
  {
    FipIdsConcat(first, rest);
    if first != [] {
      assert first[0] in first;
      EntryIdsConcat(old1, [EntryOf(first[0])]);
    }
  }

  lemma {:induction false} CreateGrows(w: World, ext: NetId, script: Script, left: nat) returns (made: seq<Fip>)
    ensures var p := CreateAttempts(w, ext, script, left);
      && p.world.fips == w.fips + made && (forall f :: f in made ==> Fresh(f, w.nextId, ext))
      && w.nextId <= p.world.nextId && (p.Going? ==> p.value in made)
    decreases left
  {
    hide CreateOnce;
    made := [];
    assert w.fips + [] == w.fips;
    if left > 0 && script(w.pos).fault == Busy {
      made := CreateGrows(Tick(w), ext, script, left - 1);
    } else if left > 0 && script(w.pos).fault != FailsBefore {
      var v := CreateOnce(Tick(w), ext, script(w.pos).hint).0;
      made := OnceGrows(Tick(w), ext, script(w.pos).hint);
      if script(w.pos).fault == Echo {
        var rest := CreateGrows(v, ext, script, left - 1);
        assert w.fips + made + rest == w.fips + (made + rest);
        made := made + rest;
      }
    }
  }

  lemma OnceGrows(w: World, ext: NetId, hint: Address) returns (made: seq<Fip>)
    ensures var (v, r) := CreateOnce(w, ext, hint);
      && v.fips == w.fips + made && (forall f :: f in made ==> Fresh(f, w.nextId, ext))
      && w.nextId <= v.nextId && (r.Accepted? ==> r.fip in made)
  {
    hide Offer;
    made := CreateOnce(w, ext, hint).0.fips[|w.fips|..];
  }

  lemma {:induction false} CreateAllGrows(w: World, n: nat, ext: NetId, acc: seq<FipEntry>, script: Script)
    returns (made: seq<Fip>)
    ensures var p := CreateAll(w, n, ext, acc, script);
      && p.world.fips == w.fips + made && (forall f :: f in made ==> Fresh(f, w.nextId, ext))
      && (p.Going? ==> EntryIds(p.value) <= EntryIds(acc) + FipIds(made))
    decreases n
  {
    hide CreateAttempts, EntryIds, FipIds;
    made := [];
    assert w.fips + [] == w.fips;
    if n > 0 {
      var first := CreateGrows(w, ext, script, MAX_ATTEMPTS);
      made := first;
      var p := CreateCall(w, ext, script);
      if p.Going? {
        var rest := CreateAllGrows(Note(p.world, Created(p.value.id)), n - 1, ext, acc + [EntryOf(p.value)], script);
        made := first + rest;
        assert w.fips + first + rest == w.fips + (first + rest);
        CreatedIds(acc, p.value, first, rest);
      }
    }
  }

  lemma CreatedIds(acc: seq<FipEntry>, f: Fip, first: seq<Fip>, rest: seq<Fip>)
    requires f in first
    ensures EntryIds(acc + [EntryOf(f)]) <= EntryIds(acc) + FipIds(first)
    ensures FipIds(first + rest) == FipIds(first) + FipIds(rest)
  {
    EntryIdsConcat(acc, [EntryOf(f)]);
    FipIdsConcat(first, rest);
  }

  // ------------------------------------------------------------------ blocked states

  lemma BlockedIs(w: World, cfg: Config)
    ensures Blocked(w, cfg) <==> Rejected(w, MissingNow(w, cfg), cfg)
  {}

  /** Everything stored is there. */
  ghost predicate AllPresent(w: World, ext: NetId) {
    EntryIds(w.stored) <= FipIds(Managed(w.fips, ext))
  }

  lemma PresentIsUnblocked(w: World, cfg: Config)
    requires AllPresent(w, cfg.ext)
    ensures !Blocked(w, cfg)
  {
    var ids := FipIds(Managed(w.fips, cfg.ext));
    FilterNone(w.stored, (e: FipEntry) => e.id !in ids);
  }

  lemma PresentIfNoneMissing(w: World, cfg: Config)
    requires MissingNow(w, cfg) == []
    ensures AllPresent(w, cfg.ext)
  {
    assert forall e :: e in w.stored && e.id !in FipIds(Managed(w.fips, cfg.ext)) ==> e in MissingNow(w, cfg);
  }

  /** New floating IPs and adopted entries leave the missing ones as they are. */
  lemma SameMissing(w: World, v: World, made: seq<Fip>, adopted: seq<FipEntry>, cfg: Config)
    requires WellFormed(w) && v.fips == w.fips + made && v.stored == w.stored + adopted
    requires forall f :: f in made ==> Fresh(f, w.nextId, cfg.ext)
    requires EntryIds(adopted) <= FipIds(Managed(w.fips, cfg.ext))
    ensures MissingNow(v, cfg) == MissingNow(w, cfg)
  {
    var ids, ids1 := FipIds(Managed(w.fips, cfg.ext)), FipIds(Managed(v.fips, cfg.ext));
    ManagedOfNew(w.fips, made, w.nextId, cfg.ext);
    FipIdsConcat(Managed(w.fips, cfg.ext), made);
    FilterConcat(w.stored, adopted, (e: FipEntry) => e.id !in ids1);
    FilterNone(adopted, (e: FipEntry) => e.id !in ids1);
    EntriesStored(w);
    FilterSame(w.stored, (e: FipEntry) => e.id !in ids, (e: FipEntry) => e.id !in ids1);
  }

  lemma AdoptedIds(config: seq<FipEntry>, existing: seq<Fip>)
    ensures EntryIds(Entries(Untracked(config, existing))) <= FipIds(existing)
  {
    EntryIdsOfEntries(Untracked(config, existing));
  }

  // ------------------------------------------------------------------ the drift pass, cut anywhere

  /** What recovery allocates fits the raised quota, and it gets past the raise only if that was accepted. */
  lemma RecoverGrows(w: World, missing: seq<FipEntry>, cfg: Config, script: Script) returns (made: seq<Fip>)
    requires missing != []
    ensures var p := Recover(w, missing, cfg, script);
      && p.world.fips == w.fips + made && (forall f :: f in made ==> Fresh(f, w.nextId, cfg.ext))
      && (made == [] || |p.world.fips| <= cfg.desired + |missing|)
      && (p.Going? || made != [] ==> !Rejected(w, missing, cfg))
      && (p.Halted? ==> cfg.reclaim)
      && (p.Going? ==> EntryIds(p.value.reclaimed) <= FipIds(made))
  {
    hide ReclaimAll, FipIds;
    made := [];
    assert w.fips + [] == w.fips;
    if cfg.reclaim {
      var q := QuotaCall(w, cfg.desired + |missing|, script);
      if q.Going? && q.value {
        made := ReclaimAllGrows(q.world, missing, cfg.ext, Recovery([], []), script);
      }
    }
  }

  lemma UpdatedPresent(config: seq<FipEntry>, existing: seq<Fip>, made: seq<Fip>, rec: Recovery)
    requires EntryIds(rec.reclaimed) <= FipIds(made)
    ensures EntryIds(UpdatedList(config, existing, Entries(Untracked(config, existing)), rec))
         <= FipIds(existing + made)
  {
    var surviving, adopted := Surviving(config, Missing(config, existing)), Entries(Untracked(config, existing));
    SurvivingIds(config, existing);
    AdoptedIds(config, existing);
    hide Surviving, Missing, Untracked;
    EntryIdsConcat(surviving, rec.reclaimed);
    EntryIdsConcat(surviving + rec.reclaimed, adopted);
    FipIdsConcat(existing, made);
  }

  /** A drift pass that is cut leaves the state as blocked as it was; one that gets through was not blocked. */
  lemma DriftCuts(w: World, cfg: Config, script: Script)
    requires WellFormed(w)
    ensures var p := Drift(w, w.stored, w.released, Managed(w.fips, cfg.ext), cfg, script);
      && (p.Halted? ==> (Blocked(p.world, cfg) <==> Blocked(w, cfg)))
      && (p.Going? ==> !Blocked(w, cfg) && AllPresent(p.world, cfg.ext))
      && (Blocked(w, cfg) ==> p.world.fips == w.fips)
  {
    hide WellFormed, Adopt, Recover, Missing, Surviving, Managed, MergedReleased, AllPresent, Blocked, Untracked,
      UpdatedList, Entries, Preserves, Accounts, Rejected;
    var existing, missing := Managed(w.fips, cfg.ext), MissingNow(w, cfg);
    AdoptPreserves(w, w.stored, existing, cfg.ext, script) by { ManagedSubset(w.fips, cfg.ext); }
    AdoptCut(w, cfg, script);
    var a := Adopt(w, w.stored, existing, script);
    BlockedIs(w, cfg);
    if a.Going? {
      if missing == [] {
        var v := ReconcileReleased(a.world, w.released, w.stored + a.value, [], script).world;
        PresentIfNoneMissing(a.world, cfg);
        SamePresent(a.world, v, cfg.ext);
        PresentIsUnblocked(v, cfg);
        NothingRejected(w, cfg);
      } else {
        DriftTailCuts(w, a, missing, cfg, script);
      }
    }
  }

  lemma NothingRejected(w: World, cfg: Config)
    ensures !Rejected(w, [], cfg)
  {}

  lemma SamePresent(w: World, v: World, ext: NetId)
    requires v.fips == w.fips && v.stored == w.stored && AllPresent(w, ext)
    ensures AllPresent(v, ext)
  {}

  lemma AdoptCut(w: World, cfg: Config, script: Script)
    requires WellFormed(w)
    ensures var a := Adopt(w, w.stored, Managed(w.fips, cfg.ext), script);
      && a.world.fips == w.fips && a.world.strict == w.strict
      && MissingNow(a.world, cfg) == MissingNow(w, cfg) && (Blocked(a.world, cfg) <==> Blocked(w, cfg))
  {
    hide WellFormed, Missing, Managed, Blocked, EntryIds, FipIds, Untracked, Entries;
    var existing := Managed(w.fips, cfg.ext);
    var a := Adopt(w, w.stored, existing, script);
    var adopted := Entries(Untracked(w.stored, existing));
    AdoptedIds(w.stored, existing);
    assert w.fips + [] == w.fips && w.stored + [] == w.stored;
    NoEntries();
    SameMissing(w, a.world, [], if a.world.stored == w.stored then [] else adopted, cfg);
    BlockedIs(w, cfg);
    BlockedIs(a.world, cfg);
  }

  lemma DriftTailCuts(w: World, a: Progress<seq<FipEntry>>, missing: seq<FipEntry>, cfg: Config, script: Script)
    requires WellFormed(w) && missing == MissingNow(w, cfg) && missing != []
    requires a == Adopt(w, w.stored, Managed(w.fips, cfg.ext), script) && a.Going?
    requires (WellFormed(a.world) && a.world.fips == w.fips && a.world.nextId == w.nextId && a.world.strict == w.strict
              && a.value == Entries(Untracked(w.stored, Managed(w.fips, cfg.ext)))
              && a.world.stored == w.stored + a.value
              && MissingNow(a.world, cfg) == missing)
    ensures var p := Drift(w, w.stored, w.released, Managed(w.fips, cfg.ext), cfg, script);
      && (p.Halted? ==> (Blocked(p.world, cfg) <==> Blocked(w, cfg)))
      && (p.Going? ==> !Blocked(w, cfg) && AllPresent(p.world, cfg.ext))
      && (Blocked(w, cfg) ==> p.world.fips == w.fips)
  {
    hide WellFormed, Adopt, Recover, Missing, Surviving, Managed, MergedReleased, AllPresent, Blocked, Untracked,
      UpdatedList, Entries, Preserves, Accounts, FipIds, EntryIds;
    var existing := Managed(w.fips, cfg.ext);
    BlockedIs(w, cfg);
    BlockedIs(a.world, cfg);
    RecoverPreserves(a.world, missing, cfg, script);
    var made := RecoverGrows(a.world, missing, cfg, script);
    var b := Recover(a.world, missing, cfg, script);
    PreservedIds(a.world, b.world, cfg.ext);
    RecoveredBlocks(a.world, b.world, made, cfg);
    if b.Going? {
      var updated := UpdatedList(w.stored, existing, a.value, b.value);
      UpdatedPresent(w.stored, existing, made, b.value);
      ManagedOfNew(w.fips, made, w.nextId, cfg.ext);
      TailCuts(b.world, w.released, updated, b.value.newly, cfg, script);
      DriftIsTail(w, a, b, cfg, script);
    }
  }

  lemma DriftIsTail(w: World, a: Progress<seq<FipEntry>>, b: Progress<Recovery>, cfg: Config, script: Script)
    requires a == Adopt(w, w.stored, Managed(w.fips, cfg.ext), script) && a.Going? && MissingNow(w, cfg) != []
    requires b == Recover(a.world, MissingNow(w, cfg), cfg, script) && b.Going?
    ensures Drift(w, w.stored, w.released, Managed(w.fips, cfg.ext), cfg, script)
         == DriftTail(b.world, w.released, UpdatedList(w.stored, Managed(w.fips, cfg.ext), a.value, b.value),
                      b.value.newly, script)
  {
    hide Adopt, Recover, Missing, Surviving, Managed, MergedReleased;
  }

  lemma RecoveredBlocks(w: World, v: World, made: seq<Fip>, cfg: Config)
    requires WellFormed(w) && v.stored == w.stored && v.strict == w.strict && v.fips == w.fips + made
    requires forall f :: f in made ==> Fresh(f, w.nextId, cfg.ext)
    requires made == [] || |v.fips| <= cfg.desired + |MissingNow(w, cfg)|
    requires made != [] ==> !Rejected(w, MissingNow(w, cfg), cfg)
    ensures Blocked(v, cfg) <==> Blocked(w, cfg)
  {
    hide WellFormed, MissingNow, Managed, Blocked, FipIds;
    assert w.stored + [] == w.stored;
    NoEntries();
    SameMissing(w, v, made, [], cfg);
    BlockedIs(w, cfg);
    BlockedIs(v, cfg);
  }

  lemma SameLists(w: World, v: World, cfg: Config)
    requires v.fips == w.fips && v.stored == w.stored
    ensures MissingNow(v, cfg) == MissingNow(w, cfg)
  {}

  lemma TailCuts(b: World, loaded: seq<Released>, updated: seq<FipEntry>, newly: seq<Released>, cfg: Config,
                 script: Script)
    requires EntryIds(updated) <= FipIds(Managed(b.fips, cfg.ext))
    ensures var p := DriftTail(b, loaded, updated, newly, script);
      && p.world.fips == b.fips
      && (p.Going? ==> AllPresent(p.world, cfg.ext))
      && (if p.world.stored == updated then !Blocked(p.world, cfg) else Blocked(p.world, cfg) <==> Blocked(b, cfg))
  {
    hide Blocked, EntryIds, FipIds, Managed, MergedReleased, MissingNow;
    var p := DriftTail(b, loaded, updated, newly, script);
    if p.world.stored == updated {
      PresentIsUnblocked(p.world, cfg);
    } else {
      BlockedIs(b, cfg);
      BlockedIs(p.world, cfg);
      SameLists(b, p.world, cfg);
    }
  }

  // ------------------------------------------------------------------ the scaling part, cut anywhere

  /** How many of the deletions took effect, if the run dies in their loop or before the list is saved. */
  function DeletedWhenCut(script: Script, pos: nat, left: nat): (k: Option<nat>)
    ensures k.Some? ==> k.value <= left
    decreases left
  {
    match script(pos).fault
    case FailsBefore => Some(0)
    case FailsAfter => if left == 0 then None else Some(1)
    case _ =>
      if left == 0 then None
      else
        var rest := DeletedWhenCut(script, pos + 1, left - 1);
        if rest.Some? then Some(rest.value + 1) else None
  }

  lemma {:induction false} DeleteAllCut(w: World, todo: seq<Fip>, script: Script)
    ensures var p := DeleteAll(w, todo, script);
      var k := DeletedWhenCut(script, w.pos, |todo|);
      && (p.Halted? ==> k.Some? && p.world.fips == Without(w.fips, FipIds(todo[..k.value])))
      && (p.Going? ==>
            && p.world.fips == Without(w.fips, FipIds(todo)) && p.world.pos == w.pos + |todo|
            && k == if script(p.world.pos).fault == FailsBefore then Some(|todo|) else None)
    decreases |todo|
  {
    hide Without, FipIds, DeletedWhenCut;
    NoneRemoved(w.fips);
    WhenCut(script, w.pos, |todo|);
    if todo != [] {
      var c := DeleteCall(w, todo[0].id, script);
      assert todo[..0] == [] && todo[..1] == [todo[0]];
      OneRemoved(w.fips, todo[0], []);
      if c.Going? {
        DeleteAllCut(Note(c.world, Freed(todo[0].id)), todo[1..], script);
        MoreRemoved(w.fips, todo, DeletedWhenCut(script, w.pos + 1, |todo| - 1));
      }
    }
  }

  lemma WhenCut(script: Script, pos: nat, left: nat)
    ensures left == 0 && script(pos).fault == FailsBefore ==> DeletedWhenCut(script, pos, left) == Some(0)
    ensures left == 0 && script(pos).fault != FailsBefore ==> DeletedWhenCut(script, pos, left) == None
    ensures left > 0 && script(pos).fault == FailsBefore ==> DeletedWhenCut(script, pos, left) == Some(0)
    ensures left > 0 && script(pos).fault == FailsAfter ==> DeletedWhenCut(script, pos, left) == Some(1)
    ensures left > 0 && !Fails(script(pos).fault) ==>
      var rest := DeletedWhenCut(script, pos + 1, left - 1);
      DeletedWhenCut(script, pos, left) == if rest.Some? then Some(rest.value + 1) else None
  {}

  lemma MoreRemoved(fips: seq<Fip>, todo: seq<Fip>, k: Option<nat>)
    requires todo != [] && (k.Some? ==> k.value < |todo|)
    ensures Without(Without(fips, {todo[0].id}), FipIds(todo[1..])) == Without(fips, FipIds(todo))
    ensures (k.Some? ==>
      Without(Without(fips, {todo[0].id}), FipIds(todo[1..][..k.value])) == Without(fips, FipIds(todo[..k.value + 1])))
  {
    hide Without, FipIds;
    assert [todo[0]] + todo[1..] == todo;
    OneRemoved(fips, todo[0], todo[1..]);
    if k.Some? {
      assert [todo[0]] + todo[1..][..k.value] == todo[..k.value + 1];
      OneRemoved(fips, todo[0], todo[1..][..k.value]);
    }
  }

  lemma NoneRemoved(fips: seq<Fip>)
    ensures Without(fips, FipIds([])) == fips
  {
    assert FipIds([]) == {};
    WithoutNone(fips);
  }

  lemma OneRemoved(fips: seq<Fip>, f: Fip, rest: seq<Fip>)
    ensures Without(Without(fips, {f.id}), FipIds(rest)) == Without(fips, FipIds([f] + rest))
    ensures rest == [] ==> Without(fips, {f.id}) == Without(fips, FipIds([f]))
  {
    FipIdsCons([f] + rest);
    WithoutTwice(fips, {f.id}, FipIds(rest));
    assert FipIds([f]) == {f.id};
  }

  /** How many stored entries name one of these floating IPs. */
  function Naming(stored: seq<FipEntry>, ids: set<FipId>): nat {
    |Filter(stored, (e: FipEntry) => e.id in ids)|
  }

  /**
   With this many floating IPs in use, those of them listed and the stored list: the run dies while it deletes
   or before it saves the shorter list, some stored entries name deleted ones, and what is left in use
   exceeds desired plus these entries.
   */
  ghost predicate StuckFrom(used: nat, there: seq<Fip>, stored: seq<FipEntry>, cfg: Config, script: Script, pos: nat) {
    && |there| > cfg.desired && cfg.reclaim
    && var todo := ToDelete(there, cfg.desired);
       var k := DeletedWhenCut(script, pos, |todo|);
       k.Some? && var lost := Naming(stored, FipIds(todo[..k.value]));
       lost > 0 && used - k.value > cfg.desired + lost
  }

  ghost predicate StuckScaling(w: World, existing: seq<Fip>, cfg: Config, script: Script) {
    w.strict && StuckFrom(|w.fips|, existing, w.stored, cfg, script, w.pos)
  }

  lemma DownCut(w: World, existing: seq<Fip>, cfg: Config, script: Script)
    requires WellFormed(w) && existing == Managed(w.fips, cfg.ext) && |existing| > cfg.desired
    ensures var v := ScaleDown(w, existing, cfg, script).world;
      var todo := ToDelete(existing, cfg.desired);
      var k := DeletedWhenCut(script, w.pos, |todo|);
      && v.strict == w.strict
      && (k.Some? ==> v.stored == w.stored && v.fips == Without(w.fips, FipIds(todo[..k.value])))
      && (k.None? ==> EntryIds(v.stored) == FipIds(Managed(v.fips, cfg.ext)))
  {
    hide WellFormed, Managed, Without, DeleteAll, FipIds, EntryIds, DeletedWhenCut, Unused, Foreign, SetQuotaAndRecord;
    var todo := ToDelete(existing, cfg.desired);
    DeleteAllCut(w, todo, script);
    var ids := DeleteAllRemoves(w, todo, script);
    var p := DeleteAll(w, todo, script);
    Remaining(w, existing, cfg);
    assert todo[..|todo|] == todo;
    if p.Going? {
      var remaining := Without(existing, FipIds(todo));
      var excess := |existing| - cfg.desired;
      var w2 := if excess > |todo| then Note(p.world, StillInUse(excess - |todo|)) else p.world;
      StoreCut(w2, Entries(remaining), cfg, script);
      EntryIdsOfEntries(remaining);
    }
  }

  lemma StoreCut(w: World, entries: seq<FipEntry>, cfg: Config, script: Script)
    ensures var v := StoreAndSetQuota(w, entries, cfg, script).world;
      && v.fips == w.fips && v.strict == w.strict
      && v.stored == if script(w.pos).fault == FailsBefore then w.stored else entries
  {
    hide SetQuotaAndRecord;
    var p := SaveStored(w, entries, script);
    QuotaKeepsRecords(p.world, cfg.desired, |entries|, script);
  }

  /** Of the entries that are all there, those whose floating IPs were deleted go missing. */
  lemma NamingIsMissing(w: World, v: World, ids: set<FipId>, cfg: Config)
    requires AllPresent(w, cfg.ext) && v.stored == w.stored && v.fips == Without(w.fips, ids)
    ensures |MissingNow(v, cfg)| == Naming(w.stored, ids)
  {
    ManagedWithout(w.fips, cfg.ext, ids);
    var left, there := FipIds(Managed(v.fips, cfg.ext)), FipIds(Managed(w.fips, cfg.ext));
    forall e | e in w.stored ensures (e.id !in left) == (e.id in ids) {
      assert e.id in EntryIds(w.stored);
      var f :| f in Managed(w.fips, cfg.ext) && f.id == e.id;
      assert f in Without(Managed(w.fips, cfg.ext), ids) <==> f.id !in ids;
    }
    FilterSame(w.stored, (e: FipEntry) => e.id !in left, (e: FipEntry) => e.id in ids);
  }

  lemma CountAfterDeleting(w: World, existing: seq<Fip>, cfg: Config, k: nat)
    requires WellFormed(w) && existing == Managed(w.fips, cfg.ext) && |existing| > cfg.desired
    requires k <= |ToDelete(existing, cfg.desired)|
    ensures |Without(w.fips, FipIds(ToDelete(existing, cfg.desired)[..k]))| == |w.fips| - k
  {
    var gone := ToDelete(existing, cfg.desired)[..k];
    assert gone == Unused(existing)[..k];
    forall f | f in gone ensures f in w.fips && f.net == cfg.ext {
      assert f in Unused(existing);
    }
    ForeignWithout(w.fips, cfg.ext, gone, w);
    ManagedWithout(w.fips, cfg.ext, FipIds(gone));
    ManagedDistinct(w, cfg.ext);
    WithoutFirstUnused(existing, k);
    ManagedAndForeign(w.fips, cfg.ext);
    ManagedAndForeign(Without(w.fips, FipIds(gone)), cfg.ext);
  }

  lemma ScaleDownCuts(w: World, existing: seq<Fip>, cfg: Config, script: Script)
    requires WellFormed(w) && existing == Managed(w.fips, cfg.ext) && AllPresent(w, cfg.ext) && |existing| > cfg.desired
    ensures Blocked(ScaleDown(w, existing, cfg, script).world, cfg) <==> StuckScaling(w, existing, cfg, script)
  {
    hide WellFormed, Managed, Without, FipIds, EntryIds, DeletedWhenCut, Unused, Foreign, ScaleDown, Blocked,
      MissingNow,
      Naming;
    var v := ScaleDown(w, existing, cfg, script).world;
    var todo := ToDelete(existing, cfg.desired);
    var k := DeletedWhenCut(script, w.pos, |todo|);
    DownCut(w, existing, cfg, script);
    BlockedIs(v, cfg);
    if k.Some? {
      NamingIsMissing(w, v, FipIds(todo[..k.value]), cfg);
      CountAfterDeleting(w, existing, cfg, k.value);
    } else {
      PresentIsUnblocked(v, cfg);
    }
  }

  lemma ScaleUpCuts(w: World, existing: seq<Fip>, cfg: Config, script: Script)
    requires existing == Managed(w.fips, cfg.ext) && AllPresent(w, cfg.ext) && |existing| < cfg.desired
    ensures !Blocked(ScaleUp(w, existing, cfg, script).world, cfg)
  {
    hide Managed, FipIds, EntryIds, CreateAll, StoreAndSetQuota, Blocked;
    var v := ScaleUp(w, existing, cfg, script).world;
    var q := QuotaCall(w, cfg.desired, script);
    var n := cfg.desired - |existing|;
    var made := CreateAllGrows(q.world, n, cfg.ext, [], script);
    var p := CreateAll(q.world, n, cfg.ext, [], script);
    CreateAllKeepsStored(q.world, n, cfg.ext, [], script);
    ManagedOfNew(w.fips, made, w.nextId, cfg.ext);
    FipIdsConcat(existing, made);
    NoEntries();
    if q.Going? && q.value && p.Going? {
      var entries := Entries(existing) + p.value;
      EntryIdsConcat(Entries(existing), p.value);
      EntryIdsOfEntries(existing);
      StoreCut(p.world, entries, cfg, script);
    }
    PresentIsUnblocked(v, cfg);
  }

  lemma {:induction false} CreateAllKeepsStored(w: World, n: nat, ext: NetId, acc: seq<FipEntry>, script: Script)
    ensures CreateAll(w, n, ext, acc, script).world.stored == w.stored
    decreases n
  {
    hide CreateAttempts;
    if n > 0 {
      var p := CreateCall(w, ext, script);
      CreateFrame(w, ext, script, MAX_ATTEMPTS);
      if p.Going? {
        CreateAllKeepsStored(Note(p.world, Created(p.value.id)), n - 1, ext, acc + [EntryOf(p.value)], script);
      }
    }
  }

  lemma ExactCuts(w: World, config: seq<FipEntry>, existing: seq<Fip>, cfg: Config, script: Script)
    requires existing == Managed(w.fips, cfg.ext) && AllPresent(w, cfg.ext) && |existing| == cfg.desired
    ensures !Blocked(ExactMatch(w, config, existing, cfg, script).world, cfg)
  {
    hide Managed, FipIds, EntryIds, SetQuotaAndRecord, Blocked;
    var v := ExactMatch(w, config, existing, cfg, script).world;
    QuotaKeepsRecords(w, cfg.desired, |existing|, script);
    EntryIdsOfEntries(existing);
    assert v.fips == w.fips && (v.stored == w.stored || v.stored == Entries(existing));
    PresentIsUnblocked(v, cfg);
  }

  lemma ScaleCuts(w: World, config: seq<FipEntry>, existing: seq<Fip>, cfg: Config, script: Script)
    requires WellFormed(w) && existing == Managed(w.fips, cfg.ext) && AllPresent(w, cfg.ext)
    ensures Blocked(Scale(w, config, existing, cfg, script).world, cfg) <==> StuckScaling(w, existing, cfg, script)
  {
    hide WellFormed, Managed, AllPresent, Blocked, ScaleDown, ScaleUp, ExactMatch;
    if |existing| == cfg.desired {
      ExactCuts(w, config, existing, cfg, script);
    } else if |existing| > cfg.desired {
      ScaleDownCuts(w, existing, cfg, script);
    } else {
      ScaleUpCuts(w, existing, cfg, script);
    }
  }

  // ------------------------------------------------------------------ whole runs

  lemma DriftAndRelistCuts(w: World, cfg: Config, script: Script)
    requires WellFormed(w)
    ensures var p := DriftAndRelist(w, w.stored, w.released, cfg, script);
      && WellFormed(p.world)
      && (p.Halted? ==> (Blocked(p.world, cfg) <==> Blocked(w, cfg)))
      && (p.Going? ==> !Blocked(w, cfg) && AllPresent(p.world, cfg.ext) && p.value == Managed(p.world.fips, cfg.ext))
      && (Blocked(w, cfg) ==> p.world.fips == w.fips)
  {
    hide WellFormed, Drift, Managed, AllPresent, Blocked, Preserves;
    DriftAndRelistPreserves(w, cfg, script);
    DriftCuts(w, cfg, script);
    NothingStored(w, cfg);
    var p := DriftAndRelist(w, w.stored, w.released, cfg, script);
    var d := Drift(w, w.stored, w.released, Managed(w.fips, cfg.ext), cfg, script);
    if w.stored != [] && d.Going? {
      SamePresent(d.world, p.world, cfg.ext);
      PresentIsUnblocked(p.world, cfg);
    }
  }

  lemma NothingStored(w: World, cfg: Config)
    ensures w.stored == [] ==> !Blocked(w, cfg) && AllPresent(w, cfg.ext)
  {}

  /** The run gets as far as scaling and is stuck there, from script and starting state. */
  ghost predicate Stuck(w: World, cfg: Config, script: Script) {
    && w.strict && !Fails(script(w.pos).fault)
    && var end := DriftEnd(w, cfg, script, w.pos + 1);
       end.Some?
       && StuckFrom(|w.fips| + |end.value.made|, Managed(w.fips, cfg.ext) + end.value.made, end.value.stored, cfg,
                    script, end.value.pos)
  }

  /** Up to scaling, a run does what is planned. */
  lemma PlannedStart(w: World, cfg: Config, script: Script)
    requires WellFormed(w)
    ensures var w1 := Listed(w, cfg);
      var d := DriftAndRelist(w1, w1.stored, w1.released, cfg, script);
      var end := DriftEnd(w, cfg, script, w.pos + 1);
      && (d.Going? <==> end.Some?)
      && (d.Going? ==>
            && Reaches(w, d.world, end.value, 0) && d.world.strict == w.strict
            && d.value == Managed(w.fips, cfg.ext) + end.value.made)
  {
    hide WellFormed, Preserves, DriftAndRelist, DriftEnd, Managed, Foreign;
    var w1 := Listed(w, cfg);
    WellFormedListed(w, cfg);
    DriftEndHolds(w1, cfg, script);
    SamePlans(w, w1, cfg, script);
    DriftAndRelistPreserves(w1, cfg, script);
    var d := DriftAndRelist(w1, w1.stored, w1.released, cfg, script);
    PreservedIds(w1, d.world, cfg.ext);
    if d.Going? {
      MadeIsManaged(w1, cfg, script);
    }
  }

  lemma MadeIsManaged(w: World, cfg: Config, script: Script)
    requires WellFormed(w) && DriftEnd(w, cfg, script, w.pos).Some?
    ensures var made := DriftEnd(w, cfg, script, w.pos).value.made;
      Managed(w.fips + made, cfg.ext) == Managed(w.fips, cfg.ext) + made
  {
    hide Missing, Untracked, Managed, Surviving, MergedReleased, PlanOf, MadeOf, BackOf, GivenUpOf, FipAddresses;
    var missing := MissingNow(w, cfg);
    var end := DriftEnd(w, cfg, script, w.pos).value;
    ManagedOfNew(w.fips, [], w.nextId, cfg.ext);
    var p := AdoptEnd(w, cfg, script, w.pos);
    if w.stored != [] && missing != [] && cfg.reclaim {
      var plan := PlanOf(FipAddresses(w.fips), w.elsewhere, cfg.desired + |missing| - |w.fips|, missing, script,
                         p.value + 1);
      MadeAreFresh(missing, plan.fates, cfg.ext, w.nextId, w.nextId);
      ManagedOfNew(w.fips, MadeOf(missing, plan.fates, cfg.ext, w.nextId), w.nextId, cfg.ext);
    }
  }

  lemma {:induction false} MadeAreFresh(missing: seq<FipEntry>, fates: seq<Fate>, ext: NetId, id: FipId, from: FipId)
    requires from <= id
    ensures forall f :: f in MadeOf(missing, fates, ext, id) ==> Fresh(f, from, ext)
    decreases |fates|
  {
    if fates != [] && missing != [] {
      MadeAreFresh(missing[1..], fates[1..], ext, if fates[0] == Denied then id else id + 1, from);
    }
  }

  lemma SameBlocked(w: World, v: World, cfg: Config)
    requires v.fips == w.fips && v.stored == w.stored && v.strict == w.strict
    ensures Blocked(v, cfg) <==> Blocked(w, cfg)
  {}

  /**
   What a run leaves is blocked exactly if it began so, or the run died in its scale-down with too little
   deleted. Whatever else happens, and wherever else a run is cut, a later run is not blocked by it.
   A blocked run changes no floating IP.
   */
  lemma CutsBlock(w: World, cfg: Config, script: Script)
    requires WellFormed(w) && cfg.desired >= 1
    ensures var e := Run(w, cfg, script);
      && (Blocked(e.world, cfg) <==> Blocked(w, cfg) || Stuck(w, cfg, script))
      && (Blocked(w, cfg) ==> e.outcome == Aborted && e.world.fips == w.fips && !Stuck(w, cfg, script))
  {
    hide WellFormed, DriftAndRelist, DriftEnd, Scale, Managed, Foreign, Blocked, StuckFrom, AllPresent;
    var e := Run(w, cfg, script);
    var w1 := Listed(w, cfg);
    WellFormedListed(w, cfg);
    SameBlocked(w, w1, cfg);
    if Fails(script(w.pos).fault) {
      SameBlocked(w, e.world, cfg);
    } else {
      DriftAndRelistCuts(w1, cfg, script);
      PlannedStart(w, cfg, script);
      var d := DriftAndRelist(w1, w1.stored, w1.released, cfg, script);
      if d.Going? {
        ScaleCuts(d.world, w.stored, d.value, cfg, script);
      }
    }
  }

  /** The state after a run for each script in turn. */
  function AfterRuns(w: World, cfg: Config, scripts: seq<Script>): World
    decreases |scripts|
  {
    if scripts == [] then w else AfterRuns(Run(w, cfg, scripts[0]).world, cfg, scripts[1..])
  }

  /** Once blocked, always blocked: no run of any number, under any scripts, completes. */
  lemma {:induction false} NeverHeals(w: World, cfg: Config, scripts: seq<Script>, last: Script)
    requires WellFormed(w) && cfg.desired >= 1 && Blocked(w, cfg)
    ensures var v := AfterRuns(w, cfg, scripts);
      Blocked(v, cfg) && v.fips == w.fips && Run(v, cfg, last).outcome == Aborted
    decreases |scripts|
  {
    hide WellFormed, Run, Blocked, Preserves;
    if scripts == [] {
      CutsBlock(w, cfg, last);
    } else {
      CutsBlock(w, cfg, scripts[0]);
      RunPreserves(w, cfg, scripts[0]);
      NeverHeals(Run(w, cfg, scripts[0]).world, cfg, scripts[1..], last);
    }
  }

  /**
   Healing: whatever a first run did and wherever it was cut, a served run then reaches the target, exactly
   unless the start was blocked or the first run was stuck in its scale-down.
   */
  lemma CutRunsHeal(w: World, cfg: Config, anyScript: Script, script: Script)
    requires Calm(script) && WellFormed(w) && cfg.desired >= 1 && Foreign(w.fips, cfg.ext) == []
    ensures var v := Run(w, cfg, anyScript).world;
      var e := Run(v, cfg, script);
      && (e.outcome == Completed <==> !Blocked(w, cfg) && !Stuck(w, cfg, anyScript))
      && (e.outcome == Completed ==>
            |e.world.fips| == Max(cfg.desired, InUseCount(v, cfg)) && e.world.quota == |e.world.fips|)
  {
    hide WellFormed, Run, Blocked, Preserves, Stuck, Managed, Unused;
    var v := Run(w, cfg, anyScript).world;
    RunPreserves(w, cfg, anyScript);
    NoForeignArises(w, v, cfg.ext) by { assert Preserves(w, v, cfg.ext); }
    CutsBlock(w, cfg, anyScript);
    CleanRun(v, cfg, script);
  }

  // ------------------------------------------------------------------ stuck, from what can be seen beforehand

  predicate DistinctEntries(stored: seq<FipEntry>) {
    forall i, j :: 0 <= i < j < |stored| ==> stored[i].id != stored[j].id
  }

  /** Cloud and file agree, and the released list has no address that is active. */
  ghost predicate InStep(w: World, cfg: Config) {
    && Foreign(w.fips, cfg.ext) == [] && w.stored != []
    && EntryIds(w.stored) == FipIds(w.fips) && DistinctEntries(w.stored)
    && MergedReleased(w.released, [], w.stored) == w.released
  }

  lemma {:induction false} NamingCount(stored: seq<FipEntry>, ids: set<FipId>)
    requires DistinctEntries(stored) && ids <= EntryIds(stored)
    ensures Naming(stored, ids) == |ids|
  {
    if stored == [] {
      assert ids == {};
    } else {
      var e, rest := stored[0], stored[1..];
      assert forall i :: 0 <= i < |rest| ==> rest[i] == stored[i + 1];
      assert forall x :: x in stored <==> x == e || x in rest;
      assert forall x :: x in rest ==> x.id != e.id;
      NamingCount(rest, ids - {e.id});
      FilterSame(rest, (x: FipEntry) => x.id in ids - {e.id}, (x: FipEntry) => x.id in ids);
    }
  }

  lemma {:induction false} FipIdCount(fips: seq<Fip>)
    requires DistinctIdsIn(fips)
    ensures |FipIds(fips)| == |fips|
  {
    if fips == [] {
      assert FipIds(fips) == {};
    } else {
      DistinctTail(fips);
      FipIdCount(fips[1..]);
      FipIdsCons(fips);
    }
  }

  lemma DistinctPrefix(fips: seq<Fip>, k: nat)
    requires DistinctIdsIn(fips) && k <= |fips|
    ensures DistinctIdsIn(fips[..k])
  {}

  lemma UnusedDistinct(w: World)
    requires WellFormed(w)
    ensures DistinctIdsIn(Unused(w.fips)) && FipIds(Unused(w.fips)) <= FipIds(w.fips)
  {
    FilterNoDup(w.fips, (f: Fip) => !f.inUse);
  }

  /** A drift pass over lists in step makes no call and no save, whatever the script. */
  lemma StepDrift(w: World, cfg: Config, script: Script)
    requires InStep(w, cfg)
    ensures Drift(w, w.stored, w.released, Managed(w.fips, cfg.ext), cfg, script) == Going(w, ())
  {
    NoForeignAllManaged(w.fips, cfg.ext);
    SurvivingIds(w.stored, w.fips);
    var missing, untracked := Missing(w.stored, w.fips), Untracked(w.stored, w.fips);
    assert missing == [] by {
      assert forall e :: e in w.stored ==> e.id in EntryIds(w.stored);
      FilterNone(w.stored, (e: FipEntry) => e.id !in FipIds(w.fips));
    }
    assert untracked == [] by {
      FilterNone(w.fips, (f: Fip) => f.id !in EntryIds(w.stored));
    }
    hide Missing, Untracked, MergedReleased;
    assert w.actions + AdoptionNotes(untracked) == w.actions;
    assert w.stored + Entries(untracked) == w.stored;
  }

  /**
   With cloud and file in step, a run over a strict API with reclaiming on blocks all later ones exactly if
   it dies in its scale-down after k deletions, k at least one and twice k less than the excess.
   */
  lemma CutScaleDownBlocks(w: World, cfg: Config, script: Script)
    requires WellFormed(w) && cfg.desired >= 1 && InStep(w, cfg) && cfg.reclaim && w.strict
    ensures Blocked(Run(w, cfg, script).world, cfg)
      <==> (&& |w.fips| > cfg.desired && !Fails(script(w.pos).fault)
            && var k := DeletedWhenCut(script, w.pos + 1, Min(|w.fips| - cfg.desired, |Unused(w.fips)|));
               k.Some? && 0 < k.value && 2 * k.value < |w.fips| - cfg.desired)
  {
    hide WellFormed, Run, Blocked, Foreign, Unused, DeletedWhenCut, StuckFrom, DriftEnd, InStep;
    CutsBlock(w, cfg, script);
    StepUnblocked(w, cfg);
    StepEnd(w, cfg, script);
    StuckInStep(w, cfg, script);
    assert w.fips + [] == w.fips;
  }

  /** In step, scaling begins where the listing ended. */
  lemma StepEnd(w: World, cfg: Config, script: Script)
    requires WellFormed(w) && InStep(w, cfg)
    ensures DriftEnd(w, cfg, script, w.pos + 1) == Some(End([], w.stored, w.released, w.pos + 1))
    ensures Managed(w.fips, cfg.ext) == w.fips
  {
    hide WellFormed, Foreign, Managed, Drift, EntryIds, FipIds, MergedReleased, DriftEnd;
    NoForeignAllManaged(w.fips, cfg.ext);
    var w1 := Listed(w, cfg);
    assert w1 == Tick(w.(actions := []));
    StepDrift(w1, cfg, script);
    PlannedStart(w, cfg, script);
    assert DriftAndRelist(w1, w1.stored, w1.released, cfg, script) == Going(w1, w.fips);
    StepPlan(w, w1, cfg, script);
  }

  /** Of entries that name each floating IP once, as many name deleted ones as were deleted. */
  lemma StuckInStep(w: World, cfg: Config, script: Script)
    requires WellFormed(w) && InStep(w, cfg) && cfg.reclaim
    ensures StuckFrom(|w.fips|, w.fips, w.stored, cfg, script, w.pos + 1)
      <==> (&& |w.fips| > cfg.desired
            && var k := DeletedWhenCut(script, w.pos + 1, Min(|w.fips| - cfg.desired, |Unused(w.fips)|));
               k.Some? && 0 < k.value && 2 * k.value < |w.fips| - cfg.desired)
  {
    hide WellFormed, Foreign, Unused, EntryIds, FipIds, DeletedWhenCut, Naming, MergedReleased;
    if |w.fips| > cfg.desired {
      var todo := ToDelete(w.fips, cfg.desired);
      var k := DeletedWhenCut(script, w.pos + 1, |todo|);
      if k.Some? {
        UnusedDistinct(w);
        DistinctPrefix(Unused(w.fips), k.value);
        assert todo[..k.value] == Unused(w.fips)[..k.value];
        FipIdCount(todo[..k.value]);
        PrefixIds(Unused(w.fips), k.value);
        NamingCount(w.stored, FipIds(todo[..k.value]));
      }
    }
  }

  /** In step, nothing is planned. */
  lemma StepPlan(w: World, w1: World, cfg: Config, script: Script)
    requires w1.fips == w.fips && w1.stored == w.stored && w1.released == w.released && w1.pos == w.pos + 1
    requires DriftEnd(w, cfg, script, w.pos + 1).Some? && Reaches(w, w1, DriftEnd(w, cfg, script, w.pos + 1).value, 0)
    ensures DriftEnd(w, cfg, script, w.pos + 1) == Some(End([], w.stored, w.released, w.pos + 1))
  {
    hide DriftEnd;
    var made := DriftEnd(w, cfg, script, w.pos + 1).value.made;
    assert |w.fips + made| == |w.fips| + |made|;
  }

  lemma PrefixIds(fips: seq<Fip>, k: nat)
    requires k <= |fips|
    ensures FipIds(fips[..k]) <= FipIds(fips)
  {
    assert forall f :: f in fips[..k] ==> f in fips;
  }

  lemma StepUnblocked(w: World, cfg: Config)
    requires InStep(w, cfg)
    ensures !Blocked(w, cfg)
  {
    NoForeignAllManaged(w.fips, cfg.ext);
    PresentIsUnblocked(w, cfg);
  }

  /** n unattached floating IPs, all of them stored. */
  function Idle(n: nat): World {
    var fips := seq(n, i requires 0 <= i < n => Fip(i, 10 + i, 0, false));
    World(fips, n, true, {}, n, Entries(fips), [], NoSnapshot, [], 0, 0, 0)
  }

  lemma IdleInStep(n: nat, cfg: Config)
    requires n > 0 && cfg.ext == 0
    ensures WellFormed(Idle(n)) && InStep(Idle(n), cfg) && Unused(Idle(n).fips) == Idle(n).fips
    ensures |Idle(n).fips| == n && Idle(n).strict && Idle(n).pos == 0
  {
    var w := Idle(n);
    forall f, g | f in w.fips && g in w.fips && f != g ensures f.id != g.id && f.address != g.address {}
    FilterNone(w.fips, (f: Fip) => f.net != 0);
    FilterAll(w.fips, (f: Fip) => !f.inUse);
    EntryIdsOfEntries(w.fips);
  }

  lemma FirstDeletion(script: Script, pos: nat, left: nat)
    requires script(pos).fault == FailsAfter && left > 0
    ensures DeletedWhenCut(script, pos, left) == Some(1)
  {}

  /** Four unattached floating IPs, one wanted, the run dies after its first deletion: no later run completes. */
  lemma CutExample(script: Script, scripts: seq<Script>, last: Script)
    requires script(0).fault == Fine && script(1).fault == FailsAfter
    ensures var w, cfg := Idle(4), Config(1, true, true, 0);
      !Blocked(w, cfg) && Run(AfterRuns(Run(w, cfg, script).world, cfg, scripts), cfg, last).outcome == Aborted
  {
    hide Run, Blocked, WellFormed, InStep, AfterRuns, Unused, DeletedWhenCut, Idle, Preserves;
    var w, cfg := Idle(4), Config(1, true, true, 0);
    IdleInStep(4, cfg);
    FirstDeletion(script, 1, 3);
    StepUnblocked(w, cfg);
    CutScaleDownBlocks(w, cfg, script);
    RunPreserves(w, cfg, script);
    NeverHeals(Run(w, cfg, script).world, cfg, scripts, last);
  }

  /** Three floating IPs, one wanted, and the only stored one deleted by somebody else: no run ever completes. */
  lemma BlockedExample(scripts: seq<Script>, last: Script)
    ensures var w := Idle(3).(stored := [FipEntry(3, 99, false)], nextId := 4);
      Run(AfterRuns(w, Config(1, true, true, 0), scripts), Config(1, true, true, 0), last).outcome == Aborted
  {
    hide Run, Blocked, WellFormed, AfterRuns, Idle;
    IdleBlocked(Idle(3), FipEntry(3, 99, false), Config(1, true, true, 0));
    IdleInStep(3, Config(1, true, true, 0));
    NeverHeals(Idle(3).(stored := [FipEntry(3, 99, false)], nextId := 4), Config(1, true, true, 0), scripts, last);
  }

  lemma IdleBlocked(w: World, gone: FipEntry, cfg: Config)
    requires w == Idle(3) && gone.id == 3 && cfg == Config(1, true, true, 0)
    ensures var v := w.(stored := [gone], nextId := 4); WellFormed(v) && Blocked(v, cfg)
  {
    hide Blocked, Missing, Managed, Idle, InStep;
    IdleInStep(3, cfg);
    var v := w.(stored := [gone], nextId := 4);
    IdleIds(w, gone, cfg);
    BlockedIs(v, cfg);
  }

  lemma IdleIds(w: World, gone: FipEntry, cfg: Config)
    requires w == Idle(3) && gone.id == 3 && cfg.ext == 0
    ensures MissingNow(w.(stored := [gone], nextId := 4), cfg) == [gone] && forall f :: f in w.fips ==> f.id < 3
  {
    FilterAll(w.fips, (f: Fip) => f.net == 0);
    FilterAll([gone], (e: FipEntry) => e.id !in FipIds(w.fips));
  }
}
