/**
 What a run of src/resources/prealloc/fip.py reports: the actions it returns, in order, from the script and the
 state it starts from.
 */
module FloatingIpReports {
  import opened Common
  import opened FloatingIps
  import opened FloatingIpProofs
  import opened FloatingIpTheorems
  import opened FloatingIpLimits
  import opened FloatingIpPlans
  import opened FloatingIpCuts
  import opened FloatingIpResults

  // ---------- What there is to report ----------

  function FreedNotes(fips: seq<Fip>): seq<Action> {
    seq(|fips|, i requires 0 <= i < |fips| => Freed(fips[i].id))
  }

  function AdoptedNotes(fips: seq<Fip>): seq<Action> {
    seq(|fips|, i requires 0 <= i < |fips| => Adopted(fips[i].id))
  }

  function DeletedNotes(lost: seq<FipEntry>): seq<Action> {
    seq(|lost|, i requires 0 <= i < |lost| => Gone(lost[i].address))
  }

  function CreatedNotes(entries: seq<FipEntry>): seq<Action> {
    seq(|entries|, i requires 0 <= i < |entries| => Created(entries[i].id))
  }

  function FateNotes(missing: seq<FipEntry>, fates: seq<Fate>): seq<Action>
    requires |fates| == |missing|
  {
    seq(|missing|, i requires 0 <= i < |missing| =>
      if fates[i] == PutBack then Reclaimed(missing[i].address) else Taken(missing[i].address))
  }

  /** A quota that ends above what is asked for is reported: usage where the API insists on it, else the count. */
  function QuotaNotes(w: World, desired: int, actual: int): seq<Action> {
    if w.strict && |w.fips| > Max(desired, actual) then [QuotaAbove(|w.fips|)]
    else if actual > desired then [QuotaAbove(actual)]
    else []
  }

  // ---------- Phase by phase ----------

  lemma QuotaReports(w: World, desired: int, actual: int, script: Script)
    ensures var p := SetQuotaAndRecord(w, desired, actual, script);
      p.Going? ==>
        && p.world.actions == w.actions + QuotaNotes(w, desired, actual)
        && (p.value.Some? <==> QuotaNotes(w, desired, actual) != [])
        && p.world.fips == w.fips && p.world.strict == w.strict && p.world.stored == w.stored
  {
    assert w.actions + [] == w.actions;
  }

  lemma {:induction false} DeletesReport(w: World, todo: seq<Fip>, script: Script)
    ensures var p := DeleteAll(w, todo, script);
      p.Going? ==> p.world.actions == w.actions + FreedNotes(todo)
    decreases |todo|
  {
    if todo == [] {
      assert w.actions + FreedNotes([]) == w.actions;
    } else {
      var c := DeleteCall(w, todo[0].id, script);
      if c.Going? {
        DeletesReport(Note(c.world, Freed(todo[0].id)), todo[1..], script);
        assert FreedNotes(todo) == [Freed(todo[0].id)] + FreedNotes(todo[1..]);
      }
    }
  }

  lemma {:induction false} CreatesReport(w: World, n: nat, net: NetId, acc: seq<FipEntry>, script: Script)
    ensures var p := CreateAll(w, n, net, acc, script);
      p.Going? ==>
        && |p.value| == |acc| + n && acc <= p.value && p.world.strict == w.strict
        && p.world.actions == w.actions + CreatedNotes(p.value[|acc|..])
    decreases n
  {
    hide CreateCall;
    if n == 0 {
      assert w.actions + CreatedNotes([]) == w.actions;
    } else {
      CreateKeeps(w, net, script);
      var p := CreateCall(w, net, script);
      if p.Going? {
        var e := EntryOf(p.value);
        var w1 := Note(p.world, Created(p.value.id));
        CreatesReport(w1, n - 1, net, acc + [e], script);
        var q := CreateAll(w1, n - 1, net, acc + [e], script);
        if q.Going? {
          assert q.value[|acc|] == e;
          assert CreatedNotes(q.value[|acc|..]) == [Created(e.id)] + CreatedNotes(q.value[|acc| + 1..]);
        }
      }
    }
  }

  lemma CreateKeeps(w: World, net: NetId, script: Script)
    ensures var p := CreateCall(w, net, script); p.world.actions == w.actions && p.world.strict == w.strict
  {
    CreateFrame(w, net, script, MAX_ATTEMPTS);
  }

  lemma StepReports(w: World, e: FipEntry, ext: NetId, acc: Recovery, script: Script)
    ensures var p := ReclaimStep(w, e, ext, acc, script);
      var back := Possible(w, e.address) && FirstReply(script, w.pos, MAX_ATTEMPTS) != Echo;
      p.Going? ==> p.world.actions == w.actions + [if back then Reclaimed(e.address) else Taken(e.address)]
  {
    hide ReclaimAttempts, InPool, FirstReply, Answered;
    ReclaimExactly(w, ext, e.address, script, MAX_ATTEMPTS);
    ReclaimFrame(w, ext, e.address, script, MAX_ATTEMPTS);
  }

  ghost predicate Noted(w: World, missing: seq<FipEntry>, plan: Plan, p: Progress<Recovery>) {
    p.Going? ==> |plan.fates| == |missing| && p.world.actions == w.actions + FateNotes(missing, plan.fates)
  }

  lemma {:induction false} ReclaimsReport(w: World, missing: seq<FipEntry>, ext: NetId, acc: Recovery, script: Script)
    ensures Noted(w, missing, PlanOf(FipAddresses(w.fips), w.elsewhere, w.quota - |w.fips|, missing, script, w.pos),
                  ReclaimAll(w, missing, ext, acc, script))
    decreases |missing|
  {
    hide ReclaimStep, FirstReply, Answered, FipAddresses;
    if missing == [] {
      assert w.actions + FateNotes([], []) == w.actions;
    } else {
      hide Noted, Possible, FateNotes;
      StepExactly(w, missing[0], ext, acc, script);
      StepReports(w, missing[0], ext, acc, script);
      var p := ReclaimStep(w, missing[0], ext, acc, script);
      if p.Going? {
        AddressesAfter(w, p.world, missing[0].address, ext);
        PlanStep(w, p.world, missing, script);
        ReclaimsReport(p.world, missing[1..], ext, p.value, script);
        hide PlanOf;
        CarryNotes(w, p.world, missing,
                   PlanOf(FipAddresses(w.fips), w.elsewhere, w.quota - |w.fips|, missing, script, w.pos),
                   PlanOf(FipAddresses(p.world.fips), p.world.elsewhere, p.world.quota - |p.world.fips|, missing[1..],
                          script, p.world.pos),
                   ReclaimAll(p.world, missing[1..], ext, p.value, script));
      } else {
        NothingNoted(w, missing, p.world);
      }
    }
  }

  lemma NothingNoted(w: World, missing: seq<FipEntry>, v: World)
    ensures forall plan :: Noted(w, missing, plan, Halted(v))
  {}

  lemma CarryNotes(w: World, v: World, missing: seq<FipEntry>, plan: Plan, rest: Plan, p: Progress<Recovery>)
    requires missing != [] && plan.fates != [] && plan == Plan([plan.fates[0]] + rest.fates, rest.end)
    requires v.actions
          == w.actions + [if plan.fates[0] == PutBack then Reclaimed(missing[0].address) else Taken(missing[0].address)]
    requires Noted(v, missing[1..], rest, p)
    ensures Noted(w, missing, plan, p)
  {
    hide FateNotes;
    if p.Going? {
      FateNotesCons(missing, plan.fates, rest.fates);
    }
  }

  lemma FateNotesCons(missing: seq<FipEntry>, fates: seq<Fate>, rest: seq<Fate>)
    requires missing != [] && fates != [] && fates == [fates[0]] + rest && |rest| == |missing| - 1
    ensures FateNotes(missing, fates)
         == [if fates[0] == PutBack then Reclaimed(missing[0].address) else Taken(missing[0].address)]
          + FateNotes(missing[1..], rest)
  {}

  // ---------- The drift pass ----------

  /** The floating IPs adopted, and then each lost entry with what became of it. */
  ghost function DriftNotes(w: World, cfg: Config, script: Script, pos: nat): seq<Action> {
    var lost, fates := LostNow(w, cfg), FatesOf(w, cfg, script, pos);
    AdoptedNotes(Unnamed(w, cfg))
    + if lost == [] then [] else if !cfg.reclaim then DeletedNotes(lost)
      else if |fates| == |lost| then FateNotes(lost, fates) else []
  }

  lemma RecoveryReports(w: World, missing: seq<FipEntry>, cfg: Config, script: Script)
    requires missing != []
    ensures var p := Recover(w, missing, cfg, script);
      var fates := PlanOf(FipAddresses(w.fips), w.elsewhere, cfg.desired + |missing| - |w.fips|, missing, script,
                          w.pos + 1).fates;
      p.Going? ==>
        if cfg.reclaim then |fates| == |missing| && p.world.actions == w.actions + FateNotes(missing, fates)
        else p.world.actions == w.actions + DeletedNotes(missing)
  {
    hide ReclaimAll, PlanOf, FipAddresses;
    assert GoneNotes(missing) == DeletedNotes(missing);
    if cfg.reclaim {
      var q := QuotaCall(w, cfg.desired + |missing|, script);
      if q.Going? && q.value {
        ReclaimsReport(q.world, missing, cfg.ext, Recovery([], []), script);
      }
    }
  }

  lemma DriftReports(w: World, cfg: Config, script: Script)
    requires w.stored != []
    ensures var p := Drift(w, w.stored, w.released, Managed(w.fips, cfg.ext), cfg, script);
      var pos := AdoptEnd(w, cfg, script, w.pos);
      p.Going? ==> pos.Some? && p.world.actions == w.actions + DriftNotes(w, cfg, script, pos.value)
  {
    hide Adopt, Recover, Missing, Untracked, Surviving, Managed, MergedReleased, AdoptEnd, PlanOf, FipAddresses,
      LostNow, Unnamed;
    AdoptHolds(w, cfg, script);
    DriftSets(w, cfg);
    var a := Adopt(w, w.stored, Managed(w.fips, cfg.ext), script);
    AdoptReports(w, cfg, script);
    if a.Going? && LostNow(w, cfg) != [] {
      RecoveryReports(a.world, LostNow(w, cfg), cfg, script);
      Joins(w.actions, AdoptedNotes(Unnamed(w, cfg)), Recover(a.world, LostNow(w, cfg), cfg, script).world.actions);
    }
  }

  lemma AdoptReports(w: World, cfg: Config, script: Script)
    ensures var a := Adopt(w, w.stored, Managed(w.fips, cfg.ext), script);
      a.Going? ==> a.world.actions == w.actions + AdoptedNotes(UntrackedNow(w, cfg))
  {
    hide Untracked, Managed;
    assert AdoptionNotes(UntrackedNow(w, cfg)) == AdoptedNotes(UntrackedNow(w, cfg));
  }

  lemma Joins(a: seq<Action>, b: seq<Action>, c: seq<Action>)
    ensures forall d {:trigger a + b + d} :: a + b + d == a + (b + d)
    ensures a + b + [] == a + b && b + [] == b
  {}

  // ---------- The scaling part ----------

  /** The changes to a pool that holds `there`: what is deleted and what stays in excess, or what is created. */
  ghost predicate AreChanges(there: seq<Fip>, stored: seq<FipEntry>, cfg: Config, notes: seq<Action>) {
    var excess := |there| - cfg.desired;
    if excess > 0 then
      var unattached := Filter(there, (f: Fip) => !f.inUse);
      var k := Min(excess, |unattached|);
      notes == FreedNotes(unattached[..k]) + if k < excess then [StillInUse(excess - k)] else []
    else if excess < 0 then |stored| >= |there| && notes == CreatedNotes(stored[|there|..])
    else notes == []
  }

  /** How many floating IPs a run that completes counts at its end. */
  function Counted(there: seq<Fip>, cfg: Config): int {
    Max(cfg.desired, |there| - |Filter(there, (f: Fip) => !f.inUse)|)
  }

  /** What the scaling part adds to the report, seen from the world v it ends in. */
  ghost predicate ScaleNotes(v: World, there: seq<Fip>, cfg: Config, notes: seq<Action>) {
    var quota := QuotaNotes(v, cfg.desired, Counted(there, cfg));
    exists changes :: AreChanges(there, v.stored, cfg, changes)
      && notes == changes + quota + if |there| == cfg.desired && quota == [] then [AlreadyAllocated] else []
  }

  ghost predicate Reports(w: World, there: seq<Fip>, cfg: Config, e: Exit) {
    e.outcome == Completed ==>
      exists notes :: e.world.actions == w.actions + notes && ScaleNotes(e.world, there, cfg, notes)
  }

  lemma StoreReports(w: World, entries: seq<FipEntry>, cfg: Config, script: Script)
    ensures var e := StoreAndSetQuota(w, entries, cfg, script);
      e.outcome == Completed ==>
        && e.world.actions == w.actions + QuotaNotes(e.world, cfg.desired, |entries|)
        && e.world.stored == entries
  {
    hide SetQuotaAndRecord;
    var p := SaveStored(w, entries, script);
    QuotaReports(p.world, cfg.desired, |entries|, script);
  }

  lemma UnusedIs(there: seq<Fip>)
    ensures Unused(there) == Filter(there, (f: Fip) => !f.inUse)
    ensures |Unused(there)| <= |there|
  {
    FilterSame(there, (f: Fip) => !f.inUse, (f: Fip) => !f.inUse);
    UnusedCount(there);
  }

  lemma DownReports(w: World, there: seq<Fip>, cfg: Config, script: Script)
    requires DistinctIdsIn(there) && |there| > cfg.desired
    ensures Reports(w, there, cfg, ScaleDown(w, there, cfg, script))
  {
    hide Unused, Without, StoreAndSetQuota, DeleteAll, FipIds;
    UnusedIs(there);
    var excess, todo := |there| - cfg.desired, ToDelete(there, cfg.desired);
    DeletesReport(w, todo, script);
    WithoutFirstUnused(there, |todo|);
    var p := DeleteAll(w, todo, script);
    var w2 := if excess > |todo| then Note(p.world, StillInUse(excess - |todo|)) else p.world;
    var left := Without(there, FipIds(todo));
    StoreReports(w2, Entries(left), cfg, script);
    var e := ScaleDown(w, there, cfg, script);
    if e.outcome == Completed {
      var changes := FreedNotes(todo) + if excess > |todo| then [StillInUse(excess - |todo|)] else [];
      assert AreChanges(there, e.world.stored, cfg, changes);
      Adds(w, e.world, there, cfg, changes, []);
    }
  }

  /** The parts of the report, put together. */
  lemma Adds(w: World, v: World, there: seq<Fip>, cfg: Config, changes: seq<Action>, last: seq<Action>)
    requires AreChanges(there, v.stored, cfg, changes)
    requires v.actions == w.actions + changes + QuotaNotes(v, cfg.desired, Counted(there, cfg)) + last
    requires last == (if |there| == cfg.desired && QuotaNotes(v, cfg.desired, Counted(there, cfg)) == []
                      then [AlreadyAllocated] else [])
    ensures exists notes :: v.actions == w.actions + notes && ScaleNotes(v, there, cfg, notes)
  {
    hide AreChanges, QuotaNotes, Counted;
    var notes := changes + QuotaNotes(v, cfg.desired, Counted(there, cfg)) + last;
    assert v.actions == w.actions + notes;
    assert ScaleNotes(v, there, cfg, notes);
  }

  lemma UpReports(w: World, there: seq<Fip>, cfg: Config, script: Script)
    requires |there| < cfg.desired
    ensures Reports(w, there, cfg, ScaleUp(w, there, cfg, script))
  {
    hide StoreAndSetQuota, CreateAll;
    UnusedIs(there);
    var q := QuotaCall(w, cfg.desired, script);
    if q.Going? && q.value {
      CreatesReport(q.world, cfg.desired - |there|, cfg.ext, [], script);
      var p := CreateAll(q.world, cfg.desired - |there|, cfg.ext, [], script);
      if p.Going? {
        StoreReports(p.world, Entries(there) + p.value, cfg, script);
        var e := ScaleUp(w, there, cfg, script);
        if e.outcome == Completed {
          assert p.value[0..] == p.value && e.world.stored[|there|..] == p.value;
          assert AreChanges(there, e.world.stored, cfg, CreatedNotes(p.value));
          assert e.world.actions + [] == e.world.actions;
          Adds(w, e.world, there, cfg, CreatedNotes(p.value), []);
        }
      }
    }
  }

  lemma ExactReports(w: World, config: seq<FipEntry>, there: seq<Fip>, cfg: Config, script: Script)
    requires |there| == cfg.desired
    ensures Reports(w, there, cfg, ExactMatch(w, config, there, cfg, script))
  {
    hide SetQuotaAndRecord, EntryIds, FipIds;
    UnusedIs(there);
    QuotaReports(w, cfg.desired, |there|, script);
    var e := ExactMatch(w, config, there, cfg, script);
    if e.outcome == Completed {
      var none: seq<Action> := [];
      assert w.actions + none == w.actions;
      var quota := QuotaNotes(e.world, cfg.desired, Counted(there, cfg));
      var last := if quota == [] then [AlreadyAllocated] else [];
      assert w.actions + quota + [] == w.actions + quota;
      Adds(w, e.world, there, cfg, [], last);
    }
  }

  // ---------- A whole run ----------

  /** The report before scaling: other networks' floating IPs, and what the drift pass did. */
  ghost function FirstNotes(w: World, cfg: Config, script: Script): seq<Action> {
    var foreign := |Filter(w.fips, (f: Fip) => f.net != cfg.ext)|;
    var p := AdoptEnd(w, cfg, script, w.pos + 1);
    (if foreign > 0 then [ForeignFips(foreign)] else [])
    + if w.stored != [] && p.Some? then DriftNotes(w, cfg, script, p.value) else []
  }

  ghost predicate RunNotes(w: World, v: World, cfg: Config, script: Script, end: Option<End>) {
    end.Some? && exists notes ::
      v.actions == FirstNotes(w, cfg, script) + notes && ScaleNotes(v, PoolOf(w, cfg) + end.value.made, cfg, notes)
  }

  /** The whole report of a run that completes, whatever became of its calls. */
  lemma RunReports(w: World, cfg: Config, script: Script)
    requires WellFormed(w) && Run(w, cfg, script).outcome == Completed
    ensures var v := Run(w, cfg, script).world;
      if cfg.desired == 0 then v.actions == [NothingRequested]
      else RunNotes(w, v, cfg, script, DriftEnd(w, cfg, script, w.pos + 1))
  {
    hide WellFormed, Preserves, DriftAndRelist, Scale, Foreign, Managed, DriftEnd, FirstNotes, ScaleNotes;
    if cfg.desired > 0 {
      var w1 := Listed(w, cfg);
      WellFormedListed(w, cfg);
      PlannedStart(w, cfg, script);
      ManagedIsPool(w, cfg);
      var d := DriftAndRelist(w1, w1.stored, w1.released, cfg, script);
      DriftAndRelistPreserves(w1, cfg, script);
      RelistReports(w, w1, cfg, script);
      ScaleReports(d.world, w.stored, d.value, cfg, script);
      var v := Scale(d.world, w.stored, d.value, cfg, script).world;
      var notes :| v.actions == d.world.actions + notes && ScaleNotes(v, d.value, cfg, notes);
      assert v.actions == FirstNotes(w, cfg, script) + notes;
    }
  }

  lemma ScaleReports(w: World, config: seq<FipEntry>, there: seq<Fip>, cfg: Config, script: Script)
    requires WellFormed(w) && there == Managed(w.fips, cfg.ext)
    ensures Reports(w, there, cfg, Scale(w, config, there, cfg, script))
  {
    hide Reports, ExactMatch, ScaleDown, ScaleUp, WellFormed;
    ManagedDistinct(w, cfg.ext);
    if |there| == cfg.desired {
      ExactReports(w, config, there, cfg, script);
    } else if |there| > cfg.desired {
      DownReports(w, there, cfg, script);
    } else {
      UpReports(w, there, cfg, script);
    }
  }

  lemma RelistReports(w: World, w1: World, cfg: Config, script: Script)
    requires w1 == Listed(w, cfg)
    ensures var d := DriftAndRelist(w1, w1.stored, w1.released, cfg, script);
      d.Going? ==> d.world.actions == FirstNotes(w, cfg, script)
  {
    hide Drift, Managed, DriftNotes, AdoptEnd;
    FilterSame(w.fips, (f: Fip) => f.net != cfg.ext, (f: Fip) => f.net != cfg.ext);
    assert w1.actions == if Foreign(w.fips, cfg.ext) == [] then [] else [ForeignFips(|Foreign(w.fips, cfg.ext)|)];
    assert w1.actions + [] == w1.actions;
    if w.stored != [] {
      DriftReports(w1, cfg, script);
      SameNotes(w, w1, cfg, script);
    }
  }

  lemma SameNotes(w: World, v: World, cfg: Config, script: Script)
    requires v == w.(actions := v.actions, pos := v.pos)
    ensures forall pos: nat :: AdoptEnd(v, cfg, script, pos) == AdoptEnd(w, cfg, script, pos)
    ensures forall pos: nat :: DriftNotes(v, cfg, script, pos) == DriftNotes(w, cfg, script, pos)
  {
    hide Untracked, Managed, PlanOf, FipAddresses;
    assert LostNow(v, cfg) == LostNow(w, cfg) by {
      FilterSame(w.stored, (e: FipEntry) => !InPoolById(v, cfg, e.id), (e: FipEntry) => !InPoolById(w, cfg, e.id));
    }
    assert Unnamed(v, cfg) == Unnamed(w, cfg) by {
      FilterSame(PoolOf(w, cfg), (f: Fip) => !StoredById(v, f.id), (f: Fip) => !StoredById(w, f.id));
    }
  }
}
