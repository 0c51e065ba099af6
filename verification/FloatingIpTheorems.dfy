/** The promises of src/resources/prealloc/fip.py: safety at every exit, and what a clean run leaves behind. */
module FloatingIpTheorems {
  import opened Common
  import opened FloatingIps
  import opened FloatingIpProofs

  // ------------------------------------------------------------------ every exit, every script

  /** Nothing but the floating IPs, the counters and the notes differ. */
  predicate OnlyAllocates(w: World, v: World) {
    v == w.(fips := v.fips, nextId := v.nextId, creates := v.creates, actions := v.actions, pos := v.pos,
            overQuota := v.overQuota)
  }

  lemma {:induction false} ReclaimFrame(w: World, ext: NetId, address: Address, script: Script, left: nat)
    ensures var v := ReclaimAttempts(w, ext, address, script, left).world;
      OnlyAllocates(w, v) && v.actions == w.actions
    decreases left
  {
    hide InPool;
    if left > 0 && script(w.pos).fault == Busy {
      ReclaimFrame(Tick(w), ext, address, script, left - 1);
    } else if left > 0 && script(w.pos).fault == Echo {
      ReclaimFrame(ReclaimOnce(Tick(w), ext, address).0, ext, address, script, left - 1);
    }
  }

  lemma {:induction false} CreateFrame(w: World, ext: NetId, script: Script, left: nat)
    ensures var v := CreateAttempts(w, ext, script, left).world;
      OnlyAllocates(w, v) && v.actions == w.actions
    decreases left
  {
    hide Offer;
    if left > 0 && script(w.pos).fault == Busy {
      CreateFrame(Tick(w), ext, script, left - 1);
    } else if left > 0 && script(w.pos).fault == Echo {
      CreateFrame(CreateOnce(Tick(w), ext, script(w.pos).hint).0, ext, script, left - 1);
    }
  }

  /** One entry leaves one note, and it is not about the quota. */
  lemma ReclaimStepNotes(w: World, e: FipEntry, ext: NetId, acc: Recovery, script: Script)
    ensures var p := ReclaimStep(w, e, ext, acc, script);
      && OnlyAllocates(w, p.world)
      && (p.Halted? ==> p.world.actions == w.actions)
      && (p.Going? ==> exists a: Action :: !a.QuotaAbove? && p.world.actions == w.actions + [a])
  {
    hide ReclaimAttempts;
    ReclaimFrame(w, ext, e.address, script, MAX_ATTEMPTS);
  }

  lemma {:induction false} ReclaimAllFrame(w: World, missing: seq<FipEntry>, ext: NetId, acc: Recovery, script: Script)
    ensures var p := ReclaimAll(w, missing, ext, acc, script);
      && OnlyAllocates(w, p.world)
      && (p.Going? ==> |p.world.actions| == |w.actions| + |missing|)
      && (NoQuotaNote(w) ==> NoQuotaNote(p.world))
    decreases |missing|
  {
    hide ReclaimStep;
    if missing != [] {
      ReclaimStepNotes(w, missing[0], ext, acc, script);
      var p := ReclaimStep(w, missing[0], ext, acc, script);
      if p.Going? {
        ReclaimAllFrame(p.world, missing[1..], ext, p.value, script);
      }
    }
  }

  predicate NoQuotaNote(w: World) {
    forall a :: a in w.actions ==> !a.QuotaAbove?
  }

  /** A drift pass that recorded nothing found nothing, and left the floating IPs alone. */
  lemma SilentDriftIsIdle(w: World, config: seq<FipEntry>, loaded: seq<Released>, existing: seq<Fip>, cfg: Config,
                          script: Script)
    ensures var p := Drift(w, config, loaded, existing, cfg, script);
      && (p.Going? && p.world.actions == w.actions ==>
            && Missing(config, existing) == [] && Untracked(config, existing) == [] && p.world.fips == w.fips)
      && (p.Going? ==> |w.actions| <= |p.world.actions|)
  {
    hide Missing, Untracked, Surviving, MergedReleased, ReclaimAll;
    var missing := Missing(config, existing);
    var a := Adopt(w, config, existing, script);
    if a.Going? && missing != [] && cfg.reclaim {
      var q := QuotaCall(a.world, cfg.desired + |missing|, script);
      if q.Going? && q.value {
        ReclaimAllFrame(q.world, missing, cfg.ext, Recovery([], []), script);
      }
    }
  }

  lemma DriftAndRelistPreserves(w: World, cfg: Config, script: Script)
    requires WellFormed(w)
    ensures var p := DriftAndRelist(w, w.stored, w.released, cfg, script);
      && Preserves(w, p.world, cfg.ext) && WellFormed(p.world)
      && (p.Going? ==> p.value == Managed(p.world.fips, cfg.ext))
  {
    hide Preserves, WellFormed, Drift, Partitioned, Managed, Missing, Untracked;
    var existing := Managed(w.fips, cfg.ext);
    SameRecordsPreserve(w, w, cfg.ext);
    if w.stored != [] {
      DriftPartitions(w, w.stored, w.released, existing, cfg, script);
      SilentDriftIsIdle(w, w.stored, w.released, existing, cfg, script);
      var d := Drift(w, w.stored, w.released, existing, cfg, script);
      if d.Going? {
        var v := DriftAndRelist(w, w.stored, w.released, cfg, script).world;
        SameRecordsPreserve(d.world, v, cfg.ext);
        PreservesCompose(w, d.world, v, cfg.ext);
      }
    }
  }

  lemma RunPreserves(w: World, cfg: Config, script: Script)
    requires WellFormed(w)
    ensures Preserves(w, Run(w, cfg, script).world, cfg.ext) && WellFormed(Run(w, cfg, script).world)
  {
    hide Preserves, WellFormed, DriftAndRelist, Scale, Managed;
    var v := Run(w, cfg, script).world;
    var w0 := w.(actions := []);
    SameRecordsPreserve(w, w0, cfg.ext);
    var r := ReadCall(w0, script);
    if cfg.desired == 0 || r.Halted? {
      SameRecordsPreserve(w, v, cfg.ext);
    } else {
      var foreign := Foreign(r.world.fips, cfg.ext);
      var w2 := if foreign == [] then r.world else Note(r.world, ForeignFips(|foreign|));
      SameRecordsPreserve(w, w2, cfg.ext);
      DriftAndRelistPreserves(w2, cfg, script);
      var d := DriftAndRelist(w2, w2.stored, w2.released, cfg, script);
      PreservesCompose(w, w2, d.world, cfg.ext);
      if d.Going? {
        ScalePreserves(d.world, w.stored, d.value, cfg, script);
        PreservesCompose(w, d.world, v, cfg.ext);
      }
    }
  }

  /**
   At every crash point of every run, a floating IP that is attached, or that belongs to another
   network, is still there; and whatever is new is unattached and from the configured network.
   */
  lemma AttachedAndForeignSurvive(w: World, cfg: Config, script: Script)
    requires WellFormed(w)
    ensures var v := Run(w, cfg, script).world;
      && (forall f :: f in w.fips && (f.inUse || f.net != cfg.ext) ==> f in v.fips)
      && (forall f :: f in v.fips && f !in w.fips ==> f.net == cfg.ext && !f.inUse && f.id >= w.nextId)
  {
    RunPreserves(w, cfg, script);
  }

  // ------------------------------------------------------------------ calls that are all served

  ghost predicate Calm(script: Script) {
    forall n: nat :: script(n).fault == Fine
  }

  lemma CreateCalm(w: World, ext: NetId, script: Script)
    requires Calm(script)
    ensures var p := CreateCall(w, ext, script);
      && p.Going? == (|w.fips| < w.quota) && OnlyAllocates(w, p.world)
      && (p.Going? ==>
            && p.world.fips == w.fips + [p.value] && p.world.creates == w.creates + 1
            && Fresh(p.value, w.nextId, ext) && p.world.nextId == w.nextId + 1)
  {
    hide Offer;
  }

  lemma EntriesCons(f: Fip, rest: seq<Fip>)
    ensures Entries([f] + rest) == [EntryOf(f)] + Entries(rest)
  {}

  lemma {:induction false} CreateAllCalm(w: World, n: nat, ext: NetId, acc: seq<FipEntry>, script: Script)
    returns (made: seq<Fip>)
    requires Calm(script)
    ensures var p := CreateAll(w, n, ext, acc, script);
      && p.Going? == (n == 0 || |w.fips| + n <= w.quota) && OnlyAllocates(w, p.world)
      && (p.Going? ==>
            && p.world.fips == w.fips + made && |made| == n && p.value == acc + Entries(made)
            && p.world.creates == w.creates + n && w.nextId <= p.world.nextId
            && (forall f :: f in made ==> Fresh(f, w.nextId, ext))
            && (n > 0 ==> p.world.actions != [] && !p.world.actions[|p.world.actions| - 1].QuotaAbove?))
    decreases n
  {
    made := [];
    if n == 0 {
      assert acc + Entries([]) == acc;
      assert w.fips + [] == w.fips;
    } else {
      CreateCalm(w, ext, script);
      hide CreateCall;
      var p := CreateCall(w, ext, script);
      if p.Going? {
        var w1 := Note(p.world, Created(p.value.id));
        var rest := CreateAllCalm(w1, n - 1, ext, acc + [EntryOf(p.value)], script);
        made := [p.value] + rest;
        ConsAssoc(w.fips, p.value, rest);
        ConsAssoc(acc, EntryOf(p.value), Entries(rest));
        EntriesCons(p.value, rest);
      }
    }
  }

  lemma ReclaimStepCalm(w: World, e: FipEntry, ext: NetId, acc: Recovery, script: Script)
    requires Calm(script)
    ensures var p := ReclaimStep(w, e, ext, acc, script);
      && p.Going? && OnlyAllocates(w, p.world) && w.nextId <= p.world.nextId
      && if |p.world.fips| == |w.fips| then p.world.fips == w.fips && p.value.reclaimed == acc.reclaimed
         else
           && p.world.fips == w.fips + [p.world.fips[|w.fips|]] && Fresh(p.world.fips[|w.fips|], w.nextId, ext)
           && p.value.reclaimed == acc.reclaimed + [EntryOf(p.world.fips[|w.fips|])]
  {
    hide InPool;
  }

  lemma {:induction false} ReclaimAllCalm(w: World, missing: seq<FipEntry>, ext: NetId, acc: Recovery, script: Script)
    returns (made: seq<Fip>)
    requires Calm(script)
    ensures var p := ReclaimAll(w, missing, ext, acc, script);
      && p.Going? && OnlyAllocates(w, p.world) && w.nextId <= p.world.nextId
      && p.world.fips == w.fips + made && p.value.reclaimed == acc.reclaimed + Entries(made)
      && |made| <= |missing|
      && (forall f :: f in made ==> Fresh(f, w.nextId, ext))
    decreases |missing|
  {
    made := [];
    if missing == [] {
      assert acc.reclaimed + Entries([]) == acc.reclaimed;
      assert w.fips + [] == w.fips;
    } else {
      var e := missing[0];
      ReclaimStepCalm(w, e, ext, acc, script);
      hide ReclaimStep;
      var p := ReclaimStep(w, e, ext, acc, script);
      made := ReclaimAllCalm(p.world, missing[1..], ext, p.value, script);
      if |p.world.fips| > |w.fips| {
        var f := p.world.fips[|w.fips|];
        ConsAssoc(w.fips, f, made);
        ConsAssoc(acc.reclaimed, EntryOf(f), Entries(made));
        EntriesCons(f, made);
        made := [f] + made;
      }
    }
  }

  lemma {:induction false} DeleteAllCalm(w: World, todo: seq<Fip>, script: Script)
    requires Calm(script)
    ensures var p := DeleteAll(w, todo, script);
      && p.Going? && |p.world.actions| == |w.actions| + |todo|
      && (todo != [] ==> !p.world.actions[|p.world.actions| - 1].QuotaAbove?)
    decreases |todo|
  {
    if todo != [] {
      DeleteAllCalm(Note(DeleteCall(w, todo[0].id, script).world, Freed(todo[0].id)), todo[1..], script);
    }
  }

  // ------------------------------------------------------------------ counting

  lemma ManagedOfNew(fips: seq<Fip>, made: seq<Fip>, from: FipId, ext: NetId)
    requires forall f :: f in made ==> Fresh(f, from, ext)
    ensures Managed(fips + made, ext) == Managed(fips, ext) + made
    ensures Unused(Managed(fips, ext) + made) == Unused(Managed(fips, ext)) + made
    ensures Foreign(fips + made, ext) == Foreign(fips, ext)
  {
    FilterConcat(fips, made, (f: Fip) => f.net == ext);
    FilterAll(made, (f: Fip) => f.net == ext);
    FilterConcat(Managed(fips, ext), made, (f: Fip) => !f.inUse);
    FilterAll(made, (f: Fip) => !f.inUse);
    FilterConcat(fips, made, (f: Fip) => f.net != ext);
    FilterNone(made, (f: Fip) => f.net != ext);
    assert Foreign(fips, ext) + [] == Foreign(fips, ext);
  }

  lemma ManagedAndForeign(fips: seq<Fip>, ext: NetId)
    ensures |Managed(fips, ext)| + |Foreign(fips, ext)| == |fips|
  {
    FilterSplits(fips, (f: Fip) => f.net == ext, (f: Fip) => f.net != ext);
  }

  predicate DistinctIdsIn(fips: seq<Fip>) {
    NoDup(fips) && forall f, g :: f in fips && g in fips && f != g ==> f.id != g.id
  }

  lemma ManagedDistinct(w: World, ext: NetId)
    requires WellFormed(w)
    ensures DistinctIdsIn(Managed(w.fips, ext))
  {
    FilterNoDup(w.fips, (f: Fip) => f.net == ext);
  }

  lemma DistinctTail(existing: seq<Fip>)
    requires existing != [] && DistinctIdsIn(existing)
    ensures DistinctIdsIn(existing[1..]) && forall f :: f in existing[1..] ==> f.id != existing[0].id
  {
    var tail := existing[1..];
    assert forall i :: 0 <= i < |tail| ==> tail[i] == existing[i + 1] && tail[i] in existing;
  }

  /** Taking the first k unattached ones out takes exactly k out. */
  lemma {:induction false} WithoutFirstUnused(existing: seq<Fip>, k: nat)
    requires DistinctIdsIn(existing) && k <= |Unused(existing)|
    ensures |Without(existing, FipIds(Unused(existing)[..k]))| == |existing| - k
  {
    if existing != [] {
      var head, tail := existing[0], existing[1..];
      DistinctTail(existing);
      if !head.inUse && k > 0 {
        assert Unused(existing)[..k] == [head] + Unused(tail)[..k - 1];
        WithoutFirstUnused(tail, k - 1);
        FipIdsCons(Unused(existing)[..k]);
        WithoutForeignId(tail, head.id, FipIds(Unused(tail)[..k - 1]));
      } else {
        WithoutFirstUnused(tail, k);
        assert Unused(existing)[..k] == Unused(tail)[..k];
        assert head.id !in FipIds(Unused(tail)[..k]) by {
          assert forall f :: f in Unused(tail)[..k] ==> f in tail;
        }
      }
    }
  }

  lemma {:induction false} WithoutForeignId(fips: seq<Fip>, id: FipId, ids: set<FipId>)
    requires forall f :: f in fips ==> f.id != id
    ensures Without(fips, {id} + ids) == Without(fips, ids)
  {
    if fips != [] {
      WithoutForeignId(fips[1..], id, ids);
    }
  }

  lemma {:induction false} ManagedWithout(fips: seq<Fip>, ext: NetId, ids: set<FipId>)
    ensures Managed(Without(fips, ids), ext) == Without(Managed(fips, ext), ids)
  {
    if fips != [] {
      ManagedWithout(fips[1..], ext, ids);
    }
  }

  lemma EntryIdsOfEntries(fips: seq<Fip>)
    ensures EntryIds(Entries(fips)) == FipIds(fips)
  {
    var es := Entries(fips);
    forall f | f in fips ensures f.id in EntryIds(es) {
      var i :| 0 <= i < |fips| && fips[i] == f;
      assert es[i] in es;
    }
    forall e | e in es ensures e.id in FipIds(fips) {
      var i :| 0 <= i < |es| && es[i] == e;
      assert fips[i] in fips;
    }
  }

  lemma EntryIdsConcat(a: seq<FipEntry>, b: seq<FipEntry>)
    ensures EntryIds(a + b) == EntryIds(a) + EntryIds(b)
  {
    assert forall e :: e in a + b <==> e in a || e in b;
  }

  lemma FipIdsConcat(a: seq<Fip>, b: seq<Fip>)
    ensures FipIds(a + b) == FipIds(a) + FipIds(b)
  {
    assert forall f :: f in a + b <==> f in a || f in b;
  }

  // ------------------------------------------------------------------ quota

  /** What the quota should end up as: desired if possible, else what is in use. */
  function TargetQuota(w: World, cfg: Config): int {
    if w.strict then Max(cfg.desired, |w.fips|) else Max(cfg.desired, |Managed(w.fips, cfg.ext)|)
  }

  predicate EndsAboveDesired(w: World) {
    w.actions != [] && w.actions[|w.actions| - 1].QuotaAbove?
  }

  /** The quota step always succeeds when served, lands on the target, and reports it exactly when above desired. */
  lemma QuotaCalm(w: World, cfg: Config, script: Script)
    requires Calm(script)
    requires w.actions == [] || !w.actions[|w.actions| - 1].QuotaAbove?
    ensures var p := SetQuotaAndRecord(w, cfg.desired, |Managed(w.fips, cfg.ext)|, script);
      && p.Going? && p.world == w.(quota := p.world.quota, actions := p.world.actions, pos := p.world.pos)
      && p.world.quota == TargetQuota(w, cfg)
      && (p.value.Some? <==> p.world.quota > cfg.desired)
      && (EndsAboveDesired(p.world) <==> p.world.quota > cfg.desired)
  {
    ManagedAndForeign(w.fips, cfg.ext);
    hide Managed, Foreign;
  }

  lemma StoreAndSetQuotaCalm(w: World, entries: seq<FipEntry>, cfg: Config, script: Script)
    requires Calm(script) && |entries| == |Managed(w.fips, cfg.ext)|
    requires w.actions == [] || !w.actions[|w.actions| - 1].QuotaAbove?
    ensures var e := StoreAndSetQuota(w, entries, cfg, script);
      && e.outcome == Completed && e.world.stored == entries
      && e.world == w.(quota := e.world.quota, actions := e.world.actions, pos := e.world.pos, stored := entries)
      && e.world.quota == TargetQuota(e.world, cfg)
      && (EndsAboveDesired(e.world) <==> e.world.quota > cfg.desired)
  {
    var p := SaveStored(w, entries, script);
    QuotaCalm(p.world, cfg, script);
  }

  /** What the last part of a clean run is meant to leave, from a listing of what is managed. */
  ghost predicate Scaled(w: World, v: World, existing: seq<Fip>, cfg: Config) {
    && |Managed(v.fips, cfg.ext)| == Max(cfg.desired, |existing| - |Unused(existing)|)
    && (|Managed(v.fips, cfg.ext)| > cfg.desired ==> Unused(Managed(v.fips, cfg.ext)) == [])
    && Foreign(v.fips, cfg.ext) == Foreign(w.fips, cfg.ext)
    && v.quota == TargetQuota(v, cfg)
    && (EndsAboveDesired(v) <==> v.quota > cfg.desired)
    && v.released == w.released && v.strict == w.strict && v.elsewhere == w.elsewhere
    && v.creates == w.creates + Max(0, cfg.desired - |existing|)
    && (|existing| != cfg.desired ==> v.stored == Entries(Managed(v.fips, cfg.ext)))
  }

  /** The lists after the deletes: sizes, what is left, what is untouched. */
  lemma Remaining(w: World, existing: seq<Fip>, cfg: Config)
    requires WellFormed(w) && existing == Managed(w.fips, cfg.ext) && |existing| > cfg.desired
    ensures var ids := FipIds(ToDelete(existing, cfg.desired));
      var remaining := Without(existing, ids);
      && |remaining| == Max(cfg.desired, |existing| - |Unused(existing)|)
      && Managed(Without(w.fips, ids), cfg.ext) == remaining
      && Foreign(Without(w.fips, ids), cfg.ext) == Foreign(w.fips, cfg.ext)
      && (|remaining| > cfg.desired ==> Unused(remaining) == [])
      && (Unused(existing) == [] ==> Without(w.fips, ids) == w.fips)
  {
    var todo := ToDelete(existing, cfg.desired);
    var ids := FipIds(todo);
    ManagedWithout(w.fips, cfg.ext, ids);
    ManagedDistinct(w, cfg.ext);
    WithoutFirstUnused(existing, |todo|);
    ForeignWithout(w.fips, cfg.ext, todo, w);
    if todo == Unused(existing) {
      NoUnusedRemain(existing);
    }
    if Unused(existing) == [] {
      assert ids == {};
      WithoutNone(w.fips);
    }
  }

  lemma ScaleDownCalm(w: World, existing: seq<Fip>, cfg: Config, script: Script)
    requires Calm(script) && WellFormed(w) && existing == Managed(w.fips, cfg.ext) && |existing| > cfg.desired
    ensures var e := ScaleDown(w, existing, cfg, script);
      && e.outcome == Completed && Scaled(w, e.world, existing, cfg)
      && (Unused(existing) == [] ==> e.world.fips == w.fips)
  {
    hide Scaled, Managed, Foreign, Unused, Without, StoreAndSetQuota, WellFormed, DeleteAll;
    var excess := |existing| - cfg.desired;
    var todo := ToDelete(existing, cfg.desired);
    var ids := DeleteAllRemoves(w, todo, script);
    DeleteAllCalm(w, todo, script);
    Remaining(w, existing, cfg);
    var p := DeleteAll(w, todo, script);
    var w2 := if excess > |todo| then Note(p.world, StillInUse(excess - |todo|)) else p.world;
    ScaleDownTail(w, w2, existing, Without(existing, ids), cfg, script);
  }

  lemma ScaleDownTail(w: World, w2: World, existing: seq<Fip>, remaining: seq<Fip>, cfg: Config, script: Script)
    requires Calm(script) && |existing| > cfg.desired
    requires w2 == w.(fips := w2.fips, actions := w2.actions, pos := w2.pos)
    requires Managed(w2.fips, cfg.ext) == remaining
    requires |remaining| == Max(cfg.desired, |existing| - |Unused(existing)|)
    requires |remaining| > cfg.desired ==> Unused(remaining) == []
    requires Foreign(w2.fips, cfg.ext) == Foreign(w.fips, cfg.ext)
    requires w2.actions == [] || !w2.actions[|w2.actions| - 1].QuotaAbove?
    ensures var e := StoreAndSetQuota(w2, Entries(remaining), cfg, script);
      e.outcome == Completed && Scaled(w, e.world, existing, cfg) && e.world.fips == w2.fips
  {
    hide Managed, Foreign, Unused, StoreAndSetQuota;
    StoreAndSetQuotaCalm(w2, Entries(remaining), cfg, script);
  }

  lemma ForeignWithout(fips: seq<Fip>, ext: NetId, todo: seq<Fip>, w: World)
    requires WellFormed(w) && w.fips == fips && forall f :: f in todo ==> f in fips && f.net == ext
    ensures Foreign(Without(fips, FipIds(todo)), ext) == Foreign(fips, ext)
  {
    var ids := FipIds(todo);
    FilterCommutes(fips, (f: Fip) => f.id !in ids, (f: Fip) => f.net != ext);
    forall f, g | f in Foreign(fips, ext) && g in todo ensures f.id != g.id {
      DistinctIds(w, f, g);
    }
    WithoutAbsent(Foreign(fips, ext), ids);
    ForeignCommutes(fips, ext, ids);
  }

  lemma {:induction false} ForeignCommutes(fips: seq<Fip>, ext: NetId, ids: set<FipId>)
    ensures Foreign(Without(fips, ids), ext) == Without(Foreign(fips, ext), ids)
  {
    if fips != [] {
      ForeignCommutes(fips[1..], ext, ids);
    }
  }

  lemma {:induction false} WithoutAbsent(fips: seq<Fip>, ids: set<FipId>)
    requires forall f :: f in fips ==> f.id !in ids
    ensures Without(fips, ids) == fips
  {
    if fips != [] {
      WithoutAbsent(fips[1..], ids);
    }
  }

  lemma NoUnusedRemain(existing: seq<Fip>)
    ensures Unused(Without(existing, FipIds(Unused(existing)))) == []
  {
    var remaining := Without(existing, FipIds(Unused(existing)));
    FilterNone(remaining, (f: Fip) => !f.inUse);
  }

  lemma ScaleUpCalm(w: World, existing: seq<Fip>, cfg: Config, script: Script)
    requires Calm(script) && WellFormed(w) && existing == Managed(w.fips, cfg.ext) && |existing| < cfg.desired
    ensures var e := ScaleUp(w, existing, cfg, script);
      && (e.outcome == Completed <==> Foreign(w.fips, cfg.ext) == [])
      && (e.outcome == Completed ==> Scaled(w, e.world, existing, cfg))
  {
    hide WellFormed, CreateAll, Managed, Foreign, Unused, StoreAndSetQuota, Scaled;
    ManagedAndForeign(w.fips, cfg.ext);
    UnusedCount(existing);
    var q := QuotaCall(w, cfg.desired, script);
    if q.value {
      var n := cfg.desired - |existing|;
      var made := CreateAllCalm(q.world, n, cfg.ext, [], script);
      var p := CreateAll(q.world, n, cfg.ext, [], script);
      if p.Going? {
        ManagedOfNew(w.fips, made, w.nextId, cfg.ext);
        assert p.value == Entries(made);
        ScaleUpTail(w, p.world, existing, made, cfg, script);
      }
    }
  }

  lemma ScaleUpTail(w: World, w2: World, existing: seq<Fip>, made: seq<Fip>, cfg: Config, script: Script)
    requires Calm(script) && |existing| < cfg.desired && |made| == cfg.desired - |existing|
    requires OnlyAllocates(w.(quota := w2.quota), w2) && w2.creates == w.creates + |made|
    requires Managed(w2.fips, cfg.ext) == existing + made
    requires Unused(existing + made) == Unused(existing) + made && |Unused(existing)| <= |existing|
    requires Foreign(w2.fips, cfg.ext) == Foreign(w.fips, cfg.ext)
    requires w2.actions == [] || !w2.actions[|w2.actions| - 1].QuotaAbove?
    ensures var e := StoreAndSetQuota(w2, Entries(existing) + Entries(made), cfg, script);
      e.outcome == Completed && Scaled(w, e.world, existing, cfg)
  {
    hide Managed, Foreign, Unused, StoreAndSetQuota;
    StoreAndSetQuotaCalm(w2, Entries(existing) + Entries(made), cfg, script);
    assert Entries(existing) + Entries(made) == Entries(existing + made);
  }

  lemma ExactCalm(w: World, config: seq<FipEntry>, existing: seq<Fip>, cfg: Config, script: Script)
    requires Calm(script) && existing == Managed(w.fips, cfg.ext) && |existing| == cfg.desired
    requires w.actions == [] || !w.actions[|w.actions| - 1].QuotaAbove?
    ensures var e := ExactMatch(w, config, existing, cfg, script);
      && e.outcome == Completed && Scaled(w, e.world, existing, cfg) && e.world.fips == w.fips
      && e.world.stored == if cfg.track && EntryIds(config) != FipIds(existing) then Entries(existing) else w.stored
  {
    hide SetQuotaAndRecord, Managed, Foreign, FipIds, EntryIds;
    QuotaCalm(w, cfg, script);
    UnusedCount(existing);
  }

  lemma UnusedCount(existing: seq<Fip>)
    ensures |Unused(existing)| <= |existing|
  {
    FilterSplits(existing, (f: Fip) => !f.inUse, (f: Fip) => f.inUse);
  }

  lemma ScaleCalm(w: World, config: seq<FipEntry>, existing: seq<Fip>, cfg: Config, script: Script)
    requires Calm(script) && WellFormed(w) && existing == Managed(w.fips, cfg.ext)
    requires w.actions == [] || !w.actions[|w.actions| - 1].QuotaAbove?
    ensures var e := Scale(w, config, existing, cfg, script);
      && (e.outcome == Completed <==> |existing| >= cfg.desired || Foreign(w.fips, cfg.ext) == [])
      && (e.outcome == Completed ==> Scaled(w, e.world, existing, cfg))
      && (|existing| == cfg.desired ==>
            && e.world.fips == w.fips
            && e.world.stored
               == (if cfg.track && EntryIds(config) != FipIds(existing) then Entries(existing) else w.stored))
      && (|existing| > cfg.desired && Unused(existing) == [] ==> e.world.fips == w.fips)
      && (e.outcome == Completed && |existing| != cfg.desired ==>
            && e.world.stored == Entries(Managed(e.world.fips, cfg.ext))
            && EntryIds(e.world.stored) == FipIds(Managed(e.world.fips, cfg.ext)))
  {
    EntryIdsOfEntries(Managed(Scale(w, config, existing, cfg, script).world.fips, cfg.ext));
    hide ScaleDown, ScaleUp, ExactMatch, WellFormed;
    if |existing| == cfg.desired {
      ExactCalm(w, config, existing, cfg, script);
    } else if |existing| > cfg.desired {
      ScaleDownCalm(w, existing, cfg, script);
    } else {
      ScaleUpCalm(w, existing, cfg, script);
    }
  }

  // ------------------------------------------------------------------ drift, served

  /** The raise before reclaiming is accepted: on a strict API it may not fall below what is in use. */
  predicate RaiseAccepted(w: World, config: seq<FipEntry>, existing: seq<Fip>, cfg: Config) {
    var missing := Missing(config, existing);
    missing == [] || !cfg.reclaim || !w.strict || |w.fips| <= cfg.desired + |missing|
  }

  lemma SurvivingIds(config: seq<FipEntry>, existing: seq<Fip>)
    ensures EntryIds(Surviving(config, Missing(config, existing))) == EntryIds(config) * FipIds(existing)
    ensures Missing(config, existing) == [] ==> EntryIds(config) <= FipIds(existing)
    ensures EntryIds(config) * FipIds(existing) + FipIds(Untracked(config, existing)) == FipIds(existing)
  {
    var missing := Missing(config, existing);
    var surviving := Surviving(config, missing);
    forall e | e in config ensures e in surviving <==> e.id in FipIds(existing) {
      if e.id !in FipIds(existing) {
        assert e in missing;
      }
    }
    forall f | f in existing && f.id !in EntryIds(config) ensures f in Untracked(config, existing) {}
    forall e | e in config && e.id !in FipIds(existing) ensures e in missing {}
  }

  lemma AdoptCalm(w: World, config: seq<FipEntry>, existing: seq<Fip>, script: Script)
    requires Calm(script) && config == w.stored
    ensures var a := Adopt(w, config, existing, script);
      var adopted := Entries(Untracked(config, existing));
      && a == Going(a.world, adopted) && a.world.stored == config + adopted
      && a.world == w.(stored := config + adopted, actions := a.world.actions, pos := a.world.pos)
      && a.world.actions == w.actions + AdoptionNotes(Untracked(config, existing))
  {
    assert config + [] == config;
  }

  /** What recovery brings back, served: only new floating IPs on the configured network. */
  lemma RecoverCalm(w: World, missing: seq<FipEntry>, cfg: Config, script: Script) returns (made: seq<Fip>)
    requires Calm(script)
    ensures var p := Recover(w, missing, cfg, script);
      && (p.Going? <==> !cfg.reclaim || !w.strict || |w.fips| <= cfg.desired + |missing|)
      && (p.Going? ==>
            && p.world.fips == w.fips + made && (forall f :: f in made ==> Fresh(f, w.nextId, cfg.ext))
            && p.world.strict == w.strict && p.world.elsewhere == w.elsewhere
            && p.value.reclaimed == Entries(made) && |made| <= |missing|)
  {
    made := [];
    assert w.fips + [] == w.fips;
    if cfg.reclaim {
      var q := QuotaCall(w, cfg.desired + |missing|, script);
      if q.value {
        made := ReclaimAllCalm(q.world, missing, cfg.ext, Recovery([], []), script);
        hide ReclaimAll;
        assert [] + Entries(made) == Entries(made);
      }
    }
  }

  lemma UpdatedIds(config: seq<FipEntry>, existing: seq<Fip>, made: seq<Fip>)
    ensures var surviving, untracked := Surviving(config, Missing(config, existing)), Untracked(config, existing);
      EntryIds(surviving + Entries(made) + Entries(untracked)) == FipIds(existing + made)
    ensures (Missing(config, existing) == [] ==>
      EntryIds(config + Entries(Untracked(config, existing))) == FipIds(existing))
  {
    var surviving, untracked := Surviving(config, Missing(config, existing)), Untracked(config, existing);
    SurvivingIds(config, existing);
    hide Surviving, Missing, Untracked;
    EntryIdsOfEntries(untracked);
    EntryIdsOfEntries(made);
    EntryIdsConcat(surviving, Entries(made));
    EntryIdsConcat(surviving + Entries(made), Entries(untracked));
    EntryIdsConcat(config, Entries(untracked));
    FipIdsConcat(existing, made);
  }

  /** A served drift pass leaves the stored ids equal to the managed ids, having at most allocated. */
  lemma DriftCalm(w: World, config: seq<FipEntry>, loaded: seq<Released>, existing: seq<Fip>, cfg: Config,
                  script: Script)
    returns (made: seq<Fip>)
    requires Calm(script) && config == w.stored && loaded == w.released && existing == Managed(w.fips, cfg.ext)
    ensures var p := Drift(w, config, loaded, existing, cfg, script);
      && (p.Going? <==> RaiseAccepted(w, config, existing, cfg))
      && (p.Going? ==>
            && p.world.fips == w.fips + made && (forall f :: f in made ==> Fresh(f, w.nextId, cfg.ext))
            && p.world.strict == w.strict && p.world.elsewhere == w.elsewhere
            && EntryIds(p.world.stored) == FipIds(existing + made)
            && |made| <= |Missing(config, existing)|)
  {
    made := [];
    var missing := Missing(config, existing);
    AdoptCalm(w, config, existing, script);
    var a := Adopt(w, config, existing, script);
    UpdatedIds(config, existing, []);
    assert existing + [] == existing && w.fips + [] == w.fips;
    hide Adopt, Recover, Surviving, Missing, Untracked, Managed, MergedReleased, Fresh;
    if missing != [] {
      made := RecoverCalm(a.world, missing, cfg, script);
      UpdatedIds(config, existing, made);
    }
  }

  /** With the stored ids already right, a served drift pass changes at most the released list. */
  lemma SettledDrift(w: World, config: seq<FipEntry>, loaded: seq<Released>, existing: seq<Fip>, cfg: Config,
                     script: Script)
    requires Calm(script) && config == w.stored && loaded == w.released && EntryIds(config) == FipIds(existing)
    ensures var p := Drift(w, config, loaded, existing, cfg, script);
      p.Going? && p.world == w.(released := p.world.released, pos := p.world.pos)
  {
    SurvivingIds(config, existing);
    var missing, untracked := Missing(config, existing), Untracked(config, existing);
    assert missing == [] by {
      assert forall e :: e in config ==> e.id in EntryIds(config);
      FilterNone(config, (e: FipEntry) => e.id !in FipIds(existing));
    }
    assert untracked == [] by {
      FilterNone(existing, (f: Fip) => f.id !in EntryIds(config));
    }
    AdoptCalm(w, config, existing, script);
    assert w.actions + AdoptionNotes(untracked) == w.actions;
    assert config + Entries(untracked) == config;
    hide Missing, Untracked, Adopt;
  }

  // ------------------------------------------------------------------ a whole run, served

  lemma RecoverNotes(w: World, missing: seq<FipEntry>, cfg: Config, script: Script)
    requires NoQuotaNote(w)
    ensures NoQuotaNote(Recover(w, missing, cfg, script).world)
  {
    hide ReclaimAll;
    if cfg.reclaim {
      var q := QuotaCall(w, cfg.desired + |missing|, script);
      if q.Going? && q.value {
        ReclaimAllFrame(q.world, missing, cfg.ext, Recovery([], []), script);
      }
    }
  }

  lemma DriftNotes(w: World, config: seq<FipEntry>, loaded: seq<Released>, existing: seq<Fip>, cfg: Config,
                   script: Script)
    requires NoQuotaNote(w)
    ensures NoQuotaNote(Drift(w, config, loaded, existing, cfg, script).world)
  {
    hide Missing, Untracked, Surviving, MergedReleased, Recover;
    var a := Adopt(w, config, existing, script);
    assert NoQuotaNote(a.world);
    if a.Going? {
      RecoverNotes(a.world, Missing(config, existing), cfg, script);
    }
  }

  /** Served, the run reaches the scaling part unless the raise before reclaiming is rejected. */
  lemma DriftAndRelistCalm(w: World, cfg: Config, script: Script) returns (made: seq<Fip>)
    requires Calm(script) && WellFormed(w) && NoQuotaNote(w)
    ensures var p := DriftAndRelist(w, w.stored, w.released, cfg, script);
      var existing := Managed(w.fips, cfg.ext);
      && (p.Going? <==> w.stored == [] || RaiseAccepted(w, w.stored, existing, cfg))
      && (p.Going? ==>
            && p.value == existing + made && p.value == Managed(p.world.fips, cfg.ext)
            && Unused(p.value) == Unused(existing) + made
            && p.world.fips == w.fips + made
            && Foreign(p.world.fips, cfg.ext) == Foreign(w.fips, cfg.ext)
            && p.world.strict == w.strict && WellFormed(p.world) && NoQuotaNote(p.world)
            && (w.stored != [] ==> EntryIds(p.world.stored) == FipIds(p.value))
            && (w.stored == [] ==> made == [] && p.world == w))
  {
    hide WellFormed, Preserves, Drift, Managed, Unused, Foreign, RaiseAccepted, Missing, EntryIds, FipIds, Untracked;
    var existing := Managed(w.fips, cfg.ext);
    made := [];
    ManagedOfNew(w.fips, made, w.nextId, cfg.ext);
    DriftAndRelistPreserves(w, cfg, script);
    assert existing + [] == existing && w.fips + [] == w.fips;
    if w.stored != [] {
      made := DriftCalm(w, w.stored, w.released, existing, cfg, script);
      DriftNotes(w, w.stored, w.released, existing, cfg, script);
      if Drift(w, w.stored, w.released, existing, cfg, script).Going? {
        ManagedOfNew(w.fips, made, w.nextId, cfg.ext);
      }
    }
  }

  function InUseCount(w: World, cfg: Config): int {
    |Managed(w.fips, cfg.ext)| - |Unused(Managed(w.fips, cfg.ext))|
  }

  /** Whether the listing after drift falls short of what is desired. */
  ghost predicate Blocked(w: World, cfg: Config) {
    w.stored != [] && !RaiseAccepted(w, w.stored, Managed(w.fips, cfg.ext), cfg)
  }

  /** The state before scaling, after the first listing and its note. */
  function Listed(w: World, cfg: Config): World {
    var w1 := Tick(w.(actions := []));
    var foreign := Foreign(w1.fips, cfg.ext);
    if foreign == [] then w1 else Note(w1, ForeignFips(|foreign|))
  }

  /**
   With no foreign floating IPs and every call served, from any state of cloud and file: the run
   completes exactly when the raise before reclaiming is not rejected; then the pool holds
   max(desired, in use), the quota is that number, and it is reported above desired exactly when
   the final count is. The stored ids are the managed ids exactly when something had been stored,
   the run scaled, or tracking is on.
   */
  lemma CleanRun(w: World, cfg: Config, script: Script)
    requires Calm(script) && WellFormed(w) && cfg.desired >= 1
    requires Foreign(w.fips, cfg.ext) == []
    ensures var e := Run(w, cfg, script);
      var v := e.world;
      && (e.outcome == Completed <==> !Blocked(w, cfg))
      && (e.outcome == Completed ==>
            && Foreign(v.fips, cfg.ext) == []
            && |v.fips| == Max(cfg.desired, InUseCount(w, cfg))
            && v.quota == |v.fips|
            && (EndsAboveDesired(v) <==> |v.fips| > cfg.desired)
            && (|v.fips| > cfg.desired ==> Unused(Managed(v.fips, cfg.ext)) == []))
  {
    hide WellFormed, Preserves, DriftAndRelist, Scale, Managed, Unused, Foreign, RaiseAccepted;
    var w1 := Listed(w, cfg);
    WellFormedListed(w, cfg);
    var made := DriftAndRelistCalm(w1, cfg, script);
    RaiseListed(w, w1, cfg);
    var d := DriftAndRelist(w1, w1.stored, w1.released, cfg, script);
    if d.Going? {
      ScaleCalm(d.world, w.stored, d.value, cfg, script);
      var v := Scale(d.world, w.stored, d.value, cfg, script).world;
      ManagedAndForeign(v.fips, cfg.ext);
      UnusedCount(Managed(w.fips, cfg.ext));
    }
  }

  lemma WellFormedListed(w: World, cfg: Config)
    requires WellFormed(w)
    ensures var w1 := Listed(w, cfg);
      && WellFormed(w1) && NoQuotaNote(w1) && w1.fips == w.fips && w1.stored == w.stored && w1.released == w.released
      && w1.strict == w.strict && w1.creates == w.creates && w1.quota == w.quota
  {}

  lemma RaiseListed(w: World, w1: World, cfg: Config)
    requires w1.fips == w.fips && w1.stored == w.stored && w1.strict == w.strict
    ensures RaiseAccepted(w1, w1.stored, Managed(w1.fips, cfg.ext), cfg)
        <==> RaiseAccepted(w, w.stored, Managed(w.fips, cfg.ext), cfg)
  {}

  lemma NoForeignAllManaged(fips: seq<Fip>, ext: NetId)
    requires Foreign(fips, ext) == []
    ensures Managed(fips, ext) == fips
  {
    assert forall f :: f in fips && f.net != ext ==> f in Foreign(fips, ext);
    FilterAll(fips, (f: Fip) => f.net == ext);
  }

  lemma SomeIds(fips: seq<Fip>)
    ensures FipIds(fips) == {} ==> fips == []
  {
    if fips != [] {
      assert fips[0] in fips && fips[0].id in FipIds(fips);
    }
  }

  /** When the stored ids are those of the pool: exactly if something was stored, the run scaled, or tracking is on. */
  lemma StoredIdsMatchPool(w: World, cfg: Config, script: Script)
    requires Calm(script) && WellFormed(w) && cfg.desired >= 1
    requires Foreign(w.fips, cfg.ext) == [] && Run(w, cfg, script).outcome == Completed
    ensures var v := Run(w, cfg, script).world;
      (EntryIds(v.stored) == FipIds(v.fips)) <==> (w.stored != [] || |w.fips| != cfg.desired || cfg.track)
  {
    hide WellFormed, Preserves, DriftAndRelist, Scale, Managed, Unused, Foreign, RaiseAccepted, EntryIds, FipIds;
    var w1 := Listed(w, cfg);
    WellFormedListed(w, cfg);
    NoForeignAllManaged(w.fips, cfg.ext);
    var made := DriftAndRelistCalm(w1, cfg, script);
    var d := DriftAndRelist(w1, w1.stored, w1.released, cfg, script);
    ScaleCalm(d.world, w.stored, d.value, cfg, script);
    var v := Scale(d.world, w.stored, d.value, cfg, script).world;
    NoForeignAllManaged(v.fips, cfg.ext);
    NoForeignAllManaged(d.world.fips, cfg.ext);
    EntryIdsOfEntries(d.value);
    SomeIds(d.value);
    NoEntries();
  }

  /** As many as wanted, nothing stored, tracking off: the run completes and stores nothing. */
  lemma UnstoredExample(script: Script)
    requires Calm(script)
    ensures var f := Fip(1, 10, 0, false);
      var e := Run(World([f], 1, true, {}, 2, [], [], NoSnapshot, [], 0, 0, 0), Config(1, true, false, 0), script);
      e.outcome == Completed && e.world.fips == [f] && e.world.stored == []
  {
    var w := World([Fip(1, 10, 0, false)], 1, true, {}, 2, [], [], NoSnapshot, [], 0, 0, 0);
    var cfg := Config(1, true, false, 0);
    FilterNone(w.fips, (f: Fip) => f.net != 0);
    hide Run;
    CleanRun(w, cfg, script);
    UnstoredRun(w, cfg, script);
  }

  lemma NoEntries()
    ensures EntryIds([]) == {}
  {}

  /** Nothing is left to do: counts, quota and list agree. */
  ghost predicate Quiescent(w: World, cfg: Config) {
    var existing := Managed(w.fips, cfg.ext);
    && |existing| >= cfg.desired
    && (|existing| > cfg.desired ==> Unused(existing) == [])
    && w.quota == TargetQuota(w, cfg)
    && (EntryIds(w.stored) == FipIds(existing) || (w.stored == [] && |existing| == cfg.desired && !cfg.track))
  }

  lemma QuiescentRun(w: World, cfg: Config, script: Script)
    requires Calm(script) && WellFormed(w) && cfg.desired >= 1 && Quiescent(w, cfg)
    ensures var e := Run(w, cfg, script);
      && e.outcome == Completed && e.world.fips == w.fips && e.world.creates == w.creates
      && e.world.quota == w.quota && EntryIds(e.world.stored) == EntryIds(w.stored)
  {
    hide WellFormed, Preserves, Drift, Scale, Managed, Unused, Foreign, EntryIds, FipIds, Scaled;
    var w1 := Listed(w, cfg);
    WellFormedListed(w, cfg);
    var existing := Managed(w.fips, cfg.ext);
    var d := DriftAndRelist(w1, w1.stored, w1.released, cfg, script);
    if w.stored != [] {
      SettledDrift(w1, w1.stored, w1.released, existing, cfg, script);
    }
    assert d.Going? && d.value == existing
        && d.world == w1.(released := d.world.released, pos := d.world.pos);
    QuiescentScale(w1, d.world, cfg, script);
  }

  lemma QuiescentScale(w1: World, d: World, cfg: Config, script: Script)
    requires Calm(script) && WellFormed(w1) && cfg.desired >= 1 && NoQuotaNote(w1) && Quiescent(w1, cfg)
    requires d == w1.(released := d.released, pos := d.pos)
    ensures var e := Scale(d, w1.stored, Managed(w1.fips, cfg.ext), cfg, script);
      && e.outcome == Completed && e.world.fips == w1.fips && e.world.creates == w1.creates
      && e.world.quota == w1.quota && EntryIds(e.world.stored) == EntryIds(w1.stored)
  {
    hide Scale, Managed, Unused, Foreign, EntryIds, FipIds;
    var existing := Managed(w1.fips, cfg.ext);
    ScaleCalm(d, w1.stored, existing, cfg, script);
    EntryIdsOfEntries(existing);
  }

  /** A second served run creates nothing, deletes nothing, and keeps quota and stored ids. */
  lemma SecondRunIsIdle(w: World, cfg: Config, script: Script, script2: Script)
    requires Calm(script) && Calm(script2) && WellFormed(w) && cfg.desired >= 1
    requires Foreign(w.fips, cfg.ext) == [] && Run(w, cfg, script).outcome == Completed
    ensures var v := Run(w, cfg, script).world;
      var e := Run(v, cfg, script2);
      && e.outcome == Completed && e.world.fips == v.fips && e.world.creates == v.creates
      && e.world.quota == v.quota && EntryIds(e.world.stored) == EntryIds(v.stored)
  {
    hide WellFormed, Preserves, Run, Managed, Unused, Foreign, EntryIds, FipIds;
    var v := Run(w, cfg, script).world;
    CleanRun(w, cfg, script);
    RunPreserves(w, cfg, script);
    StoredIdsMatchPool(w, cfg, script);
    NoForeignAllManaged(v.fips, cfg.ext);
    if !(EntryIds(v.stored) == FipIds(v.fips)) {
      UnstoredRun(w, cfg, script);
    }
    QuiescentRun(v, cfg, script2);
  }

  lemma UnstoredRun(w: World, cfg: Config, script: Script)
    requires Calm(script) && WellFormed(w) && cfg.desired >= 1
    requires w.stored == [] && |w.fips| == cfg.desired && !cfg.track && Foreign(w.fips, cfg.ext) == []
    ensures Run(w, cfg, script).world.stored == [] && Run(w, cfg, script).world.fips == w.fips
  {
    hide WellFormed, Scale, Managed, Unused, Foreign, Scaled, EntryIds, FipIds;
    var w1 := Listed(w, cfg);
    WellFormedListed(w, cfg);
    NoForeignAllManaged(w.fips, cfg.ext);
    ScaleCalm(w1, [], Managed(w.fips, cfg.ext), cfg, script);
  }
}
