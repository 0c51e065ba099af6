/**
 What a run of src/resources/prealloc/fip.py writes down, entry by entry: which floating IPs the stored list
 describes and how, and what the released list says of each address that was lost.
 */
module FloatingIpResults {
  import opened Common
  import opened FloatingIps
  import opened FloatingIpProofs
  import opened FloatingIpTheorems
  import opened FloatingIpLimits
  import opened FloatingIpPlans
  import opened FloatingIpCuts
  import opened FloatingIpForgets

  /** The list describes the floating IPs, in order: identity, address, and whether it is attached. */
  ghost predicate Describes(list: seq<FipEntry>, fips: seq<Fip>) {
    && |list| == |fips|
    && forall i :: 0 <= i < |list| ==> list[i] == FipEntry(fips[i].id, fips[i].address, fips[i].inUse)
  }

  /** The entry describes one of the floating IPs. */
  ghost predicate DescribesOne(e: FipEntry, fips: seq<Fip>) {
    exists f :: f in fips && e == FipEntry(f.id, f.address, f.inUse)
  }

  /** The floating IPs on the configured network, in the order of the listing. */
  function PoolOf(w: World, cfg: Config): seq<Fip> {
    Filter(w.fips, (f: Fip) => f.net == cfg.ext)
  }

  ghost predicate InPoolById(w: World, cfg: Config, id: FipId) {
    exists f :: f in w.fips && f.net == cfg.ext && f.id == id
  }

  ghost predicate StoredById(w: World, id: FipId) {
    exists e :: e in w.stored && e.id == id
  }

  /** The entries whose floating IP is gone from the pool. */
  ghost function LostNow(w: World, cfg: Config): seq<FipEntry> {
    Filter(w.stored, (e: FipEntry) => !InPoolById(w, cfg, e.id))
  }

  /** The entries whose floating IP is there. */
  ghost function Kept(w: World, cfg: Config): seq<FipEntry> {
    Filter(w.stored, (e: FipEntry) => InPoolById(w, cfg, e.id))
  }

  /** The floating IPs of the pool that no entry names. */
  ghost function Unnamed(w: World, cfg: Config): seq<Fip> {
    Filter(PoolOf(w, cfg), (f: Fip) => !StoredById(w, f.id))
  }

  lemma EntriesDescribe(fips: seq<Fip>)
    ensures Describes(Entries(fips), fips)
  {}

  lemma NothingDescribed()
    ensures Describes([], [])
  {}

  lemma DriftSets(w: World, cfg: Config)
    ensures MissingNow(w, cfg) == LostNow(w, cfg)
    ensures SurvivingNow(w, cfg) == Kept(w, cfg)
    ensures UntrackedNow(w, cfg) == Unnamed(w, cfg)
  {
    var existing := Managed(w.fips, cfg.ext);
    var gone := EntryIds(MissingNow(w, cfg));
    FilterSame(w.fips, (f: Fip) => f.net == cfg.ext, (f: Fip) => f.net == cfg.ext);
    FilterSame(w.stored, (e: FipEntry) => e.id !in FipIds(existing), (e: FipEntry) => !InPoolById(w, cfg, e.id));
    forall e | e in w.stored ensures e.id !in gone <==> InPoolById(w, cfg, e.id) {
      if !InPoolById(w, cfg, e.id) {
        assert e in LostNow(w, cfg);
      }
    }
    FilterSame(w.stored, (e: FipEntry) => e.id !in gone, (e: FipEntry) => InPoolById(w, cfg, e.id));
    FilterSame(existing, (f: Fip) => f.id !in EntryIds(w.stored), (f: Fip) => !StoredById(w, f.id));
  }

  // ------------------------------------------------------------------ the drift pass

  /** The list after a drift pass: the entries still backed, as they were, those put back, and those adopted. */
  ghost predicate DriftList(w: World, cfg: Config, end: End, back: seq<FipEntry>, adopted: seq<FipEntry>) {
    && end.stored == Kept(w, cfg) + back + adopted
    && Describes(adopted, Unnamed(w, cfg))
    && (forall b :: b in back ==> DescribesOne(b, end.made))
    && (forall f :: f in end.made ==>
          f.net == cfg.ext && !f.inUse && exists e :: e in LostNow(w, cfg) && e.address == f.address)
  }

  lemma {:induction false} BackAreMade(missing: seq<FipEntry>, fates: seq<Fate>, ext: NetId, id: FipId)
    ensures var back, made := BackOf(missing, fates, id), MadeOf(missing, fates, ext, id);
      && (forall b :: b in back ==> DescribesOne(b, made))
      && (forall f :: f in made ==> f.net == ext && !f.inUse && exists e :: e in missing && e.address == f.address)
      && (Unanswered !in fates ==> Describes(back, made))
    decreases |fates|
  {
    if fates != [] && missing != [] {
      var next := if fates[0] == Denied then id else id + 1;
      BackAreMade(missing[1..], fates[1..], ext, next);
      var made, back := MadeOf(missing[1..], fates[1..], ext, next), BackOf(missing[1..], fates[1..], next);
      var f, e := Fip(id, missing[0].address, ext, false), FipEntry(id, missing[0].address, false);
      hide Describes, DescribesOne;
      if fates[0] == PutBack {
        DescribeCons(f, e, back, made);
      } else if fates[0] == Unanswered {
        DescribeMore(f, back, made);
      }
    }
  }

  lemma DescribeCons(f: Fip, e: FipEntry, back: seq<FipEntry>, made: seq<Fip>)
    requires e == FipEntry(f.id, f.address, f.inUse) && forall b :: b in back ==> DescribesOne(b, made)
    ensures forall b :: b in [e] + back ==> DescribesOne(b, [f] + made)
    ensures Describes(back, made) ==> Describes([e] + back, [f] + made)
  {
    DescribeMore(f, back, made);
    assert f in [f] + made;
  }

  lemma DescribeMore(f: Fip, back: seq<FipEntry>, made: seq<Fip>)
    requires forall b :: b in back ==> DescribesOne(b, made)
    ensures forall b :: b in back ==> DescribesOne(b, [f] + made)
  {
    forall b | b in back ensures DescribesOne(b, [f] + made) {
      var g :| g in made && b == FipEntry(g.id, g.address, g.inUse);
      assert g in [f] + made;
    }
  }

  lemma {:induction false} CalmFates(held: set<Address>, elsewhere: set<Address>, room: int, missing: seq<FipEntry>,
                                     script: Script, pos: nat)
    requires Calm(script)
    ensures Unanswered !in PlanOf(held, elsewhere, room, missing, script, pos).fates
    decreases |missing|
  {
    if missing != [] {
      var a, next := missing[0].address, Answered(script, pos, MAX_ATTEMPTS);
      var possible := room > 0 && a !in held && a !in elsewhere;
      CalmFates(if possible then held + {a} else held, elsewhere, if possible then room - 1 else room, missing[1..],
                script, next.value);
    }
  }

  /** What became of the lost entries. */
  ghost function FatesOf(w: World, cfg: Config, script: Script, pos: nat): seq<Fate> {
    var lost := LostNow(w, cfg);
    PlanOf(FipAddresses(w.fips), w.elsewhere, cfg.desired + |lost| - |w.fips|, lost, script, pos + 1).fates
  }

  /** The entries given up, as they were stored: taken elsewhere if the reclaim was refused, else just deleted. */
  ghost predicate GivenUp(w: World, cfg: Config, fates: seq<Fate>, given: seq<Released>) {
    var lost := LostNow(w, cfg);
    if cfg.reclaim then
      && (lost != [] ==> |fates| == |lost|)
      && forall r :: r in given <==> exists i :: 0 <= i < |lost| && fates[i] != PutBack
                                       && r == Released(lost[i].address, TakenElsewhere, lost[i].inUse)
    else
      && |given| == |lost|
      && forall i :: 0 <= i < |lost| ==> given[i] == Released(lost[i].address, DeletedExternally, lost[i].inUse)
  }

  lemma {:induction false} GivenUpAre(missing: seq<FipEntry>, fates: seq<Fate>)
    requires |fates| == |missing|
    ensures forall r :: r in GivenUpOf(missing, fates) <==>
      exists i :: 0 <= i < |missing| && fates[i] != PutBack
                  && r == Released(missing[i].address, TakenElsewhere, missing[i].inUse)
    decreases |fates|
  {
    if missing != [] {
      GivenUpAre(missing[1..], fates[1..]);
      assert forall i :: 0 < i < |missing| ==> missing[i] == missing[1..][i - 1] && fates[i] == fates[1..][i - 1];
    }
  }

  lemma {:induction false} FatesComplete(held: set<Address>, elsewhere: set<Address>, room: int, missing: seq<FipEntry>,
                                         script: Script, pos: nat)
    ensures var plan := PlanOf(held, elsewhere, room, missing, script, pos);
      plan.end.Some? ==> |plan.fates| == |missing|
    decreases |missing|
  {
    hide Answered, FirstReply;
    if missing != [] {
      var a, next := missing[0].address, Answered(script, pos, MAX_ATTEMPTS);
      var possible := room > 0 && a !in held && a !in elsewhere;
      if next.Some? {
        FatesComplete(if possible then held + {a} else held, elsewhere, if possible then room - 1 else room,
                      missing[1..], script, next.value);
      }
    }
  }

  ghost predicate Written(w: World, cfg: Config, script: Script, pos: nat, end: End, back: seq<FipEntry>,
                          adopted: seq<FipEntry>, given: seq<Released>) {
    && DriftList(w, cfg, end, back, adopted)
    && GivenUp(w, cfg, FatesOf(w, cfg, script, pos), given)
    && end.released
       == Filter(w.released + given, (r: Released) => forall e :: e in end.stored ==> e.address != r.address)
    && (Calm(script) ==> Describes(back, end.made))
  }

  /** Both lists after a drift pass that gets through, from the script and the state it starts from. */
  lemma DriftWrites(w: World, cfg: Config, script: Script, pos: nat)
    requires w.stored != [] && DriftEnd(w, cfg, script, pos).Some?
    ensures var end, p := DriftEnd(w, cfg, script, pos).value, AdoptEnd(w, cfg, script, pos);
      p.Some? && exists back, adopted, given :: Written(w, cfg, script, p.value, end, back, adopted, given)
  {
    hide Missing, Untracked, Surviving, MergedReleased, Entries, GivenUp, DriftList, RecoveryPlan;
    var end, p := DriftEnd(w, cfg, script, pos).value, AdoptEnd(w, cfg, script, pos).value;
    var missing, adopted := MissingNow(w, cfg), Entries(UntrackedNow(w, cfg));
    if missing == [] {
      NothingGone(w, cfg, script, p, end, adopted);
      MergedIs(w, [], end.stored);
      assert Written(w, cfg, script, p, end, [], adopted, []);
    } else {
      var r := RecoveryPlan(w, missing, cfg, script, p).value;
      SomeGone(w, cfg, script, p, end, r, adopted);
      MergedIs(w, r.given, end.stored);
      assert Written(w, cfg, script, p, end, r.back, adopted, r.given);
    }
  }

  lemma MergedIs(w: World, given: seq<Released>, stored: seq<FipEntry>)
    ensures MergedReleased(w.released, given, stored)
         == Filter(w.released + given, (r: Released) => forall e :: e in stored ==> e.address != r.address)
  {
    FilterSame(w.released + given, (r: Released) => r.address !in EntryAddresses(stored),
               (r: Released) => forall e :: e in stored ==> e.address != r.address);
  }

  lemma NothingGone(w: World, cfg: Config, script: Script, p: nat, end: End, adopted: seq<FipEntry>)
    requires MissingNow(w, cfg) == [] && adopted == Entries(UntrackedNow(w, cfg))
    requires end.made == [] && end.stored == w.stored + adopted
    ensures DriftList(w, cfg, end, [], adopted) && GivenUp(w, cfg, FatesOf(w, cfg, script, p), [])
    ensures Describes([], end.made)
  {
    DriftSets(w, cfg);
    EntriesDescribe(UntrackedNow(w, cfg));
    forall e | e in w.stored ensures InPoolById(w, cfg, e.id) {
      assert e !in LostNow(w, cfg);
    }
    FilterAll(w.stored, (e: FipEntry) => InPoolById(w, cfg, e.id));
    assert Kept(w, cfg) == w.stored;
    assert w.stored + [] == w.stored;
  }

  lemma SomeGone(w: World, cfg: Config, script: Script, p: nat, end: End, r: Recovering, adopted: seq<FipEntry>)
    requires adopted == Entries(UntrackedNow(w, cfg))
    requires RecoveryPlan(w, MissingNow(w, cfg), cfg, script, p) == Some(r)
    requires end.made == r.made && end.stored == SurvivingNow(w, cfg) + r.back + adopted
    ensures DriftList(w, cfg, end, r.back, adopted) && GivenUp(w, cfg, FatesOf(w, cfg, script, p), r.given)
    ensures Calm(script) ==> Describes(r.back, end.made)
  {
    hide MissingNow, UntrackedNow, SurvivingNow, Entries, LostNow, Kept, Unnamed, Describes, GivenUp, RecoveryPlan,
      FatesOf;
    DriftSets(w, cfg);
    EntriesDescribe(UntrackedNow(w, cfg));
    RecoveredAre(w, cfg, script, p, r);
  }

  lemma RecoveredAre(w: World, cfg: Config, script: Script, p: nat, r: Recovering)
    requires RecoveryPlan(w, LostNow(w, cfg), cfg, script, p) == Some(r)
    ensures forall b :: b in r.back ==> DescribesOne(b, r.made)
    ensures forall f :: (f in r.made ==>
      f.net == cfg.ext && !f.inUse && exists e :: e in LostNow(w, cfg) && e.address == f.address)
    ensures Calm(script) ==> Describes(r.back, r.made)
    ensures GivenUp(w, cfg, FatesOf(w, cfg, script, p), r.given)
  {
    hide PlanOf, MadeOf, BackOf, GivenUpOf, FipAddresses, LostNow, DescribesOne, Describes, Calm;
    NothingDescribed();
    var lost := LostNow(w, cfg);
    if cfg.reclaim {
      ReclaimedAre(w, cfg, lost, FatesOf(w, cfg, script, p), r);
      var room := cfg.desired + |lost| - |w.fips|;
      FatesComplete(FipAddresses(w.fips), w.elsewhere, room, lost, script, p + 1);
      if Calm(script) {
        CalmFates(FipAddresses(w.fips), w.elsewhere, room, lost, script, p + 1);
      }
    }
  }

  lemma ReclaimedAre(w: World, cfg: Config, lost: seq<FipEntry>, fates: seq<Fate>, r: Recovering)
    requires r.back == BackOf(lost, fates, w.nextId) && r.made == MadeOf(lost, fates, cfg.ext, w.nextId)
    requires r.given == GivenUpOf(lost, fates)
    ensures forall b :: b in r.back ==> DescribesOne(b, r.made)
    ensures forall f :: f in r.made ==> f.net == cfg.ext && !f.inUse && exists e :: e in lost && e.address == f.address
    ensures Unanswered !in fates ==> Describes(r.back, r.made)
    ensures |fates| == |lost| ==>
      forall x :: x in r.given <==> exists i :: 0 <= i < |lost| && fates[i] != PutBack
                                         && x == Released(lost[i].address, TakenElsewhere, lost[i].inUse)
  {
    hide DescribesOne, Describes;
    BackAreMade(lost, fates, cfg.ext, w.nextId);
    if |fates| == |lost| {
      GivenUpAre(lost, fates);
    }
  }

  // ------------------------------------------------------------------ a whole run

  /** The run gets to its scaling part. */
  predicate GetsThrough(w: World, cfg: Config, script: Script) {
    cfg.desired >= 1 && !Fails(script(w.pos).fault) && DriftEnd(w, cfg, script, w.pos + 1).Some?
  }

  /** The scaling part writes the list: the count is off, or it is tracked and the ids loaded are not the pool's. */
  predicate Rewrites(w: World, cfg: Config, end: End) {
    var there := PoolOf(w, cfg) + end.made;
    |there| != cfg.desired || (cfg.track && EntryIds(w.stored) != FipIds(there))
  }

  /** From the plan of the drift pass, the list a run ends with. */
  ghost predicate Stores(w: World, v: World, cfg: Config, end: Option<End>) {
    && end.Some?
    && (if Rewrites(w, cfg, end.value) then Describes(v.stored, PoolOf(v, cfg)) else v.stored == end.value.stored)
    && var there := PoolOf(w, cfg) + end.value.made;
       v.snapshot == if Rewrites(w, cfg, end.value) && |there| == cfg.desired then Snapshot(cfg.desired, |there|)
                     else w.snapshot
  }

  /** From the plan of the drift pass, the released list a run ends with. */
  ghost predicate Releases(w: World, v: World, end: Option<End>) {
    && end.Some? && v.released == end.value.released
    && (w.stored == [] ==> v.released == w.released && end.value.stored == [])
  }

  /**
   A served run that completes stores the pool exactly as it is then, attachments included, if it scales or
   tracks a mismatch, and otherwise leaves the list as the drift pass has written it. A tracked mismatch, and
   nothing else, writes down how many are asked for and how many there are.
   */
  lemma ServedRunStores(w: World, cfg: Config, script: Script)
    requires Calm(script) && WellFormed(w) && cfg.desired >= 1
    requires Run(w, cfg, script).outcome == Completed
    ensures Stores(w, Run(w, cfg, script).world, cfg, DriftEnd(w, cfg, script, w.pos + 1))
  {
    hide WellFormed, Preserves, DriftAndRelist, Scale, Foreign, Managed, DriftEnd, EntryIds, FipIds, Describes,
      Rewrites, RaiseAccepted, Unused;
    var w1 := Listed(w, cfg);
    WellFormedListed(w, cfg);
    PlannedStart(w, cfg, script);
    var d := DriftAndRelist(w1, w1.stored, w1.released, cfg, script);
    var made := DriftAndRelistCalm(w1, cfg, script);
    ScaleWrites(w, d.world, d.value, DriftEnd(w, cfg, script, w.pos + 1).value, cfg, script);
  }

  lemma ScaleWrites(w: World, d: World, there: seq<Fip>, end: End, cfg: Config, script: Script)
    requires Calm(script) && WellFormed(d) && there == Managed(d.fips, cfg.ext)
    requires there == Managed(w.fips, cfg.ext) + end.made && d.stored == end.stored && NoQuotaNote(d)
    requires d.snapshot == w.snapshot
    requires Scale(d, w.stored, there, cfg, script).outcome == Completed
    ensures var v := Scale(d, w.stored, there, cfg, script).world;
      Stores(w, v, cfg, Some(end))
  {
    hide WellFormed, Scale, Foreign, Managed, EntryIds, FipIds, Describes, Unused, Scaled;
    ScaleCalm(d, w.stored, there, cfg, script);
    ScaleKeepsReleased(d, w.stored, there, cfg, script);
    var v := Scale(d, w.stored, there, cfg, script).world;
    ManagedIsPool(w, cfg);
    ManagedIsPool(v, cfg);
    EntriesDescribe(PoolOf(v, cfg));
  }

  lemma ManagedIsPool(w: World, cfg: Config)
    ensures Managed(w.fips, cfg.ext) == PoolOf(w, cfg)
  {
    FilterSame(w.fips, (f: Fip) => f.net == cfg.ext, (f: Fip) => f.net == cfg.ext);
  }

  /** The released list at every exit of a run that gets to its scaling part, whatever becomes of its calls then. */
  lemma RunReleases(w: World, cfg: Config, script: Script)
    requires WellFormed(w) && GetsThrough(w, cfg, script)
    ensures Releases(w, Run(w, cfg, script).world, DriftEnd(w, cfg, script, w.pos + 1))
  {
    hide WellFormed, Preserves, DriftAndRelist, Scale, Foreign, Managed, DriftEnd;
    var w1 := Listed(w, cfg);
    PlannedStart(w, cfg, script);
    var d := DriftAndRelist(w1, w1.stored, w1.released, cfg, script);
    ScaleKeepsReleased(d.world, w.stored, d.value, cfg, script);
    if w.stored == [] {
      NothingStored(w, cfg, script);
    }
  }

  lemma NothingStored(w: World, cfg: Config, script: Script)
    requires w.stored == []
    ensures DriftEnd(w, cfg, script, w.pos + 1) == Some(End([], [], w.released, w.pos + 1))
  {
    hide DriftEnd;
    var v := w.(pos := w.pos + 1);
    NoDriftEnd(v, cfg, script);
    SamePlans(w, v, cfg, script);
  }

  /** The list of released addresses grows by the lost entries only, each as it was stored. */
  lemma ReleasedAsStored(w: World, cfg: Config, script: Script, r: Released)
    requires WellFormed(w) && GetsThrough(w, cfg, script) && w.stored != []
    requires r in Run(w, cfg, script).world.released && r !in w.released
    ensures exists e :: e in LostNow(w, cfg) && r.address == e.address && r.inUse == e.inUse
    ensures r.reason == if cfg.reclaim then TakenElsewhere else DeletedExternally
  {
    hide Run, LostNow, DriftList, FatesOf;
    RunReleases(w, cfg, script);
    DriftWrites(w, cfg, script, w.pos + 1);
    var end, p := DriftEnd(w, cfg, script, w.pos + 1).value, AdoptEnd(w, cfg, script, w.pos + 1).value;
    hide DriftEnd, AdoptEnd, WellFormed, InPoolById;
    var back, adopted, given :| Written(w, cfg, script, p, end, back, adopted, given);
    assert r in given;
  }
}
