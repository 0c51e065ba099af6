/** The snapshot of router addresses and its audit trail of released ones (src/resources/network.py:366-511). */
module RouterIps {
  import opened Common

  datatype Observed = Observed(id: string, name: string, ip: string)

  datatype Entry = Entry(id: string, name: string, ip: string)

  datatype Reason = RouterGone | Changed(newIp: string)

  datatype Released = Released(address: string, router: string, at: int, reason: Reason)

  /** The two lists kept in the state file. */
  datatype Stored = Stored(current: seq<Entry>, released: seq<Released>)

  /** Where a run dies: before it saves, between its two saves, or not at all. */
  datatype Cut = NoCut | BeforeSaves | BetweenSaves

  /** The stamps of the releases of one run, in order. */
  type Stamps = nat -> int

  // ---------- One run as a function ----------

  /** Routers without an external address are left out. */
  function Snapshot(seen: seq<Observed>, n: nat): seq<Entry>
    requires n <= |seen|
  {
    if n == 0 then []
    else
      var o := seen[n - 1];
      Snapshot(seen, n - 1) + if o.ip != "" then [Entry(o.id, o.name, o.ip)] else []
  }

  predicate HasId(entries: seq<Entry>, id: string) {
    exists e :: e in entries && e.id == id
  }

  /** The address under an id; of several entries the last counts. */
  function IpOf(entries: seq<Entry>, id: string): Option<string> {
    if entries == [] then None
    else
      var last := entries[|entries| - 1];
      if last.id == id then Some(last.ip) else IpOf(entries[..|entries| - 1], id)
  }

  function RemovedRouters(previous: seq<Entry>, n: nat, current: seq<Entry>, stamps: Stamps): seq<Released>
    requires n <= |previous|
  {
    if n == 0 then []
    else
      var e := previous[n - 1];
      var before := RemovedRouters(previous, n - 1, current, stamps);
      if HasId(current, e.id) then before else before + [Released(e.ip, e.name, stamps(|before|), RouterGone)]
  }

  predicate IpChanged(previous: seq<Entry>, e: Entry) {
    IpOf(previous, e.id).Some? && IpOf(previous, e.id).value != e.ip
  }

  function ChangedRouters(previous: seq<Entry>, current: seq<Entry>, n: nat, gone: seq<Released>,
                          stamps: Stamps): seq<Released>
    requires n <= |current|
  {
    if n == 0 then gone
    else
      var e := current[n - 1];
      var before := ChangedRouters(previous, current, n - 1, gone, stamps);
      if IpChanged(previous, e)
      then before + [Released(IpOf(previous, e.id).value, e.name, stamps(|before|), Changed(e.ip))]
      else before
  }

  function Releases(previous: seq<Entry>, current: seq<Entry>, stamps: Stamps): seq<Released> {
    ChangedRouters(previous, current, |current|, RemovedRouters(previous, |previous|, current, stamps), stamps)
  }

  predicate Active(current: seq<Entry>, address: string) {
    exists e :: e in current && e.ip == address
  }

  function Inactive(released: seq<Released>, current: seq<Entry>): seq<Released> {
    Filter(released, (r: Released) => !Active(current, r.address))
  }

  function Track(s: Stored, seen: seq<Observed>, stamps: Stamps, cut: Cut): Stored {
    var current := Snapshot(seen, |seen|);
    match cut
    case BeforeSaves => s
    case BetweenSaves => Stored(current, s.released)
    case NoCut => Stored(current, Inactive(s.released + Releases(s.current, current, stamps), current))
  }

  // ---------- The run step by step ----------

  class Tracker {
    var routerIps: seq<Entry>
    var releasedIps: seq<Released>

    constructor (s: Stored)
      ensures Stored(routerIps, releasedIps) == s
    {
      routerIps := s.current;
      releasedIps := s.released;
    }

    method Observe(seen: seq<Observed>) returns (current: seq<Entry>)
      ensures current == Snapshot(seen, |seen|)
    {
      current := [];
      for i := 0 to |seen|
        invariant current == Snapshot(seen, i)
      {
        if seen[i].ip != "" {
          current := current + [Entry(seen[i].id, seen[i].name, seen[i].ip)];
        }
      }
    }

    method CollectReleases(previous: seq<Entry>, current: seq<Entry>, stamps: Stamps) returns (releases: seq<Released>)
      ensures releases == Releases(previous, current, stamps)
    {
      hide IpOf, HasId;
      releases := [];
      for i := 0 to |previous|
        invariant releases == RemovedRouters(previous, i, current, stamps)
      {
        if !HasId(current, previous[i].id) {
          releases := releases + [Released(previous[i].ip, previous[i].name, stamps(|releases|), RouterGone)];
        }
      }
      ghost var gone := releases;
      for i := 0 to |current|
        invariant releases == ChangedRouters(previous, current, i, gone, stamps)
      {
        var e := current[i];
        if IpChanged(previous, e) {
          releases := releases + [Released(IpOf(previous, e.id).value, e.name, stamps(|releases|), Changed(e.ip))];
        }
      }
    }

    /** Saves the snapshot and then the audit trail, each only where it differs from what is stored. */
    method TrackRouterIps(seen: seq<Observed>, stamps: Stamps, cut: Cut)
      modifies this
      ensures Stored(routerIps, releasedIps) == Track(old(Stored(routerIps, releasedIps)), seen, stamps, cut)
    {
      var current := Observe(seen);
      var releases := CollectReleases(routerIps, current, stamps);
      if cut.BeforeSaves? {
        return;
      }
      if current != routerIps {
        routerIps := current;
      }
      if cut.BetweenSaves? {
        return;
      }
      var all := Inactive(releasedIps + releases, current);
      if all != releasedIps {
        releasedIps := all;
      }
    }
  }

  // ---------- Conservation of addresses ----------

  predicate UniqueIds(entries: seq<Entry>) {
    forall i, j :: 0 <= i < j < |entries| ==> entries[i].id != entries[j].id
  }

  predicate InTrail(released: seq<Released>, address: string) {
    exists r :: r in released && r.address == address
  }

  /** An address the store knows about. */
  predicate Known(s: Stored, address: string) {
    Active(s.current, address) || InTrail(s.released, address)
  }

  /** No active address is in the trail. */
  ghost predicate Partitioned(s: Stored) {
    forall a: string :: !(Active(s.current, a) && InTrail(s.released, a))
  }

  lemma {:induction false} IpOfUnique(entries: seq<Entry>, e: Entry)
    requires UniqueIds(entries) && e in entries
    ensures IpOf(entries, e.id) == Some(e.ip)
    decreases |entries|
  {
    var n := |entries| - 1;
    if entries[n] != e {
      assert entries == entries[..n] + [entries[n]];
      assert e in entries[..n];
      IpOfUnique(entries[..n], e);
    }
  }

  lemma {:induction false} IpOfStored(entries: seq<Entry>, id: string)
    requires IpOf(entries, id).Some?
    ensures Active(entries, IpOf(entries, id).value)
    decreases |entries|
  {
    var n := |entries| - 1;
    if entries[n].id == id {
      assert entries[n] in entries;
    } else {
      IpOfStored(entries[..n], id);
      var e :| e in entries[..n] && e.ip == IpOf(entries, id).value;
      assert e in entries;
    }
  }

  lemma {:induction false} RemovedAre(previous: seq<Entry>, n: nat, current: seq<Entry>, stamps: Stamps)
    requires n <= |previous|
    ensures var r := RemovedRouters(previous, n, current, stamps);
      && (forall x :: x in r ==> Active(previous, x.address))
      && (forall i :: 0 <= i < n && !HasId(current, previous[i].id) ==> InTrail(r, previous[i].ip))
  {
    if n > 0 {
      hide HasId;
      RemovedAre(previous, n - 1, current, stamps);
      var e := previous[n - 1];
      assert e in previous;
      var before := RemovedRouters(previous, n - 1, current, stamps);
      var r := RemovedRouters(previous, n, current, stamps);
      TrailGrows(before, r);
    }
  }

  lemma TrailGrows(a: seq<Released>, b: seq<Released>)
    requires a <= b
    ensures forall address :: InTrail(a, address) ==> InTrail(b, address)
  {
    forall address | InTrail(a, address) ensures InTrail(b, address) {
      var r :| r in a && r.address == address;
      assert r in b;
    }
  }

  lemma {:induction false} ChangedAre(previous: seq<Entry>, current: seq<Entry>, n: nat, gone: seq<Released>,
                                      stamps: Stamps)
    requires n <= |current|
    requires forall x :: x in gone ==> Active(previous, x.address)
    ensures var r := ChangedRouters(previous, current, n, gone, stamps);
      && gone <= r
      && (forall x :: x in r ==> Active(previous, x.address))
      && (forall i :: 0 <= i < n && IpChanged(previous, current[i]) ==> InTrail(r, IpOf(previous, current[i].id).value))
  {
    if n > 0 {
      hide IpOf;
      ChangedAre(previous, current, n - 1, gone, stamps);
      var e := current[n - 1];
      if IpChanged(previous, e) {
        IpOfStored(previous, e.id);
      }
      TrailGrows(ChangedRouters(previous, current, n - 1, gone, stamps),
                 ChangedRouters(previous, current, n, gone, stamps));
    }
  }

  /** The releases of a run name only addresses of the old snapshot, and every one that is no longer active. */
  lemma ReleasesAre(previous: seq<Entry>, current: seq<Entry>, stamps: Stamps)
    requires UniqueIds(previous)
    ensures var r := Releases(previous, current, stamps);
      && (forall x :: x in r ==> Active(previous, x.address))
      && (forall a: string :: Active(previous, a) && !Active(current, a) ==> InTrail(r, a))
  {
    var gone := RemovedRouters(previous, |previous|, current, stamps);
    var r := Releases(previous, current, stamps);
    RemovedAre(previous, |previous|, current, stamps);
    ChangedAre(previous, current, |current|, gone, stamps);
    TrailGrows(gone, r);
    hide RemovedRouters, ChangedRouters;
    forall a: string | Active(previous, a) && !Active(current, a) ensures InTrail(r, a) {
      var e :| e in previous && e.ip == a;
      if HasId(current, e.id) {
        var c :| c in current && c.id == e.id;
        IpOfUnique(previous, e);
        var i :| 0 <= i < |current| && current[i] == c;
        assert IpChanged(previous, current[i]);
      } else {
        var i :| 0 <= i < |previous| && previous[i] == e;
        assert InTrail(gone, previous[i].ip);
      }
    }
  }

  lemma InactiveTrail(released: seq<Released>, current: seq<Entry>, a: string)
    ensures InTrail(Inactive(released, current), a) <==> InTrail(released, a) && !Active(current, a)
  {
    hide Active;
    if InTrail(released, a) && !Active(current, a) {
      var r :| r in released && r.address == a;
      assert r in Inactive(released, current);
    }
  }

  /**
   After a complete run the trail holds exactly the addresses once released or lost that are not active now,
   so every address known before is in exactly one of the two lists.
   */
  lemma CompleteRunPartitions(s: Stored, seen: seq<Observed>, stamps: Stamps)
    requires UniqueIds(s.current)
    ensures var t := Track(s, seen, stamps, NoCut);
      && Partitioned(t)
      && (forall a: string :: InTrail(t.released, a) <==> Known(s, a) && !Active(t.current, a))
  {
    hide Snapshot, Inactive, Releases, Active;
    var current := Snapshot(seen, |seen|);
    var r := Releases(s.current, current, stamps);
    ReleasesAre(s.current, current, stamps);
    forall a: string ensures InTrail(Inactive(s.released + r, current), a) <==> Known(s, a) && !Active(current, a) {
      InactiveTrail(s.released + r, current, a);
      TrailGrows(s.released, s.released + r);
      if InTrail(r, a) {
        var x :| x in r && x.address == a;
        assert x in s.released + r;
      }
      if InTrail(s.released + r, a) {
        var x :| x in s.released + r && x.address == a;
      }
    }
  }

  // ---------- Many runs ----------

  datatype Pass = Pass(seen: seq<Observed>, stamps: Stamps, cut: Cut)

  function Passes(s: Stored, passes: seq<Pass>): Stored {
    if passes == [] then s
    else
      var p := passes[|passes| - 1];
      Track(Passes(s, passes[..|passes| - 1]), p.seen, p.stamps, p.cut)
  }

  predicate DistinctRouters(seen: seq<Observed>) {
    forall i, j :: 0 <= i < j < |seen| ==> seen[i].id != seen[j].id
  }

  lemma {:induction false} SnapshotFrom(seen: seq<Observed>, n: nat, e: Entry) returns (i: nat)
    requires n <= |seen| && e in Snapshot(seen, n)
    ensures i < n && seen[i].id == e.id
    decreases n
  {
    if e in Snapshot(seen, n - 1) {
      i := SnapshotFrom(seen, n - 1, e);
    } else {
      i := n - 1;
    }
  }

  lemma {:induction false} SnapshotUnique(seen: seq<Observed>, n: nat)
    requires DistinctRouters(seen) && n <= |seen|
    ensures UniqueIds(Snapshot(seen, n))
  {
    if n > 0 {
      SnapshotUnique(seen, n - 1);
      var before := Snapshot(seen, n - 1);
      forall i | 0 <= i < |before| ensures before[i].id != seen[n - 1].id {
        assert before[i] in before;
        var k := SnapshotFrom(seen, n - 1, before[i]);
      }
    }
  }

  ghost predicate DistinctListings(passes: seq<Pass>) {
    forall p :: p in passes ==> DistinctRouters(p.seen)
  }

  predicate Shown(seen: seq<Observed>, a: string) {
    a != "" && exists o :: o in seen && o.ip == a
  }

  lemma {:induction false} SnapshotShows(seen: seq<Observed>, n: nat, a: string)
    requires n <= |seen|
    ensures Active(Snapshot(seen, n), a) <==> Shown(seen[..n], a)
  {
    if n > 0 {
      SnapshotShows(seen, n - 1, a);
      assert seen[..n] == seen[..n - 1] + [seen[n - 1]];
      assert forall o :: o in seen[..n] <==> o in seen[..n - 1] || o == seen[n - 1];
      var before, last := Snapshot(seen, n - 1), Entry(seen[n - 1].id, seen[n - 1].name, seen[n - 1].ip);
      assert forall e :: e in Snapshot(seen, n) <==> e in before || (seen[n - 1].ip != "" && e == last);
    }
  }

  /** What the listings and cuts alone make of one address: whether it is active, and whether it is in the trail. */
  datatype Fate = Fate(active: bool, released: bool)

  function NextFate(f: Fate, p: Pass, a: string): Fate {
    var shown := Shown(p.seen, a);
    match p.cut
    case BeforeSaves => f
    case BetweenSaves => Fate(shown, f.released)
    case NoCut => Fate(shown, (f.active || f.released) && !shown)
  }

  function FateOf(s: Stored, passes: seq<Pass>, a: string): Fate {
    if passes == [] then Fate(Active(s.current, a), InTrail(s.released, a))
    else NextFate(FateOf(s, passes[..|passes| - 1], a), passes[|passes| - 1], a)
  }

  lemma PassFate(s: Stored, p: Pass, a: string)
    requires UniqueIds(s.current) && DistinctRouters(p.seen)
    ensures var t := Track(s, p.seen, p.stamps, p.cut);
      && UniqueIds(t.current)
      && Fate(Active(t.current, a), InTrail(t.released, a))
         == NextFate(Fate(Active(s.current, a), InTrail(s.released, a)), p, a)
  {
    hide Snapshot, Inactive, Releases, Active, InTrail, Shown;
    SnapshotUnique(p.seen, |p.seen|);
    SnapshotShows(p.seen, |p.seen|, a);
    assert p.seen[..|p.seen|] == p.seen;
    if p.cut.NoCut? {
      CompleteRunPartitions(s, p.seen, p.stamps);
    }
  }

  /** Over any number of passes, cut anywhere, every address meets the fate its listings and the cuts decide. */
  lemma {:induction false} AddressFate(s: Stored, passes: seq<Pass>, a: string)
    requires UniqueIds(s.current) && DistinctListings(passes)
    ensures var t := Passes(s, passes);
      && UniqueIds(t.current)
      && Fate(Active(t.current, a), InTrail(t.released, a)) == FateOf(s, passes, a)
  {
    if passes != [] {
      hide Track, Active, InTrail, NextFate;
      var n := |passes| - 1;
      assert passes[n] in passes;
      AddressFate(s, passes[..n], a);
      PassFate(Passes(s, passes[..n]), passes[n], a);
    }
  }

  /** The address was known to begin with or is shown by a pass that saves its snapshot. */
  ghost predicate EverKnown(s: Stored, passes: seq<Pass>, a: string) {
    Known(s, a) || exists i :: 0 <= i < |passes| && Shows(passes[i], a)
  }

  predicate Shows(p: Pass, a: string) {
    !p.cut.BeforeSaves? && Shown(p.seen, a)
  }

  /** Pass i dies between its saves when the address has just gone and is in no trail, and no later pass shows it. */
  ghost predicate ForgottenAt(s: Stored, passes: seq<Pass>, a: string, i: int)
    requires 0 <= i < |passes|
  {
    && passes[i].cut.BetweenSaves? && !Shown(passes[i].seen, a)
    && FateOf(s, passes[..i], a) == Fate(true, false)
    && forall j :: i < j < |passes| ==> !Shows(passes[j], a)
  }

  ghost predicate Forgotten(s: Stored, passes: seq<Pass>, a: string) {
    exists i :: 0 <= i < |passes| && ForgottenAt(s, passes, a, i)
  }

  /**
   Over any number of passes, cut anywhere, an address once known is in neither list at the end exactly if
   some pass forgot it between its saves and no later listing showed it again.
   */
  lemma AddressesAreConserved(s: Stored, passes: seq<Pass>, a: string)
    requires UniqueIds(s.current) && DistinctListings(passes) && EverKnown(s, passes, a)
    ensures Known(Passes(s, passes), a) <==> !Forgotten(s, passes, a)
  {
    hide Passes, Active, InTrail, Shown;
    AddressFate(s, passes, a);
    FateForgets(s, passes, a);
  }

  predicate InNeither(f: Fate) {
    !f.active && !f.released
  }

  lemma {:induction false} FateForgets(s: Stored, passes: seq<Pass>, a: string)
    ensures EverKnown(s, passes, a) ==> (InNeither(FateOf(s, passes, a)) <==> Forgotten(s, passes, a))
    ensures !EverKnown(s, passes, a) ==> InNeither(FateOf(s, passes, a))
    decreases |passes|
  {
    hide Active, InTrail, Shown;
    if passes != [] {
      var n := |passes| - 1;
      FateForgets(s, passes[..n], a);
      KnownBefore(s, passes, a);
      ForgottenBefore(s, passes, a);
      assert passes[..n] + [passes[n]] == passes;
    }
  }

  lemma KnownBefore(s: Stored, passes: seq<Pass>, a: string)
    requires passes != []
    ensures EverKnown(s, passes, a)
       <==> EverKnown(s, passes[..|passes| - 1], a) || Shows(passes[|passes| - 1], a)
  {
    hide Known, Shows;
    var n := |passes| - 1;
    var before := passes[..n];
    assert forall i :: 0 <= i < n ==> before[i] == passes[i];
    if i :| 0 <= i < |before| && Shows(before[i], a) {
      assert Shows(passes[i], a);
    }
    if i :| 0 <= i < |passes| && Shows(passes[i], a) && i < n {
      assert Shows(before[i], a);
    }
  }

  lemma ForgottenBefore(s: Stored, passes: seq<Pass>, a: string)
    requires passes != []
    ensures Forgotten(s, passes, a)
       <==> ((Forgotten(s, passes[..|passes| - 1], a) && !Shows(passes[|passes| - 1], a))
             || ForgottenAt(s, passes, a, |passes| - 1))
  {
    hide Shows, Shown, FateOf;
    var n := |passes| - 1;
    var before := passes[..n];
    assert forall i :: 0 <= i < n ==> before[i] == passes[i] && before[..i] == passes[..i];
    if i :| 0 <= i < |before| && ForgottenAt(s, before, a, i) && !Shows(passes[n], a) {
      assert ForgottenAt(s, passes, a, i);
    }
    if i :| 0 <= i < |passes| && ForgottenAt(s, passes, a, i) && i < n {
      assert ForgottenAt(s, before, a, i);
      assert !Shows(passes[n], a);
    }
  }

  /** What is in neither list stays out of both, whatever the passes, until one shows it again. */
  lemma ForgottenStaysOut(s: Stored, passes: seq<Pass>, a: string)
    requires UniqueIds(s.current) && DistinctListings(passes) && !Known(s, a)
    requires forall i :: 0 <= i < |passes| ==> !Shows(passes[i], a)
    ensures !Known(Passes(s, passes), a)
  {
    hide Passes, Active, InTrail, Shown;
    AddressFate(s, passes, a);
    FateForgets(s, passes, a);
  }

  /** After a pass that gets through no address is active and released at once. */
  lemma ListsAreDisjoint(s: Stored, passes: seq<Pass>)
    requires UniqueIds(s.current) && DistinctListings(passes) && passes != [] && passes[|passes| - 1].cut.NoCut?
    ensures Partitioned(Passes(s, passes))
  {
    hide Active, InTrail, Shown, Passes;
    forall a: string ensures !(Active(Passes(s, passes).current, a) && InTrail(Passes(s, passes).released, a)) {
      AddressFate(s, passes, a);
    }
  }

  /** The router is gone, the run that notices dies between its saves, and the trail never gets its address. */
  lemma ForgetsExample(stamps: Stamps)
    ensures var s := Stored([Entry("r", "n", "192.0.2.1")], []);
      var passes := [Pass([], stamps, BetweenSaves), Pass([], stamps, NoCut)];
      Known(s, "192.0.2.1") && !Known(Passes(s, passes), "192.0.2.1")
  {
    var a := "192.0.2.1";
    var e := Entry("r", "n", a);
    var s := Stored([e], []);
    var passes := [Pass([], stamps, BetweenSaves), Pass([], stamps, NoCut)];
    assert e in s.current;
    assert Known(s, a);
    hide Passes;
    assert ForgottenAt(s, passes, a, 0) by {
      assert passes[..0] == [];
    }
    AddressesAreConserved(s, passes, a);
  }

  /** A complete run over the routers already stored saves nothing new. */
  lemma SecondRunIsIdle(s: Stored, seen: seq<Observed>, stamps: Stamps)
    requires DistinctRouters(seen) && s.current == Snapshot(seen, |seen|) && Partitioned(s)
    ensures Track(s, seen, stamps, NoCut) == s
  {
    var current := s.current;
    SnapshotUnique(seen, |seen|);
    hide Snapshot;
    NothingRemoved(current, |current|, stamps);
    NothingChanged(current, |current|, stamps);
    assert s.released + [] == s.released;
    forall r | r in s.released ensures !Active(current, r.address) {
      assert InTrail(s.released, r.address);
    }
    FilterAll(s.released, (r: Released) => !Active(current, r.address));
  }

  lemma {:induction false} NothingRemoved(current: seq<Entry>, n: nat, stamps: Stamps)
    requires n <= |current|
    ensures RemovedRouters(current, n, current, stamps) == []
  {
    if n > 0 {
      NothingRemoved(current, n - 1, stamps);
      assert current[n - 1] in current;
    }
  }

  lemma {:induction false} NothingChanged(current: seq<Entry>, n: nat, stamps: Stamps)
    requires n <= |current| && UniqueIds(current)
    ensures ChangedRouters(current, current, n, [], stamps) == []
  {
    if n > 0 {
      NothingChanged(current, n - 1, stamps);
      IpOfUnique(current, current[n - 1]);
    }
  }

  // ---------- What is written, entry by entry ----------

  ghost function Addressed(seen: seq<Observed>): seq<Observed> {
    Filter(seen, (o: Observed) => o.ip != "")
  }

  lemma AddressedSnoc(seen: seq<Observed>, o: Observed)
    ensures Addressed(seen + [o]) == Addressed(seen) + if o.ip != "" then [o] else []
  {
    FilterSnoc(seen, o, (o: Observed) => o.ip != "");
  }

  /** The snapshot lists the routers with an external address as they were observed. */
  lemma {:induction false} SnapshotIs(seen: seq<Observed>, n: nat)
    requires n <= |seen|
    ensures var shown := Addressed(seen[..n]);
      && |Snapshot(seen, n)| == |shown|
      && (forall i :: 0 <= i < |shown| ==> Snapshot(seen, n)[i] == Entry(shown[i].id, shown[i].name, shown[i].ip))
  {
    if n > 0 {
      hide Addressed;
      SnapshotIs(seen, n - 1);
      AddressedSnoc(seen[..n - 1], seen[n - 1]);
      assert seen[..n] == seen[..n - 1] + [seen[n - 1]];
    }
  }

  /** The stored routers that are not observed with an address any more. */
  ghost function Gone(previous: seq<Entry>, current: seq<Entry>): seq<Entry> {
    Filter(previous, (e: Entry) => forall c :: c in current ==> c.id != e.id)
  }

  /** The observed routers that are stored with another address. */
  ghost function Moved(previous: seq<Entry>, current: seq<Entry>): seq<Entry> {
    Filter(current, (e: Entry) => exists p :: p in previous && p.id == e.id && p.ip != e.ip)
  }

  /** A release of the address a router had, which its entry e has replaced. */
  ghost predicate IsMove(previous: seq<Entry>, e: Entry, at: int, r: Released) {
    exists p :: p in previous && p.id == e.id && r == Released(p.ip, e.name, at, Changed(e.ip))
  }

  lemma GoneSnoc(previous: seq<Entry>, e: Entry, current: seq<Entry>)
    ensures Gone(previous + [e], current) == Gone(previous, current) + if HasId(current, e.id) then [] else [e]
  {
    FilterSnoc(previous, e, (e: Entry) => forall c :: c in current ==> c.id != e.id);
  }

  lemma NothingMoved(previous: seq<Entry>)
    ensures Moved(previous, []) == []
  {}

  lemma MovedSnoc(previous: seq<Entry>, current: seq<Entry>, e: Entry)
    requires UniqueIds(previous)
    ensures Moved(previous, current + [e]) == Moved(previous, current) + if IpChanged(previous, e) then [e] else []
  {
    hide IpChanged;
    IpChangedExactly(previous, e);
    FilterSnoc(current, e, (e: Entry) => exists p :: p in previous && p.id == e.id && p.ip != e.ip);
  }

  lemma {:induction false} RemovedExactly(previous: seq<Entry>, n: nat, current: seq<Entry>, stamps: Stamps)
    requires n <= |previous|
    ensures var rs, gone := RemovedRouters(previous, n, current, stamps), Gone(previous[..n], current);
      && |rs| == |gone|
      && (forall i :: 0 <= i < |gone| ==> rs[i] == Released(gone[i].ip, gone[i].name, stamps(i), RouterGone))
  {
    if n > 0 {
      hide Gone, HasId;
      RemovedExactly(previous, n - 1, current, stamps);
      GoneSnoc(previous[..n - 1], previous[n - 1], current);
      assert previous[..n] == previous[..n - 1] + [previous[n - 1]];
    }
  }

  lemma {:induction false} IpChangedExactly(previous: seq<Entry>, e: Entry)
    requires UniqueIds(previous)
    ensures IpChanged(previous, e) <==> exists p :: p in previous && p.id == e.id && p.ip != e.ip
    ensures (IpOf(previous, e.id).Some? ==>
             exists p :: p in previous && p.id == e.id && p.ip == IpOf(previous, e.id).value)
  {
    forall p | p in previous && p.id == e.id ensures IpOf(previous, e.id) == Some(p.ip) {
      IpOfUnique(previous, p);
    }
    IpOfListed(previous, e.id);
  }

  lemma {:induction false} IpOfListed(previous: seq<Entry>, id: string)
    ensures IpOf(previous, id).Some? ==> exists p :: p in previous && p.id == id && p.ip == IpOf(previous, id).value
    decreases |previous|
  {
    if previous != [] {
      var n := |previous| - 1;
      if previous[n].id == id {
        assert previous[n] in previous;
      } else if IpOf(previous, id).Some? {
        IpOfListed(previous[..n], id);
        var p :| p in previous[..n] && p.id == id && p.ip == IpOf(previous, id).value;
        assert p in previous;
      }
    }
  }

  lemma {:induction false} ChangedExactly(previous: seq<Entry>, current: seq<Entry>, n: nat, gone: seq<Released>,
                                          stamps: Stamps)
    requires n <= |current| && UniqueIds(previous)
    ensures var rs, moved := ChangedRouters(previous, current, n, gone, stamps), Moved(previous, current[..n]);
      && |rs| == |gone| + |moved| && rs[..|gone|] == gone
      && (forall i :: 0 <= i < |moved| ==> IsMove(previous, moved[i], stamps(|gone| + i), rs[|gone| + i]))
    decreases n
  {
    hide IpOf, UniqueIds, IsMove, Moved;
    if n == 0 {
      NothingMoved(previous);
    } else {
      var e := current[n - 1];
      var before := ChangedRouters(previous, current, n - 1, gone, stamps);
      ChangedExactly(previous, current, n - 1, gone, stamps);
      MovedSnoc(previous, current[..n - 1], e);
      assert current[..n] == current[..n - 1] + [e];
      MoveOf(previous, e, stamps(|before|));
    }
  }

  lemma MoveOf(previous: seq<Entry>, e: Entry, at: int)
    requires UniqueIds(previous)
    ensures (IpOf(previous, e.id).Some? ==>
             IsMove(previous, e, at, Released(IpOf(previous, e.id).value, e.name, at, Changed(e.ip))))
  {
    IpOfListed(previous, e.id);
  }

  /** A complete run stores the routers with an external address as they were observed. */
  lemma RunShows(s: Stored, seen: seq<Observed>, stamps: Stamps)
    ensures var shown := Filter(seen, (o: Observed) => o.ip != "");
      var t := Track(s, seen, stamps, NoCut);
      && |t.current| == |shown|
      && (forall i :: 0 <= i < |shown| ==> t.current[i] == Entry(shown[i].id, shown[i].name, shown[i].ip))
  {
    assert seen[..|seen|] == seen;
    SnapshotIs(seen, |seen|);
    hide Releases;
  }

  /**
   It puts behind the earlier releases one for each router that is gone, under its stored name, and one for each
   that has moved, under its present name, less those of addresses that are in use.
   */
  lemma RunReleases(s: Stored, seen: seq<Observed>, stamps: Stamps) returns (releases: seq<Released>)
    requires UniqueIds(s.current)
    ensures var t := Track(s, seen, stamps, NoCut);
      var gone, moved := Gone(s.current, t.current), Moved(s.current, t.current);
      && |releases| == |gone| + |moved|
      && (forall i :: 0 <= i < |gone| ==> releases[i] == Released(gone[i].ip, gone[i].name, stamps(i), RouterGone))
      && (forall i :: 0 <= i < |moved| ==>
            IsMove(s.current, moved[i], stamps(|gone| + i), releases[|gone| + i]))
      && t.released == Filter(s.released + releases, (r: Released) => forall e :: e in t.current ==> e.ip != r.address)
  {
    hide IsMove, UniqueIds, Snapshot, RemovedRouters, ChangedRouters, Gone, Moved, Active, Inactive;
    var t := Track(s, seen, stamps, NoCut);
    releases := Releases(s.current, t.current, stamps);
    ReleasesExactly(s.current, t.current, stamps);
    InactiveIs(s.released + releases, t.current);
  }

  lemma ReleasesExactly(previous: seq<Entry>, current: seq<Entry>, stamps: Stamps)
    requires UniqueIds(previous)
    ensures var rs := Releases(previous, current, stamps);
      var gone, moved := Gone(previous, current), Moved(previous, current);
      && |rs| == |gone| + |moved|
      && (forall i :: 0 <= i < |gone| ==> rs[i] == Released(gone[i].ip, gone[i].name, stamps(i), RouterGone))
      && (forall i :: 0 <= i < |moved| ==> IsMove(previous, moved[i], stamps(|gone| + i), rs[|gone| + i]))
  {
    hide IsMove, UniqueIds, RemovedRouters, ChangedRouters, Gone, Moved;
    assert previous[..|previous|] == previous && current[..|current|] == current;
    var gone := RemovedRouters(previous, |previous|, current, stamps);
    RemovedExactly(previous, |previous|, current, stamps);
    ChangedExactly(previous, current, |current|, gone, stamps);
  }

  lemma InactiveIs(released: seq<Released>, current: seq<Entry>)
    ensures Inactive(released, current)
         == Filter(released, (r: Released) => forall e :: e in current ==> e.ip != r.address)
  {
    FilterSame(released, (r: Released) => !Active(current, r.address),
               (r: Released) => forall e :: e in current ==> e.ip != r.address);
  }
}
