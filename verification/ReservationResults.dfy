/**
 What a completed run of src/resources/reservations.py leaves, stated from the configuration, the
 listing, the clock and the state it found: which flavors are granted, what each list names and how.
 */
module ReservationResults {
  import opened Common
  import opened Spans
  import opened Reservations
  import opened ReservationProofs
  import opened ReservationTheorems

  /** What a run is given. */
  datatype Inputs = Inputs(reservations: seq<Entry>, listed: seq<Flavor>, matches: Matching, now: Instant) {
    /** A span of the entry contains the instant. */
    predicate Open(e: Entry) {
      exists i :: 0 <= i < |e.period| && e.period[i].Contains(now)
    }

    /** The entry is open and asks for f by the name that position j of the listing gives it. */
    predicate Asks(e: Entry, f: FlavorId, j: nat) {
      && Open(e) && j < |listed| && listed[j].id == f
      && exists k :: 0 <= k < |e.flavors| && matches(listed[j].name, e.flavors[k])
    }

    ghost predicate Wanted(f: FlavorId) {
      exists e: Entry, j: nat :: e in reservations && Asks(e, f, j)
    }

    /** Entry i is the first to ask for f, and j the first position by which it does. */
    ghost predicate FirstAsks(f: FlavorId, i: nat, j: nat) {
      && i < |reservations| && Asks(reservations[i], f, j)
      && (forall h: nat, k: nat :: h < i ==> !Asks(reservations[h], f, k))
      && (forall k: nat :: k < j ==> !Asks(reservations[i], f, k))
    }

    /** The new grant for f names the flavor as listed and the first entry that asks for it. */
    ghost predicate IsGrant(g: Grant) {
      exists i: nat, j: nat :: FirstAsks(g.flavorId, i, j)
        && g == Grant(g.flavorId, listed[j].name, reservations[i].name, now)
    }

    /** The audit entry for a lapsed grant. */
    ghost predicate IsRecord(g: Grant, r: Revocation) {
      var removed := g.reservation != "" && forall e :: e in reservations ==> e.name != g.reservation;
      r == Revocation(g.flavorId, g.flavorName, g.reservation, now, if removed then EntryRemoved else NotCovered)
    }

    /** An open entry of this name asks by this pattern, and no listed flavor matches it. */
    ghost predicate Unserved(name: string, pattern: string) {
      && (exists e :: e in reservations && Open(e) && pattern in e.flavors
                      && name == (if e.name == "" then "<unnamed>" else e.name))
      && forall fl :: fl in listed ==> !matches(fl.name, pattern)
    }

    function Desired(): map<FlavorId, Cover> {
      Reservations.Desired(Active(reservations, now), listed, matches)
    }
  }

  /** The entries that count are those with a span that contains the instant, in the order they are written. */
  lemma ActiveIs(inp: Inputs)
    ensures Active(inp.reservations, inp.now) == Filter(inp.reservations, (e: Entry) => inp.Open(e))
    ensures forall e :: e in Active(inp.reservations, inp.now) <==> e in inp.reservations && inp.Open(e)
  {
    FilterSame(inp.reservations, (e: Entry) => SpansActive(e.period, inp.now), (e: Entry) => inp.Open(e));
  }

  /** The first of the kept entries with a property is the first entry that is kept and has it. */
  lemma {:induction false} FirstKept(xs: seq<Entry>, keep: Entry -> bool, p: Entry -> bool, i: nat)
    returns (k: nat)
    requires i < |Filter(xs, keep)| && p(Filter(xs, keep)[i])
    requires forall h :: 0 <= h < i ==> !p(Filter(xs, keep)[h])
    ensures k < |xs| && xs[k] == Filter(xs, keep)[i] && keep(xs[k])
    ensures forall h :: 0 <= h < k ==> !(keep(xs[h]) && p(xs[h]))
    decreases |xs|
  {
    var rest := Filter(xs[1..], keep);
    if !keep(xs[0]) {
      k := FirstKept(xs[1..], keep, p, i);
      k := k + 1;
    } else if i > 0 {
      assert Filter(xs, keep) == [xs[0]] + rest;
      assert !p(Filter(xs, keep)[0]);
      assert forall h :: 0 <= h < i - 1 ==> rest[h] == Filter(xs, keep)[h + 1];
      k := FirstKept(xs[1..], keep, p, i - 1);
      k := k + 1;
    } else {
      k := 0;
    }
  }

  /** The coverage map from the inputs: keys, names and first entries. */
  lemma DesiredIsWanted(inp: Inputs, f: FlavorId)
    ensures f in inp.Desired() <==> inp.Wanted(f)
    ensures f in inp.Desired() ==>
      exists i: nat, j: nat :: inp.FirstAsks(f, i, j)
        && inp.Desired()[f] == Cover(inp.listed[j].name, inp.reservations[i].name)
  {
    var active := Active(inp.reservations, inp.now);
    ActiveIs(inp);
    DesiredIsUnionOfEntries(active, inp.listed, inp.matches, f);
    assert forall e: Entry, j: nat ::
        (inp.Asks(e, f, j) <==> inp.Open(e) && CoversAt(e, inp.listed, j, f, inp.matches));
    if inp.Wanted(f) {
      var e: Entry, j: nat :| e in inp.reservations && inp.Asks(e, f, j);
      var i :| 0 <= i < |active| && active[i] == e;
      assert CoversAt(active[i], inp.listed, j, f, inp.matches);
    }
    if f in inp.Desired() {
      var i: nat, j: nat :| FirstCover(active, inp.listed, inp.matches, f, i, j)
        && inp.Desired()[f] == Cover(inp.listed[j].name, active[i].name);
      var keep, asks := (e: Entry) => inp.Open(e), (e: Entry) => exists k: nat :: inp.Asks(e, f, k);
      forall h | 0 <= h < i ensures !asks(active[h]) {
        forall k: nat ensures !inp.Asks(active[h], f, k) {
          assert !CoversAt(active[h], inp.listed, k, f, inp.matches);
        }
      }
      assert inp.Asks(active[i], f, j);
      var k := FirstKept(inp.reservations, keep, asks, i);
      forall h: nat, l: nat | h < k ensures !inp.Asks(inp.reservations[h], f, l) {
        assert !(keep(inp.reservations[h]) && asks(inp.reservations[h]));
      }
      assert inp.FirstAsks(f, k, j);
      assert inp.reservations[k] in inp.reservations;
    }
  }

  // ------------------------------------------------------------------ what a completed run leaves

  /** What a run that completes leaves for the world it met. */
  ghost predicate Leaves(w: World, inp: Inputs, script: Script, v: World) {
    Run(w, inp.reservations, inp.listed, inp.matches, inp.now, script) == Exit(v, Completed)
  }

  lemma CoveredAreWanted(tracked: seq<Grant>, inp: Inputs)
    ensures CoveredGrants(tracked, inp.Desired()) == Filter(tracked, (g: Grant) => inp.Wanted(g.flavorId))
    ensures LapsedGrants(tracked, inp.Desired()) == Filter(tracked, (g: Grant) => !inp.Wanted(g.flavorId))
  {
    var desired := inp.Desired();
    forall g | g in tracked ensures Covered(g, desired) == inp.Wanted(g.flavorId) {
      DesiredIsWanted(inp, g.flavorId);
    }
    FilterSame(tracked, (g: Grant) => Covered(g, desired), (g: Grant) => inp.Wanted(g.flavorId));
    FilterSame(tracked, (g: Grant) => !Covered(g, desired), (g: Grant) => !inp.Wanted(g.flavorId));
  }

  lemma {:induction false} NewGrantsAre(todo: seq<FlavorId>, desired: map<FlavorId, Cover>, access: set<FlavorId>,
                                        now: Instant)
    requires forall f :: f in todo ==> f in desired
    requires forall i, j :: 0 <= i < j < |todo| ==> todo[i] < todo[j]
    ensures var gs := NewGrants(todo, desired, access, now);
      && (forall g :: g in gs <==>
            g.flavorId in todo && g.flavorId !in access && g == NewGrant(g.flavorId, desired, now))
      && (forall i, j :: 0 <= i < j < |gs| ==> gs[i].flavorId < gs[j].flavorId)
    decreases |todo|
  {
    if todo != [] {
      NewGrantsAre(todo[1..], desired, access, now);
      var rest := NewGrants(todo[1..], desired, access, now);
      assert forall i :: 0 <= i < |rest| ==> rest[i] in rest;
    }
  }

  lemma NewGrantIsFirst(inp: Inputs, g: Grant)
    requires g.flavorId in inp.Desired()
    ensures g == NewGrant(g.flavorId, inp.Desired(), inp.now) <==> inp.IsGrant(g)
  {
    DesiredIsWanted(inp, g.flavorId);
  }

  /** The lists and the access of a completed run, in the terms of the run. */
  lemma LeavesInTerms(w: World, inp: Inputs, script: Script, v: World)
    requires Quiet(script) && Leaves(w, inp, script, v)
    ensures var desired := inp.Desired();
      var lapsed := LapsedGrants(w.granted, desired);
      && v.granted == CoveredGrants(w.granted, desired)
                    + NewGrants(ToGrant(w.granted, desired), desired, w.access, inp.now)
      && v.access == (w.access + desired.Keys) - Ids(lapsed)
      && v.revoked == MergedRevoked(w.revoked, Records(lapsed, Why(inp), inp.now), v.granted)
    ensures var active := Active(inp.reservations, inp.now);
      v.unmatched == if active == [] then w.unmatched else Unmatched(active, inp.listed, inp.matches)
  {
    hide Run;
    CompletedRunConverges(w, inp.reservations, inp.listed, inp.matches, inp.now, script);
  }

  function Why(inp: Inputs): Grant -> Reason {
    (g: Grant) => ReasonFor(g, inp.reservations)
  }

  lemma KeysAreWanted(inp: Inputs)
    ensures forall f :: f in inp.Desired() <==> inp.Wanted(f)
  {
    forall f ensures f in inp.Desired() <==> inp.Wanted(f) {
      DesiredIsWanted(inp, f);
    }
  }

  lemma GrantIsWanted(inp: Inputs, g: Grant)
    ensures inp.IsGrant(g) ==> inp.Wanted(g.flavorId)
  {
    if inp.IsGrant(g) {
      var i: nat, j: nat :| inp.FirstAsks(g.flavorId, i, j);
      assert inp.Asks(inp.reservations[i], g.flavorId, j);
      assert inp.reservations[i] in inp.reservations;
    }
  }

  lemma AddedAreFirst(w: World, inp: Inputs, g: Grant)
    ensures var added := NewGrants(ToGrant(w.granted, inp.Desired()), inp.Desired(), w.access, inp.now);
      g in added <==> g.flavorId !in Ids(w.granted) && g.flavorId !in w.access && inp.IsGrant(g)
  {
    var desired := inp.Desired();
    var todo := ToGrant(w.granted, desired);
    ToGrantSorted(w.granted, desired);
    NewGrantsAre(todo, desired, w.access, inp.now);
    if g.flavorId in desired {
      NewGrantIsFirst(inp, g);
    }
    GrantIsWanted(inp, g);
    DesiredIsWanted(inp, g.flavorId);
  }

  /** The grants still wanted, as they were, and then the new ones. */
  ghost predicate ListIs(w: World, inp: Inputs, granted: seq<Grant>, added: seq<Grant>) {
    && granted == Filter(w.granted, (g: Grant) => inp.Wanted(g.flavorId)) + added
    && (forall i, j :: 0 <= i < j < |added| ==> added[i].flavorId < added[j].flavorId)
    && (forall g :: g in added <==> g.flavorId !in Ids(w.granted) && g.flavorId !in w.access && inp.IsGrant(g))
  }

  /** The earlier notes and one for each grant no longer wanted, less those of granted flavors. */
  ghost predicate TrailIs(w: World, inp: Inputs, v: World, records: seq<Revocation>) {
    var lapsed := Filter(w.granted, (g: Grant) => !inp.Wanted(g.flavorId));
    && v.revoked == Filter(w.revoked + records, (r: Revocation) => r.flavorId !in Ids(v.granted))
    && |records| == |lapsed| && (forall i :: 0 <= i < |lapsed| ==> inp.IsRecord(lapsed[i], records[i]))
  }

  /**
   After an undisturbed completed run a flavor is granted exactly if it is wanted and its access was not there
   untracked, and the project has access exactly to what is wanted and to what it had untracked. The list holds
   the earlier grants that are still wanted, in order and as they were, and then, by flavor, one new grant for
   each wanted flavor without a grant and without access.
   */
  lemma CompletedRunSets(w: World, inp: Inputs, script: Script, v: World)
    requires Quiet(script) && Leaves(w, inp, script, v)
    ensures forall f :: f in Ids(v.granted) <==> inp.Wanted(f) && (f in w.access ==> f in Ids(w.granted))
    ensures forall f :: f in v.access <==> inp.Wanted(f) || (f in w.access && f !in Ids(w.granted))
    ensures exists added :: ListIs(w, inp, v.granted, added)
  {
    hide Leaves, Quiet, Inputs.Desired, Inputs.Wanted, Inputs.IsGrant, NewGrants, Ids;
    LeavesInTerms(w, inp, script, v);
    IdsLeft(w, inp, v);
    AccessLeft(w, inp, v);
    ListLeft(w, inp, v);
  }

  lemma ListLeft(w: World, inp: Inputs, v: World)
    requires var desired := inp.Desired();
      v.granted == CoveredGrants(w.granted, desired)
                 + NewGrants(ToGrant(w.granted, desired), desired, w.access, inp.now)
    ensures exists added :: ListIs(w, inp, v.granted, added)
  {
    hide Inputs.Desired, Inputs.Wanted, Inputs.IsGrant, NewGrants, Ids;
    var desired := inp.Desired();
    var todo := ToGrant(w.granted, desired);
    CoveredAreWanted(w.granted, inp);
    ToGrantSorted(w.granted, desired);
    NewGrantsAre(todo, desired, w.access, inp.now);
    var added := NewGrants(todo, desired, w.access, inp.now);
    forall g ensures g in added <==> g.flavorId !in Ids(w.granted) && g.flavorId !in w.access && inp.IsGrant(g) {
      AddedAreFirst(w, inp, g);
    }
    assert ListIs(w, inp, v.granted, added);
  }

  lemma IdsLeft(w: World, inp: Inputs, v: World)
    requires var desired := inp.Desired();
      v.granted == CoveredGrants(w.granted, desired)
                 + NewGrants(ToGrant(w.granted, desired), desired, w.access, inp.now)
    ensures forall f :: f in Ids(v.granted) <==> inp.Wanted(f) && (f in w.access ==> f in Ids(w.granted))
  {
    hide Inputs.Desired, Inputs.Wanted, NewGrants, Ids;
    KeysAreWanted(inp);
    var desired := inp.Desired();
    var todo := ToGrant(w.granted, desired);
    IdsSplit(w.granted, desired);
    NewGrantsIds(todo, desired, w.access, inp.now);
    IdsConcat(CoveredGrants(w.granted, desired), NewGrants(todo, desired, w.access, inp.now));
    assert Set(todo) == desired.Keys - Ids(w.granted);
  }

  lemma AccessLeft(w: World, inp: Inputs, v: World)
    requires v.access == (w.access + inp.Desired().Keys) - Ids(LapsedGrants(w.granted, inp.Desired()))
    ensures forall f :: f in v.access <==> inp.Wanted(f) || (f in w.access && f !in Ids(w.granted))
  {
    hide Inputs.Desired, Inputs.Wanted, Ids;
    KeysAreWanted(inp);
    IdsSplit(w.granted, inp.Desired());
  }

  /**
   The audit list of an undisturbed completed run: the earlier entries and then one for each grant that is no
   longer wanted, in order, less those of flavors that are granted. An entry repeats its grant and says when and
   why it ended: the reservation it names was removed, or no open entry asks for the flavor.
   */
  lemma CompletedRunAudits(w: World, inp: Inputs, script: Script, v: World)
    requires Quiet(script) && Leaves(w, inp, script, v)
    ensures exists records :: TrailIs(w, inp, v, records)
    ensures forall g :: g in w.granted ==>
      (g.flavorId in Ids(v.granted)) != (exists r :: r in v.revoked && r.flavorId == g.flavorId)
  {
    hide Leaves, Quiet, Inputs.Desired, Inputs.Wanted;
    LeavesInTerms(w, inp, script, v);
    TrailLeft(w, inp, v);
    var records :| TrailIs(w, inp, v, records);
    CompletedRunSets(w, inp, script, v);
    forall g | g in w.granted && g.flavorId !in Ids(v.granted)
      ensures exists r :: r in v.revoked && r.flavorId == g.flavorId
    {
      TrailNames(w, inp, v, records, g);
    }
  }

  lemma TrailLeft(w: World, inp: Inputs, v: World)
    requires var lapsed := LapsedGrants(w.granted, inp.Desired());
      v.revoked == MergedRevoked(w.revoked, Records(lapsed, Why(inp), inp.now), v.granted)
    ensures exists records :: TrailIs(w, inp, v, records)
  {
    hide Inputs.Desired, Inputs.Wanted;
    var lapsed := LapsedGrants(w.granted, inp.Desired());
    var records := Records(lapsed, Why(inp), inp.now);
    CoveredAreWanted(w.granted, inp);
    RecordsAre(lapsed, Why(inp), inp.now);
    FilterSame(w.revoked + records, (r: Revocation) => r.flavorId !in Ids(v.granted),
               (r: Revocation) => r.flavorId !in Ids(v.granted));
    forall i | 0 <= i < |lapsed| ensures inp.IsRecord(lapsed[i], records[i]) {
      ReasonIs(inp, lapsed[i]);
    }
    assert TrailIs(w, inp, v, records);
  }

  lemma TrailNames(w: World, inp: Inputs, v: World, records: seq<Revocation>, g: Grant)
    requires TrailIs(w, inp, v, records)
    requires g in w.granted && !inp.Wanted(g.flavorId) && g.flavorId !in Ids(v.granted)
    ensures exists r :: r in v.revoked && r.flavorId == g.flavorId
  {
    hide Inputs.Wanted, Ids;
    var lapsed := Filter(w.granted, (g: Grant) => !inp.Wanted(g.flavorId));
    assert g in lapsed;
    var i :| 0 <= i < |lapsed| && lapsed[i] == g;
    assert records[i] in w.revoked + records;
    assert records[i] in v.revoked;
  }

  lemma ReasonIs(inp: Inputs, g: Grant)
    ensures Why(inp)(g) == EntryRemoved <==>
      g.reservation != "" && forall e :: e in inp.reservations ==> e.name != g.reservation
  {
    assert Why(inp)(g) == ReasonFor(g, inp.reservations);
  }

  /** The note of patterns without a flavor, renewed by every undisturbed completed run with an open entry. */
  lemma CompletedRunNotes(w: World, inp: Inputs, script: Script, v: World)
    requires Quiet(script) && Leaves(w, inp, script, v)
    ensures (forall e :: e in inp.reservations ==> !inp.Open(e)) ==> v.unmatched == w.unmatched
    ensures (exists e :: e in inp.reservations && inp.Open(e)) ==>
      forall n, p :: (n, p) in v.unmatched <==> inp.Unserved(n, p)
  {
    hide Leaves, Quiet;
    LeavesInTerms(w, inp, script, v);
    ActiveIs(inp);
    var active := Active(inp.reservations, inp.now);
    if active != [] {
      assert active[0] in active;
      forall n, p ensures (n, p) in v.unmatched <==> inp.Unserved(n, p) {
      }
    }
  }

  // ------------------------------------------------------------------ which runs complete

  /** A call is served before anything but a refused-and-retryable attempt comes its way. */
  predicate ServedFirst(script: Script, pos: nat, left: nat)
    decreases left
  {
    match script(pos).fault
    case Delivered => true
    case Transient => left > 1 && ServedFirst(script, pos + 1, left - 1)
    case _ => false
  }

  /** A call survives four attempts that fail for a while, and not five. */
  lemma FiveAttempts(w: World, script: Script)
    requires forall n: nat :: w.pos <= n < w.pos + 4 ==> script(n).fault == Transient
    ensures script(w.pos + 4).fault == Delivered ==> ReadCall(w, script, MAX_ATTEMPTS).Going?
    ensures script(w.pos + 4).fault == Transient ==> ReadCall(w, script, MAX_ATTEMPTS).Halted?
  {
    var w1 := Outside(w, script(w.pos));
    var w2 := Outside(w1, script(w.pos + 1));
    var w3 := Outside(w2, script(w.pos + 2));
    var w4 := Outside(w3, script(w.pos + 3));
    assert ReadCall(w3, script, 2) == ReadCall(w4, script, 1);
    assert ReadCall(w1, script, 4) == ReadCall(w2, script, 3) == ReadCall(w3, script, 2);
  }

  /** A grant of missing access meets a conflict exactly if it is answered after one of its responses was lost. */
  lemma {:induction false} GrantReply(w: World, f: FlavorId, script: Script, left: nat)
    requires Quiet(script) && left >= 1 && f !in w.access
    ensures var (_, r) := GrantCall(w, f, script, left);
      && (r == Accepted <==> ServedFirst(script, w.pos, left))
      && (r == Conflict <==> Answered(script, w.pos, left) && !ServedFirst(script, w.pos, left))
    decreases left
  {
    var (w1, r) := GrantAttempt(w, f, script(w.pos));
    if r == Again && left > 1 {
      if f in w1.access {
        GrantAgain(w1, f, script, left - 1);
      } else {
        GrantReply(w1, f, script, left - 1);
      }
    }
  }

  lemma {:induction false} GrantAgain(w: World, f: FlavorId, script: Script, left: nat)
    requires Quiet(script) && left >= 1 && f in w.access
    ensures GrantCall(w, f, script, left).1 == if Answered(script, w.pos, left) then Conflict else Stopped
    decreases left
  {
    var (w1, r) := GrantAttempt(w, f, script(w.pos));
    if r == Again && left > 1 {
      GrantAgain(w1, f, script, left - 1);
    }
  }

  /** The slot after the verify loop; None if the loop ends the run. */
  function VerifyEnd(script: Script, pos: nat, covered: seq<Grant>, access: set<FlavorId>): Option<nat>
    decreases |covered|
  {
    if covered == [] then Some(pos)
    else if !Answered(script, pos, MAX_ATTEMPTS) then None
    else
      var p, f := Next(script, pos, MAX_ATTEMPTS), covered[0].flavorId;
      if f in access then VerifyEnd(script, p, covered[1..], access)
      else if !ServedFirst(script, p, MAX_ATTEMPTS) then None
      else VerifyEnd(script, Next(script, p, MAX_ATTEMPTS), covered[1..], access + {f})
  }

  /**
   The verify loop goes on exactly if each listing is answered and each grant of missing access is served
   before one of its responses is lost: a lost response that the grant loop survives ends the run here.
   */
  lemma {:induction false} VerifyGoesOn(w: World, covered: seq<Grant>, script: Script)
    requires Quiet(script)
    ensures var p := VerifyAll(w, covered, script);
      var end := VerifyEnd(script, w.pos, covered, w.access);
      p.Going? == end.Some? && (p.Going? ==> p.world.pos == end.value)
    decreases |covered|
  {
    hide Answered, Next, ServedFirst, ReadCall, GrantCall;
    if covered != [] {
      var f := covered[0].flavorId;
      ReadQuietly(w, script, MAX_ATTEMPTS);
      var p := ReadCall(w, script, MAX_ATTEMPTS);
      if p.Going? {
        if f in w.access {
          VerifyGoesOn(p.world, covered[1..], script);
        } else {
          GrantReply(p.world, f, script, MAX_ATTEMPTS);
          GrantQuietly(p.world, f, script, MAX_ATTEMPTS);
          var (v, r) := GrantCall(p.world, f, script, MAX_ATTEMPTS);
          if r == Accepted {
            ServedApplies(script, p.world.pos, MAX_ATTEMPTS);
            VerifyGoesOn(v, covered[1..], script);
          }
        }
      }
    }
  }

  lemma {:induction false} ServedApplies(script: Script, pos: nat, left: nat)
    requires ServedFirst(script, pos, left)
    ensures Applied(script, pos, left) && Answered(script, pos, left)
    decreases left
  {
    if script(pos).fault == Transient {
      ServedApplies(script, pos + 1, left - 1);
    }
  }

  /** Nothing fails and nobody interferes. */
  ghost predicate Calm(script: Script) {
    Quiet(script) && forall n: nat :: script(n).fault == Delivered
  }

  lemma {:induction false} CalmGrants(w: World, todo: seq<FlavorId>, desired: map<FlavorId, Cover>, added: seq<Grant>,
                                      now: Instant, script: Script)
    requires Calm(script) && forall f :: f in todo ==> f in desired
    ensures GrantAll(w, todo, desired, added, now, script).Going?
    decreases |todo|
  {
    if todo != [] {
      var w1 := ReadCall(w, script, MAX_ATTEMPTS).world;
      var (w2, r) := GrantCall(w1, todo[0], script, MAX_ATTEMPTS);
      if todo[0] in w1.access {
        CalmGrants(w1, todo[1..], desired, added, now, script);
      } else {
        CalmGrants(w2, todo[1..], desired, added + [NewGrant(todo[0], desired, now)], now, script);
      }
    }
  }

  lemma {:induction false} CalmVerifies(w: World, covered: seq<Grant>, script: Script)
    requires Calm(script)
    ensures VerifyAll(w, covered, script).Going?
    decreases |covered|
  {
    if covered != [] {
      var w1 := ReadCall(w, script, MAX_ATTEMPTS).world;
      var (w2, r) := GrantCall(w1, covered[0].flavorId, script, MAX_ATTEMPTS);
      CalmVerifies(if covered[0].flavorId in w1.access then w1 else w2, covered[1..], script);
    }
  }

  lemma {:induction false} CalmRevokes(w: World, todo: seq<Grant>, why: Grant -> Reason, done: seq<Revocation>,
                                       now: Instant, script: Script)
    requires Calm(script)
    ensures RevokeAll(w, todo, why, done, now, script).Going?
    decreases |todo|
  {
    if todo != [] {
      var (w1, r) := RevokeCall(w, todo[0].flavorId, script, MAX_ATTEMPTS);
      CalmRevokes(w1, todo[1..], why, done + [RevokedEntry(todo[0], now, why(todo[0]))], now, script);
    }
  }

  lemma CalmCloses(w: World, tracked: seq<Grant>, loaded: seq<Revocation>, desired: map<FlavorId, Cover>,
                   added: seq<Grant>, why: Grant -> Reason, now: Instant, script: Script)
    requires Calm(script)
    ensures Closing(w, tracked, loaded, desired, added, why, now, script).outcome == Completed
  {
    hide VerifyAll, RevokeAll;
    CalmVerifies(w, CoveredGrants(tracked, desired), script);
    var w1 := VerifyAll(w, CoveredGrants(tracked, desired), script).world;
    CalmRevokes(w1, LapsedGrants(tracked, desired), why, [], now, script);
  }

  /** A run and a teardown that nothing disturbs and nothing fails complete, whatever they are given and find. */
  lemma CalmRunCompletes(w: World, inp: Inputs, now: Instant, script: Script)
    requires Calm(script)
    ensures Run(w, inp.reservations, inp.listed, inp.matches, inp.now, script).outcome == Completed
    ensures Teardown(w, now, script).outcome == Completed
  {
    hide GrantAll, Closing, Desired, Unmatched, Active, RevokeAll;
    CalmRevokes(w, w.granted, (g: Grant) => ProjectTeardown, [], now, script);
    var s := Survey(w, Active(inp.reservations, inp.now), inp.listed, inp.matches, script);
    CalmGrants(s.world, ToGrant(w.granted, s.value), s.value, [], inp.now, script);
    var (o, _) := Opening(s.world, w.granted, s.value, inp.now, script);
    CalmCloses(o.world, w.granted, w.revoked, s.value, o.value, (g: Grant) => ReasonFor(g, inp.reservations), inp.now,
               script);
  }

  // ------------------------------------------------------------------ where a run ends

  predicate Early(o: Outcome) {
    o.Aborted? && o.stage in {Surveying, Granting, Recording, Verifying}
  }

  /**
   The order of the stages shows at every exit: nothing is taken away before all tracked access is verified, no
   grant leaves the list before the revocations are through, and the audit list is touched last.
   */
  lemma StagesAreInOrder(w: World, inp: Inputs, script: Script)
    ensures var e := Run(w, inp.reservations, inp.listed, inp.matches, inp.now, script);
      && (Early(e.outcome) ==> e.world.removed <= w.removed)
      && (Early(e.outcome) || e.outcome == Aborted(Revoking) ==> w.granted <= e.world.granted)
      && (e.outcome.Aborted? && e.outcome.stage != Auditing ==> e.world.revoked == w.revoked)
  {
    hide GrantAll, Closing, Desired, Unmatched, Active, Ids, Quiet, Moves, Survey;
    var active := Active(inp.reservations, inp.now);
    SurveyTakes(w, active, inp.listed, inp.matches, script);
    var s := Survey(w, active, inp.listed, inp.matches, script);
    if s.Going? {
      OpeningTakes(s.world, s.value, inp.now, script);
      var (o, _) := Opening(s.world, w.granted, s.value, inp.now, script);
      if o.Going? {
        ClosingTakes(o.world, w.granted, w.revoked, s.value, o.value, (g: Grant) => ReasonFor(g, inp.reservations),
                     inp.now, script);
      }
    }
  }

  lemma SurveyTakes(w: World, active: seq<Entry>, flavors: seq<Flavor>, matches: Matching, script: Script)
    ensures var v := Survey(w, active, flavors, matches, script).world;
      v.removed <= w.removed && v.granted == w.granted && v.revoked == w.revoked
  {
    SurveyMoves(w, active, flavors, matches, script);
  }

  lemma OpeningTakes(w: World, desired: map<FlavorId, Cover>, now: Instant, script: Script)
    ensures var (p, stage) := Opening(w, w.granted, desired, now, script);
      && p.world.removed <= w.removed && w.granted <= p.world.granted && p.world.revoked == w.revoked
      && (p.Halted? ==> Early(Aborted(stage)))
  {
    OpeningMoves(w, desired, now, script);
    hide GrantAll, Moves, Leak, Spares, Ids;
    GrantAllMoves(w, ToGrant(w.granted, desired), desired, [], now, script);
  }

  lemma ClosingTakes(w: World, tracked: seq<Grant>, loaded: seq<Revocation>, desired: map<FlavorId, Cover>,
                     added: seq<Grant>, why: Grant -> Reason, now: Instant, script: Script)
    ensures var e := Closing(w, tracked, loaded, desired, added, why, now, script);
      && (Early(e.outcome) ==> e.world.removed <= w.removed)
      && (Early(e.outcome) || e.outcome == Aborted(Revoking) ==> e.world.granted == w.granted)
      && (e.outcome.Aborted? && e.outcome.stage != Auditing ==> e.world.revoked == w.revoked)
  {
    hide VerifyAll, RevokeAll, Ids, Quiet, Spares, CoveredGrants, LapsedGrants, MergedRevoked;
    var covered, lapsed := CoveredGrants(tracked, desired), LapsedGrants(tracked, desired);
    VerifyAllMoves(w, covered, script);
    var w1 := VerifyAll(w, covered, script).world;
    RevokeAllMoves(w1, lapsed, why, [], now, script);
  }
}
