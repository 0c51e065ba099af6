/**
 The reservation run of src/resources/reservations.py and the world it acts on: the flavor access
 the compute service holds for one project, and the two lists the project's state file keeps.

 Every API attempt and every save takes one slot of a script. The slot says what other people do to
 the project's access just before, and how the request fares. A script is arbitrary, so whatever
 is proved of every script holds at every crash point, for every lost response and under every
 interleaving with outside grants and removals.
 */
module Reservations {
  import opened Common
  import opened Spans

  type FlavorId = nat
  datatype Flavor = Flavor(id: FlavorId, name: string)
  datatype Entry = Entry(name: string, flavors: seq<string>, period: seq<Span>)
  datatype Grant = Grant(flavorId: FlavorId, flavorName: string, reservation: string, grantedAt: Instant)
  datatype Reason = EntryRemoved | NotCovered | ProjectTeardown
  datatype Revocation = Revocation(flavorId: FlavorId, flavorName: string, reservation: string,
                                   revokedAt: Instant, reason: Reason)
  /** What is kept per desired flavor: its name and the first covering entry's name. */
  datatype Cover = Cover(flavorName: string, reservation: string)

  /** The name matching of _matches: a predicate on (flavor name, pattern). */
  type Matching = (string, string) -> bool

  /**
   How one attempt fares. ResponseLost: applied, but the caller sees a retryable error.
   Transient: not applied, retryable. Refused: not applied, not retryable. DiedBefore and DiedAfter:
   the process ends without, respectively with, the effect.
   */
  datatype Fault = Delivered | ResponseLost | Transient | Refused | DiedBefore | DiedAfter
  datatype Slot = Slot(adds: set<FlavorId>, removes: set<FlavorId>, fault: Fault)
  type Script = nat -> Slot

  /**
   access, granted, revoked and unmatched are the cloud and the state file. The others are
   bookkeeping for the statements below: own is the present access this tool created; removed, what
   it has taken away; strays, what it took away while the persisted list did not name it; ever,
   all that the persisted list has named; requests and writes count what was sent and saved.
   */
  datatype World = World(
    access: set<FlavorId>, granted: seq<Grant>, revoked: seq<Revocation>, unmatched: set<(string, string)>,
    own: set<FlavorId>, removed: set<FlavorId>, strays: set<FlavorId>, ever: set<FlavorId>,
    requests: nat, writes: nat, pos: nat)

  function Ids(grants: seq<Grant>): (ids: set<FlavorId>)
    ensures forall g :: g in grants ==> g.flavorId in ids
    ensures forall id :: id in ids ==> exists g :: g in grants && g.flavorId == id
  {
    set g | g in grants :: g.flavorId
  }

  // ------------------------------------------------------------------ the API, one attempt at a time

  /** What other people do to the project's access just before an attempt. */
  function Outside(w: World, s: Slot): World {
    w.(access := (w.access - s.removes) + s.adds, own := w.own - s.removes, pos := w.pos + 1)
  }

  function Added(w: World, f: FlavorId): World {
    if f in w.access then w else w.(access := w.access + {f}, own := w.own + {f})
  }

  function Removed(w: World, f: FlavorId): World {
    if f !in w.access then w
    else w.(access := w.access - {f}, own := w.own - {f}, removed := w.removed + {f},
            strays := if f in Ids(w.granted) then w.strays else w.strays + {f})
  }

  datatype Reply = Accepted | Conflict | NotFound | Again | Stopped

  function GrantAttempt(w: World, f: FlavorId, s: Slot): (World, Reply) {
    var w0 := Outside(w, s).(requests := w.requests + 1);
    match s.fault
    case Delivered => if f in w0.access then (w0, Conflict) else (Added(w0, f), Accepted)
    case ResponseLost => (Added(w0, f), Again)
    case Transient => (w0, Again)
    case DiedAfter => (Added(w0, f), Stopped)
    case _ => (w0, Stopped)
  }

  function RevokeAttempt(w: World, f: FlavorId, s: Slot): (World, Reply) {
    var w0 := Outside(w, s).(requests := w.requests + 1);
    match s.fault
    case Delivered => if f in w0.access then (Removed(w0, f), Accepted) else (w0, NotFound)
    case ResponseLost => (Removed(w0, f), Again)
    case Transient => (w0, Again)
    case DiedAfter => (Removed(w0, f), Stopped)
    case _ => (w0, Stopped)
  }

  /** A request under the retry decorator: at most `left` attempts, then the last error is raised. */
  function GrantCall(w: World, f: FlavorId, script: Script, left: nat): (World, Reply)
    requires left >= 1
    decreases left, w
  {
    var (w1, r) := GrantAttempt(w, f, script(w.pos));
    if r != Again then (w1, r)
    else if left == 1 then (w1, Stopped)
    else GrantCall(w1, f, script, left - 1)
  }

  function RevokeCall(w: World, f: FlavorId, script: Script, left: nat): (World, Reply)
    requires left >= 1
    decreases left, w
  {
    var (w1, r) := RevokeAttempt(w, f, script(w.pos));
    if r != Again then (w1, r)
    else if left == 1 then (w1, Stopped)
    else RevokeCall(w1, f, script, left - 1)
  }

  /** A step of the run either goes on with a value or ends the run by an exception or a crash. */
  datatype Progress<+T> = Going(world: World, value: T) | Halted(world: World)

  /** A read-only request under the retry decorator. */
  function ReadCall(w: World, script: Script, left: nat): Progress<()>
    requires left >= 1
    decreases left, w
  {
    var s := script(w.pos);
    var w0 := Outside(w, s);
    match s.fault
    case Delivered => Going(w0, ())
    case ResponseLost => if left == 1 then Halted(w0) else ReadCall(w0, script, left - 1)
    case Transient => if left == 1 then Halted(w0) else ReadCall(w0, script, left - 1)
    case _ => Halted(w0)
  }

  function Once<T>(w: World, saved: World, s: Slot, value: T): Progress<T> {
    match s.fault
    case Delivered => Going(saved, value)
    case ResponseLost => Halted(saved)
    case DiedAfter => Halted(saved)
    case _ => Halted(w)
  }

  /** Saves are not retried: they happen, or the run ends with or without them having happened. */
  function SaveGranted(w: World, grants: seq<Grant>, script: Script): Progress<()> {
    var w0 := Outside(w, script(w.pos));
    Once(w0, w0.(granted := grants, ever := w0.ever + Ids(grants), writes := w0.writes + 1), script(w.pos), ())
  }

  function SaveRevoked(w: World, revoked: seq<Revocation>, script: Script): Progress<()> {
    var w0 := Outside(w, script(w.pos));
    Once(w0, w0.(revoked := revoked, writes := w0.writes + 1), script(w.pos), ())
  }

  function SaveUnmatched(w: World, unmatched: set<(string, string)>, script: Script): Progress<()> {
    var w0 := Outside(w, script(w.pos));
    Once(w0, w0.(unmatched := unmatched, writes := w0.writes + 1), script(w.pos), ())
  }

  // ------------------------------------------------------------------ what the config asks for

  predicate EntryCovers(e: Entry, flavorName: string, matches: Matching) {
    exists k :: 0 <= k < |e.flavors| && matches(flavorName, e.flavors[k])
  }

  /** One entry's pass over the flavor list: a flavor already covered keeps its first cover. */
  function CoverEntry(acc: map<FlavorId, Cover>, e: Entry, flavors: seq<Flavor>, matches: Matching): map<FlavorId,
                      Cover>
    decreases |flavors|
  {
    if flavors == [] then acc
    else
      var fl := flavors[0];
      var acc1 := if fl.id !in acc && EntryCovers(e, fl.name, matches)
                  then acc[fl.id := Cover(fl.name, e.name)] else acc;
      CoverEntry(acc1, e, flavors[1..], matches)
  }

  function CoverAll(acc: map<FlavorId, Cover>, active: seq<Entry>, flavors: seq<Flavor>,
                    matches: Matching): map<FlavorId, Cover>
    decreases |active|
  {
    if active == [] then acc
    else CoverAll(CoverEntry(acc, active[0], flavors, matches), active[1..], flavors, matches)
  }

  function Desired(active: seq<Entry>, flavors: seq<Flavor>, matches: Matching): map<FlavorId, Cover> {
    CoverAll(map[], active, flavors, matches)
  }

  function Active(reservations: seq<Entry>, now: Instant): seq<Entry> {
    Filter(reservations, (e: Entry) => SpansActive(e.period, now))
  }

  function Label(e: Entry): string {
    if e.name == "" then "<unnamed>" else e.name
  }

  /** The (label, pattern) pairs of active entries that match no private flavor. */
  function Unmatched(active: seq<Entry>, flavors: seq<Flavor>, matches: Matching): set<(string, string)> {
    set e, p | e in active && p in e.flavors && !(exists i :: 0 <= i < |flavors| && matches(flavors[i].name, p))
      :: (Label(e), p)
  }

  function ReasonFor(g: Grant, reservations: seq<Entry>): Reason {
    if g.reservation != "" && !(exists i :: 0 <= i < |reservations| && reservations[i].name == g.reservation)
    then EntryRemoved else NotCovered
  }

  // ------------------------------------------------------------------ the phases of a run

  /** The listing and the unmatched-pattern note; yields the desired map. No active entry: no request. */
  function Survey(w: World, active: seq<Entry>, flavors: seq<Flavor>, matches: Matching, script: Script)
    : Progress<map<FlavorId, Cover>>
  {
    if active == [] then Going(w, map[])
    else match ReadCall(w, script, MAX_ATTEMPTS)
      case Halted(w1) => Halted(w1)
      case Going(w1, _) =>
        var unmatched := Unmatched(active, flavors, matches);
        if unmatched == w1.unmatched then Going(w1, Desired(active, flavors, matches))
        else match SaveUnmatched(w1, unmatched, script)
          case Halted(w2) => Halted(w2)
          case Going(w2, _) => Going(w2, Desired(active, flavors, matches))
  }

  function NewGrant(f: FlavorId, desired: map<FlavorId, Cover>, now: Instant): Grant
    requires f in desired
  {
    Grant(f, desired[f].flavorName, desired[f].reservation, now)
  }

  function GrantAll(w: World, todo: seq<FlavorId>, desired: map<FlavorId, Cover>, added: seq<Grant>, now: Instant,
                    script: Script): Progress<seq<Grant>>
    requires forall f :: f in todo ==> f in desired
    decreases |todo|
  {
    if todo == [] then Going(w, added)
    else match ReadCall(w, script, MAX_ATTEMPTS)
      case Halted(w1) => Halted(w1)
      case Going(w1, _) =>
        if todo[0] in w1.access then GrantAll(w1, todo[1..], desired, added, now, script)
        else
          var (w2, r) := GrantCall(w1, todo[0], script, MAX_ATTEMPTS);
          if r == Stopped then Halted(w2)
          else GrantAll(w2, todo[1..], desired, added + [NewGrant(todo[0], desired, now)], now, script)
  }

  /** Here a conflict is not caught: a re-grant whose response is lost ends the run on its retry. */
  function VerifyAll(w: World, covered: seq<Grant>, script: Script): Progress<()>
    decreases |covered|
  {
    if covered == [] then Going(w, ())
    else match ReadCall(w, script, MAX_ATTEMPTS)
      case Halted(w1) => Halted(w1)
      case Going(w1, _) =>
        if covered[0].flavorId in w1.access then VerifyAll(w1, covered[1..], script)
        else
          var (w2, r) := GrantCall(w1, covered[0].flavorId, script, MAX_ATTEMPTS);
          if r != Accepted then Halted(w2) else VerifyAll(w2, covered[1..], script)
  }

  function RevokedEntry(g: Grant, now: Instant, reason: Reason): Revocation {
    Revocation(g.flavorId, g.flavorName, g.reservation, now, reason)
  }

  /** Revokes grant after grant; why maps a grant to the reason recorded for it. */
  function RevokeAll(w: World, todo: seq<Grant>, why: Grant -> Reason, done: seq<Revocation>, now: Instant,
                     script: Script): Progress<seq<Revocation>>
    decreases |todo|
  {
    if todo == [] then Going(w, done)
    else
      var (w1, r) := RevokeCall(w, todo[0].flavorId, script, MAX_ATTEMPTS);
      if r == Stopped then Halted(w1)
      else RevokeAll(w1, todo[1..], why, done + [RevokedEntry(todo[0], now, why(todo[0]))], now, script)
  }

  function MergedRevoked(earlier: seq<Revocation>, added: seq<Revocation>, grants: seq<Grant>): seq<Revocation> {
    var active := Ids(grants);
    Filter(earlier + added, (r: Revocation) => r.flavorId !in active)
  }

  /** _reconcile_revoked: the audit list is written only when it changes. */
  function ReconcileRevoked(w: World, loaded: seq<Revocation>, grants: seq<Grant>, added: seq<Revocation>,
                            script: Script)
    : Progress<()>
  {
    var merged := MergedRevoked(loaded, added, grants);
    if merged == loaded then Going(w, ()) else SaveRevoked(w, merged, script)
  }

  datatype Stage = Surveying | Granting | Recording | Verifying | Revoking | Persisting | Auditing
  datatype Outcome = Completed | Aborted(stage: Stage)
  datatype Exit = Exit(world: World, outcome: Outcome)

  predicate Covered(g: Grant, desired: map<FlavorId, Cover>) {
    g.flavorId in desired
  }

  function CoveredGrants(tracked: seq<Grant>, desired: map<FlavorId, Cover>): seq<Grant> {
    Filter(tracked, (g: Grant) => Covered(g, desired))
  }

  function LapsedGrants(tracked: seq<Grant>, desired: map<FlavorId, Cover>): seq<Grant> {
    Filter(tracked, (g: Grant) => !Covered(g, desired))
  }

  function ToGrant(tracked: seq<Grant>, desired: map<FlavorId, Cover>): (todo: seq<FlavorId>)
    ensures forall f :: f in todo <==> f in desired && f !in Ids(tracked)
  {
    Sorted(desired.Keys - Ids(tracked))
  }

  /** Everything up to and including the early persist of new grants. */
  function Opening(w: World, tracked: seq<Grant>, desired: map<FlavorId, Cover>, now: Instant, script: Script)
    : (Progress<seq<Grant>>, Stage)
  {
    match GrantAll(w, ToGrant(tracked, desired), desired, [], now, script)
    case Halted(w1) => (Halted(w1), Granting)
    case Going(w1, added) =>
      if added == [] then (Going(w1, added), Recording)
      else match SaveGranted(w1, tracked + added, script)
        case Halted(w2) => (Halted(w2), Recording)
        case Going(w2, _) => (Going(w2, added), Recording)
  }

  /** The tail: one write per list, each only if the list changed. */
  function Persist(w: World, tracked: seq<Grant>, loaded: seq<Revocation>, final: seq<Grant>, done: seq<Revocation>,
                   script: Script): Exit
  {
    match (if final == tracked then Going(w, ()) else SaveGranted(w, final, script))
    case Halted(w1) => Exit(w1, Aborted(Persisting))
    case Going(w1, _) =>
      match ReconcileRevoked(w1, loaded, final, done, script)
      case Halted(w2) => Exit(w2, Aborted(Auditing))
      case Going(w2, _) => Exit(w2, Completed)
  }

  /** Everything after the early persist. */
  function Closing(w: World, tracked: seq<Grant>, loaded: seq<Revocation>, desired: map<FlavorId, Cover>,
                   added: seq<Grant>, why: Grant -> Reason, now: Instant, script: Script): Exit
  {
    match VerifyAll(w, CoveredGrants(tracked, desired), script)
    case Halted(w1) => Exit(w1, Aborted(Verifying))
    case Going(w1, _) =>
      match RevokeAll(w1, LapsedGrants(tracked, desired), why, [], now, script)
      case Halted(w2) => Exit(w2, Aborted(Revoking))
      case Going(w2, done) =>
        Persist(w2, tracked, loaded, CoveredGrants(tracked, desired) + added, done, script)
  }

  /** ensure_reservations, online and not a dry run. */
  function Run(w: World, reservations: seq<Entry>, flavors: seq<Flavor>, matches: Matching, now: Instant,
               script: Script): Exit
  {
    if reservations == [] && w.granted == [] then Exit(w, Completed)
    else match Survey(w, Active(reservations, now), flavors, matches, script)
      case Halted(w1) => Exit(w1, Aborted(Surveying))
      case Going(w1, desired) =>
        match Opening(w1, w.granted, desired, now, script)
        case (Halted(w2), stage) => Exit(w2, Aborted(stage))
        case (Going(w2, added), _) =>
          Closing(w2, w.granted, w.revoked, desired, added, (g: Grant) => ReasonFor(g, reservations), now, script)
  }

  /** revoke_all_reservation_grants, online and not a dry run. */
  function Teardown(w: World, now: Instant, script: Script): Exit {
    if w.granted == [] then Exit(w, Completed)
    else match RevokeAll(w, w.granted, (g: Grant) => ProjectTeardown, [], now, script)
      case Halted(w1) => Exit(w1, Aborted(Revoking))
      case Going(w1, done) => Persist(w1, w.granted, w.revoked, [], done, script)
  }

  // ------------------------------------------------------------------ the program

  /** One project's deployment as a run meets it. */
  class Deployment {
    var world: World
    const script: Script

    constructor (w: World, script: Script)
      ensures world == w && this.script == script
    {
      world := w;
      this.script := script;
    }

    /** _list_private_flavors_api and _access_project_ids: a read under the retry decorator. */
    method Read() returns (ok: bool)
      modifies this
      ensures ReadCall(old(world), script, MAX_ATTEMPTS) == if ok then Going(world, ()) else Halted(world)
    {
      var left := MAX_ATTEMPTS;
      while true
        invariant left >= 1
        invariant ReadCall(old(world), script, MAX_ATTEMPTS) == ReadCall(world, script, left)
        decreases left
      {
        var s := script(world.pos);
        world := Outside(world, s);
        match s.fault {
          case Delivered => return true;
          case ResponseLost | Transient =>
            if left == 1 { return false; }
            left := left - 1;
          case _ => return false;
        }
      }
    }

    /** _grant_access under the retry decorator. */
    method GrantAccess(f: FlavorId) returns (r: Reply)
      modifies this
      ensures (world, r) == GrantCall(old(world), f, script, MAX_ATTEMPTS)
    {
      var left := MAX_ATTEMPTS;
      while true
        invariant left >= 1
        invariant GrantCall(old(world), f, script, MAX_ATTEMPTS) == GrantCall(world, f, script, left)
        decreases left
      {
        var (w, reply) := GrantAttempt(world, f, script(world.pos));
        world := w;
        if reply != Again { return reply; }
        if left == 1 { return Stopped; }
        left := left - 1;
      }
    }

    /** _revoke_access under the retry decorator. */
    method RevokeAccess(f: FlavorId) returns (r: Reply)
      modifies this
      ensures (world, r) == RevokeCall(old(world), f, script, MAX_ATTEMPTS)
    {
      var left := MAX_ATTEMPTS;
      while true
        invariant left >= 1
        invariant RevokeCall(old(world), f, script, MAX_ATTEMPTS) == RevokeCall(world, f, script, left)
        decreases left
      {
        var (w, reply) := RevokeAttempt(world, f, script(world.pos));
        world := w;
        if reply != Again { return reply; }
        if left == 1 { return Stopped; }
        left := left - 1;
      }
    }

    /** _persist_grants. */
    method PersistGrants(grants: seq<Grant>) returns (ok: bool)
      modifies this
      ensures SaveGranted(old(world), grants, script) == if ok then Going(world, ()) else Halted(world)
    {
      var p := SaveGranted(world, grants, script);
      world := p.world;
      ok := p.Going?;
    }

    method PersistRevoked(revoked: seq<Revocation>) returns (ok: bool)
      modifies this
      ensures SaveRevoked(old(world), revoked, script) == if ok then Going(world, ()) else Halted(world)
    {
      var p := SaveRevoked(world, revoked, script);
      world := p.world;
      ok := p.Going?;
    }

    method PersistUnmatched(unmatched: set<(string, string)>) returns (ok: bool)
      modifies this
      ensures SaveUnmatched(old(world), unmatched, script) == if ok then Going(world, ()) else Halted(world)
    {
      var p := SaveUnmatched(world, unmatched, script);
      world := p.world;
      ok := p.Going?;
    }

    /** _desired_grants. */
    static method DesiredGrants(active: seq<Entry>, flavors: seq<Flavor>, matches: Matching)
      returns (desired: map<FlavorId, Cover>)
      ensures desired == Desired(active, flavors, matches)
    {
      desired := map[];
      var i := 0;
      while i < |active|
        invariant 0 <= i <= |active|
        invariant CoverAll(desired, active[i..], flavors, matches) == Desired(active, flavors, matches)
      {
        var e := active[i];
        ghost var before := desired;
        var j := 0;
        while j < |flavors|
          invariant 0 <= j <= |flavors|
          invariant CoverEntry(desired, e, flavors[j..], matches) == CoverEntry(before, e, flavors, matches)
        {
          var fl := flavors[j];
          assert flavors[j..][1..] == flavors[j + 1..];
          if fl.id !in desired && EntryCovers(e, fl.name, matches) {
            desired := desired[fl.id := Cover(fl.name, e.name)];
          }
          j := j + 1;
        }
        assert active[i..][1..] == active[i + 1..];
        i := i + 1;
      }
    }

    /** The grant loop. */
    method GrantMissing(todo: seq<FlavorId>, desired: map<FlavorId, Cover>, now: Instant)
      returns (ok: bool, added: seq<Grant>)
      requires forall f :: f in todo ==> f in desired
      modifies this
      ensures GrantAll(old(world), todo, desired, [], now, script) == if ok then Going(world, added) else Halted(world)
    {
      added := [];
      var i := 0;
      while i < |todo|
        invariant 0 <= i <= |todo|
        invariant GrantAll(old(world), todo, desired, [], now, script)
               == GrantAll(world, todo[i..], desired, added, now, script)
      {
        assert todo[i..][1..] == todo[i + 1..];
        var f := todo[i];
        var seen := Read();
        if !seen { return false, added; }
        if f !in world.access {
          var reply := GrantAccess(f);
          if reply == Stopped { return false, added; }
          added := added + [NewGrant(f, desired, now)];
        }
        i := i + 1;
      }
      ok := true;
    }

    /** The verify loop. */
    method VerifyCovered(covered: seq<Grant>) returns (ok: bool)
      modifies this
      ensures VerifyAll(old(world), covered, script) == if ok then Going(world, ()) else Halted(world)
    {
      var i := 0;
      while i < |covered|
        invariant 0 <= i <= |covered|
        invariant VerifyAll(old(world), covered, script) == VerifyAll(world, covered[i..], script)
      {
        assert covered[i..][1..] == covered[i + 1..];
        var seen := Read();
        if !seen { return false; }
        if covered[i].flavorId !in world.access {
          var reply := GrantAccess(covered[i].flavorId);
          if reply != Accepted { return false; }
        }
        i := i + 1;
      }
      ok := true;
    }

    /** The revoke loop, shared by the run and by teardown. */
    method RevokeGrants(todo: seq<Grant>, why: Grant -> Reason, now: Instant) returns (ok: bool, done: seq<Revocation>)
      modifies this
      ensures RevokeAll(old(world), todo, why, [], now, script) == if ok then Going(world, done) else Halted(world)
    {
      done := [];
      var i := 0;
      while i < |todo|
        invariant 0 <= i <= |todo|
        invariant RevokeAll(old(world), todo, why, [], now, script)
               == RevokeAll(world, todo[i..], why, done, now, script)
      {
        assert todo[i..][1..] == todo[i + 1..];
        var reply := RevokeAccess(todo[i].flavorId);
        if reply == Stopped { return false, done; }
        done := done + [RevokedEntry(todo[i], now, why(todo[i]))];
        i := i + 1;
      }
      ok := true;
    }

    /** _reconcile_revoked. */
    method ReconcileAudit(loaded: seq<Revocation>, grants: seq<Grant>, added: seq<Revocation>) returns (ok: bool)
      modifies this
      ensures ReconcileRevoked(old(world), loaded, grants, added, script)
           == if ok then Going(world, ()) else Halted(world)
    {
      var merged := MergedRevoked(loaded, added, grants);
      ok := true;
      if merged != loaded {
        ok := PersistRevoked(merged);
      }
    }

    /** The part of ensure_reservations after the new grants are on disk. */
    method Close(tracked: seq<Grant>, loaded: seq<Revocation>, desired: map<FlavorId, Cover>, added: seq<Grant>,
                 why: Grant -> Reason, now: Instant) returns (outcome: Outcome)
      modifies this
      ensures Exit(world, outcome) == Closing(old(world), tracked, loaded, desired, added, why, now, script)
    {
      var covered := CoveredGrants(tracked, desired);
      var ok := VerifyCovered(covered);
      if !ok { return Aborted(Verifying); }
      var done;
      ok, done := RevokeGrants(LapsedGrants(tracked, desired), why, now);
      if !ok { return Aborted(Revoking); }
      var final := covered + added;
      if final != tracked {
        ok := PersistGrants(final);
        if !ok { return Aborted(Persisting); }
      }
      ok := ReconcileAudit(loaded, final, done);
      if !ok { return Aborted(Auditing); }
      return Completed;
    }

    method EnsureReservations(reservations: seq<Entry>, flavors: seq<Flavor>, matches: Matching, now: Instant)
      returns (outcome: Outcome)
      modifies this
      ensures Exit(world, outcome) == Run(old(world), reservations, flavors, matches, now, script)
    {
      var tracked, loaded := world.granted, world.revoked;
      if reservations == [] && tracked == [] { return Completed; }
      var active := Active(reservations, now);
      var desired: map<FlavorId, Cover> := map[];
      if active != [] {
        var listed := Read();
        if !listed { return Aborted(Surveying); }
        desired := DesiredGrants(active, flavors, matches);
        var unmatched := Unmatched(active, flavors, matches);
        if unmatched != world.unmatched {
          var noted := PersistUnmatched(unmatched);
          if !noted { return Aborted(Surveying); }
        }
      }
      var ok, added := GrantMissing(ToGrant(tracked, desired), desired, now);
      if !ok { return Aborted(Granting); }
      if added != [] {
        ok := PersistGrants(tracked + added);
        if !ok { return Aborted(Recording); }
      }
      outcome := Close(tracked, loaded, desired, added, (g: Grant) => ReasonFor(g, reservations), now);
    }

    method RevokeAllReservationGrants(now: Instant) returns (outcome: Outcome)
      modifies this
      ensures Exit(world, outcome) == Teardown(old(world), now, script)
    {
      var tracked, loaded := world.granted, world.revoked;
      if tracked == [] { return Completed; }
      var ok, done := RevokeGrants(tracked, (g: Grant) => ProjectTeardown, now);
      if !ok { return Aborted(Revoking); }
      ok := PersistGrants([]);
      if !ok { return Aborted(Persisting); }
      ok := ReconcileAudit(loaded, [], done);
      if !ok { return Aborted(Auditing); }
      return Completed;
    }
  }
}
