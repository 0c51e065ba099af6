/**
 The promises of src/resources/reservations.py, over every script and every history of runs,
 teardowns, clock readings and outside changes.
 */
module ReservationTheorems {
  import opened Common
  import opened Spans
  import opened Reservations
  import opened ReservationProofs

  // ------------------------------------------------------------------ histories

  datatype Event =
    | ToolRun(reservations: seq<Entry>, flavors: seq<Flavor>, matches: Matching, now: Instant, script: Script)
    | ToolTeardown(now: Instant, script: Script)
    | Others(adds: set<FlavorId>, removes: set<FlavorId>)

  function After(w: World, e: Event): World {
    match e
    case ToolRun(reservations, flavors, matches, now, script) =>
      Run(w, reservations, flavors, matches, now, script).world
    case ToolTeardown(now, script) => Teardown(w, now, script).world
    case Others(adds, removes) => Outside(w, Slot(adds, removes, Delivered))
  }

  function History(w: World, events: seq<Event>): World
    decreases |events|
  {
    if events == [] then w else History(After(w, events[0]), events[1..])
  }

  /** The bookkeeping is consistent; a deployment nobody has run the tool on yet satisfies it. */
  predicate Sound(w: World) {
    w.strays == {} && w.removed <= w.ever && Ids(w.granted) <= w.ever && w.own <= w.access
  }

  lemma AfterSound(w: World, e: Event)
    requires Sound(w)
    ensures Sound(After(w, e)) && w.ever <= After(w, e).ever
  {
    match e
    case ToolRun(reservations, flavors, matches, now, script) =>
      RunGuarded(w, reservations, flavors, matches, now, script);
    case ToolTeardown(now, script) => TeardownGuarded(w, now, script);
    case Others(_, _) =>
  }

  /**
   Over every history, access the persisted list has never named is never taken away by the tool,
   and nothing is ever taken away at a moment when the list does not name it.
   */
  lemma {:induction false} OnlyTrackedAccessIsTaken(w: World, events: seq<Event>)
    requires Sound(w)
    ensures var v := History(w, events);
      && Sound(v) && v.strays == {}
      && (forall f :: f !in v.ever ==> f !in v.removed)
    decreases |events|
  {
    if events != [] {
      AfterSound(w, events[0]);
      OnlyTrackedAccessIsTaken(After(w, events[0]), events[1..]);
    }
  }

  ghost predicate SparedBy(e: Event, f: FlavorId) {
    match e
    case ToolRun(_, _, _, _, script) => Spares(script, f)
    case ToolTeardown(_, script) => Spares(script, f)
    case Others(_, removes) => f !in removes
  }

  /**
   Access that exists and is not tracked (a manual grant, or one of ours whose record was lost)
   survives every history in which nobody else takes it away, and never becomes tracked.
   */
  lemma {:induction false} UntrackedAccessIsNeverTouched(w: World, events: seq<Event>, f: FlavorId)
    requires f in w.access && f !in Ids(w.granted)
    requires forall i :: 0 <= i < |events| ==> SparedBy(events[i], f)
    ensures f in History(w, events).access && f !in Ids(History(w, events).granted)
    decreases |events|
  {
    if events != [] {
      var e := events[0];
      assert SparedBy(e, f);
      match e {
        case ToolRun(reservations, flavors, matches, now, script) =>
          RunGuarded(w, reservations, flavors, matches, now, script);
        case ToolTeardown(now, script) => TeardownGuarded(w, now, script);
        case Others(_, _) =>
      }
      UntrackedAccessIsNeverTouched(After(w, e), events[1..], f);
    }
  }

  // ------------------------------------------------------------------ crash safety

  /** The run ended before its new grants were on disk. */
  predicate CutBeforeRecord(w: World, e: Exit) {
    (e.outcome == Aborted(Granting) || e.outcome == Aborted(Recording)) && e.world.granted == w.granted
  }

  lemma UncutRunsDoNotLeak(w: World, reservations: seq<Entry>, flavors: seq<Flavor>, matches: Matching,
                           now: Instant, script: Script)
    requires w.own <= w.access
    ensures var e := Run(w, reservations, flavors, matches, now, script);
      CutBeforeRecord(w, e) || Leak(e.world) <= Leak(w)
  {
    if reservations != [] || w.granted != [] {
      var active := Active(reservations, now);
      SurveyMoves(w, active, flavors, matches, script);
      var s := Survey(w, active, flavors, matches, script);
      if s.Going? {
        OpeningMoves(s.world, s.value, now, script);
        var (o, stage) := Opening(s.world, w.granted, s.value, now, script);
        if o.Going? {
          ClosingMoves(o.world, w.granted, w.revoked, s.value, o.value,
                       (g: Grant) => ReasonFor(g, reservations), now, script);
        }
      }
    }
  }

  lemma EscapeSets(before: set<FlavorId>, after: set<FlavorId>, listed: set<FlavorId>)
    ensures !(after - listed <= before - listed) <==> after - before - listed != {}
  {
    var escaped := after - before - listed;
    if escaped == {} {
      forall x | x in after - listed ensures x in before - listed {
        assert x !in escaped;
      }
    } else {
      var x :| x in escaped;
      assert x in after - listed && x !in before - listed;
    }
  }

  /**
   Every exit of a run: access of ours escapes the persisted list exactly when the run is cut before
   the early persist took effect and it had by then created access the list does not name. From that
   persist on, no crash, refusal or lost response leaks anything.
   */
  lemma LeaksOnlyWhenCutBeforeRecord(w: World, reservations: seq<Entry>, flavors: seq<Flavor>, matches: Matching,
                                     now: Instant, script: Script)
    requires w.own <= w.access
    ensures var e := Run(w, reservations, flavors, matches, now, script);
      !(Leak(e.world) <= Leak(w)) <==>
        CutBeforeRecord(w, e) && e.world.own - w.own - Ids(w.granted) != {}
  {
    var v := Run(w, reservations, flavors, matches, now, script).world;
    UncutRunsDoNotLeak(w, reservations, flavors, matches, now, script);
    EscapeSets(w.own, v.own, Ids(w.granted));
  }

  // ------------------------------------------------------------------ the leak, from script and state

  /** A call gets an answer: among its attempts one is served before one ends the run. */
  predicate Answered(script: Script, pos: nat, left: nat)
    decreases left
  {
    match script(pos).fault
    case Delivered => true
    case ResponseLost => left > 1 && Answered(script, pos + 1, left - 1)
    case Transient => left > 1 && Answered(script, pos + 1, left - 1)
    case _ => false
  }

  /** The slot after an answered call. */
  function Next(script: Script, pos: nat, left: nat): nat
    decreases left
  {
    var fault := script(pos).fault;
    if (fault == ResponseLost || fault == Transient) && left > 1 then Next(script, pos + 1, left - 1) else pos + 1
  }

  /** Some attempt of a call takes effect. */
  predicate Applied(script: Script, pos: nat, left: nat)
    decreases left
  {
    match script(pos).fault
    case Transient => left > 1 && Applied(script, pos + 1, left - 1)
    case Refused => false
    case DiedBefore => false
    case _ => true
  }

  /** Where the grant loop ends: at which flavor, whether its grant took effect, and the slot after the loop. */
  datatype Stop = Stop(index: nat, applied: bool, pos: nat)

  function StopOf(script: Script, pos: nat, todo: seq<FlavorId>, access: set<FlavorId>): (stop: Stop)
    ensures stop.index <= |todo|
    decreases |todo|
  {
    if todo == [] then Stop(0, false, pos)
    else if !Answered(script, pos, MAX_ATTEMPTS) then Stop(0, false, pos)
    else
      var p := Next(script, pos, MAX_ATTEMPTS);
      if todo[0] !in access && !Answered(script, p, MAX_ATTEMPTS) then Stop(0, Applied(script, p, MAX_ATTEMPTS), p)
      else
        var rest := StopOf(script, if todo[0] in access then p else Next(script, p, MAX_ATTEMPTS), todo[1..], access);
        rest.(index := rest.index + 1)
  }

  /** The flavors before the one it ends at that lacked access, and that one if its grant took effect. */
  function Created(todo: seq<FlavorId>, stop: Stop, access: set<FlavorId>): set<FlavorId>
    requires stop.index <= |todo|
  {
    (set f | f in todo[..stop.index] && f !in access)
    + if stop.index < |todo| && stop.applied then {todo[stop.index]} else {}
  }

  lemma {:induction false} ReadQuietly(w: World, script: Script, left: nat)
    requires Quiet(script) && left >= 1
    ensures var p := ReadCall(w, script, left);
      && p.world == w.(pos := p.world.pos) && p.Going? == Answered(script, w.pos, left)
      && (p.Going? ==> p.world.pos == Next(script, w.pos, left))
    decreases left
  {
    if (script(w.pos).fault == ResponseLost || script(w.pos).fault == Transient) && left > 1 {
      ReadQuietly(Outside(w, script(w.pos)), script, left - 1);
    }
  }

  lemma {:induction false} GrantQuietly(w: World, f: FlavorId, script: Script, left: nat)
    requires Quiet(script) && left >= 1
    ensures var (v, r) := GrantCall(w, f, script, left);
      var created := if f !in w.access && Applied(script, w.pos, left) then {f} else {};
      && v == w.(access := v.access, own := v.own, requests := v.requests, pos := v.pos)
      && v.own == w.own + created && v.access == w.access + created
      && (r != Stopped) == Answered(script, w.pos, left)
      && (r != Stopped ==> v.pos == Next(script, w.pos, left))
    decreases left
  {
    var (w1, r) := GrantAttempt(w, f, script(w.pos));
    if r == Again && left > 1 {
      GrantQuietly(w1, f, script, left - 1);
    }
  }

  lemma StopStep(script: Script, pos: nat, todo: seq<FlavorId>, access: set<FlavorId>, rest: Stop)
    requires todo != [] && Answered(script, pos, MAX_ATTEMPTS)
    requires todo[0] in access || Answered(script, Next(script, pos, MAX_ATTEMPTS), MAX_ATTEMPTS)
    requires rest == StopOf(script, var p := Next(script, pos, MAX_ATTEMPTS);
                            if todo[0] in access then p else Next(script, p, MAX_ATTEMPTS), todo[1..], access)
    ensures StopOf(script, pos, todo, access) == rest.(index := rest.index + 1)
    ensures Created(todo, rest.(index := rest.index + 1), access)
         == Created(todo[1..], rest, access) + (if todo[0] in access then {} else {todo[0]})
  {
    assert todo[..rest.index + 1] == [todo[0]] + todo[1..][..rest.index];
  }

  /** More access changes nothing for flavors it does not concern. */
  lemma {:induction false} StopFrame(script: Script, pos: nat, todo: seq<FlavorId>, a: set<FlavorId>, b: set<FlavorId>)
    requires forall f :: f in todo ==> (f in a <==> f in b)
    ensures StopOf(script, pos, todo, a) == StopOf(script, pos, todo, b)
    ensures Created(todo, StopOf(script, pos, todo, a), a) == Created(todo, StopOf(script, pos, todo, b), b)
    decreases |todo|
  {
    hide Answered, Next, Applied;
    if todo != [] {
      var p := Next(script, pos, MAX_ATTEMPTS);
      StopFrame(script, if todo[0] in a then p else Next(script, p, MAX_ATTEMPTS), todo[1..], a, b);
    }
  }

  /** What the grant loop creates, undisturbed, whatever becomes of its calls. */
  lemma {:induction false} LoopCreates(w: World, todo: seq<FlavorId>, desired: map<FlavorId, Cover>, added: seq<Grant>,
                                       now: Instant, script: Script)
    requires Quiet(script) && (forall f :: f in todo ==> f in desired)
    requires forall i, j :: 0 <= i < j < |todo| ==> todo[i] < todo[j]
    ensures var p := GrantAll(w, todo, desired, added, now, script);
      var stop := StopOf(script, w.pos, todo, w.access);
      && p.Going? == (stop.index == |todo|)
      && p.world.own == w.own + Created(todo, stop, w.access) && p.world.granted == w.granted
      && (p.Going? ==> p.world.pos == stop.pos)
    decreases |todo|
  {
    hide Answered, Next, Applied, Quiet, ReadCall, GrantCall;
    if todo != [] {
      ReadQuietly(w, script, MAX_ATTEMPTS);
      var p := ReadCall(w, script, MAX_ATTEMPTS);
      if p.Going? {
        assert todo[1..] <= todo[1..] && forall i :: 0 <= i < |todo| - 1 ==> todo[1..][i] == todo[i + 1];
        var rest := todo[1..];
        if todo[0] in w.access {
          LoopCreates(p.world, rest, desired, added, now, script);
          StopStep(script, w.pos, todo, w.access, StopOf(script, p.world.pos, rest, w.access));
        } else {
          LoopCreatesOne(w, p.world, todo, desired, added, now, script);
        }
      }
    }
  }

  lemma {:induction false} LoopCreatesOne(w: World, w1: World, todo: seq<FlavorId>, desired: map<FlavorId, Cover>,
                                          added: seq<Grant>, now: Instant, script: Script)
    requires Quiet(script) && todo != [] && (forall f :: f in todo ==> f in desired)
    requires forall i, j :: 0 <= i < j < |todo| ==> todo[i] < todo[j]
    requires ReadCall(w, script, MAX_ATTEMPTS).Going? && ReadCall(w, script, MAX_ATTEMPTS).world == w1
    requires w1 == w.(pos := Next(script, w.pos, MAX_ATTEMPTS))
    requires Answered(script, w.pos, MAX_ATTEMPTS) && todo[0] !in w.access
    ensures var p := GrantAll(w, todo, desired, added, now, script);
      var stop := StopOf(script, w.pos, todo, w.access);
      && p.Going? == (stop.index == |todo|)
      && p.world.own == w.own + Created(todo, stop, w.access) && p.world.granted == w.granted
      && (p.Going? ==> p.world.pos == stop.pos)
    decreases |todo|, 0
  {
    hide Answered, Next, Applied, Quiet, ReadCall, GrantCall;
    var rest := todo[1..];
    GrantQuietly(w1, todo[0], script, MAX_ATTEMPTS);
    var (w2, r) := GrantCall(w1, todo[0], script, MAX_ATTEMPTS);
    if r != Stopped {
      LoopCreates(w2, rest, desired, added + [NewGrant(todo[0], desired, now)], now, script);
      StopFrame(script, w2.pos, rest, w2.access, w.access);
      AnsweredApplies(script, w1.pos, MAX_ATTEMPTS);
      StopStep(script, w.pos, todo, w.access, StopOf(script, w2.pos, rest, w.access));
    } else {
      assert todo[..0] == [];
    }
  }

  lemma {:induction false} AnsweredApplies(script: Script, pos: nat, left: nat)
    requires Answered(script, pos, left)
    ensures Applied(script, pos, left)
    decreases left
  {
    if script(pos).fault == Transient {
      AnsweredApplies(script, pos + 1, left - 1);
    }
  }

  /** The slot at which the grant loop begins, if the run gets there. */
  function LoopStart(w: World, active: seq<Entry>, flavors: seq<Flavor>, matches: Matching,
                     script: Script): Option<nat> {
    if active == [] then Some(w.pos)
    else if !Answered(script, w.pos, MAX_ATTEMPTS) then None
    else
      var pos := Next(script, w.pos, MAX_ATTEMPTS);
      if Unmatched(active, flavors, matches) == w.unmatched then Some(pos)
      else if script(pos).fault == Delivered then Some(pos + 1) else None
  }

  lemma SurveyQuietly(w: World, active: seq<Entry>, flavors: seq<Flavor>, matches: Matching, script: Script)
    requires Quiet(script)
    ensures var s := Survey(w, active, flavors, matches, script);
      var start := LoopStart(w, active, flavors, matches, script);
      && s.Going? == start.Some?
      && s.world == w.(pos := s.world.pos, unmatched := s.world.unmatched, writes := s.world.writes)
      && (s.Going? ==> s.world.pos == start.value && s.value == Desired(active, flavors, matches))
  {
    hide Answered, Next, ReadCall, Unmatched;
    ReadQuietly(w, script, MAX_ATTEMPTS);
  }

  /** The list saved after the loop reaches the disk. */
  predicate Recorded(script: Script, stop: Stop, n: nat) {
    stop.index == n && var fault := script(stop.pos).fault;
      (fault == Delivered || fault == ResponseLost || fault == DiedAfter)
  }

  /** What an undisturbed run creates without a record of it; nothing if it never gets to the grant loop. */
  function Escaping(w: World, reservations: seq<Entry>, flavors: seq<Flavor>, matches: Matching, now: Instant,
                    script: Script): set<FlavorId>
  {
    var active := Active(reservations, now);
    var start := LoopStart(w, active, flavors, matches, script);
    if (reservations == [] && w.granted == []) || start.None? then {}
    else
      var todo := ToGrant(w.granted, Desired(active, flavors, matches));
      var stop := StopOf(script, start.value, todo, w.access);
      if Recorded(script, stop, |todo|) then {} else Created(todo, stop, w.access)
  }

  /**
   What leaks, undisturbed by others and whatever becomes of the calls: exactly the flavors to grant, before
   the one at which the loop ends, that lacked access, and that one if its grant took effect; and nothing once
   the list is on disk.
   */
  lemma LeakedSet(w: World, reservations: seq<Entry>, flavors: seq<Flavor>, matches: Matching, now: Instant,
                  script: Script)
    requires Quiet(script) && w.own <= w.access
    ensures var v := Run(w, reservations, flavors, matches, now, script).world;
      Leak(v) - Leak(w) == Escaping(w, reservations, flavors, matches, now, script)
  {
    hide Quiet, Survey, Opening, Closing, LoopStart, StopOf, Created, Desired, Active;
    if reservations != [] || w.granted != [] {
      var active := Active(reservations, now);
      SurveyQuietly(w, active, flavors, matches, script);
      var s := Survey(w, active, flavors, matches, script);
      if s.Going? {
        OpeningLeaks(s.world, s.value, now, script);
        var (o, stage) := Opening(s.world, s.world.granted, s.value, now, script);
        if o.Going? {
          OpeningMoves(s.world, s.value, now, script);
          ClosingMoves(o.world, w.granted, w.revoked, s.value, o.value,
                       (g: Grant) => ReasonFor(g, reservations), now, script);
        }
      }
    }
  }

  /** The same for the grant loop and the save after it. */
  lemma OpeningLeaks(w: World, desired: map<FlavorId, Cover>, now: Instant, script: Script)
    requires Quiet(script) && w.own <= w.access
    ensures var (o, stage) := Opening(w, w.granted, desired, now, script);
      var todo := ToGrant(w.granted, desired);
      var stop := StopOf(script, w.pos, todo, w.access);
      && (o.Going? ==> Leak(o.world) <= Leak(w))
      && (o.Going? ==> Recorded(script, stop, |todo|) || Created(todo, stop, w.access) == {})
      && (o.Halted? ==>
            Leak(o.world) - Leak(w) == if Recorded(script, stop, |todo|) then {} else Created(todo, stop, w.access))
  {
    hide Quiet, GrantAll, StopOf, Created, Ids, Moves, ToGrant;
    var todo := ToGrant(w.granted, desired);
    var stop := StopOf(script, w.pos, todo, w.access);
    var p := GrantAll(w, todo, desired, [], now, script);
    assert forall i, j :: 0 <= i < j < |todo| ==> todo[i] < todo[j] by { ToGrantSorted(w.granted, desired); }
    LoopCreates(w, todo, desired, [], now, script);
    GrantAllMoves(w, todo, desired, [], now, script);
    OpeningMoves(w, desired, now, script);
    CreatedIsNew(script, w.pos, todo, w.access);
    ToGrantIsUntracked(w.granted, desired);
    LeakGrows(w, p.world, Created(todo, stop, w.access));
    NoIds();
    if p.Going? && p.value != [] {
      SaveGrantedLeaks(w, p.world, p.value, script);
    }
  }

  lemma NoIds()
    ensures Ids([]) == {}
  {}

  lemma ToGrantSorted(tracked: seq<Grant>, desired: map<FlavorId, Cover>)
    ensures var todo := ToGrant(tracked, desired); forall i, j :: 0 <= i < j < |todo| ==> todo[i] < todo[j]
  {}

  lemma ToGrantIsUntracked(tracked: seq<Grant>, desired: map<FlavorId, Cover>)
    ensures Set(ToGrant(tracked, desired)) !! Ids(tracked)
  {}

  lemma LeakGrows(w: World, v: World, c: set<FlavorId>)
    requires v.granted == w.granted && v.own == w.own + c && c !! w.own && c !! Ids(w.granted)
    ensures Leak(v) - Leak(w) == c && (c == {} ==> Leak(v) == Leak(w))
  {
    hide Ids;
  }

  /** The early persist: on disk, or the leak stays as it is. */
  lemma SaveGrantedLeaks(w: World, v: World, added: seq<Grant>, script: Script)
    requires Quiet(script) && added != [] && v.granted == w.granted
    ensures var fault := script(v.pos).fault;
      var o := SaveGranted(v, w.granted + added, script);
      && (o.Going? ==> fault == Delivered)
      && if fault == Delivered || fault == ResponseLost || fault == DiedAfter then o.world.granted != w.granted
         else o.world.granted == w.granted && Leak(o.world) == Leak(v)
  {}

  /** What the loop creates is among the flavors to grant and lacked access. */
  lemma {:induction false} CreatedIsNew(script: Script, pos: nat, todo: seq<FlavorId>, access: set<FlavorId>)
    ensures Created(todo, StopOf(script, pos, todo, access), access) <= Set(todo) - access
    decreases |todo|
  {
    hide Answered, Next, Applied;
    if todo != [] {
      var p := Next(script, pos, MAX_ATTEMPTS);
      if Answered(script, pos, MAX_ATTEMPTS) && (todo[0] in access || Answered(script, p, MAX_ATTEMPTS)) {
        var p1 := if todo[0] in access then p else Next(script, p, MAX_ATTEMPTS);
        CreatedIsNew(script, p1, todo[1..], access);
        StopStep(script, pos, todo, access, StopOf(script, p1, todo[1..], access));
      }
    }
  }

  lemma TeardownNeverLeaks(w: World, now: Instant, script: Script)
    requires w.own <= w.access
    ensures Leak(Teardown(w, now, script).world) <= Leak(w)
  {
    if w.granted != [] {
      var why := (g: Grant) => ProjectTeardown;
      RevokeAllMoves(w, w.granted, why, [], now, script);
      var p := RevokeAll(w, w.granted, why, [], now, script);
      if p.Going? {
        PersistSaves(p.world, w.granted, w.revoked, [], p.value, script);
      }
    }
  }

  predicate Cut(w: World, e: Event) {
    e.ToolRun? && CutBeforeRecord(w, Run(w, e.reservations, e.flavors, e.matches, e.now, e.script))
  }

  predicate NeverCut(w: World, events: seq<Event>)
    decreases |events|
  {
    events == [] || (!Cut(w, events[0]) && NeverCut(After(w, events[0]), events[1..]))
  }

  /** Crash as often as you like, only not inside the grant loop: everything of ours stays on the list. */
  lemma {:induction false} UncutHistoriesTrackEverything(w: World, events: seq<Event>)
    requires Sound(w) && Leak(w) == {} && NeverCut(w, events)
    ensures Leak(History(w, events)) == {}
    decreases |events|
  {
    if events != [] {
      var e := events[0];
      AfterSound(w, e);
      match e {
        case ToolRun(reservations, flavors, matches, now, script) =>
          LeaksOnlyWhenCutBeforeRecord(w, reservations, flavors, matches, now, script);
        case ToolTeardown(now, script) => TeardownNeverLeaks(w, now, script);
        case Others(_, _) =>
      }
      UncutHistoriesTrackEverything(After(w, e), events[1..]);
    }
  }

  // ------------------------------------------------------------------ completed, undisturbed runs

  /** The new grants of a run that meets `access`: the flavors that lacked access, in the order of todo. */
  function NewGrants(todo: seq<FlavorId>, desired: map<FlavorId, Cover>, access: set<FlavorId>,
                     now: Instant): seq<Grant>
    requires forall f :: f in todo ==> f in desired
    decreases |todo|
  {
    if todo == [] then []
    else (if todo[0] in access then [] else [NewGrant(todo[0], desired, now)])
         + NewGrants(todo[1..], desired, access, now)
  }

  function Records(todo: seq<Grant>, why: Grant -> Reason, now: Instant): seq<Revocation>
    decreases |todo|
  {
    if todo == [] then [] else [RevokedEntry(todo[0], now, why(todo[0]))] + Records(todo[1..], why, now)
  }

  lemma {:induction false} RecordsAre(todo: seq<Grant>, why: Grant -> Reason, now: Instant)
    ensures var rs := Records(todo, why, now);
      && |rs| == |todo|
      && (forall i :: 0 <= i < |todo| ==>
            var g := todo[i];
            rs[i] == Revocation(g.flavorId, g.flavorName, g.reservation, now, why(g)))
    decreases |todo|
  {
    if todo != [] {
      RecordsAre(todo[1..], why, now);
    }
  }

  lemma {:induction false} NewGrantsFrame(todo: seq<FlavorId>, desired: map<FlavorId, Cover>, a: set<FlavorId>,
                                          b: set<FlavorId>, now: Instant)
    requires forall f :: f in todo ==> f in desired
    requires forall f :: f in todo ==> (f in a <==> f in b)
    ensures NewGrants(todo, desired, a, now) == NewGrants(todo, desired, b, now)
    decreases |todo|
  {
    if todo != [] {
      NewGrantsFrame(todo[1..], desired, a, b, now);
    }
  }

  lemma {:induction false} NewGrantsIds(todo: seq<FlavorId>, desired: map<FlavorId, Cover>, access: set<FlavorId>,
                                        now: Instant)
    requires forall f :: f in todo ==> f in desired
    ensures Ids(NewGrants(todo, desired, access, now)) == Set(todo) - access
    decreases |todo|
  {
    if todo != [] {
      NewGrantsIds(todo[1..], desired, access, now);
      var head := if todo[0] in access then [] else [NewGrant(todo[0], desired, now)];
      IdsConcat(head, NewGrants(todo[1..], desired, access, now));
      assert Set(todo) == {todo[0]} + Set(todo[1..]);
      if todo[0] !in access {
        assert head[0] in head;
        assert Ids(head) == {todo[0]};
      }
    }
  }

  lemma CallsQuiet(w: World, f: FlavorId, script: Script)
    requires Quiet(script)
    ensures ReadCall(w, script, MAX_ATTEMPTS).world.access == w.access
    ensures var (v, r) := GrantCall(w, f, script, MAX_ATTEMPTS); r != Stopped ==> v.access == w.access + {f}
    ensures var (v, r) := RevokeCall(w, f, script, MAX_ATTEMPTS); r != Stopped ==> v.access == w.access - {f}
  {
    ReadMoves(w, script, MAX_ATTEMPTS);
    GrantMoves(w, f, script, MAX_ATTEMPTS);
    RevokeMoves(w, f, script, MAX_ATTEMPTS);
  }

  lemma {:induction false} GrantAllQuiet(w: World, todo: seq<FlavorId>, desired: map<FlavorId, Cover>,
                                         added: seq<Grant>, now: Instant, script: Script)
    requires forall f :: f in todo ==> f in desired
    requires forall i, j :: 0 <= i < j < |todo| ==> todo[i] < todo[j]
    requires Quiet(script)
    ensures var p := GrantAll(w, todo, desired, added, now, script);
      p.Going? ==>
        && p.value == added + NewGrants(todo, desired, w.access, now)
        && p.world.access == w.access + Set(todo)
    decreases |todo|
  {
    if todo == [] {
      assert added + [] == added;
    } else {
      CallsQuiet(w, todo[0], script);
      var p := ReadCall(w, script, MAX_ATTEMPTS);
      if p.Going? {
        var rest := todo[1..];
        assert Set(todo) == {todo[0]} + Set(rest);
        if todo[0] in w.access {
          GrantAllQuiet(p.world, rest, desired, added, now, script);
          assert [] + NewGrants(rest, desired, w.access, now) == NewGrants(rest, desired, w.access, now);
        } else {
          GrantOneQuiet(w, p.world, todo, desired, added, now, script);
        }
      }
    }
  }

  lemma {:induction false} GrantOneQuiet(w: World, w1: World, todo: seq<FlavorId>, desired: map<FlavorId, Cover>,
                                         added: seq<Grant>, now: Instant, script: Script)
    requires todo != [] && (forall f :: f in todo ==> f in desired)
    requires forall i, j :: 0 <= i < j < |todo| ==> todo[i] < todo[j]
    requires Quiet(script) && ReadCall(w, script, MAX_ATTEMPTS).Going? && ReadCall(w, script, MAX_ATTEMPTS).world == w1
    requires w1.access == w.access && todo[0] !in w.access
    ensures var p := GrantAll(w, todo, desired, added, now, script);
      p.Going? ==>
        && p.value == added + NewGrants(todo, desired, w.access, now)
        && p.world.access == w.access + Set(todo)
    decreases |todo|, 0
  {
    hide GrantCall, ReadCall, Quiet;
    var rest := todo[1..];
    assert Set(todo) == {todo[0]} + Set(rest);
    CallsQuiet(w1, todo[0], script);
    var (w2, r) := GrantCall(w1, todo[0], script, MAX_ATTEMPTS);
    if r != Stopped {
      var g := NewGrant(todo[0], desired, now);
      GrantAllQuiet(w2, rest, desired, added + [g], now, script);
      NewGrantsFrame(rest, desired, w2.access, w.access, now);
      assert added + [g] + NewGrants(rest, desired, w.access, now)
          == added + ([g] + NewGrants(rest, desired, w.access, now));
    }
  }

  lemma IdsCons(grants: seq<Grant>)
    requires grants != []
    ensures Ids(grants) == {grants[0].flavorId} + Ids(grants[1..])
  {
    IdsConcat([grants[0]], grants[1..]);
    assert grants == [grants[0]] + grants[1..];
    assert Ids([grants[0]]) == {grants[0].flavorId};
  }

  lemma {:induction false} VerifyAllQuiet(w: World, covered: seq<Grant>, script: Script)
    requires Quiet(script)
    ensures var p := VerifyAll(w, covered, script);
      p.Going? ==> p.world.access == w.access + Ids(covered)
    decreases |covered|
  {
    if covered != [] {
      var f := covered[0].flavorId;
      CallsQuiet(w, f, script);
      var p := ReadCall(w, script, MAX_ATTEMPTS);
      IdsCons(covered);
      if p.Going? {
        if f in p.world.access {
          VerifyAllQuiet(p.world, covered[1..], script);
        } else {
          CallsQuiet(p.world, f, script);
          var (w2, r) := GrantCall(p.world, f, script, MAX_ATTEMPTS);
          if r == Accepted {
            VerifyAllQuiet(w2, covered[1..], script);
          }
        }
      }
    }
  }

  lemma RevokeNone(w: World, why: Grant -> Reason, done: seq<Revocation>, now: Instant, script: Script)
    ensures RevokeAll(w, [], why, done, now, script) == Going(w, done) && Ids([]) == {}
  {}

  lemma {:induction false} RevokeAllQuiet(w: World, todo: seq<Grant>, why: Grant -> Reason, done: seq<Revocation>,
                                          now: Instant, script: Script)
    requires Quiet(script)
    ensures var p := RevokeAll(w, todo, why, done, now, script);
      p.Going? ==> p.value == done + Records(todo, why, now) && p.world.access == w.access - Ids(todo)
    decreases |todo|
  {
    hide RevokeCall, Quiet;
    RevokeNone(w, why, done, now, script);
    hide Ids;
    if todo == [] {
      assert done + [] == done;
    } else {
      IdsCons(todo);
      CallsQuiet(w, todo[0].flavorId, script);
      var (w1, r) := RevokeCall(w, todo[0].flavorId, script, MAX_ATTEMPTS);
      if r != Stopped {
        var rec := RevokedEntry(todo[0], now, why(todo[0]));
        RevokeAllQuiet(w1, todo[1..], why, done + [rec], now, script);
        assert done + [rec] + Records(todo[1..], why, now) == done + ([rec] + Records(todo[1..], why, now));
      }
    }
  }

  lemma PersistQuiet(w: World, tracked: seq<Grant>, loaded: seq<Revocation>, final: seq<Grant>,
                     done: seq<Revocation>, script: Script)
    requires Quiet(script) && (w.granted == final || final != tracked) && w.revoked == loaded
    ensures var e := Persist(w, tracked, loaded, final, done, script);
      e.outcome == Completed ==>
        && e.world.granted == final && e.world.access == w.access && e.world.unmatched == w.unmatched
        && e.world.revoked == MergedRevoked(loaded, done, final)
  {
    if final != tracked {
      SaveGrantedSaves(w, final, script);
    }
  }

  /** The state a completed run is meant to leave behind, spelled out from what it found. */
  ghost predicate Converged(w: World, v: World, desired: map<FlavorId, Cover>, why: Grant -> Reason, now: Instant) {
    var lapsed := LapsedGrants(w.granted, desired);
    && v.granted == CoveredGrants(w.granted, desired)
                  + NewGrants(ToGrant(w.granted, desired), desired, w.access, now)
    && v.access == (w.access + desired.Keys) - Ids(lapsed)
    && v.revoked == MergedRevoked(w.revoked, Records(lapsed, why, now), v.granted)
  }

  lemma ClosingQuiet(w: World, tracked: seq<Grant>, loaded: seq<Revocation>, desired: map<FlavorId, Cover>,
                     added: seq<Grant>, why: Grant -> Reason, now: Instant, script: Script)
    requires Quiet(script) && w.revoked == loaded
    requires w.granted == tracked + added && Ids(added) !! Ids(tracked)
    ensures var e := Closing(w, tracked, loaded, desired, added, why, now, script);
      e.outcome == Completed ==>
        && e.world.granted == CoveredGrants(tracked, desired) + added
        && e.world.access == (w.access + Ids(CoveredGrants(tracked, desired))) - Ids(LapsedGrants(tracked, desired))
        && e.world.revoked == MergedRevoked(loaded, Records(LapsedGrants(tracked, desired), why, now), e.world.granted)
        && e.world.unmatched == w.unmatched
  {
    var covered, lapsed := CoveredGrants(tracked, desired), LapsedGrants(tracked, desired);
    VerifyAllMoves(w, covered, script);
    VerifyAllQuiet(w, covered, script);
    var p1 := VerifyAll(w, covered, script);
    if p1.Going? {
      RevokeAllMoves(p1.world, lapsed, why, [], now, script);
      RevokeAllQuiet(p1.world, lapsed, why, [], now, script);
      var p2 := RevokeAll(p1.world, lapsed, why, [], now, script);
      if p2.Going? {
        assert [] + Records(lapsed, why, now) == Records(lapsed, why, now);
        if covered + added == tracked {
          NothingAdded(tracked, covered, added);
        }
        PersistQuiet(p2.world, tracked, loaded, covered + added, p2.value, script);
      }
    }
  }

  lemma SurveyQuiet(w: World, active: seq<Entry>, flavors: seq<Flavor>, matches: Matching, script: Script)
    requires Quiet(script)
    ensures var p := Survey(w, active, flavors, matches, script);
      && p.world.access == w.access
      && (p.Going? ==> p.value == Desired(active, flavors, matches))
      && (p.Going? ==> p.world.unmatched == if active == [] then w.unmatched else Unmatched(active, flavors, matches))
      && (active == [] || w.unmatched == Unmatched(active, flavors, matches) ==>
            p.world == w.(pos := p.world.pos, own := p.world.own) && p.world.own <= w.own)
  {
    if active != [] {
      ReadMoves(w, script, MAX_ATTEMPTS);
    }
  }

  lemma OpeningQuiet(w: World, desired: map<FlavorId, Cover>, now: Instant, script: Script)
    requires Quiet(script)
    ensures var (p, _) := Opening(w, w.granted, desired, now, script);
      var todo := ToGrant(w.granted, desired);
      p.Going? ==>
        && p.value == NewGrants(todo, desired, w.access, now)
        && p.world.access == w.access + (desired.Keys - Ids(w.granted))
        && p.world.unmatched == w.unmatched && p.world.revoked == w.revoked
        && p.world.granted == w.granted + p.value && Ids(p.value) !! Ids(w.granted)
  {
    var todo := ToGrant(w.granted, desired);
    OpeningMoves(w, desired, now, script);
    GrantAllQuiet(w, todo, desired, [], now, script);
    assert [] + NewGrants(todo, desired, w.access, now) == NewGrants(todo, desired, w.access, now);
    assert Set(todo) == desired.Keys - Ids(w.granted);
    var g := GrantAll(w, todo, desired, [], now, script);
    if g.Going? {
      SaveGrantedSaves(g.world, w.granted + g.value, script);
    }
  }

  /** With neither reservations nor tracked grants there is nothing to converge to. */
  lemma IdleConverges(w: World, flavors: seq<Flavor>, matches: Matching, why: Grant -> Reason, now: Instant)
    requires w.granted == []
    ensures Desired([], flavors, matches) == map[]
    ensures Converged(w, w, map[], why, now)
  {
    assert w.revoked + [] == w.revoked;
    FilterAll(w.revoked, (r: Revocation) => r.flavorId !in Ids([]));
  }

  /** A run that nobody disturbs and that completes leaves exactly the converged state. */
  lemma CompletedRunConverges(w: World, reservations: seq<Entry>, flavors: seq<Flavor>, matches: Matching,
                              now: Instant, script: Script)
    requires Quiet(script)
    requires Run(w, reservations, flavors, matches, now, script).outcome == Completed
    ensures var v := Run(w, reservations, flavors, matches, now, script).world;
      var active := Active(reservations, now);
      && Converged(w, v, Desired(active, flavors, matches), (g: Grant) => ReasonFor(g, reservations), now)
      && v.unmatched == if active == [] then w.unmatched else Unmatched(active, flavors, matches)
  {
    var active := Active(reservations, now);
    var desired := Desired(active, flavors, matches);
    var why := (g: Grant) => ReasonFor(g, reservations);
    if reservations == [] && w.granted == [] {
      IdleConverges(w, flavors, matches, why, now);
    } else {
      SurveyQuiet(w, active, flavors, matches, script);
      SurveyMoves(w, active, flavors, matches, script);
      var s := Survey(w, active, flavors, matches, script);
      OpeningQuiet(s.world, desired, now, script);
      var (o, _) := Opening(s.world, w.granted, desired, now, script);
      ClosingQuiet(o.world, w.granted, w.revoked, desired, o.value, why, now, script);
      IdsSplit(w.granted, desired);
      assert w.access + (desired.Keys - Ids(w.granted)) + Ids(CoveredGrants(w.granted, desired))
          == w.access + desired.Keys;
    }
  }

  /** A completed run leaves nothing to do: what is desired is there, and what is tracked is desired. */
  lemma CompletedRunSettles(w: World, reservations: seq<Entry>, flavors: seq<Flavor>, matches: Matching,
                            now: Instant, script: Script)
    requires Quiet(script)
    requires Run(w, reservations, flavors, matches, now, script).outcome == Completed
    ensures var v := Run(w, reservations, flavors, matches, now, script).world;
      Settled(v, Desired(Active(reservations, now), flavors, matches))
  {
    CompletedRunConverges(w, reservations, flavors, matches, now, script);
    var v := Run(w, reservations, flavors, matches, now, script).world;
    var desired := Desired(Active(reservations, now), flavors, matches);
    var todo := ToGrant(w.granted, desired);
    IdsSplit(w.granted, desired);
    NewGrantsIds(todo, desired, w.access, now);
    IdsConcat(CoveredGrants(w.granted, desired), NewGrants(todo, desired, w.access, now));
    assert Set(todo) == desired.Keys - Ids(w.granted);
    assert v.revoked + [] == v.revoked;
    FilterAll(v.revoked, (r: Revocation) => r.flavorId !in Ids(v.granted));
  }

  // ------------------------------------------------------------------ a second run has nothing to do

  lemma {:induction false} ReadIdle(w: World, script: Script, left: nat)
    requires left >= 1 && Quiet(script)
    ensures var p := ReadCall(w, script, left); p.world == w.(pos := p.world.pos)
    decreases left, w
  {
    var w0 := Outside(w, script(w.pos));
    assert w0 == w.(pos := w0.pos);
    if (script(w.pos).fault == ResponseLost || script(w.pos).fault == Transient) && left > 1 {
      ReadIdle(w0, script, left - 1);
    }
  }

  lemma {:induction false} GrantAllIdle(w: World, todo: seq<FlavorId>, desired: map<FlavorId, Cover>,
                                        now: Instant, script: Script)
    requires forall f :: f in todo ==> f in desired && f in w.access
    requires Quiet(script)
    ensures var p := GrantAll(w, todo, desired, [], now, script);
      p.world == w.(pos := p.world.pos) && (p.Going? ==> p.value == [])
    decreases |todo|
  {
    if todo != [] {
      ReadIdle(w, script, MAX_ATTEMPTS);
      var p := ReadCall(w, script, MAX_ATTEMPTS);
      if p.Going? {
        GrantAllIdle(p.world, todo[1..], desired, now, script);
      }
    }
  }

  lemma {:induction false} VerifyAllIdle(w: World, covered: seq<Grant>, script: Script)
    requires Ids(covered) <= w.access && Quiet(script)
    ensures var p := VerifyAll(w, covered, script); p.world == w.(pos := p.world.pos)
    decreases |covered|
  {
    if covered != [] {
      IdsCons(covered);
      ReadIdle(w, script, MAX_ATTEMPTS);
      var p := ReadCall(w, script, MAX_ATTEMPTS);
      if p.Going? {
        VerifyAllIdle(p.world, covered[1..], script);
      }
    }
  }

  /** Nothing is pending: all that is desired is there, all that is tracked is desired, all notes are current. */
  ghost predicate Settled(w: World, desired: map<FlavorId, Cover>) {
    && desired.Keys <= w.access
    && Ids(w.granted) <= desired.Keys
    && MergedRevoked(w.revoked, [], w.granted) == w.revoked
  }

  lemma SettledSplit(tracked: seq<Grant>, desired: map<FlavorId, Cover>)
    requires Ids(tracked) <= desired.Keys
    ensures CoveredGrants(tracked, desired) == tracked && LapsedGrants(tracked, desired) == []
  {
    FilterAll(tracked, (g: Grant) => Covered(g, desired));
    var lapsed := LapsedGrants(tracked, desired);
    IdsSplit(tracked, desired);
    assert Ids(lapsed) <= Ids(tracked);
    NoIdsNoGrants(lapsed);
  }

  lemma SettledRunIsIdle(w: World, reservations: seq<Entry>, flavors: seq<Flavor>, matches: Matching,
                         now: Instant, script: Script)
    requires Quiet(script)
    requires Settled(w, Desired(Active(reservations, now), flavors, matches))
    requires Active(reservations, now) == [] || w.unmatched == Unmatched(Active(reservations, now), flavors, matches)
    ensures var v := Run(w, reservations, flavors, matches, now, script).world; v == w.(pos := v.pos)
  {
    if reservations != [] || w.granted != [] {
      var active := Active(reservations, now);
      var desired := Desired(active, flavors, matches);
      ReadIdle(w, script, MAX_ATTEMPTS);
      var s := Survey(w, active, flavors, matches, script);
      if s.Going? {
        GrantAllIdle(s.world, ToGrant(w.granted, desired), desired, now, script);
        var (o, _) := Opening(s.world, w.granted, desired, now, script);
        if o.Going? {
          SettledSplit(w.granted, desired);
          VerifyAllIdle(o.world, w.granted, script);
          assert w.granted + [] == w.granted;
        }
      }
    }
  }

  /**
   Undisturbed, a second run on the same inputs, at a clock reading that opens and closes no entry, sends no
   grant, no revoke and writes nothing, whether or not it completes.
   */
  lemma SecondRunDoesNothing(w: World, reservations: seq<Entry>, flavors: seq<Flavor>, matches: Matching,
                             now: Instant, script: Script, later: Instant, script2: Script)
    requires Quiet(script) && Quiet(script2)
    requires Run(w, reservations, flavors, matches, now, script).outcome == Completed
    requires forall e :: e in reservations ==> SpansActive(e.period, later) == SpansActive(e.period, now)
    ensures var v := Run(w, reservations, flavors, matches, now, script).world;
      var v2 := Run(v, reservations, flavors, matches, later, script2).world;
      && v2.requests == v.requests && v2.writes == v.writes
      && v2 == v.(pos := v2.pos)
  {
    var v := Run(w, reservations, flavors, matches, now, script).world;
    var active := Active(reservations, now);
    FilterSame(reservations, (e: Entry) => SpansActive(e.period, later), (e: Entry) => SpansActive(e.period, now));
    CompletedRunConverges(w, reservations, flavors, matches, now, script);
    CompletedRunSettles(w, reservations, flavors, matches, now, script);
    SettledRunIsIdle(v, reservations, flavors, matches, later, script2);
  }

  // ------------------------------------------------------------------ teardown

  /** A completed, undisturbed teardown empties the list, takes exactly the tracked access and audits each grant. */
  lemma CompletedTeardown(w: World, now: Instant, script: Script)
    requires Quiet(script) && Teardown(w, now, script).outcome == Completed
    ensures var v := Teardown(w, now, script).world;
      && v.granted == []
      && v.access == w.access - Ids(w.granted)
      && |v.revoked| == |w.revoked| + |w.granted| && v.revoked[..|w.revoked|] == w.revoked
      && (forall i :: 0 <= i < |w.granted| ==>
            var g := w.granted[i];
            v.revoked[|w.revoked| + i] == Revocation(g.flavorId, g.flavorName, g.reservation, now, ProjectTeardown))
  {
    hide RevokeAll, Moves, Quiet, Persist;
    var why := (g: Grant) => ProjectTeardown;
    var records := Records(w.granted, why, now);
    RecordsAre(w.granted, why, now);
    if w.granted == [] {
      assert w.revoked + records == w.revoked;
    } else {
      RevokeAllQuiet(w, w.granted, why, [], now, script);
      var p := RevokeAll(w, w.granted, why, [], now, script);
      assert [] + records == records;
      assert SameFiles(w, p.world) by {
        RevokeAllMoves(w, w.granted, why, [], now, script);
      }
      PersistQuiet(p.world, w.granted, w.revoked, [], p.value, script);
      FilterAll(w.revoked + records, (r: Revocation) => r.flavorId !in Ids([]));
    }
  }

  // ------------------------------------------------------------------ what is desired

  predicate CoversAt(e: Entry, flavors: seq<Flavor>, j: nat, f: FlavorId, matches: Matching) {
    j < |flavors| && flavors[j].id == f && EntryCovers(e, flavors[j].name, matches)
  }

  /** The first flavor by which entry e covers f. */
  ghost predicate FirstIn(e: Entry, flavors: seq<Flavor>, matches: Matching, f: FlavorId, j: nat) {
    CoversAt(e, flavors, j, f, matches) && forall k: nat :: k < j ==> !CoversAt(e, flavors, k, f, matches)
  }

  lemma {:induction false} CoverEntryFirst(acc: map<FlavorId, Cover>, e: Entry, flavors: seq<Flavor>, matches: Matching,
                                           f: FlavorId)
    ensures var r := CoverEntry(acc, e, flavors, matches);
      && (f in r <==> f in acc || exists j: nat :: CoversAt(e, flavors, j, f, matches))
      && (f in acc ==> f in r && r[f] == acc[f])
      && (f in r && f !in acc ==>
            (exists j: nat :: FirstIn(e, flavors, matches, f, j) && r[f] == Cover(flavors[j].name, e.name)))
    decreases |flavors|
  {
    if flavors != [] {
      var fl := flavors[0];
      var acc1 := if fl.id !in acc && EntryCovers(e, fl.name, matches)
                  then acc[fl.id := Cover(fl.name, e.name)] else acc;
      CoverEntryFirst(acc1, e, flavors[1..], matches, f);
      assert forall j: nat :: CoversAt(e, flavors[1..], j, f, matches) <==> CoversAt(e, flavors, j + 1, f, matches);
      assert forall j: nat :: CoversAt(e, flavors, j, f, matches) && j > 0 ==>
          CoversAt(e, flavors[1..], j - 1, f, matches);
      var r := CoverEntry(acc, e, flavors, matches);
      if f in r && f !in acc {
        if f in acc1 {
          assert FirstIn(e, flavors, matches, f, 0);
        } else {
          var j: nat :| FirstIn(e, flavors[1..], matches, f, j) && r[f] == Cover(flavors[1..][j].name, e.name);
          assert FirstIn(e, flavors, matches, f, j + 1);
        }
      } else if exists j: nat :: CoversAt(e, flavors, j, f, matches) {
        var j: nat :| CoversAt(e, flavors, j, f, matches);
        if j > 0 {
          assert CoversAt(e, flavors[1..], j - 1, f, matches);
        }
      }
    }
  }

  /** Entry i is the first of the active entries to cover f, with flavor j the first it covers it by. */
  ghost predicate FirstCover(active: seq<Entry>, flavors: seq<Flavor>, matches: Matching, f: FlavorId, i: nat, j: nat) {
    && i < |active| && FirstIn(active[i], flavors, matches, f, j)
    && (forall h: nat, k: nat :: h < i ==> !CoversAt(active[h], flavors, k, f, matches))
  }

  lemma {:induction false} CoverAllFirst(acc: map<FlavorId, Cover>, active: seq<Entry>, flavors: seq<Flavor>,
                                         matches: Matching, f: FlavorId)
    ensures var r := CoverAll(acc, active, flavors, matches);
      && (f in acc ==> f in r && r[f] == acc[f])
      && (f in r && f !in acc ==> exists i: nat, j: nat ::
            FirstCover(active, flavors, matches, f, i, j) && r[f] == Cover(flavors[j].name, active[i].name))
      && (f !in r ==> forall i: nat, j: nat :: i < |active| ==> !CoversAt(active[i], flavors, j, f, matches))
    decreases |active|
  {
    if active != [] {
      var acc1 := CoverEntry(acc, active[0], flavors, matches);
      CoverEntryFirst(acc, active[0], flavors, matches, f);
      CoverAllFirst(acc1, active[1..], flavors, matches, f);
      var r := CoverAll(acc, active, flavors, matches);
      if f in r && f !in acc {
        if f in acc1 {
          var j: nat :| FirstIn(active[0], flavors, matches, f, j) && acc1[f] == Cover(flavors[j].name, active[0].name);
          assert FirstCover(active, flavors, matches, f, 0, j);
        } else {
          var i: nat, j: nat :| FirstCover(active[1..], flavors, matches, f, i, j)
            && r[f] == Cover(flavors[j].name, active[1..][i].name);
          forall h: nat, k: nat | h < i + 1 ensures !CoversAt(active[h], flavors, k, f, matches) {
            if h > 0 {
              assert active[h] == active[1..][h - 1];
            }
          }
          assert FirstCover(active, flavors, matches, f, i + 1, j);
        }
      } else if f !in r {
        forall i: nat, j: nat | i < |active| ensures !CoversAt(active[i], flavors, j, f, matches) {
          if i > 0 {
            assert active[i] == active[1..][i - 1];
          }
        }
      }
    }
  }

  /** Coverage is the union over active entries; the name recorded is the first covering entry's. */
  lemma DesiredIsUnionOfEntries(active: seq<Entry>, flavors: seq<Flavor>, matches: Matching, f: FlavorId)
    ensures var r := Desired(active, flavors, matches);
      && (f in r <==> exists i: nat, j: nat :: i < |active| && CoversAt(active[i], flavors, j, f, matches))
      && (f in r ==> exists i: nat, j: nat ::
            FirstCover(active, flavors, matches, f, i, j) && r[f] == Cover(flavors[j].name, active[i].name))
  {
    CoverAllFirst(map[], active, flavors, matches, f);
  }

  // ------------------------------------------------------------------ a leak, concretely

  /** One private flavor, one open-ended reservation for it, nothing tracked; the process dies right after the grant. */
  lemma LeakExample()
    ensures
      var w := World({}, [], [], {}, {}, {}, {}, {}, 0, 0, 0);
      var script: Script := n => Slot({}, {}, if n == 2 then DiedAfter else Delivered);
      var e := Run(w, [Entry("r", ["gpu"], [Span(None, None)])], [Flavor(7, "gpu")], (a, b) => a == b, 0, script);
      CutBeforeRecord(w, e) && Leak(e.world) == {7}
  {
    var w := World({}, [], [], {}, {}, {}, {}, {}, 0, 0, 0);
    var script: Script := n => Slot({}, {}, if n == 2 then DiedAfter else Delivered);
    var entry := Entry("r", ["gpu"], [Span(None, None)]);
    var flavors := [Flavor(7, "gpu")];
    var matches: Matching := (a, b) => a == b;
    assert entry.period[0].Contains(0);
    var active := Active([entry], 0);
    assert active == [entry] by {
      FilterAll([entry], (e: Entry) => SpansActive(e.period, 0));
    }
    assert matches(flavors[0].name, entry.flavors[0]);
    assert EntryCovers(entry, "gpu", matches);
    var desired := Desired(active, flavors, matches);
    var covered := map[7 := Cover("gpu", "r")];
    assert CoverEntry(map[], entry, flavors, matches) == covered by {
      assert flavors[1..] == [];
    }
    assert desired == CoverAll(covered, active[1..], flavors, matches) == covered;
    assert Unmatched(active, flavors, matches) == {};
    var w1 := ReadCall(w, script, MAX_ATTEMPTS).world;
    assert Survey(w, active, flavors, matches, script) == Going(w1, desired);
    var todo := ToGrant([], desired);
    assert todo == [7] by {
      assert desired.Keys - Ids([]) == {7};
      assert Sorted({7}) == [Least({7})] + Sorted({7} - {7});
    }
    var w2 := ReadCall(w1, script, MAX_ATTEMPTS).world;
    assert script(w2.pos).fault == DiedAfter;
    var (w3, r) := GrantCall(w2, 7, script, MAX_ATTEMPTS);
    assert r == Stopped && w3.own == {7};
    assert GrantAll(w1, todo, desired, [], 0, script) == Halted(w3);
  }
}
