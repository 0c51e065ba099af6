/**
 What the reservation run guarantees: at every exit, under every script, and over whole histories.
 */
module ReservationProofs {
  import opened Common
  import opened Spans
  import opened Reservations

  // ------------------------------------------------------------------ what a stretch of calls may do

  /** Nobody outside takes f away while the script plays. */
  ghost predicate Spares(script: Script, f: FlavorId) {
    forall n: nat :: f !in script(n).removes
  }

  /** Nobody outside acts at all; requests may still be lost, retried or refused. */
  ghost predicate Quiet(script: Script) {
    forall n: nat :: script(n).adds == {} && script(n).removes == {}
  }

  ghost predicate SameFiles(w: World, v: World) {
    v.granted == w.granted && v.revoked == w.revoked && v.unmatched == w.unmatched && v.ever == w.ever
    && v.writes == w.writes
  }

  /** From w to v the tool created access to members of adds only and took away members of takes only. */
  ghost predicate Moves(w: World, v: World, script: Script, adds: set<FlavorId>, takes: set<FlavorId>) {
    && v.own <= w.own + adds
    && v.removed <= w.removed + takes
    && v.strays <= w.strays + (takes - Ids(w.granted))
    && (w.own <= w.access ==> v.own <= v.access)
    && (forall f :: f in w.access && Spares(script, f) && f !in takes ==> f in v.access)
    && (Quiet(script) ==> w.access - takes <= v.access <= w.access + adds)
    && w.requests <= v.requests
  }

  lemma {:induction false} ReadMoves(w: World, script: Script, left: nat)
    requires left >= 1
    ensures var p := ReadCall(w, script, left);
      && SameFiles(w, p.world) && Moves(w, p.world, script, {}, {})
      && p.world == w.(access := p.world.access, own := p.world.own, pos := p.world.pos)
    decreases left, w
  {
    if (script(w.pos).fault == ResponseLost || script(w.pos).fault == Transient) && left > 1 {
      ReadMoves(Outside(w, script(w.pos)), script, left - 1);
    }
  }

  /** A grant that is not stopped leaves the access in place; if it was absent and nobody interfered, as ours. */
  lemma {:induction false} GrantMoves(w: World, f: FlavorId, script: Script, left: nat)
    requires left >= 1
    ensures var (v, r) := GrantCall(w, f, script, left);
      && SameFiles(w, v) && Moves(w, v, script, {f}, {})
      && (r == Accepted || r == Conflict || r == Stopped)
      && (r != Stopped ==> f in v.access)
    decreases left, w
  {
    var (w1, r) := GrantAttempt(w, f, script(w.pos));
    if r == Again && left > 1 {
      GrantMoves(w1, f, script, left - 1);
    }
  }

  lemma {:induction false} RevokeMoves(w: World, f: FlavorId, script: Script, left: nat)
    requires left >= 1
    ensures var (v, r) := RevokeCall(w, f, script, left);
      && SameFiles(w, v) && Moves(w, v, script, {}, {f})
      && (r == Accepted || r == NotFound || r == Stopped)
      && (r != Stopped ==> f !in v.access)
    decreases left, w
  {
    var (w1, r) := RevokeAttempt(w, f, script(w.pos));
    if r == Again && left > 1 {
      RevokeMoves(w1, f, script, left - 1);
    }
  }

  function Set(xs: seq<FlavorId>): set<FlavorId> {
    set x | x in xs
  }

  lemma MovesCompose(w: World, u: World, v: World, script: Script, a1: set<FlavorId>, t1: set<FlavorId>,
                     a2: set<FlavorId>, t2: set<FlavorId>, a: set<FlavorId>, t: set<FlavorId>)
    requires SameFiles(w, u) && Moves(w, u, script, a1, t1)
    requires SameFiles(u, v) && Moves(u, v, script, a2, t2)
    requires a1 <= a && a2 <= a && t1 <= t && t2 <= t
    ensures SameFiles(w, v) && Moves(w, v, script, a, t)
  {
    forall f | f in w.access && Spares(script, f) && f !in t ensures f in v.access {
      assert f in u.access;
    }
  }

  /** The grant loop: what is ours afterwards was ours before or is in the list about to be saved. */
  lemma {:induction false} GrantAllMoves(w: World, todo: seq<FlavorId>, desired: map<FlavorId, Cover>,
                                         added: seq<Grant>,
                                         now: Instant, script: Script)
    requires forall f :: f in todo ==> f in desired
    ensures var p := GrantAll(w, todo, desired, added, now, script);
      && SameFiles(w, p.world) && Moves(w, p.world, script, Set(todo), {})
      && (p.Going? ==>
            && p.world.own <= w.own + Ids(p.value)
            && Ids(added) <= Ids(p.value) <= Ids(added) + Set(todo))
    decreases |todo|
  {
    if todo != [] {
      var adds := Set(todo);
      ReadMoves(w, script, MAX_ATTEMPTS);
      var p := ReadCall(w, script, MAX_ATTEMPTS);
      if p.Going? {
        if todo[0] in p.world.access {
          GrantAllMoves(p.world, todo[1..], desired, added, now, script);
          var q := GrantAll(p.world, todo[1..], desired, added, now, script);
          MovesCompose(w, p.world, q.world, script, {}, {}, Set(todo[1..]), {}, adds, {});
        } else {
          GrantMoves(p.world, todo[0], script, MAX_ATTEMPTS);
          var (w2, r) := GrantCall(p.world, todo[0], script, MAX_ATTEMPTS);
          MovesCompose(w, p.world, w2, script, {}, {}, {todo[0]}, {}, adds, {});
          if r != Stopped {
            var g := NewGrant(todo[0], desired, now);
            assert Ids(added + [g]) == Ids(added) + {todo[0]} by {
              assert g in added + [g];
            }
            GrantAllMoves(w2, todo[1..], desired, added + [g], now, script);
            var q := GrantAll(w2, todo[1..], desired, added + [g], now, script);
            MovesCompose(w, w2, q.world, script, adds, {}, Set(todo[1..]), {}, adds, {});
          }
        }
      }
    }
  }

  lemma {:induction false} VerifyAllMoves(w: World, covered: seq<Grant>, script: Script)
    ensures var p := VerifyAll(w, covered, script);
      SameFiles(w, p.world) && Moves(w, p.world, script, Ids(covered), {})
    decreases |covered|
  {
    if covered != [] {
      var adds := Ids(covered);
      ReadMoves(w, script, MAX_ATTEMPTS);
      var p := ReadCall(w, script, MAX_ATTEMPTS);
      if p.Going? {
        var f := covered[0].flavorId;
        assert f in adds;
        assert Ids(covered[1..]) <= adds;
        if f in p.world.access {
          VerifyAllMoves(p.world, covered[1..], script);
          MovesCompose(w, p.world, VerifyAll(p.world, covered[1..], script).world, script,
                       {}, {}, Ids(covered[1..]), {}, adds, {});
        } else {
          GrantMoves(p.world, f, script, MAX_ATTEMPTS);
          var (w2, r) := GrantCall(p.world, f, script, MAX_ATTEMPTS);
          MovesCompose(w, p.world, w2, script, {}, {}, {f}, {}, adds, {});
          if r == Accepted {
            VerifyAllMoves(w2, covered[1..], script);
            MovesCompose(w, w2, VerifyAll(w2, covered[1..], script).world, script,
                         adds, {}, Ids(covered[1..]), {}, adds, {});
          }
        }
      }
    }
  }

  /** The revoke loop: once through, nothing it was given is ours any more. */
  lemma {:induction false} RevokeAllMoves(w: World, todo: seq<Grant>, why: Grant -> Reason, done: seq<Revocation>,
                                          now: Instant, script: Script)
    ensures var p := RevokeAll(w, todo, why, done, now, script);
      && SameFiles(w, p.world) && Moves(w, p.world, script, {}, Ids(todo))
      && (p.Going? && w.own <= w.access ==> p.world.own * Ids(todo) == {})
    decreases |todo|
  {
    if todo != [] {
      var f := todo[0].flavorId;
      var takes := Ids(todo);
      assert Ids(todo) == {f} + Ids(todo[1..]) by {
        forall g | g in todo ensures g == todo[0] || g in todo[1..] {}
      }
      RevokeMoves(w, f, script, MAX_ATTEMPTS);
      var (w1, r) := RevokeCall(w, f, script, MAX_ATTEMPTS);
      if r != Stopped {
        RevokeAllMoves(w1, todo[1..], why, done + [RevokedEntry(todo[0], now, why(todo[0]))], now, script);
        var q := RevokeAll(w1, todo[1..], why, done + [RevokedEntry(todo[0], now, why(todo[0]))], now, script);
        MovesCompose(w, w1, q.world, script, {}, {f}, {}, Ids(todo[1..]), {}, takes);
      }
    }
  }

  /** What the pre-check saw is never put on the list. */
  lemma {:induction false} GrantAllSkips(w: World, todo: seq<FlavorId>, desired: map<FlavorId, Cover>,
                                         added: seq<Grant>,
                                         now: Instant, script: Script, f: FlavorId)
    requires forall x :: x in todo ==> x in desired
    requires f in w.access && Spares(script, f) && f !in Ids(added)
    ensures var p := GrantAll(w, todo, desired, added, now, script);
      p.Going? ==> f !in Ids(p.value)
    decreases |todo|
  {
    if todo != [] {
      ReadMoves(w, script, MAX_ATTEMPTS);
      var p := ReadCall(w, script, MAX_ATTEMPTS);
      if p.Going? {
        if todo[0] in p.world.access {
          GrantAllSkips(p.world, todo[1..], desired, added, now, script, f);
        } else {
          GrantMoves(p.world, todo[0], script, MAX_ATTEMPTS);
          var (w2, r) := GrantCall(p.world, todo[0], script, MAX_ATTEMPTS);
          if r != Stopped {
            GrantAllSkips(w2, todo[1..], desired, added + [NewGrant(todo[0], desired, now)], now, script, f);
          }
        }
      }
    }
  }

  // ------------------------------------------------------------------ every exit of a run

  /** Access this tool created and the state file does not name: it would never be taken away. */
  function Leak(w: World): set<FlavorId> {
    w.own - Ids(w.granted)
  }

  /** What every exit keeps, whatever the script did. */
  ghost predicate Guarded(w: World, v: World, script: Script) {
    && v.strays <= w.strays
    && v.removed <= w.removed + Ids(w.granted)
    && w.ever <= v.ever
    && (Ids(w.granted) <= w.ever ==> Ids(v.granted) <= v.ever)
    && (w.own <= w.access ==> v.own <= v.access)
    && (forall f :: f in w.access && Spares(script, f) && f !in Ids(w.granted) ==>
          f in v.access && f !in Ids(v.granted))
  }

  lemma IdsConcat(a: seq<Grant>, b: seq<Grant>)
    ensures Ids(a + b) == Ids(a) + Ids(b)
  {
    assert forall g :: g in a + b <==> g in a || g in b;
  }

  lemma IdsSplit(tracked: seq<Grant>, desired: map<FlavorId, Cover>)
    ensures Ids(tracked) == Ids(CoveredGrants(tracked, desired)) + Ids(LapsedGrants(tracked, desired))
    ensures Ids(CoveredGrants(tracked, desired)) <= desired.Keys
    ensures Ids(LapsedGrants(tracked, desired)) !! desired.Keys
  {
    forall g | g in tracked
      ensures g in CoveredGrants(tracked, desired) || g in LapsedGrants(tracked, desired)
    {}
  }

  /** A save, or several, leaving the list as it was or as `final`. */
  ghost predicate Saves(w: World, v: World, script: Script, final: seq<Grant>) {
    && v.own <= w.own && v.removed == w.removed && v.strays == w.strays && v.requests == w.requests
    && ((v.granted == w.granted && v.ever == w.ever) || (v.granted == final && v.ever == w.ever + Ids(final)))
    && (w.own <= w.access ==> v.own <= v.access)
    && (forall f :: f in w.access && Spares(script, f) ==> f in v.access)
    && (Quiet(script) ==> v.access == w.access)
    && v.unmatched == w.unmatched
  }

  lemma SaveGrantedSaves(w: World, final: seq<Grant>, script: Script)
    ensures var p := SaveGranted(w, final, script);
      && Saves(w, p.world, script, final) && p.world.revoked == w.revoked
      && (p.Going? ==> p.world.granted == final)
  {}

  lemma PersistSaves(w: World, tracked: seq<Grant>, loaded: seq<Revocation>, final: seq<Grant>,
                     done: seq<Revocation>, script: Script)
    requires w.granted == final || final != tracked
    ensures var e := Persist(w, tracked, loaded, final, done, script);
      Saves(w, e.world, script, final) && (e.outcome == Completed ==> e.world.granted == final)
  {
    if final != tracked {
      SaveGrantedSaves(w, final, script);
    }
  }

  lemma NoIdsNoGrants(grants: seq<Grant>)
    ensures Ids(grants) == {} ==> grants == []
  {
    if grants != [] {
      assert grants[0] in grants;
    }
  }

  lemma NothingAdded(tracked: seq<Grant>, covered: seq<Grant>, added: seq<Grant>)
    requires covered + added == tracked && Ids(added) !! Ids(tracked)
    ensures added == [] && tracked + added == tracked
  {
    IdsConcat(covered, added);
    assert Ids(added) == Ids(added) * Ids(tracked);
    NoIdsNoGrants(added);
  }

  /** After the early persist: whatever happens, nothing new escapes the list. */
  lemma ClosingMoves(w: World, tracked: seq<Grant>, loaded: seq<Revocation>, desired: map<FlavorId, Cover>,
                     added: seq<Grant>, why: Grant -> Reason, now: Instant, script: Script)
    requires w.granted == tracked + added && Ids(added) !! Ids(tracked)
    ensures var e := Closing(w, tracked, loaded, desired, added, why, now, script);
      && e.world.strays <= w.strays
      && e.world.removed <= w.removed + Ids(tracked)
      && w.ever <= e.world.ever
      && (Ids(w.granted) <= w.ever ==> Ids(e.world.granted) <= e.world.ever)
      && (w.own <= w.access ==> e.world.own <= e.world.access)
      && (e.world.granted == w.granted || e.world.granted == CoveredGrants(tracked, desired) + added)
      && (w.own <= w.access ==> Leak(e.world) <= Leak(w))
      && (forall f :: f in w.access && Spares(script, f) && f !in Ids(tracked) ==> f in e.world.access)
      && (e.outcome == Completed ==> e.world.granted == CoveredGrants(tracked, desired) + added)
  {
    var covered, lapsed := CoveredGrants(tracked, desired), LapsedGrants(tracked, desired);
    IdsSplit(tracked, desired);
    IdsConcat(tracked, added);
    IdsConcat(covered, added);
    VerifyAllMoves(w, covered, script);
    var p1 := VerifyAll(w, covered, script);
    if p1.Going? {
      RevokeAllMoves(p1.world, lapsed, why, [], now, script);
      var p2 := RevokeAll(p1.world, lapsed, why, [], now, script);
      MovesCompose(w, p1.world, p2.world, script, Ids(covered), {}, {}, Ids(lapsed), Ids(covered), Ids(lapsed));
      if p2.Going? {
        if covered + added == tracked {
          NothingAdded(tracked, covered, added);
        }
        PersistSaves(p2.world, tracked, loaded, covered + added, p2.value, script);
      }
    }
  }

  lemma SurveyMoves(w: World, active: seq<Entry>, flavors: seq<Flavor>, matches: Matching, script: Script)
    ensures var p := Survey(w, active, flavors, matches, script);
      && p.world.granted == w.granted && p.world.revoked == w.revoked && p.world.ever == w.ever
      && Moves(w, p.world, script, {}, {})
      && p.world.requests == w.requests
  {
    if active != [] {
      ReadMoves(w, script, MAX_ATTEMPTS);
    }
  }

  /** The opening phase ends with the new grants on the list, or with the list untouched. */
  lemma OpeningMoves(w: World, desired: map<FlavorId, Cover>, now: Instant, script: Script)
    ensures var (p, stage) := Opening(w, w.granted, desired, now, script);
      && p.world.strays <= w.strays && p.world.removed <= w.removed
      && w.ever <= p.world.ever
      && (Ids(w.granted) <= w.ever ==> Ids(p.world.granted) <= p.world.ever)
      && (w.own <= w.access ==> p.world.own <= p.world.access)
      && (p.Going? ==> p.world.granted == w.granted + p.value && Ids(p.value) !! Ids(w.granted))
      && (p.world.granted == w.granted || Leak(p.world) <= Leak(w))
      && (p.Going? ==> Leak(p.world) <= Leak(w))
      && (forall f :: f in w.access && Spares(script, f) && f !in Ids(w.granted) ==>
            f in p.world.access && f !in Ids(p.world.granted))
      && p.world.own <= w.own + Set(ToGrant(w.granted, desired))
      && p.world.revoked == w.revoked && p.world.unmatched == w.unmatched
      && (p.Halted? ==> stage == Granting || stage == Recording)
  {
    var todo := ToGrant(w.granted, desired);
    GrantAllMoves(w, todo, desired, [], now, script);
    var p := GrantAll(w, todo, desired, [], now, script);
    forall f | f in w.access && Spares(script, f) && p.Going? ensures f !in Ids(p.value) {
      GrantAllSkips(w, todo, desired, [], now, script, f);
    }
    if p.Going? {
      IdsConcat(w.granted, p.value);
      if p.value == [] {
        assert w.granted + p.value == w.granted;
      } else {
        SaveGrantedSaves(p.world, w.granted + p.value, script);
      }
    }
  }

  lemma RunGuarded(w: World, reservations: seq<Entry>, flavors: seq<Flavor>, matches: Matching, now: Instant,
                   script: Script)
    ensures Guarded(w, Run(w, reservations, flavors, matches, now, script).world, script)
  {
    if reservations != [] || w.granted != [] {
      var active := Active(reservations, now);
      SurveyMoves(w, active, flavors, matches, script);
      var s := Survey(w, active, flavors, matches, script);
      if s.Going? {
        OpeningMoves(s.world, s.value, now, script);
        var (o, _) := Opening(s.world, w.granted, s.value, now, script);
        if o.Going? {
          ClosingMoves(o.world, w.granted, w.revoked, s.value, o.value,
                       (g: Grant) => ReasonFor(g, reservations), now, script);
          IdsConcat(w.granted, o.value);
          IdsConcat(CoveredGrants(w.granted, s.value), o.value);
          IdsSplit(w.granted, s.value);
        }
      }
    }
  }

  lemma TeardownGuarded(w: World, now: Instant, script: Script)
    ensures Guarded(w, Teardown(w, now, script).world, script)
  {
    if w.granted != [] {
      var why := (g: Grant) => ProjectTeardown;
      RevokeAllMoves(w, w.granted, why, [], now, script);
      var p := RevokeAll(w, w.granted, why, [], now, script);
      if p.Going? {
        PersistSaves(p.world, w.granted, w.revoked, [], p.value, script);
      }
    }
  }
}
