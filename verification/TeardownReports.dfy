/** What a teardown reports: which deletions, how often, and in which order (src/resources/teardown.py:237-377). */
module TeardownReports {
  import opened Common
  import opened Teardown
  import opened TeardownTheorems
  import opened TeardownLeftovers

  /** The place of a deletion in the order of dependencies; the project comes last. */
  function Place(a: Action): nat {
    match a
    case Project(_) => 6
    case Item(FloatingIp, _, _) => 0
    case Item(Snapshot, _, _) => 1
    case Item(Router, _, _) => 2
    case Item(Subnet, _, _) => 3
    case Item(Network, _, _) => 4
    case Item(SecurityGroup, _, _) => 5
  }

  /** One deletion is of an earlier place, or of another item of the same. */
  predicate Precedes(a: Action, b: Action) {
    Place(a) < Place(b) || (Place(a) == Place(b) && a.Item? && b.Item? && a.id != b.id)
  }

  ghost predicate InOrder(actions: seq<Action>) {
    forall i, j :: 0 <= i < j < |actions| ==> Precedes(actions[i], actions[j])
  }

  /** The deletion of something that was there and is not a default security group. */
  ghost predicate Concerns(w: World, a: Action) {
    a.Item? ==> exists r :: r in w.resources && r.Kind() == a.kind && r.id == a.id && r != Group(r.id, true)
  }

  lemma PlaceOf(kind: Kind, i: nat, id: Id, s: Status)
    requires i < 6 && STEPS[i] == kind
    ensures Place(Item(kind, id, s)) == i
  {}

  lemma {:induction false} ItemsReport(w: World, items: seq<Resource>, actions: seq<Action>, script: Script, n: nat)
    requires InOrder(actions) && UniqueIds(items)
    requires n < 6 && forall r :: r in items ==> r.Kind() == STEPS[n]
    requires forall a :: (a in actions ==>
      Place(a) < n || (a.Item? && Place(a) == n && forall r :: r in items ==> r.id != a.id))
    ensures var p := DeleteItems(w, items, actions, script);
      && InOrder(p.actions)
      && forall a :: a in p.actions ==> Place(a) <= n && (a in actions || Concerns(World(items, false, 0), a))
    decreases items
  {
    hide DeleteItem, Place;
    if items != [] {
      var r, rest := items[0], items[1..];
      assert UniqueIds(rest);
      if Skipped(r) {
        ItemsReport(w, rest, actions, script, n);
      } else {
        var d := DeleteItem(w, r.Kind(), r.id, script);
        var item := Item(r.Kind(), r.id, StatusOf(d.answer));
        PlaceOf(r.Kind(), n, r.id, StatusOf(d.answer));
        assert forall i :: 0 <= i < |rest| ==> rest[i] == items[i + 1];
        Appended(actions, item, items);
        ItemsReport(d.w, rest, actions + [item], script, n);
      }
    }
  }

  lemma Appended(actions: seq<Action>, item: Action, items: seq<Resource>)
    requires InOrder(actions) && forall a :: a in actions ==> Precedes(a, item)
    ensures InOrder(actions + [item])
    ensures forall a :: a in actions + [item] <==> a in actions || a == item
  {
    assert forall i :: 0 <= i < |actions| ==> actions[i] in actions;
  }

  lemma StepReports(w: World, actions: seq<Action>, script: Script, n: nat)
    requires InOrder(actions) && UniqueIds(w.resources) && n < 6
    requires forall a :: a in actions ==> Place(a) < n
    ensures var p := StepOf(w, STEPS[n], actions, script);
      && InOrder(p.actions)
      && forall a :: a in p.actions ==> Place(a) < n + 1 && (a in actions || Concerns(w, a))
  {
    hide DeleteItems, ListCall, Place;
    var items := OfKind(w.resources, STEPS[n]);
    ListKeeps(w, items, MAX_ATTEMPTS, script);
    OfKindUnique(w.resources, STEPS[n]);
    var l := ListCall(w, items, MAX_ATTEMPTS, script);
    if l.result.Listed? {
      ItemsReport(l.w, items, actions, script, n);
      forall a | Concerns(World(items, false, 0), a) ensures Concerns(w, a) {}
    }
  }

  lemma {:induction false} StepsReport(w: World, actions: seq<Action>, script: Script, n: nat)
    requires InOrder(actions) && UniqueIds(w.resources) && n <= 6
    requires forall a :: a in actions ==> Place(a) < n
    ensures var p := StepsOf(w, STEPS[n..], actions, script);
      && InOrder(p.actions)
      && forall a :: a in p.actions ==> Place(a) < 6 && (a in actions || Concerns(w, a))
    decreases 6 - n
  {
    hide StepOf, Place, InOrder, UniqueIds;
    if n < 6 {
      assert STEPS[n..][1..] == STEPS[n + 1..];
      StepReports(w, actions, script, n);
      var p := StepOf(w, STEPS[n], actions, script);
      StepKeeps(w, STEPS[n], actions, script);
      if p.going {
        StepsReport(p.w, p.actions, script, n + 1);
        StepWithin(w, STEPS[n], script, actions);
      }
    }
  }

  /** What was there after a step was there before it. */
  lemma StepWithin(w: World, kind: Kind, script: Script, actions: seq<Action>)
    ensures forall a :: Concerns(StepOf(w, kind, actions, script).w, a) ==> Concerns(w, a)
  {
    var v := StepOf(w, kind, actions, script).w;
    assert Within(v, w) by {
      StepKeeps(w, kind, actions, script);
    }
    hide StepOf;
    forall a | Concerns(v, a) ensures Concerns(w, a) {
      if a.Item? {
        var r :| r in v.resources && r.Kind() == a.kind && r.id == a.id && r != Group(r.id, true);
        var s :| s in w.resources && SameItem(r, s);
      }
    }
  }

  /**
   Whatever fails, and wherever it ends, a teardown attempts only what was there, default security groups aside,
   each item once, in the order of dependencies; the project is attempted once, at the end, or not at all.
   */
  lemma AttemptsAreInOrder(w: World, script: Script)
    requires UniqueIds(w.resources)
    ensures var t := TeardownOf(w, script);
      && InOrder(t.actions)
      && (forall a :: a in t.actions ==> Concerns(w, a))
      && (t.outcome != Aborted <==> exists s :: Project(s) in t.actions)
  {
    hide StepsOf, Call, UniqueIds, AnyFailed;
    StepsReport(w, [], script, 0);
    hide InOrder;
    assert STEPS[0..] == STEPS;
    var p := StepsOf(w, STEPS, [], script);
    if p.going {
      var last := Project(StatusOf(Call(p.w, DeleteProject, MAX_ATTEMPTS, script).answer));
      ProjectIsLast(p.actions, last);
      assert last in TeardownOf(w, script).actions;
    }
  }

  lemma ProjectIsLast(actions: seq<Action>, last: Action)
    requires InOrder(actions) && last.Project? && forall a :: a in actions ==> Place(a) < 6
    ensures InOrder(actions + [last])
    ensures forall a :: a in actions + [last] <==> a in actions || a == last
  {
    Appended(actions, last, []);
  }

  // ---------- A router that is prepared ----------

  lemma {:induction false} ClearsGateway(w: World, router: Id, left: nat, script: Script)
    ensures var r := Call(w, ClearGateway(router), left, script);
      r.answer == Done ==> forall g :: g in r.w.resources && g.Gate? && g.id == router ==> !g.gateway
    decreases left
  {
    hide Exists;
    if left > 0 {
      var w1 := w.(clock := w.clock + 1);
      var v := Apply(w1, ClearGateway(router)).w;
      ClearedShape(w.resources, router);
      match script(w.clock)
      case Busy => ClearsGateway(w1, router, left - 1, script);
      case Lost => ClearsGateway(v, router, left - 1, script);
      case _ =>
    }
  }

  lemma {:induction false} DetachesAll(w: World, router: Id, subnets: seq<Id>, script: Script)
    requires UniqueIds(w.resources) && HasRouter(w.resources, router)
    requires multiset(Attached(w.resources, router)) <= multiset(subnets)
    ensures var r := DetachAll(w, router, subnets, script);
      r.answer == Done ==> Attached(r.w.resources, router) == []
    decreases |subnets|
  {
    hide UniqueIds, HasRouter, Attached, Call, Losses, AfterCall;
    var attached := Attached(w.resources, router);
    if subnets == [] {
      assert |multiset(attached)| == |attached|;
    } else {
      assert subnets == [subnets[0]] + subnets[1..];
      DetachTakes(w, router, subnets[0], MAX_ATTEMPTS, script);
      var r := Call(w, Detach(router, subnets[0]), MAX_ATTEMPTS, script);
      if r.answer == Done {
        DetachesAll(r.w, router, subnets[1..], script);
      }
    }
  }

  /** A router whose preparation succeeds has no interface and no gateway left. */
  lemma PreparedIsBare(w: World, router: Id, script: Script)
    requires UniqueIds(w.resources) && HasRouter(w.resources, router)
    ensures var r := PrepareRouter(w, router, script);
      r.answer == Done ==>
        && Attached(r.w.resources, router) == []
        && forall g :: g in r.w.resources && g.Gate? && g.id == router ==> !g.gateway
  {
    hide UniqueIds, HasRouter, Attached, Call, ListCall, DetachAll;
    var subnets := Attached(w.resources, router);
    ListKeeps(w, subnets, MAX_ATTEMPTS, script);
    var l := ListCall(w, subnets, MAX_ATTEMPTS, script);
    if l.result.Listed? {
      DetachesAll(l.w, router, l.result.items, script);
      var d := DetachAll(l.w, router, l.result.items, script);
      DetachAllRepeats(l.w, router, l.result.items, script);
      ClearStays(d.w, router, MAX_ATTEMPTS, script);
      ClearsGateway(d.w, router, MAX_ATTEMPTS, script);
    }
  }
}
