/** What a teardown that raises nothing leaves behind (src/resources/teardown.py:337-377). */
module TeardownLeftovers {
  import opened Common
  import opened Teardown
  import opened TeardownTheorems

  /** The first reply that counts says that the service is not there. */
  predicate AbsentAt(script: Script, clock: nat, left: nat)
    decreases left
  {
    left > 0
    && match script(clock)
       case NoEndpoint => true
       case Busy => AbsentAt(script, clock + 1, left - 1)
       case Lost => AbsentAt(script, clock + 1, left - 1)
       case _ => false
  }

  lemma {:induction false} ListAbsent<T>(w: World, items: seq<T>, left: nat, script: Script)
    ensures ListCall(w, items, left, script).result.ServiceAbsent? <==> AbsentAt(script, w.clock, left)
    decreases left
  {
    if left > 0 && (script(w.clock).Busy? || script(w.clock).Lost?) {
      ListAbsent(w.(clock := w.clock + 1), items, left - 1, script);
    }
  }

  /** The routers among the items whose deletion is reported while they stay. */
  function KeptRouters(w: World, items: seq<Resource>, script: Script): (kept: set<Id>)
    ensures forall id :: id in kept ==> exists r :: r in items && !Skipped(r) && r.id == id
    decreases items
  {
    if items == [] then {}
    else if Skipped(items[0]) then KeptRouters(w, items[1..], script)
    else
      var kind, id := items[0].Kind(), items[0].id;
      var rest := KeptRouters(DeleteItem(w, kind, id, script).w, items[1..], script);
      if kind == Router && DetachesTwice(w, id, script) then {id} + rest else rest
  }

  predicate Among(items: seq<Resource>, id: Id) {
    exists r :: r in items && !Skipped(r) && r.id == id
  }

  /** These items are what is there of one kind. */
  ghost predicate Items(w: World, items: seq<Resource>, kind: Kind) {
    && UniqueIds(w.resources) && UniqueIds(items)
    && forall r :: r in items ==> r.Kind() == kind && (!Skipped(r) ==> Alive(w, kind, r.id))
  }

  lemma ItemsTail(w: World, items: seq<Resource>, kind: Kind, script: Script)
    requires items != [] && Items(w, items, kind)
    ensures Skipped(items[0]) ==> Items(w, items[1..], kind)
    ensures !Skipped(items[0]) ==> Items(DeleteItem(w, kind, items[0].id, script).w, items[1..], kind)
    ensures !Skipped(items[0]) ==> !Among(items[1..], items[0].id)
    ensures forall id :: Among(items, id) <==> (!Skipped(items[0]) && items[0].id == id) || Among(items[1..], id)
  {
    hide DeleteItem, Alive;
    var rest := items[1..];
    assert forall i :: 0 <= i < |rest| ==> rest[i] == items[i + 1];
    assert items[0] in items;
    ItemKeeps(w, kind, items[0].id, script, (k: Kind) => true);
    forall r | r in rest ensures r.id != items[0].id && r in items {
      var i :| 0 <= i < |rest| && rest[i] == r;
      assert items[i + 1] == r && items[0].Kind() == kind && r.Kind() == kind;
    }
    if !Skipped(items[0]) {
      forall r | r in rest && !Skipped(r) ensures Alive(DeleteItem(w, kind, items[0].id, script).w, kind, r.id) {
        OtherStays(w, kind, items[0].id, r.id, script);
      }
    }
    assert forall r :: r in items <==> r == items[0] || r in rest;
  }

  /** One item of them, deleted without a failure. */
  lemma ItemLeaves(w: World, kind: Kind, item: Id, id: Id, script: Script)
    requires UniqueIds(w.resources) && Alive(w, kind, item)
    requires StatusOf(DeleteItem(w, kind, item, script).answer) == Deleted
    ensures Alive(DeleteItem(w, kind, item, script).w, kind, id)
      <==> Alive(w, kind, id) && (item == id ==> kind == Router && DetachesTwice(w, id, script))
  {
    hide DeleteItem, Alive, DetachesTwice, UniqueIds;
    if item == id {
      ReportedButKept(w, kind, id, script);
    } else {
      ItemKeeps(w, kind, item, script, (k: Kind) => true);
      GoneStaysGone(w, DeleteItem(w, kind, item, script).w, kind, id);
      if Alive(w, kind, id) {
        OtherStays(w, kind, item, id, script);
      }
    }
  }

  /** Deleting them one after the other without a failure leaves the kept routers, and what is not among them. */
  lemma {:induction false} ItemsLeave(w: World, items: seq<Resource>, actions: seq<Action>, script: Script, kind: Kind,
                                      id: Id)
    requires Items(w, items, kind) && !AnyFailed(DeleteItems(w, items, actions, script).actions)
    ensures Alive(DeleteItems(w, items, actions, script).w, kind, id)
      <==> Alive(w, kind, id) && (Among(items, id) ==> id in KeptRouters(w, items, script))
    decreases items
  {
    hide DeleteItem, Alive, DetachesTwice, Items, Among;
    if items == [] {
      NoneAmong(id);
    } else {
      ItemsTail(w, items, kind, script);
      if Skipped(items[0]) {
        ItemsLeave(w, items[1..], actions, script, kind, id);
      } else {
        HeadItem(w, items, kind);
        var d := DeleteItem(w, kind, items[0].id, script);
        var grown := actions + [Item(kind, items[0].id, StatusOf(d.answer))];
        ActionsGrow(d.w, items[1..], grown, script);
        NoFailures(grown, DeleteItems(d.w, items[1..], grown, script).actions);
        assert grown[|actions|] in grown;
        ItemLeaves(w, kind, items[0].id, id, script);
        ItemsLeave(d.w, items[1..], grown, script, kind, id);
        KeptAmong(d.w, items[1..], script, id);
      }
    }
  }

  lemma NoneAmong(id: Id)
    ensures !Among([], id)
  {}

  lemma KeptAmong(w: World, items: seq<Resource>, script: Script, id: Id)
    ensures id in KeptRouters(w, items, script) ==> Among(items, id)
  {
    hide KeptRouters;
  }

  lemma HeadItem(w: World, items: seq<Resource>, kind: Kind)
    requires items != [] && Items(w, items, kind)
    ensures UniqueIds(w.resources) && items[0].Kind() == kind && (!Skipped(items[0]) ==> Alive(w, kind, items[0].id))
  {
    assert items[0] in items;
  }

  /** The step for its kind leaves this one: the service is absent, or it is a router kept. */
  predicate LeftByStep(w: World, kind: Kind, script: Script, id: Id) {
    var items := OfKind(w.resources, kind);
    || AbsentAt(script, w.clock, MAX_ATTEMPTS)
    || id in KeptRouters(ListCall(w, items, MAX_ATTEMPTS, script).w, items, script)
  }

  lemma StepLeaves(w: World, kind: Kind, actions: seq<Action>, script: Script, id: Id)
    requires UniqueIds(w.resources)
    requires var p := StepOf(w, kind, actions, script); p.going && !AnyFailed(p.actions)
    ensures Alive(StepOf(w, kind, actions, script).w, kind, id)
      <==> Alive(w, kind, id) && LeftByStep(w, kind, script, id)
  {
    hide DeleteItems, ListCall, KeptRouters, Items, AbsentAt;
    var items := OfKind(w.resources, kind);
    ListKeeps(w, items, MAX_ATTEMPTS, script);
    ListAbsent(w, items, MAX_ATTEMPTS, script);
    var l := ListCall(w, items, MAX_ATTEMPTS, script);
    AliveClock(w, l.w.clock, kind, id);
    if l.result.Listed? {
      ListedItems(w, l.w.clock, kind, id);
      ItemsLeave(l.w, items, actions, script, kind, id);
    }
  }

  lemma ListedItems(w: World, clock: nat, kind: Kind, id: Id)
    requires UniqueIds(w.resources)
    ensures Items(w.(clock := clock), OfKind(w.resources, kind), kind)
    ensures Alive(w, kind, id) <==> Among(OfKind(w.resources, kind), id)
  {
    OfKindUnique(w.resources, kind);
    forall r | r in w.resources && r.Kind() == kind && r.id == id && !Skipped(r)
      ensures r in OfKind(w.resources, kind)
    {}
  }

  /** When the steps come to its kind, this one is left. */
  predicate LeftBehind(w: World, kinds: seq<Kind>, actions: seq<Action>, script: Script, kind: Kind, id: Id)
    decreases kinds
  {
    kinds != []
    && if kinds[0] == kind then LeftByStep(w, kind, script, id)
       else
         var p := StepOf(w, kinds[0], actions, script);
         LeftBehind(p.w, kinds[1..], p.actions, script, kind, id)
  }

  lemma {:induction false} StepsLeave(w: World, kinds: seq<Kind>, actions: seq<Action>, script: Script, kind: Kind,
                                      id: Id)
    requires UniqueIds(w.resources) && NoDup(kinds)
    requires var p := StepsOf(w, kinds, actions, script); p.going && !AnyFailed(p.actions)
    ensures Alive(StepsOf(w, kinds, actions, script).w, kind, id)
      <==> Alive(w, kind, id) && (kind in kinds ==> LeftBehind(w, kinds, actions, script, kind, id))
    decreases kinds
  {
    hide StepOf, Alive, UniqueIds, AnyFailed, LeftByStep;
    if kinds != [] {
      var p := StepOf(w, kinds[0], actions, script);
      var q := StepsOf(p.w, kinds[1..], p.actions, script);
      StepKeeps(w, kinds[0], actions, script);
      StepsGrow(p.w, kinds[1..], p.actions, script);
      NoFailures(p.actions, q.actions);
      assert forall i :: 0 <= i < |kinds| - 1 ==> kinds[1..][i] == kinds[i + 1];
      StepsLeave(p.w, kinds[1..], p.actions, script, kind, id);
      if kinds[0] == kind {
        StepLeaves(w, kind, actions, script, id);
      } else {
        GoneStaysGone(w, p.w, kind, id);
      }
    }
  }

  /**
   What a teardown that raises nothing leaves, under any script: of what was there, exactly what its step left,
   because the service was absent at the listing, or because it is a router whose detachment was repeated after
   its response was lost. The project is deleted all the same.
   */
  lemma CompletedLeaves(w: World, script: Script, kind: Kind, id: Id)
    requires UniqueIds(w.resources) && TeardownOf(w, script).outcome == Completed
    ensures var v := TeardownOf(w, script).w;
      && !v.project
      && (Alive(v, kind, id) <==> Alive(w, kind, id) && LeftBehind(w, STEPS, [], script, kind, id))
  {
    hide StepsOf, Call, UniqueIds, AnyFailed, LeftBehind;
    var p := StepsOf(w, STEPS, [], script);
    var r := Call(p.w, DeleteProject, MAX_ATTEMPTS, script);
    var last := Project(StatusOf(r.answer));
    NoFailures(p.actions, p.actions + [last]);
    LastFailed(p.actions, last);
    ProjectCall(p.w, MAX_ATTEMPTS, script);
    StepsLeave(w, STEPS, [], script, kind, id);
    InSteps(kind);
    assert Alive(r.w, kind, id) <==> Alive(p.w, kind, id);
  }

  /** The network service is absent at the listing of networks alone: the network stays, the project goes. */
  lemma AbsentExample(script: Script)
    requires forall n: nat :: script(n) == if n == 4 then NoEndpoint else Fine
    ensures var t := TeardownOf(World([Net("n")], true, 0), script);
      t.outcome == Completed && !t.w.project && Alive(t.w, Network, "n")
  {
    var w := World([Net("n")], true, 0);
    hide StepsOf, AnyFailed, StepOf, Call, Apply, Alive, TeardownOf;
    forall i | 0 <= i < 6
      ensures StepOf(w.(clock := i), STEPS[i], [], script) == Progress(w.(clock := i + 1), [], true)
    {
      QuietStep(w, i, script);
    }
    QuietSteps(w, script);
    FineCall(w.(clock := 6), DeleteProject, script);
    ProjectGoes(w.(clock := 7));
    NothingFailed(w, w.(clock := 6), w.(clock := 7, project := false), script);
    NetAlive(w.(clock := 7, project := false));
  }

  lemma NothingFailed(w: World, u: World, v: World, script: Script)
    requires StepsOf(w, STEPS, [], script) == Progress(u, [], true)
    requires Call(u, DeleteProject, MAX_ATTEMPTS, script) == Reply(v, Done)
    ensures TeardownOf(w, script) == Torn(v, [Project(Deleted)], Completed)
  {
    hide StepsOf, Call, AnyFailed;
    OneDeleted([Project(Deleted)]);
    var none: seq<Action> := [];
    assert none + [Project(Deleted)] == [Project(Deleted)];
  }

  lemma QuietStep(w: World, i: nat, script: Script)
    requires w.resources == [Net("n")] && i < 6 && script(i) == if i == 4 then NoEndpoint else Fine
    ensures StepOf(w.(clock := i), STEPS[i], [], script) == Progress(w.(clock := i + 1), [], true)
  {
    hide StepOf;
    if i == 4 {
      AbsentStep(w.(clock := i), STEPS[i], [], script);
    } else {
      assert NoneOf(w.(clock := i), STEPS[i]);
      EmptyStep(w.(clock := i), STEPS[i], [], script);
    }
  }

  lemma NetAlive(w: World)
    requires w.resources == [Net("n")]
    ensures Alive(w, Network, "n")
  {
    assert w.resources[0] in w.resources;
  }

  /** Six steps that take one slot each and do nothing. */
  lemma QuietSteps(w: World, script: Script)
    requires w.clock == 0
    requires forall i :: (0 <= i < 6 ==>
      StepOf(w.(clock := i), STEPS[i], [], script) == Progress(w.(clock := i + 1), [], true))
    ensures StepsOf(w, STEPS, [], script) == Progress(w.(clock := 6), [], true)
  {
    hide StepOf, StepsOf;
    QuietFrom(w, 0, script);
    assert STEPS[0..] == STEPS;
  }

  lemma {:induction false} QuietFrom(w: World, i: nat, script: Script)
    requires i <= 6 && w.clock == 0
    requires forall k :: (0 <= k < 6 ==>
      StepOf(w.(clock := k), STEPS[k], [], script) == Progress(w.(clock := k + 1), [], true))
    ensures StepsOf(w.(clock := i), STEPS[i..], [], script) == Progress(w.(clock := 6), [], true)
    decreases 6 - i
  {
    hide StepOf;
    if i < 6 {
      QuietFrom(w, i + 1, script);
      assert STEPS[i..][1..] == STEPS[i + 1..];
    }
  }

  lemma AbsentStep(w: World, kind: Kind, actions: seq<Action>, script: Script)
    requires script(w.clock) == NoEndpoint
    ensures StepOf(w, kind, actions, script) == Progress(w.(clock := w.clock + 1), actions, true)
  {}

  // ---------- Default security groups ----------

  lemma ApplyStays(w: World, op: Op, g: Resource)
    requires g in w.resources && g.Group? && op != Delete(SecurityGroup, g.id)
    ensures g in Apply(w, op).w.resources
  {
    var i :| 0 <= i < |w.resources| && w.resources[i] == g;
    match op
    case Detach(router, subnet) =>
      DetachedShape(w.resources, router, subnet);
      assert Detached(w.resources, router, subnet)[i] == g;
    case ClearGateway(router) =>
      ClearedShape(w.resources, router);
      assert Cleared(w.resources, router)[i] == g;
    case _ =>
  }

  lemma {:induction false} CallStays(w: World, op: Op, left: nat, script: Script, g: Resource)
    requires g in w.resources && g.Group? && op != Delete(SecurityGroup, g.id)
    ensures g in Call(w, op, left, script).w.resources
    decreases left
  {
    hide Apply;
    if left > 0 {
      var w1 := w.(clock := w.clock + 1);
      ApplyStays(w1, op, g);
      match script(w.clock)
      case Busy => CallStays(w1, op, left - 1, script, g);
      case Lost => CallStays(Apply(w1, op).w, op, left - 1, script, g);
      case _ =>
    }
  }

  lemma {:induction false} DetachAllStays(w: World, router: Id, subnets: seq<Id>, script: Script, g: Resource)
    requires g in w.resources && g.Group?
    ensures g in DetachAll(w, router, subnets, script).w.resources
    decreases subnets
  {
    hide Call;
    if subnets != [] {
      CallStays(w, Detach(router, subnets[0]), MAX_ATTEMPTS, script, g);
      DetachAllStays(Call(w, Detach(router, subnets[0]), MAX_ATTEMPTS, script).w, router, subnets[1..], script, g);
    }
  }

  lemma ItemStays(w: World, kind: Kind, id: Id, script: Script, g: Resource)
    requires g in w.resources && g.Group? && (kind == SecurityGroup ==> id != g.id)
    ensures g in DeleteItem(w, kind, id, script).w.resources
  {
    hide Call, ListCall, DetachAll, Attached;
    var subnets := Attached(w.resources, id);
    ListKeeps(w, subnets, MAX_ATTEMPTS, script);
    var l := ListCall(w, subnets, MAX_ATTEMPTS, script);
    if kind == Router && l.result.Listed? {
      DetachAllStays(l.w, id, l.result.items, script, g);
      CallStays(DetachAll(l.w, id, l.result.items, script).w, ClearGateway(id), MAX_ATTEMPTS, script, g);
    }
    CallStays(Prepare(w, kind, id, script).w, Delete(kind, id), MAX_ATTEMPTS, script, g);
  }

  lemma {:induction false} ItemsStay(w: World, items: seq<Resource>, actions: seq<Action>, script: Script, g: Resource)
    requires g in w.resources && g == Group(g.id, true)
    requires forall r :: r in items && r.Group? && r.id == g.id ==> r == g
    ensures g in DeleteItems(w, items, actions, script).w.resources
    decreases items
  {
    hide DeleteItem;
    if items != [] {
      var r := items[0];
      if Skipped(r) {
        ItemsStay(w, items[1..], actions, script, g);
      } else {
        ItemStays(w, r.Kind(), r.id, script, g);
        var d := DeleteItem(w, r.Kind(), r.id, script);
        ItemsStay(d.w, items[1..], actions + [Item(r.Kind(), r.id, StatusOf(d.answer))], script, g);
      }
    }
  }

  lemma {:induction false} StepsStay(w: World, kinds: seq<Kind>, actions: seq<Action>, script: Script, g: Resource)
    requires g in w.resources && g == Group(g.id, true) && UniqueIds(w.resources)
    ensures g in StepsOf(w, kinds, actions, script).w.resources
    decreases kinds
  {
    hide DeleteItems, ListCall;
    if kinds != [] {
      var items := OfKind(w.resources, kinds[0]);
      ListKeeps(w, items, MAX_ATTEMPTS, script);
      var l := ListCall(w, items, MAX_ATTEMPTS, script);
      if l.result.Listed? {
        ItemsStay(l.w, items, actions, script, g);
      }
      StepKeeps(w, kinds[0], actions, script);
      var p := StepOf(w, kinds[0], actions, script);
      StepsStay(p.w, kinds[1..], p.actions, script, g);
    }
  }

  /** Default security groups are there after every teardown, however it ends. */
  lemma DefaultGroupsStay(w: World, script: Script, id: Id)
    requires UniqueIds(w.resources)
    ensures Group(id, true) in w.resources <==> Group(id, true) in TeardownOf(w, script).w.resources
  {
    hide StepsOf, Call, UniqueIds, AnyFailed;
    var g := Group(id, true);
    var p := StepsOf(w, STEPS, [], script);
    StepsGrow(w, STEPS, [], script);
    ProjectCall(p.w, MAX_ATTEMPTS, script);
    if g in w.resources {
      StepsStay(w, STEPS, [], script, g);
    }
    if g in p.w.resources {
      var s :| s in w.resources && SameItem(g, s);
      assert s == g;
    }
  }
}
