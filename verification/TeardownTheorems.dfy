/** What a teardown guarantees, with and without faults. */
module TeardownTheorems {
  import opened Common
  import opened Teardown

  // ---------- What a call can change ----------

  predicate SameItem(r: Resource, s: Resource) {
    r.Kind() == s.Kind() && r.id == s.id && (Skipped(r) <==> Skipped(s))
  }

  /** A resource that is to be deleted and is still there. */
  predicate Alive(w: World, kind: Kind, id: Id) {
    exists r :: r in w.resources && r.Kind() == kind && r.id == id && !Skipped(r)
  }

  predicate UniqueIds(rs: seq<Resource>) {
    forall i, j :: 0 <= i < j < |rs| ==> rs[i].Kind() != rs[j].Kind() || rs[i].id != rs[j].id
  }

  /** Nothing new has come up. */
  ghost predicate Within(v: World, w: World) {
    forall r :: r in v.resources ==> exists s :: s in w.resources && SameItem(r, s)
  }

  /** Detaching and clearing change single routers only, position by position. */
  lemma {:induction false} DetachedShape(rs: seq<Resource>, router: Id, subnet: Id)
    ensures var d := Detached(rs, router, subnet);
      |d| == |rs| && forall i :: 0 <= i < |rs| ==>
        d[i] == (if rs[i].Gate? && rs[i].id == router
                 then rs[i].(attached := DropFirst(rs[i].attached, subnet)) else rs[i])
  {
    if rs != [] {
      DetachedShape(rs[1..], router, subnet);
    }
  }

  lemma {:induction false} ClearedShape(rs: seq<Resource>, router: Id)
    ensures var d := Cleared(rs, router);
      |d| == |rs| && forall i :: 0 <= i < |rs| ==>
        d[i] == if rs[i].Gate? && rs[i].id == router then rs[i].(gateway := false) else rs[i]
  {
    if rs != [] {
      ClearedShape(rs[1..], router);
    }
  }

  ghost predicate SameShape(rs: seq<Resource>, qs: seq<Resource>) {
    && |rs| == |qs|
    && forall i :: 0 <= i < |rs| ==> SameItem(rs[i], qs[i])
  }

  predicate Deletes(op: Op, kind: Kind, id: Id) {
    op == Delete(kind, id)
  }

  lemma ShapeKeeps(rs: seq<Resource>, qs: seq<Resource>)
    requires SameShape(rs, qs)
    ensures UniqueIds(rs) ==> UniqueIds(qs)
    ensures forall q :: q in qs ==> exists r :: r in rs && SameItem(q, r)
    ensures forall r :: r in rs ==> exists q :: q in qs && SameItem(q, r)
  {
    forall q | q in qs ensures exists r :: r in rs && SameItem(q, r) {
      var i :| 0 <= i < |qs| && qs[i] == q;
      assert rs[i] in rs && SameItem(q, rs[i]);
    }
    forall r | r in rs ensures exists q :: q in qs && SameItem(q, r) {
      var i :| 0 <= i < |rs| && rs[i] == r;
      assert qs[i] in qs && SameItem(qs[i], r);
    }
  }

  lemma {:induction false} WithoutUnique(rs: seq<Resource>, kind: Kind, id: Id)
    requires UniqueIds(rs)
    ensures UniqueIds(Without(rs, kind, id))
  {
    if rs != [] {
      WithoutUnique(rs[1..], kind, id);
      var rest := Without(rs[1..], kind, id);
      forall j | 0 <= j < |rest| ensures rest[j].Kind() != rs[0].Kind() || rest[j].id != rs[0].id {
        assert rest[j] in rest;
        assert rest[j] in rs[1..];
      }
      WithoutStep(rs, kind, id);
    }
  }

  lemma WithoutStep(rs: seq<Resource>, kind: Kind, id: Id)
    requires rs != []
    ensures Without(rs, kind, id) ==
      (if rs[0].Kind() == kind && rs[0].id == id then [] else [rs[0]]) + Without(rs[1..], kind, id)
  {
    var keep := (r: Resource) => !(r.Kind() == kind && r.id == id);
    FilterSame(rs[1..], keep, (r: Resource) => !(r.Kind() == kind && r.id == id));
  }

  /** One application of an operation keeps the world well formed, adds nothing and deletes nothing else. */
  lemma ApplyKeeps(w: World, op: Op)
    ensures var v := Apply(w, op).w;
      && (UniqueIds(w.resources) ==> UniqueIds(v.resources))
      && Within(v, w)
      && (forall kind, id :: Alive(w, kind, id) && !Deletes(op, kind, id) ==> Alive(v, kind, id))
  {
    var v := Apply(w, op).w;
    match op
    case Delete(kind, id) =>
      if v != w {
        if UniqueIds(w.resources) {
          WithoutUnique(w.resources, kind, id);
        }
      }
    case Detach(router, subnet) =>
      if v != w {
        DetachedShape(w.resources, router, subnet);
        DetachKeeps(w, router, subnet);
      }
    case ClearGateway(router) =>
      if v != w {
        ClearKeeps(w, router);
      }
    case DeleteProject =>
  }

  /** A change position by position that keeps what every item is. */
  lemma MappedKeeps(w: World, qs: seq<Resource>)
    requires SameShape(w.resources, qs)
    ensures var v := w.(resources := qs);
      && (UniqueIds(w.resources) ==> UniqueIds(v.resources)) && Within(v, w)
      && (forall kind, id :: Alive(w, kind, id) ==> Alive(v, kind, id))
  {
    ShapeKeeps(w.resources, qs);
  }

  lemma DetachKeeps(w: World, router: Id, subnet: Id)
    ensures var v := w.(resources := Detached(w.resources, router, subnet));
      && (UniqueIds(w.resources) ==> UniqueIds(v.resources)) && Within(v, w)
      && (forall kind, id :: Alive(w, kind, id) ==> Alive(v, kind, id))
  {
    hide UniqueIds, Within, Alive, DropFirst, Detached;
    DetachedShape(w.resources, router, subnet);
    MappedKeeps(w, Detached(w.resources, router, subnet));
  }

  lemma ClearKeeps(w: World, router: Id)
    ensures var v := w.(resources := Cleared(w.resources, router));
      && (UniqueIds(w.resources) ==> UniqueIds(v.resources)) && Within(v, w)
      && (forall kind, id :: Alive(w, kind, id) ==> Alive(v, kind, id))
  {
    hide UniqueIds, Within, Alive, Cleared;
    ClearedShape(w.resources, router);
    MappedKeeps(w, Cleared(w.resources, router));
  }

  // ---------- Calls ----------

  lemma {:induction false} WithinTrans(u: World, v: World, w: World)
    requires Within(u, v) && Within(v, w)
    ensures Within(u, w)
  {
    forall r | r in u.resources ensures exists s :: s in w.resources && SameItem(r, s) {
      var q :| q in v.resources && SameItem(r, q);
      var s :| s in w.resources && SameItem(q, s);
    }
  }

  /** What every part of a teardown keeps; only items of the kind being torn down may go. */
  ghost predicate Keeps(w: World, v: World, doomed: Kind -> bool) {
    && (UniqueIds(w.resources) ==> UniqueIds(v.resources))
    && Within(v, w)
    && (forall kind, id :: Alive(w, kind, id) && !doomed(kind) ==> Alive(v, kind, id))
  }

  lemma KeepsTrans(w: World, v: World, u: World, doomed: Kind -> bool)
    requires Keeps(w, v, doomed) && Keeps(v, u, doomed)
    ensures Keeps(w, u, doomed)
  {
    WithinTrans(u, v, w);
    hide Within, Alive, UniqueIds;
  }

  lemma KeepsSelf(w: World, clock: nat, doomed: Kind -> bool)
    ensures Keeps(w, w.(clock := clock), doomed)
  {
    assert forall r :: r in w.resources ==> SameItem(r, r);
  }

  predicate Touches(op: Op, doomed: Kind -> bool) {
    op.Delete? ==> doomed(op.kind)
  }

  lemma {:induction false} CallKeeps(w: World, op: Op, left: nat, script: Script, doomed: Kind -> bool)
    requires Touches(op, doomed)
    ensures Keeps(w, Call(w, op, left, script).w, doomed)
    decreases left
  {
    hide Keeps;
    KeepsSelf(w, w.clock, doomed);
    if left > 0 {
      var w1 := w.(clock := w.clock + 1);
      KeepsSelf(w, w1.clock, doomed);
      ApplyDoomed(w1, op, doomed);
      KeepsTrans(w, w1, Apply(w1, op).w, doomed);
      match script(w.clock)
      case Busy =>
        CallKeeps(w1, op, left - 1, script, doomed);
        KeepsTrans(w, w1, Call(w, op, left, script).w, doomed);
      case Lost =>
        CallKeeps(Apply(w1, op).w, op, left - 1, script, doomed);
        KeepsTrans(w, Apply(w1, op).w, Call(w, op, left, script).w, doomed);
      case _ =>
    }
  }

  lemma ApplyDoomed(w: World, op: Op, doomed: Kind -> bool)
    requires Touches(op, doomed)
    ensures Keeps(w, Apply(w, op).w, doomed)
  {
    hide Apply, Within, Alive, UniqueIds;
    ApplyKeeps(w, op);
  }

  lemma {:induction false} ListKeeps<T>(w: World, items: seq<T>, left: nat, script: Script)
    ensures var l := ListCall(w, items, left, script);
      && l.w == w.(clock := l.w.clock)
      && (l.result.Listed? ==> l.result.items == items)
      && ((forall n: nat :: script(n) != NoEndpoint) ==> !l.result.ServiceAbsent?)
    decreases left
  {
    if left > 0 && (script(w.clock).Busy? || script(w.clock).Lost?) {
      ListKeeps(w.(clock := w.clock + 1), items, left - 1, script);
    }
  }

  lemma {:induction false} DetachAllKeeps(w: World, router: Id, subnets: seq<Id>, script: Script, doomed: Kind -> bool)
    ensures Keeps(w, DetachAll(w, router, subnets, script).w, doomed)
    decreases subnets
  {
    hide Keeps;
    KeepsSelf(w, w.clock, doomed);
    if subnets != [] {
      var r := Call(w, Detach(router, subnets[0]), MAX_ATTEMPTS, script);
      CallKeeps(w, Detach(router, subnets[0]), MAX_ATTEMPTS, script, doomed);
      DetachAllKeeps(r.w, router, subnets[1..], script, doomed);
      KeepsTrans(w, r.w, DetachAll(r.w, router, subnets[1..], script).w, doomed);
    }
  }

  lemma PrepareKeeps(w: World, kind: Kind, id: Id, script: Script, doomed: Kind -> bool)
    ensures Keeps(w, Prepare(w, kind, id, script).w, doomed)
  {
    hide Keeps, Call, ListCall, DetachAll;
    KeepsSelf(w, w.clock, doomed);
    if kind == Router {
      var l := ListCall(w, Attached(w.resources, id), MAX_ATTEMPTS, script);
      ListKeeps(w, Attached(w.resources, id), MAX_ATTEMPTS, script);
      KeepsSelf(w, l.w.clock, doomed);
      if l.result.Listed? {
        var r := DetachAll(l.w, id, l.result.items, script);
        DetachAllKeeps(l.w, id, l.result.items, script, doomed);
        KeepsTrans(w, l.w, r.w, doomed);
        CallKeeps(r.w, ClearGateway(id), MAX_ATTEMPTS, script, doomed);
        KeepsTrans(w, r.w, Call(r.w, ClearGateway(id), MAX_ATTEMPTS, script).w, doomed);
      }
    }
  }

  lemma ItemKeeps(w: World, kind: Kind, id: Id, script: Script, doomed: Kind -> bool)
    requires doomed(kind)
    ensures Keeps(w, DeleteItem(w, kind, id, script).w, doomed)
  {
    hide Keeps, Call, Prepare;
    var p := Prepare(w, kind, id, script);
    PrepareKeeps(w, kind, id, script, doomed);
    CallKeeps(p.w, Delete(kind, id), MAX_ATTEMPTS, script, doomed);
    KeepsTrans(w, p.w, Call(p.w, Delete(kind, id), MAX_ATTEMPTS, script).w, doomed);
  }

  // ---------- What a report is worth ----------

  /** A deletion that is answered by done or not found leaves nothing behind. */
  lemma {:induction false} DeletedIsGone(w: World, kind: Kind, id: Id, left: nat, script: Script)
    requires Call(w, Delete(kind, id), left, script).answer != Refused
    ensures !Exists(Call(w, Delete(kind, id), left, script).w, kind, id)
    decreases left
  {
    var w1 := w.(clock := w.clock + 1);
    match script(w.clock)
    case Busy => DeletedIsGone(w1, kind, id, left - 1, script);
    case Lost => DeletedIsGone(Apply(w1, Delete(kind, id)).w, kind, id, left - 1, script);
    case _ =>
  }

  /** Preparing a router does not delete it. */
  lemma PreparedStays(w: World, kind: Kind, id: Id, script: Script)
    requires Alive(w, kind, id)
    ensures Alive(Prepare(w, kind, id, script).w, kind, id)
  {
    hide Prepare, Within, UniqueIds;
    PrepareKeeps(w, kind, id, script, (k: Kind) => false);
  }

  /** An existing item is reported as deleted and still there only if the calls before its deletion end in not found. */
  lemma KeptByPreparation(w: World, kind: Kind, id: Id, script: Script)
    requires Alive(w, kind, id)
    ensures var r := DeleteItem(w, kind, id, script);
      (StatusOf(r.answer) == Deleted && Alive(r.w, kind, id)) <==> Prepare(w, kind, id, script).answer == NotFound
  {
    hide Call, Prepare;
    PreparedStays(w, kind, id, script);
    var p := Prepare(w, kind, id, script);
    var r := DeleteItem(w, kind, id, script);
    if p.answer == Done && r.answer != Refused {
      DeletedIsGone(p.w, kind, id, MAX_ATTEMPTS, script);
      AliveExists(r.w, kind, id);
    }
  }

  lemma AliveExists(w: World, kind: Kind, id: Id)
    ensures Alive(w, kind, id) ==> Exists(w, kind, id)
  {}

  // ---------- Without lost responses ----------

  /** No response is lost and every service is there; calls may still fail, for good or for a while. */
  ghost predicate Faithful(script: Script) {
    forall n: nat :: script(n) != Lost && script(n) != NoEndpoint
  }

  /** Without lost responses a call takes effect at most once, and only when it says so. */
  lemma {:induction false} AtMostOnce(w: World, op: Op, left: nat, script: Script) returns (clock: nat)
    requires Faithful(script)
    ensures var r := Call(w, op, left, script);
      r == Apply(w.(clock := clock), op) || r == Reply(w.(clock := clock), Refused)
    decreases left
  {
    if left == 0 {
      clock := w.clock;
    } else if script(w.clock).Busy? {
      clock := AtMostOnce(w.(clock := w.clock + 1), op, left - 1, script);
    } else {
      clock := w.clock + 1;
    }
  }

  predicate HasRouter(rs: seq<Resource>, router: Id) {
    exists r :: r in rs && r.Gate? && r.id == router
  }

  lemma {:induction false} AttachedIs(rs: seq<Resource>, router: Id, r: Resource)
    requires UniqueIds(rs) && r in rs && r.Gate? && r.id == router
    ensures Attached(rs, router) == r.attached
  {
    if rs[0] != r {
      assert r in rs[1..];
      AttachedIs(rs[1..], router, r);
    }
  }

  lemma DetachedRouter(rs: seq<Resource>, router: Id, subnet: Id, r: Resource)
    requires r in rs && r.Gate? && r.id == router
    ensures r.(attached := DropFirst(r.attached, subnet)) in Detached(rs, router, subnet)
    ensures UniqueIds(rs) ==> UniqueIds(Detached(rs, router, subnet))
  {
    hide DropFirst, UniqueIds, Detached;
    DetachedShape(rs, router, subnet);
    ShapeKeeps(rs, Detached(rs, router, subnet));
    var i :| 0 <= i < |rs| && rs[i] == r;
    assert Detached(rs, router, subnet)[i] in Detached(rs, router, subnet);
  }

  lemma AttachedAfter(rs: seq<Resource>, router: Id, subnet: Id)
    requires UniqueIds(rs) && HasRouter(rs, router)
    ensures UniqueIds(Detached(rs, router, subnet)) && HasRouter(Detached(rs, router, subnet), router)
    ensures Attached(Detached(rs, router, subnet), router) == DropFirst(Attached(rs, router), subnet)
  {
    hide UniqueIds, Detached, DropFirst, Attached;
    var r :| r in rs && r.Gate? && r.id == router;
    DetachedRouter(rs, router, subnet, r);
    AttachedIs(rs, router, r);
    AttachedIs(Detached(rs, router, subnet), router, r.(attached := DropFirst(r.attached, subnet)));
  }

  lemma AttachedSomewhere(rs: seq<Resource>, router: Id, subnet: Id)
    requires UniqueIds(rs) && HasRouter(rs, router) && subnet in Attached(rs, router)
    ensures exists r :: r in rs && r.Gate? && r.id == router && subnet in r.attached
  {
    var r :| r in rs && r.Gate? && r.id == router;
    AttachedIs(rs, router, r);
  }

  /** Detaching what the listing gave never meets a missing interface, and when it is done none is left. */
  lemma {:induction false} DetachAllFinds(w: World, router: Id, script: Script)
    requires Faithful(script) && UniqueIds(w.resources) && HasRouter(w.resources, router)
    ensures var r := DetachAll(w, router, Attached(w.resources, router), script);
      && r.answer != NotFound
      && UniqueIds(r.w.resources) && HasRouter(r.w.resources, router)
      && (r.answer == Done ==> Attached(r.w.resources, router) == [])
    decreases |Attached(w.resources, router)|
  {
    var subnets := Attached(w.resources, router);
    if subnets != [] {
      var op := Detach(router, subnets[0]);
      var clock := AtMostOnce(w, op, MAX_ATTEMPTS, script);
      var r := Call(w, op, MAX_ATTEMPTS, script);
      AttachedAfter(w.resources, router, subnets[0]);
      AttachedSomewhere(w.resources, router, subnets[0]);
      hide Call, Detached, Attached, UniqueIds, HasRouter;
      if r.answer == Done {
        assert r.w.resources == Detached(w.resources, router, subnets[0]);
        DetachAllFinds(r.w, router, script);
      }
    }
  }

  lemma {:induction false} RouterStays(w: World, router: Id, script: Script)
    requires UniqueIds(w.resources) && HasRouter(w.resources, router)
    ensures var r := Call(w, ClearGateway(router), MAX_ATTEMPTS, script);
      UniqueIds(r.w.resources) && Attached(r.w.resources, router) == Attached(w.resources, router)
    ensures Faithful(script) ==> Call(w, ClearGateway(router), MAX_ATTEMPTS, script).answer != NotFound
  {
    ClearStays(w, router, MAX_ATTEMPTS, script);
  }

  lemma {:induction false} ClearStays(w: World, router: Id, left: nat, script: Script)
    requires UniqueIds(w.resources) && HasRouter(w.resources, router)
    ensures var r := Call(w, ClearGateway(router), left, script);
      && UniqueIds(r.w.resources) && HasRouter(r.w.resources, router)
      && Attached(r.w.resources, router) == Attached(w.resources, router)
      && r.answer != NotFound
    decreases left
  {
    if left > 0 {
      var w1 := w.(clock := w.clock + 1);
      hide UniqueIds, HasRouter, Attached, Apply;
      ClearOnce(w1, router);
      match script(w.clock)
      case Busy => ClearStays(w1, router, left - 1, script);
      case Lost => ClearStays(Apply(w1, ClearGateway(router)).w, router, left - 1, script);
      case _ =>
    }
  }

  lemma ClearedRouter(rs: seq<Resource>, router: Id, r: Resource)
    requires r in rs && r.Gate? && r.id == router
    ensures r.(gateway := false) in Cleared(rs, router)
    ensures UniqueIds(rs) ==> UniqueIds(Cleared(rs, router))
  {
    hide UniqueIds, Cleared;
    ClearedShape(rs, router);
    ShapeKeeps(rs, Cleared(rs, router));
    var i :| 0 <= i < |rs| && rs[i] == r;
    assert Cleared(rs, router)[i] in Cleared(rs, router);
  }

  lemma AttachedCleared(rs: seq<Resource>, router: Id)
    requires UniqueIds(rs) && HasRouter(rs, router)
    ensures var qs := Cleared(rs, router);
      UniqueIds(qs) && HasRouter(qs, router) && Attached(qs, router) == Attached(rs, router)
  {
    hide UniqueIds, Cleared, Attached;
    var r :| r in rs && r.Gate? && r.id == router;
    ClearedRouter(rs, router, r);
    AttachedIs(rs, router, r);
    AttachedIs(Cleared(rs, router), router, r.(gateway := false));
  }

  lemma ClearOnce(w: World, router: Id)
    requires UniqueIds(w.resources) && HasRouter(w.resources, router)
    ensures var r := Apply(w, ClearGateway(router));
      && UniqueIds(r.w.resources) && HasRouter(r.w.resources, router)
      && Attached(r.w.resources, router) == Attached(w.resources, router)
      && r.answer != NotFound
  {
    hide UniqueIds, HasRouter, Attached, Cleared, Exists, Alive;
    AttachedCleared(w.resources, router);
    RouterExists(w, router);
  }

  lemma RouterExists(w: World, router: Id)
    ensures HasRouter(w.resources, router) <==> Exists(w, Router, router)
    ensures HasRouter(w.resources, router) <==> Alive(w, Router, router)
  {
    forall r | r in w.resources ensures r.Gate? <==> r.Kind() == Router {}
  }

  /** Without lost responses, preparing an existing router is never answered by not found. */
  lemma PreparationFinds(w: World, router: Id, script: Script)
    requires Faithful(script) && UniqueIds(w.resources) && HasRouter(w.resources, router)
    ensures var r := PrepareRouter(w, router, script);
      && r.answer != NotFound && UniqueIds(r.w.resources)
      && (r.answer == Done ==> Attached(r.w.resources, router) == [])
  {
    hide Call, ListCall, DetachAll, UniqueIds, HasRouter, Attached;
    var subnets := Attached(w.resources, router);
    ListKeeps(w, subnets, MAX_ATTEMPTS, script);
    var l := ListCall(w, subnets, MAX_ATTEMPTS, script);
    if l.result.Listed? {
      DetachAllFinds(l.w, router, script);
      var r := DetachAll(l.w, router, subnets, script);
      if r.answer == Done {
        RouterStays(r.w, router, script);
      }
    }
  }

  // ---------- Whole steps ----------

  lemma {:induction false} ActionsGrow(w: World, items: seq<Resource>, actions: seq<Action>, script: Script)
    ensures var p := DeleteItems(w, items, actions, script);
      && p.going && actions <= p.actions
      && forall r :: r in items && !Skipped(r) ==> exists s :: Item(r.Kind(), r.id, s) in p.actions
    decreases items
  {
    hide DeleteItem;
    if items != [] {
      var r := items[0];
      if Skipped(r) {
        ActionsGrow(w, items[1..], actions, script);
      } else {
        var d := DeleteItem(w, r.Kind(), r.id, script);
        var item := Item(r.Kind(), r.id, StatusOf(d.answer));
        ActionsGrow(d.w, items[1..], actions + [item], script);
        assert (actions + [item])[|actions|] == item;
      }
    }
  }

  lemma {:induction false} ItemsKeep(w: World, items: seq<Resource>, actions: seq<Action>, script: Script,
                                     doomed: Kind -> bool)
    requires forall r :: r in items ==> doomed(r.Kind())
    ensures Keeps(w, DeleteItems(w, items, actions, script).w, doomed)
    decreases items
  {
    hide Keeps, DeleteItem;
    KeepsSelf(w, w.clock, doomed);
    if items != [] {
      var r := items[0];
      if Skipped(r) {
        ItemsKeep(w, items[1..], actions, script, doomed);
      } else {
        var d := DeleteItem(w, r.Kind(), r.id, script);
        ItemKeeps(w, r.Kind(), r.id, script, doomed);
        ItemsKeep(d.w, items[1..], actions + [Item(r.Kind(), r.id, StatusOf(d.answer))], script, doomed);
        KeepsTrans(w, d.w, DeleteItems(w, items, actions, script).w, doomed);
      }
    }
  }

  lemma StepKeeps(w: World, kind: Kind, actions: seq<Action>, script: Script)
    ensures Keeps(w, StepOf(w, kind, actions, script).w, (k: Kind) => k == kind)
  {
    hide Keeps, ListCall, DeleteItems;
    var doomed := (k: Kind) => k == kind;
    var items := OfKind(w.resources, kind);
    ListKeeps(w, items, MAX_ATTEMPTS, script);
    var l := ListCall(w, items, MAX_ATTEMPTS, script);
    KeepsSelf(w, l.w.clock, doomed);
    if l.result.Listed? {
      ItemsKeep(l.w, items, actions, script, doomed);
      KeepsTrans(w, l.w, DeleteItems(l.w, items, actions, script).w, doomed);
    }
  }

  lemma GoneStaysGone(w: World, v: World, kind: Kind, id: Id)
    requires Within(v, w)
    ensures !Alive(w, kind, id) ==> !Alive(v, kind, id)
  {}

  lemma NoFailures(actions: seq<Action>, more: seq<Action>)
    requires actions <= more
    ensures !AnyFailed(more) ==> !AnyFailed(actions)
  {}

  /** Without lost responses, an item reported as deleted is gone. */
  lemma ItemGone(w: World, kind: Kind, id: Id, script: Script)
    requires Faithful(script) && UniqueIds(w.resources)
    ensures var r := DeleteItem(w, kind, id, script);
      UniqueIds(r.w.resources) && (StatusOf(r.answer) == Deleted ==> !Alive(r.w, kind, id))
  {
    hide DeleteItem, PrepareRouter, UniqueIds;
    ItemKeeps(w, kind, id, script, (k: Kind) => true);
    if Alive(w, kind, id) {
      KeptByPreparation(w, kind, id, script);
      if kind == Router {
        RouterExists(w, id);
        PreparationFinds(w, id, script);
      }
    } else {
      GoneStaysGone(w, DeleteItem(w, kind, id, script).w, kind, id);
    }
  }

  lemma {:induction false} ItemsGone(w: World, items: seq<Resource>, actions: seq<Action>, script: Script)
    requires Faithful(script) && UniqueIds(w.resources)
    requires !AnyFailed(DeleteItems(w, items, actions, script).actions)
    ensures var v := DeleteItems(w, items, actions, script).w;
      forall r :: r in items && !Skipped(r) ==> !Alive(v, r.Kind(), r.id)
    decreases items
  {
    hide DeleteItem, Alive, UniqueIds;
    if items != [] {
      var r := items[0];
      if Skipped(r) {
        ItemsGone(w, items[1..], actions, script);
      } else {
        var d := DeleteItem(w, r.Kind(), r.id, script);
        var grown := actions + [Item(r.Kind(), r.id, StatusOf(d.answer))];
        ItemGone(w, r.Kind(), r.id, script);
        ItemsGone(d.w, items[1..], grown, script);
        ActionsGrow(d.w, items[1..], grown, script);
        NoFailures(grown, DeleteItems(d.w, items[1..], grown, script).actions);
        assert grown[|actions|] in grown;
        ItemsKeep(d.w, items[1..], grown, script, (k: Kind) => true);
        GoneStaysGone(d.w, DeleteItems(d.w, items[1..], grown, script).w, r.Kind(), r.id);
      }
    }
  }

  /** A step without a failure leaves nothing of its kind, default security groups aside. */
  lemma StepClears(w: World, kind: Kind, actions: seq<Action>, script: Script)
    requires Faithful(script) && UniqueIds(w.resources)
    requires var p := StepOf(w, kind, actions, script); p.going && !AnyFailed(p.actions)
    ensures forall id :: !Alive(StepOf(w, kind, actions, script).w, kind, id)
  {
    hide DeleteItems, ListCall, UniqueIds;
    var items := OfKind(w.resources, kind);
    ListKeeps(w, items, MAX_ATTEMPTS, script);
    var l := ListCall(w, items, MAX_ATTEMPTS, script);
    assert l.w.resources == w.resources;
    ItemsGone(l.w, items, actions, script);
    var v := DeleteItems(l.w, items, actions, script).w;
    StepKeeps(w, kind, actions, script);
    forall id | Alive(w, kind, id) ensures !Alive(v, kind, id) {
      var r :| r in w.resources && r.Kind() == kind && r.id == id && !Skipped(r);
      assert r in items;
    }
    forall id ensures !Alive(v, kind, id) {
      GoneStaysGone(w, v, kind, id);
    }
  }

  lemma StepGrows(w: World, kind: Kind, actions: seq<Action>, script: Script)
    ensures actions <= StepOf(w, kind, actions, script).actions
  {
    hide DeleteItems, ListCall;
    var l := ListCall(w, OfKind(w.resources, kind), MAX_ATTEMPTS, script);
    if l.result.Listed? {
      ActionsGrow(l.w, l.result.items, actions, script);
    }
  }

  lemma {:induction false} StepsGrow(w: World, kinds: seq<Kind>, actions: seq<Action>, script: Script)
    ensures var p := StepsOf(w, kinds, actions, script);
      actions <= p.actions && Within(p.w, w)
    decreases kinds
  {
    hide StepOf;
    KeepsSelf(w, w.clock, (k: Kind) => true);
    if kinds != [] {
      var p := StepOf(w, kinds[0], actions, script);
      StepGrows(w, kinds[0], actions, script);
      StepKeeps(w, kinds[0], actions, script);
      StepsGrow(p.w, kinds[1..], p.actions, script);
      WithinTrans(StepsOf(p.w, kinds[1..], p.actions, script).w, p.w, w);
    }
  }

  lemma {:induction false} StepsClear(w: World, kinds: seq<Kind>, actions: seq<Action>, script: Script)
    requires Faithful(script) && UniqueIds(w.resources)
    requires var p := StepsOf(w, kinds, actions, script); p.going && !AnyFailed(p.actions)
    ensures forall kind, id :: kind in kinds ==> !Alive(StepsOf(w, kinds, actions, script).w, kind, id)
    decreases kinds
  {
    hide StepOf, Alive, UniqueIds, AnyFailed;
    if kinds != [] {
      var p := StepOf(w, kinds[0], actions, script);
      var q := StepsOf(p.w, kinds[1..], p.actions, script);
      StepKeeps(w, kinds[0], actions, script);
      StepsGrow(p.w, kinds[1..], p.actions, script);
      NoFailures(p.actions, q.actions);
      StepClears(w, kinds[0], actions, script);
      StepsClear(p.w, kinds[1..], p.actions, script);
      forall id ensures !Alive(q.w, kinds[0], id) {
        GoneStaysGone(p.w, q.w, kinds[0], id);
      }
    }
  }

  // ---------- Whole teardowns ----------

  lemma {:induction false} ProjectCall(w: World, left: nat, script: Script)
    ensures var r := Call(w, DeleteProject, left, script);
      r.w.resources == w.resources && (r.answer != Refused ==> !r.w.project)
    decreases left
  {
    if left > 0 {
      var w1 := w.(clock := w.clock + 1);
      match script(w.clock)
      case Busy => ProjectCall(w1, left - 1, script);
      case Lost => ProjectCall(Apply(w1, DeleteProject).w, left - 1, script);
      case _ =>
    }
  }

  /** A teardown that raises nothing has emptied the project, but for default security groups, and deleted it. */
  lemma CompletedMeansEmpty(w: World, script: Script)
    requires Faithful(script) && UniqueIds(w.resources) && TeardownOf(w, script).outcome == Completed
    ensures var v := TeardownOf(w, script).w;
      !v.project && forall r :: r in v.resources ==> r == Group(r.id, true)
  {
    hide StepsOf, Call, UniqueIds, AnyFailed;
    var p := StepsOf(w, STEPS, [], script);
    var r := Call(p.w, DeleteProject, MAX_ATTEMPTS, script);
    var last := Project(StatusOf(r.answer));
    NoFailures(p.actions, p.actions + [last]);
    LastFailed(p.actions, last);
    StepsClear(w, STEPS, [], script);
    ProjectCall(p.w, MAX_ATTEMPTS, script);
    forall x | x in p.w.resources ensures x == Group(x.id, true) {
      InSteps(x.Kind());
      assert !Alive(p.w, x.Kind(), x.id);
    }
  }

  lemma LastFailed(actions: seq<Action>, last: Action)
    ensures !AnyFailed(actions + [last]) ==> last.status == Deleted
  {
    assert (actions + [last])[|actions|] == last;
  }

  lemma InSteps(kind: Kind)
    ensures kind in STEPS
  {
    assert STEPS[0] == FloatingIp && STEPS[1] == Snapshot && STEPS[2] == Router;
    assert STEPS[3] == Subnet && STEPS[4] == Network && STEPS[5] == SecurityGroup;
  }

  lemma StepAttempts(w: World, kind: Kind, actions: seq<Action>, script: Script, id: Id)
    requires (forall n: nat :: script(n) != NoEndpoint) && StepOf(w, kind, actions, script).going && Alive(w, kind, id)
    ensures exists s :: Item(kind, id, s) in StepOf(w, kind, actions, script).actions
  {
    hide DeleteItems, ListCall;
    var items := OfKind(w.resources, kind);
    ListKeeps(w, items, MAX_ATTEMPTS, script);
    var l := ListCall(w, items, MAX_ATTEMPTS, script);
    ActionsGrow(l.w, items, actions, script);
    var r :| r in w.resources && r.Kind() == kind && r.id == id && !Skipped(r);
    assert r in items;
  }

  lemma {:induction false} StepsAttempt(w: World, kinds: seq<Kind>, actions: seq<Action>, script: Script, kind: Kind,
                                        id: Id)
    requires (forall n: nat :: script(n) != NoEndpoint) && StepsOf(w, kinds, actions, script).going
    requires NoDup(kinds) && kind in kinds && Alive(w, kind, id)
    ensures exists s :: Item(kind, id, s) in StepsOf(w, kinds, actions, script).actions
    decreases kinds
  {
    hide StepOf, Alive;
    var p := StepOf(w, kinds[0], actions, script);
    StepsGrow(p.w, kinds[1..], p.actions, script);
    if kinds[0] == kind {
      StepAttempts(w, kind, actions, script, id);
    } else {
      StepKeeps(w, kinds[0], actions, script);
      StepsAttempt(p.w, kinds[1..], p.actions, script, kind, id);
    }
  }

  /**
   Whatever fails, as long as every listing succeeds each resource that is not a default group is
   attempted, the project is attempted last, and an error is raised exactly if some deletion failed.
   */
  lemma EverythingIsAttempted(w: World, script: Script)
    requires (forall n: nat :: script(n) != NoEndpoint) && TeardownOf(w, script).outcome != Aborted
    ensures var t := TeardownOf(w, script);
      && (forall r :: r in w.resources && r != Group(r.id, true) ==> exists s :: Item(r.Kind(), r.id, s) in t.actions)
      && t.actions != [] && t.actions[|t.actions| - 1].Project?
      && (t.outcome == RaisedFailures <==> exists a :: a in t.actions && a.status == Failed)
  {
    hide StepsOf, Call;
    var p := StepsOf(w, STEPS, [], script);
    forall r | r in w.resources && r != Group(r.id, true) ensures exists s :: Item(r.Kind(), r.id, s) in p.actions {
      InSteps(r.Kind());
      StepsAttempt(w, STEPS, [], script, r.Kind(), r.id);
    }
  }

  /** A listing that fails for good ends the teardown there: the project is not deleted. */
  lemma AbortKeepsProject(w: World, script: Script)
    requires TeardownOf(w, script).outcome == Aborted
    ensures TeardownOf(w, script).w.project == w.project
    ensures forall a :: a in TeardownOf(w, script).actions ==> a.Item?
  {
    StepsKeepProject(w, STEPS, [], script);
  }

  lemma {:induction false} CallKeepsProject(w: World, op: Op, left: nat, script: Script)
    requires op != DeleteProject
    ensures Call(w, op, left, script).w.project == w.project
    decreases left
  {
    if left > 0 {
      var w1 := w.(clock := w.clock + 1);
      match script(w.clock)
      case Busy => CallKeepsProject(w1, op, left - 1, script);
      case Lost => CallKeepsProject(Apply(w1, op).w, op, left - 1, script);
      case _ =>
    }
  }

  lemma {:induction false} DetachAllKeepsProject(w: World, router: Id, subnets: seq<Id>, script: Script)
    ensures DetachAll(w, router, subnets, script).w.project == w.project
    decreases subnets
  {
    hide Call;
    if subnets != [] {
      CallKeepsProject(w, Detach(router, subnets[0]), MAX_ATTEMPTS, script);
      DetachAllKeepsProject(Call(w, Detach(router, subnets[0]), MAX_ATTEMPTS, script).w, router, subnets[1..], script);
    }
  }

  lemma ItemKeepsProject(w: World, kind: Kind, id: Id, script: Script)
    ensures DeleteItem(w, kind, id, script).w.project == w.project
  {
    hide Call, ListCall, DetachAll, Attached;
    var l := ListCall(w, Attached(w.resources, id), MAX_ATTEMPTS, script);
    ListKeeps(w, Attached(w.resources, id), MAX_ATTEMPTS, script);
    if kind == Router && l.result.Listed? {
      DetachAllKeepsProject(l.w, id, l.result.items, script);
      CallKeepsProject(DetachAll(l.w, id, l.result.items, script).w, ClearGateway(id), MAX_ATTEMPTS, script);
    }
    CallKeepsProject(Prepare(w, kind, id, script).w, Delete(kind, id), MAX_ATTEMPTS, script);
  }

  lemma {:induction false} ItemsKeepProject(w: World, items: seq<Resource>, actions: seq<Action>, script: Script)
    requires forall a :: a in actions ==> a.Item?
    ensures var p := DeleteItems(w, items, actions, script);
      p.w.project == w.project && forall a :: a in p.actions ==> a.Item?
    decreases items
  {
    hide DeleteItem;
    if items != [] {
      var r := items[0];
      ItemKeepsProject(w, r.Kind(), r.id, script);
      var d := DeleteItem(w, r.Kind(), r.id, script);
      ItemsKeepProject(if Skipped(r) then w else d.w, items[1..],
        if Skipped(r) then actions else actions + [Item(r.Kind(), r.id, StatusOf(d.answer))], script);
    }
  }

  lemma {:induction false} StepsKeepProject(w: World, kinds: seq<Kind>, actions: seq<Action>, script: Script)
    requires forall a :: a in actions ==> a.Item?
    ensures var p := StepsOf(w, kinds, actions, script);
      p.w.project == w.project && forall a :: a in p.actions ==> a.Item?
    decreases kinds
  {
    hide DeleteItems, ListCall;
    if kinds != [] {
      var l := ListCall(w, OfKind(w.resources, kinds[0]), MAX_ATTEMPTS, script);
      ListKeeps(w, OfKind(w.resources, kinds[0]), MAX_ATTEMPTS, script);
      if l.result.Listed? {
        ItemsKeepProject(l.w, l.result.items, actions, script);
      }
      var p := StepOf(w, kinds[0], actions, script);
      StepsKeepProject(p.w, kinds[1..], p.actions, script);
    }
  }

  // ---------- Without any fault ----------

  ghost predicate AllFine(script: Script) {
    forall n: nat :: script(n) == Fine
  }

  predicate NoneOf(w: World, kind: Kind) {
    forall r :: r in w.resources ==> r.Kind() != kind
  }

  /** What the table has torn down before it comes to a kind. */
  predicate Ready(w: World, kind: Kind) {
    match kind
    case Router => NoneOf(w, FloatingIp)
    case Subnet => NoneOf(w, Router)
    case Network => NoneOf(w, Subnet)
    case _ => true
  }

  lemma ReadyStays(w: World, v: World, kind: Kind)
    requires Ready(w, kind) && Within(v, w)
    ensures Ready(v, kind)
  {}

  lemma FineCall(w: World, op: Op, script: Script)
    requires script(w.clock) == Fine
    ensures Call(w, op, MAX_ATTEMPTS, script) == Apply(w.(clock := w.clock + 1), op)
  {}

  lemma {:induction false} FineDetach(w: World, router: Id, subnets: seq<Id>, script: Script)
    requires AllFine(script) && DetachAll(w, router, subnets, script).answer != NotFound
    ensures DetachAll(w, router, subnets, script).answer == Done
    decreases subnets
  {
    hide Call;
    if subnets != [] {
      FineCall(w, Detach(router, subnets[0]), script);
      FineDetach(Call(w, Detach(router, subnets[0]), MAX_ATTEMPTS, script).w, router, subnets[1..], script);
    }
  }

  lemma FinePrepare(w: World, router: Id, script: Script)
    requires AllFine(script) && UniqueIds(w.resources) && HasRouter(w.resources, router) && Ready(w, Router)
    ensures PrepareRouter(w, router, script).answer == Done
  {
    hide Call, DetachAll, UniqueIds, HasRouter, Attached;
    PreparationFinds(w, router, script);
    var l := ListCall(w, Attached(w.resources, router), MAX_ATTEMPTS, script);
    assert l.result == Listed(Attached(w.resources, router)) && l.w.resources == w.resources;
    DetachAllFinds(l.w, router, script);
    var r := DetachAll(l.w, router, l.result.items, script);
    FineDetach(l.w, router, l.result.items, script);
    DetachAllKeeps(l.w, router, l.result.items, script, (k: Kind) => false);
    ReadyStays(l.w, r.w, Router);
    FineCall(r.w, ClearGateway(router), script);
    assert forall x :: x in r.w.resources ==> !x.Fip? by {
      forall x | x in r.w.resources ensures !x.Fip? {
        assert x.Kind() != FloatingIp;
      }
    }
  }

  /** When its dependents are gone, no deletion is refused. */
  lemma FineItem(w: World, kind: Kind, id: Id, script: Script)
    requires AllFine(script) && UniqueIds(w.resources) && Alive(w, kind, id) && Ready(w, kind)
    ensures DeleteItem(w, kind, id, script).answer != Refused
  {
    hide Call, PrepareRouter, UniqueIds, Attached;
    var p := Prepare(w, kind, id, script);
    if kind == Router {
      RouterExists(w, id);
      FinePrepare(w, id, script);
      PreparationFinds(w, id, script);
    }
    PrepareKeeps(w, kind, id, script, (k: Kind) => false);
    ReadyStays(w, p.w, kind);
    FineCall(p.w, Delete(kind, id), script);
    NotBlocked(p.w.(clock := p.w.clock + 1), kind, id);
  }

  lemma NotBlocked(w: World, kind: Kind, id: Id)
    requires UniqueIds(w.resources) && Ready(w, kind) && (kind == Router ==> Attached(w.resources, id) == [])
    ensures !Blocked(w, kind, id)
  {
    match kind
    case Router =>
      forall r | r in w.resources && r.Gate? && r.id == id ensures r.attached == [] {
        AttachedIs(w.resources, id, r);
      }
    case Subnet =>
      forall r | r in w.resources ensures !r.Gate? {
        assert r.Kind() != Router;
      }
    case Network =>
      forall r | r in w.resources ensures !r.Sub? {
        assert r.Kind() != Subnet;
      }
    case _ =>
  }

  lemma {:induction false} FineItems(w: World, items: seq<Resource>, actions: seq<Action>, script: Script, kind: Kind)
    requires AllFine(script) && UniqueIds(w.resources) && Ready(w, kind) && UniqueIds(items)
    requires forall r :: r in items ==> r.Kind() == kind && (Skipped(r) || Alive(w, kind, r.id))
    requires !AnyFailed(actions)
    ensures !AnyFailed(DeleteItems(w, items, actions, script).actions)
    decreases items
  {
    hide DeleteItem;
    if items != [] {
      var r := items[0];
      if Skipped(r) {
        FineItems(w, items[1..], actions, script, kind);
      } else {
        var d := DeleteItem(w, kind, r.id, script);
        assert r in items;
        FineItem(w, kind, r.id, script);
        OthersLive(w, items, script, kind);
        FineItems(d.w, items[1..], actions + [Item(kind, r.id, StatusOf(d.answer))], script, kind);
      }
    }
  }

  /** Deleting the first item leaves the others alone. */
  lemma OthersLive(w: World, items: seq<Resource>, script: Script, kind: Kind)
    requires items != [] && UniqueIds(w.resources) && Ready(w, kind) && UniqueIds(items)
    requires forall r :: r in items ==> r.Kind() == kind && (Skipped(r) || Alive(w, kind, r.id))
    ensures var d := DeleteItem(w, kind, items[0].id, script);
      && UniqueIds(d.w.resources) && Ready(d.w, kind)
      && forall r :: r in items[1..] ==> Skipped(r) || Alive(d.w, kind, r.id)
  {
    hide DeleteItem, Alive;
    var d := DeleteItem(w, kind, items[0].id, script);
    ItemKeeps(w, kind, items[0].id, script, (k: Kind) => k == kind);
    ReadyStays(w, d.w, kind);
    forall r | r in items[1..] && !Skipped(r) ensures Alive(d.w, kind, r.id) {
      var i :| 0 <= i < |items| - 1 && items[1..][i] == r;
      assert items[i + 1] == r && r in items && items[0] in items;
      OtherStays(w, kind, items[0].id, r.id, script);
    }
  }

  lemma {:induction false} OtherCallStays(w: World, op: Op, left: nat, script: Script, kind: Kind, other: Id)
    requires Alive(w, kind, other) && !Deletes(op, kind, other)
    ensures Alive(Call(w, op, left, script).w, kind, other)
    decreases left
  {
    hide Alive, Apply, UniqueIds, Within;
    if left > 0 {
      var w1 := w.(clock := w.clock + 1);
      AliveClock(w, w1.clock, kind, other);
      ApplyKeeps(w1, op);
      match script(w.clock)
      case Busy => OtherCallStays(w1, op, left - 1, script, kind, other);
      case Lost => OtherCallStays(Apply(w1, op).w, op, left - 1, script, kind, other);
      case _ =>
    }
  }

  lemma AliveClock(w: World, clock: nat, kind: Kind, id: Id)
    ensures Alive(w, kind, id) <==> Alive(w.(clock := clock), kind, id)
  {}

  lemma OtherStays(w: World, kind: Kind, id: Id, other: Id, script: Script)
    requires id != other && Alive(w, kind, other)
    ensures Alive(DeleteItem(w, kind, id, script).w, kind, other)
  {
    hide Call, PrepareRouter, Within, UniqueIds;
    PrepareKeeps(w, kind, id, script, (k: Kind) => false);
    OtherCallStays(Prepare(w, kind, id, script).w, Delete(kind, id), MAX_ATTEMPTS, script, kind, other);
  }

  lemma FineStep(w: World, kind: Kind, actions: seq<Action>, script: Script)
    requires AllFine(script) && UniqueIds(w.resources) && Ready(w, kind) && !AnyFailed(actions)
    ensures var p := StepOf(w, kind, actions, script);
      && p.going && !AnyFailed(p.actions) && UniqueIds(p.w.resources) && Within(p.w, w)
      && (kind != SecurityGroup ==> NoneOf(p.w, kind))
  {
    hide DeleteItems, Ready;
    var items := OfKind(w.resources, kind);
    ListKeeps(w, items, MAX_ATTEMPTS, script);
    var l := ListCall(w, items, MAX_ATTEMPTS, script);
    assert l.result == Listed(items);
    OfKindUnique(w.resources, kind);
    ReadyClock(w, l.w.clock, kind);
    FineItems(l.w, items, actions, script, kind);
    ActionsGrow(l.w, items, actions, script);
    StepKeeps(w, kind, actions, script);
    StepClears(w, kind, actions, script);
    var v := StepOf(w, kind, actions, script).w;
    if kind != SecurityGroup {
      forall r | r in v.resources ensures r.Kind() != kind {
        assert !Alive(v, kind, r.id);
      }
    }
  }

  lemma ReadyClock(w: World, clock: nat, kind: Kind)
    ensures Ready(w, kind) <==> Ready(w.(clock := clock), kind)
  {}

  lemma {:induction false} OfKindUnique(rs: seq<Resource>, kind: Kind)
    requires UniqueIds(rs)
    ensures UniqueIds(OfKind(rs, kind))
  {
    if rs != [] {
      OfKindUnique(rs[1..], kind);
      OfKindStep(rs, kind);
      var rest := OfKind(rs[1..], kind);
      forall j | 0 <= j < |rest| ensures rest[j].Kind() != rs[0].Kind() || rest[j].id != rs[0].id {
        assert rest[j] in rest;
        assert rest[j] in rs[1..];
      }
    }
  }

  lemma OfKindStep(rs: seq<Resource>, kind: Kind)
    requires rs != []
    ensures OfKind(rs, kind) == (if rs[0].Kind() == kind then [rs[0]] else []) + OfKind(rs[1..], kind)
  {
    FilterSame(rs[1..], (r: Resource) => r.Kind() == kind, (r: Resource) => r.Kind() == kind);
  }

  lemma NoneStays(w: World, v: World, kind: Kind)
    requires NoneOf(w, kind) && Within(v, w)
    ensures NoneOf(v, kind)
  {}

  /** Without faults the order of the table suffices: a teardown completes and leaves only default security groups. */
  lemma FaultFreeTeardownEmpties(w: World, script: Script)
    requires AllFine(script) && UniqueIds(w.resources) && w.project
    ensures var t := TeardownOf(w, script);
      t.outcome == Completed && !t.w.project && forall r :: r in t.w.resources ==> r == Group(r.id, true)
  {
    hide StepsOf, UniqueIds, Call, AnyFailed;
    FaultFreeSteps(w, script);
    var p := StepsOf(w, STEPS, [], script);
    StepsKeepProject(w, STEPS, [], script);
    FineCall(p.w, DeleteProject, script);
    AddDeleted(p.actions, Project(Deleted));
    CompletedMeansEmpty(w, script);
  }

  /** The first i kinds of the table are gone, security groups aside. */
  predicate Down(w: World, i: nat)
    requires i <= |STEPS|
  {
    forall j :: 0 <= j < i && STEPS[j] != SecurityGroup ==> NoneOf(w, STEPS[j])
  }

  lemma ReadyInOrder(w: World, i: nat)
    requires i < |STEPS| && Down(w, i)
    ensures Ready(w, STEPS[i])
  {
    assert STEPS[0] == FloatingIp && STEPS[2] == Router && STEPS[3] == Subnet;
    hide NoneOf;
  }

  lemma {:induction false} FaultFreeFrom(w: World, i: nat, actions: seq<Action>, script: Script)
    requires AllFine(script) && UniqueIds(w.resources) && i <= |STEPS| && Down(w, i) && !AnyFailed(actions)
    ensures var p := StepsOf(w, STEPS[i..], actions, script); p.going && !AnyFailed(p.actions)
    decreases |STEPS| - i
  {
    hide StepOf, UniqueIds, Within, NoneOf, AnyFailed, Ready;
    if i < |STEPS| {
      var p := StepOf(w, STEPS[i], actions, script);
      ReadyInOrder(w, i);
      FineStep(w, STEPS[i], actions, script);
      forall j | 0 <= j < i && STEPS[j] != SecurityGroup ensures NoneOf(p.w, STEPS[j]) {
        NoneStays(w, p.w, STEPS[j]);
      }
      assert STEPS[i..][1..] == STEPS[i + 1..];
      FaultFreeFrom(p.w, i + 1, p.actions, script);
    }
  }

  lemma FaultFreeSteps(w: World, script: Script)
    requires AllFine(script) && UniqueIds(w.resources)
    ensures var p := StepsOf(w, STEPS, [], script); p.going && !AnyFailed(p.actions)
  {
    hide StepsOf, UniqueIds;
    FaultFreeFrom(w, 0, [], script);
    assert STEPS[0..] == STEPS;
  }

  // ---------- Reported but kept ----------

  /** How many responses a call loses before the one it gets; none if it fails for good. */
  function Losses(script: Script, clock: nat, left: nat): Option<nat>
    decreases left
  {
    if left == 0 then None
    else match script(clock)
      case Fine => Some(0)
      case Busy => Losses(script, clock + 1, left - 1)
      case Lost =>
        var rest := Losses(script, clock + 1, left - 1);
        if rest.Some? then Some(rest.value + 1) else None
      case _ => None
  }

  /** The slot after an answered call. */
  function AfterCall(script: Script, clock: nat, left: nat): nat
    decreases left
  {
    if left == 0 || script(clock).Fine? then clock + 1 else AfterCall(script, clock + 1, left - 1)
  }

  /** Takes at most n of the interfaces on a subnet away. */
  function Taken(attached: multiset<Id>, subnet: Id, n: nat): multiset<Id> {
    attached[subnet := if n <= attached[subnet] then attached[subnet] - n else 0]
  }

  /**
   Detaching these subnets one after the other, some call that is answered loses at least as many responses
   before as the router still has interfaces on its subnet, and every call before it is answered and does not.
   */
  predicate RepeatsDetach(script: Script, clock: nat, attached: multiset<Id>, subnets: seq<Id>)
    decreases |subnets|
  {
    subnets != []
    && var losses := Losses(script, clock, MAX_ATTEMPTS);
       losses.Some?
       && (|| losses.value >= attached[subnets[0]]
           || RepeatsDetach(script, AfterCall(script, clock, MAX_ATTEMPTS),
                            Taken(attached, subnets[0], losses.value + 1), subnets[1..]))
  }

  lemma {:induction false} DropFirstTakes(xs: seq<Id>, x: Id)
    ensures multiset(DropFirst(xs, x)) == Taken(multiset(xs), x, 1)
  {
    if xs != [] {
      assert xs == [xs[0]] + xs[1..];
      if xs[0] != x {
        DropFirstTakes(xs[1..], x);
      }
    } else {
      assert multiset(xs)[x] == 0;
    }
  }

  /** One attempt at a detachment takes one interface away, if there is one. */
  lemma DetachOnce(w: World, router: Id, subnet: Id)
    requires UniqueIds(w.resources) && HasRouter(w.resources, router)
    ensures var r := Apply(w, Detach(router, subnet));
      && UniqueIds(r.w.resources) && HasRouter(r.w.resources, router) && r.w.clock == w.clock
      && multiset(Attached(r.w.resources, router)) == Taken(multiset(Attached(w.resources, router)), subnet, 1)
      && r.answer == (if subnet in Attached(w.resources, router) then Done else NotFound)
  {
    hide UniqueIds, Detached, DropFirst, Attached;
    var attached := Attached(w.resources, router);
    if subnet in attached {
      AttachedSomewhere(w.resources, router, subnet);
      AttachedAfter(w.resources, router, subnet);
      DropFirstTakes(attached, subnet);
    } else {
      forall r | r in w.resources && r.Gate? && r.id == router ensures subnet !in r.attached {
        AttachedIs(w.resources, router, r);
      }
      assert Taken(multiset(attached), subnet, 1) == multiset(attached);
    }
  }

  lemma TakenTwice(attached: multiset<Id>, subnet: Id)
    ensures Taken(attached, subnet, 1)[subnet] == if attached[subnet] > 0 then attached[subnet] - 1 else 0
    ensures forall n: nat {:trigger Taken(Taken(attached, subnet, 1), subnet, n)} ::
      Taken(Taken(attached, subnet, 1), subnet, n) == Taken(attached, subnet, n + 1)
  {}

  /** A detachment takes away one interface for every response, lost or not, as long as there are any. */
  lemma {:induction false} DetachTakes(w: World, router: Id, subnet: Id, left: nat, script: Script)
    requires UniqueIds(w.resources) && HasRouter(w.resources, router)
    ensures var r := Call(w, Detach(router, subnet), left, script);
      var losses := Losses(script, w.clock, left);
      var before := multiset(Attached(w.resources, router));
      && UniqueIds(r.w.resources) && HasRouter(r.w.resources, router)
      && (losses.None? ==> r.answer == Refused)
      && (losses.Some? ==>
            && r.answer == (if losses.value >= before[subnet] then NotFound else Done)
            && r.w.clock == AfterCall(script, w.clock, left)
            && multiset(Attached(r.w.resources, router)) == Taken(before, subnet, losses.value + 1))
    decreases left
  {
    hide UniqueIds, HasRouter, Attached, Apply, Taken;
    if left > 0 {
      var w1 := w.(clock := w.clock + 1);
      DetachOnce(w1, router, subnet);
      TakenTwice(multiset(Attached(w.resources, router)), subnet);
      if script(w.clock).Busy? {
        DetachTakes(w1, router, subnet, left - 1, script);
      } else if script(w.clock).Lost? {
        DetachTakes(Apply(w1, Detach(router, subnet)).w, router, subnet, left - 1, script);
      }
    }
  }

  lemma {:induction false} DetachAllRepeats(w: World, router: Id, subnets: seq<Id>, script: Script)
    requires UniqueIds(w.resources) && HasRouter(w.resources, router)
    ensures var r := DetachAll(w, router, subnets, script);
      && UniqueIds(r.w.resources) && HasRouter(r.w.resources, router)
      && (r.answer == NotFound <==> RepeatsDetach(script, w.clock, multiset(Attached(w.resources, router)), subnets))
    decreases |subnets|
  {
    hide UniqueIds, HasRouter, Attached, Call, Losses, AfterCall, Taken;
    if subnets != [] {
      DetachTakes(w, router, subnets[0], MAX_ATTEMPTS, script);
      DetachAllRepeats(Call(w, Detach(router, subnets[0]), MAX_ATTEMPTS, script).w, router, subnets[1..], script);
    }
  }

  lemma {:induction false} ListAnswers<T>(w: World, items: seq<T>, left: nat, script: Script)
    ensures var l := ListCall(w, items, left, script);
      && (l.result.Listed? <==> Losses(script, w.clock, left).Some?)
      && (l.result.Listed? ==> l == Listing(w.(clock := AfterCall(script, w.clock, left)), Listed(items)))
    decreases left
  {
    if left > 0 && (script(w.clock).Busy? || script(w.clock).Lost?) {
      ListAnswers(w.(clock := w.clock + 1), items, left - 1, script);
    }
  }

  /** The listing of the router's ports is answered, and a detachment that took effect is repeated. */
  predicate DetachesTwice(w: World, router: Id, script: Script) {
    var attached := Attached(w.resources, router);
    && Losses(script, w.clock, MAX_ATTEMPTS).Some?
    && RepeatsDetach(script, AfterCall(script, w.clock, MAX_ATTEMPTS), multiset(attached), attached)
  }

  /**
   An existing item is reported as deleted although it is still there exactly if it is a router and the
   script loses the responses to a detachment until nothing is left to detach, and answers it after that.
   */
  lemma ReportedButKept(w: World, kind: Kind, id: Id, script: Script)
    requires UniqueIds(w.resources) && Alive(w, kind, id)
    ensures var r := DeleteItem(w, kind, id, script);
      (StatusOf(r.answer) == Deleted && Alive(r.w, kind, id)) <==> (kind == Router && DetachesTwice(w, id, script))
  {
    hide DeleteItem, PrepareRouter, DetachesTwice, UniqueIds, HasRouter, Alive;
    KeptByPreparation(w, kind, id, script);
    if kind == Router {
      RouterExists(w, id);
      PreparationRepeats(w, id, script);
    }
  }

  lemma PreparationRepeats(w: World, router: Id, script: Script)
    requires UniqueIds(w.resources) && HasRouter(w.resources, router)
    ensures PrepareRouter(w, router, script).answer == NotFound <==> DetachesTwice(w, router, script)
  {
    hide Call, ListCall, DetachAll, UniqueIds, HasRouter, Attached, RepeatsDetach, Losses, AfterCall;
    var subnets := Attached(w.resources, router);
    ListAnswers(w, subnets, MAX_ATTEMPTS, script);
    var l := ListCall(w, subnets, MAX_ATTEMPTS, script);
    if l.result.Listed? {
      DetachAllRepeats(l.w, router, subnets, script);
      RouterStays(DetachAll(l.w, router, subnets, script).w, router, script);
      ClearStays(DetachAll(l.w, router, subnets, script).w, router, MAX_ATTEMPTS, script);
    }
  }

  /**
   With one interface per subnet: some detachment is answered only after losing a response, and every one
   before it is answered without losing any.
   */
  lemma {:induction false} OneLossSuffices(script: Script, clock: nat, subnets: seq<Id>)
    requires NoDup(subnets)
    ensures RepeatsDetach(script, clock, multiset(subnets), subnets) <==> LosesOne(script, clock, |subnets|)
    decreases |subnets|
  {
    hide Losses, AfterCall, Taken, NoDup;
    if subnets != [] {
      FirstTaken(subnets);
      OneLossSuffices(script, AfterCall(script, clock, MAX_ATTEMPTS), subnets[1..]);
    }
  }

  lemma FirstTaken(subnets: seq<Id>)
    requires subnets != [] && NoDup(subnets)
    ensures multiset(subnets)[subnets[0]] == 1 && NoDup(subnets[1..])
    ensures Taken(multiset(subnets), subnets[0], 1) == multiset(subnets[1..])
  {
    var rest := subnets[1..];
    assert subnets == [subnets[0]] + rest;
    assert subnets[0] !in rest;
    assert multiset(rest)[subnets[0]] == 0;
  }

  predicate LosesOne(script: Script, clock: nat, n: nat)
    decreases n
  {
    n > 0
    && var losses := Losses(script, clock, MAX_ATTEMPTS);
       losses.Some? && (losses.value > 0 || LosesOne(script, AfterCall(script, clock, MAX_ATTEMPTS), n - 1))
  }

  // ---------- With a lost response ----------

  lemma EmptyStep(w: World, kind: Kind, actions: seq<Action>, script: Script)
    requires NoneOf(w, kind) && script(w.clock) == Fine
    ensures StepOf(w, kind, actions, script) == Progress(w.(clock := w.clock + 1), actions, true)
  {
    FilterNone(w.resources, (r: Resource) => r.Kind() == kind);
  }

  /** A detachment that takes effect but loses its response is answered by not found when it is retried. */
  lemma LostDetach(w: World, script: Script)
    requires w.resources == [Gate("r", true, ["s"])]
    requires script(w.clock) == Fine && script(w.clock + 1) == Lost && script(w.clock + 2) == Fine
    ensures DeleteItem(w, Router, "r", script) == Reply(World([Gate("r", true, [])], w.project, w.clock + 3), NotFound)
  {
    var r := Gate("r", true, ["s"]);
    var w1 := w.(clock := w.clock + 1);
    assert ListCall(w, ["s"], MAX_ATTEMPTS, script) == Listing(w1, Listed(["s"]));
    var op := Detach("r", "s");
    var w2 := w1.(clock := w.clock + 2);
    assert r in w2.resources && "s" in r.attached;
    assert Detached([r], "r", "s") == [Gate("r", true, [])] by {
      assert DropFirst(["s"], "s") == [];
      assert Detached([r][1..], "r", "s") == [];
    }
    var w3 := World([Gate("r", true, [])], w.project, w.clock + 2);
    assert Apply(w2, op).w == w3;
    assert Apply(w3.(clock := w.clock + 3), op) == Reply(w3.(clock := w.clock + 3), NotFound);
    assert Call(w3, op, MAX_ATTEMPTS - 1, script) == Reply(w3.(clock := w.clock + 3), NotFound);
    assert Call(w1, op, MAX_ATTEMPTS, script) == Reply(w3.(clock := w.clock + 3), NotFound);
  }

  lemma RouterStep(w: World, script: Script)
    requires w.resources == [Gate("r", true, ["s"])]
    requires script(w.clock) == Fine && script(w.clock + 1) == Fine
    requires script(w.clock + 2) == Lost && script(w.clock + 3) == Fine
    ensures StepOf(w, Router, [], script)
      == Progress(World([Gate("r", true, [])], w.project, w.clock + 4), [Item(Router, "r", Deleted)], true)
  {
    var r := Gate("r", true, ["s"]);
    FilterAll([r], (x: Resource) => x.Kind() == Router);
    var w1 := w.(clock := w.clock + 1);
    assert ListCall(w, [r], MAX_ATTEMPTS, script) == Listing(w1, Listed([r]));
    LostDetach(w1, script);
    hide DeleteItem;
    var d := DeleteItem(w1, Router, "r", script);
    assert [r][1..] == [];
    assert DeleteItems(w1, [r], [], script) == DeleteItems(d.w, [], [] + [Item(Router, "r", Deleted)], script);
  }

  lemma OnlyRouter(w: World, kind: Kind)
    requires |w.resources| == 1 && w.resources[0].Gate? && kind != Router
    ensures NoneOf(w, kind)
  {}

  lemma LostDetachSteps(w: World, script: Script, v: World, actions: seq<Action>)
    requires w == World([Gate("r", true, ["s"])], true, 0) && v == World([Gate("r", true, [])], true, 6)
    requires actions == [Item(Router, "r", Deleted)]
    requires forall n: nat :: script(n) == if n == 4 then Lost else Fine
    ensures StepsOf(w, STEPS, [], script) == Progress(v.(clock := 9), actions, true)
  {
    hide StepOf, NoneOf, StepsOf;
    OnlyRouter(w, FloatingIp);
    EmptyStep(w, FloatingIp, [], script);
    OnlyRouter(w.(clock := 1), Snapshot);
    EmptyStep(w.(clock := 1), Snapshot, [], script);
    RouterStep(w.(clock := 2), script);
    OnlyRouter(v, Subnet);
    EmptyStep(v, Subnet, actions, script);
    OnlyRouter(v.(clock := 7), Network);
    EmptyStep(v.(clock := 7), Network, actions, script);
    OnlyRouter(v.(clock := 8), SecurityGroup);
    EmptyStep(v.(clock := 8), SecurityGroup, actions, script);
    SixSteps(w, script, v, actions);
  }

  lemma LostDetachRun(w: World, script: Script)
    requires w == World([Gate("r", true, ["s"])], true, 0)
    requires forall n: nat :: script(n) == if n == 4 then Lost else Fine
    ensures TeardownOf(w, script)
      == Torn(World([Gate("r", true, [])], false, 10), [Item(Router, "r", Deleted), Project(Deleted)], Completed)
  {
    hide StepsOf, Call, AnyFailed, Apply;
    var v := World([Gate("r", true, [])], true, 9);
    var actions := [Item(Router, "r", Deleted)];
    LostDetachSteps(w, script, v.(clock := 6), actions);
    FineCall(v, DeleteProject, script);
    ProjectGoes(v.(clock := 10));
    OneDeleted(actions);
    AddDeleted(actions, Project(Deleted));
    assert actions + [Project(Deleted)] == [Item(Router, "r", Deleted), Project(Deleted)];
  }

  lemma ProjectGoes(w: World)
    requires w.project
    ensures Apply(w, DeleteProject) == Reply(w.(project := false), Done)
  {}

  lemma OneDeleted(actions: seq<Action>)
    requires |actions| == 1 && actions[0].status == Deleted
    ensures !AnyFailed(actions)
  {}

  /**
   A router with one interface whose detachment loses its response: the router is reported as deleted, and
   the teardown completes without an error, the project gone and the router left over.
   */
  lemma LostDetachExample() returns (w: World, script: Script)
    ensures UniqueIds(w.resources)
    ensures var t := TeardownOf(w, script);
      t.outcome == Completed && !t.w.project && t.w.resources == [Gate("r", true, [])]
  {
    w := World([Gate("r", true, ["s"])], true, 0);
    script := (n: nat) => if n == 4 then Lost else Fine;
    hide TeardownOf;
    LostDetachRun(w, script);
  }

  lemma AddDeleted(actions: seq<Action>, last: Action)
    requires !AnyFailed(actions) && last.status == Deleted
    ensures !AnyFailed(actions + [last])
  {
    assert forall a :: a in actions + [last] ==> a in actions || a == last;
  }

  lemma SixSteps(w: World, script: Script, v: World, actions: seq<Action>)
    requires StepOf(w, FloatingIp, [], script) == Progress(w.(clock := 1), [], true)
    requires StepOf(w.(clock := 1), Snapshot, [], script) == Progress(w.(clock := 2), [], true)
    requires StepOf(w.(clock := 2), Router, [], script) == Progress(v, actions, true)
    requires StepOf(v, Subnet, actions, script) == Progress(v.(clock := 7), actions, true)
    requires StepOf(v.(clock := 7), Network, actions, script) == Progress(v.(clock := 8), actions, true)
    requires StepOf(v.(clock := 8), SecurityGroup, actions, script) == Progress(v.(clock := 9), actions, true)
    ensures StepsOf(w, STEPS, [], script) == Progress(v.(clock := 9), actions, true)
  {
    hide StepOf;
    assert STEPS[1..] == [Snapshot, Router, Subnet, Network, SecurityGroup];
    assert STEPS[1..][1..] == [Router, Subnet, Network, SecurityGroup];
    assert STEPS[1..][1..][1..] == [Subnet, Network, SecurityGroup];
    assert [Subnet, Network, SecurityGroup][1..] == [Network, SecurityGroup];
    assert [Network, SecurityGroup][1..] == [SecurityGroup];
    assert [SecurityGroup][1..] == [];
    assert StepsOf(v.(clock := 8), [SecurityGroup], actions, script) == Progress(v.(clock := 9), actions, true);
    assert StepsOf(v, [Subnet, Network, SecurityGroup], actions, script) == Progress(v.(clock := 9), actions, true);
  }
}
