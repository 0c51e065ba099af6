/**
 Teardown of a project: a table of deletions in dependency order, each item handled on its own
 (src/resources/teardown.py:184-377, src/utils.py:135-186).

 Calls are retried up to five times on server errors; a response can be lost after the call has taken
 effect. A port list is modelled by the subnets of its interface ports, the other ports being skipped.
 */
module Teardown {
  import opened Common

  type Id = string

  datatype Kind = FloatingIp | Snapshot | Router | Subnet | Network | SecurityGroup

  /** Something a project owns, with what the API looks at before it deletes it. */
  datatype Resource =
    | Fip(id: Id, router: Option<Id>)
    | Snap(id: Id)
    | Gate(id: Id, gateway: bool, attached: seq<Id>)
    | Sub(id: Id, network: Id)
    | Net(id: Id)
    | Group(id: Id, isDefault: bool) {
    function Kind(): Kind {
      match this
      case Fip(_, _) => FloatingIp
      case Snap(_) => Snapshot
      case Gate(_, _, _) => Router
      case Sub(_, _) => Subnet
      case Net(_) => Network
      case Group(_, _) => SecurityGroup
    }
  }

  datatype Fault = Fine | Busy | Lost | Broken | NoEndpoint

  type Script = nat -> Fault

  datatype World = World(resources: seq<Resource>, project: bool, clock: nat)

  // ---------- The API ----------

  datatype Op = Delete(kind: Kind, id: Id) | Detach(router: Id, subnet: Id) | ClearGateway(router: Id) | DeleteProject

  datatype Answer = Done | NotFound | Refused

  datatype Reply = Reply(w: World, answer: Answer)

  predicate Exists(w: World, kind: Kind, id: Id) {
    exists r :: r in w.resources && r.Kind() == kind && r.id == id
  }

  /** What keeps a resource from being deleted. */
  predicate Blocked(w: World, kind: Kind, id: Id) {
    match kind
    case Router => exists r :: r in w.resources && r.Gate? && r.id == id && r.attached != []
    case Subnet => exists r :: r in w.resources && r.Gate? && id in r.attached
    case Network => exists r :: r in w.resources && r.Sub? && r.network == id
    case _ => false
  }

  function Without(rs: seq<Resource>, kind: Kind, id: Id): seq<Resource> {
    Filter(rs, (r: Resource) => !(r.Kind() == kind && r.id == id))
  }

  function DropFirst(xs: seq<Id>, x: Id): seq<Id> {
    if xs == [] then [] else if xs[0] == x then xs[1..] else [xs[0]] + DropFirst(xs[1..], x)
  }

  function Detached(rs: seq<Resource>, router: Id, subnet: Id): seq<Resource> {
    if rs == [] then []
    else
      var r := rs[0];
      [if r.Gate? && r.id == router then r.(attached := DropFirst(r.attached, subnet)) else r]
        + Detached(rs[1..], router, subnet)
  }

  function Cleared(rs: seq<Resource>, router: Id): seq<Resource> {
    if rs == [] then []
    else
      var r := rs[0];
      [if r.Gate? && r.id == router then r.(gateway := false) else r] + Cleared(rs[1..], router)
  }

  function Apply(w: World, op: Op): Reply {
    match op
    case Delete(kind, id) =>
      if !Exists(w, kind, id) then Reply(w, NotFound)
      else if Blocked(w, kind, id) then Reply(w, Refused)
      else Reply(w.(resources := Without(w.resources, kind, id)), Done)
    case Detach(router, subnet) =>
      if exists r :: r in w.resources && r.Gate? && r.id == router && subnet in r.attached
      then Reply(w.(resources := Detached(w.resources, router, subnet)), Done)
      else Reply(w, NotFound)
    case ClearGateway(router) =>
      if !Exists(w, Router, router) then Reply(w, NotFound)
      else if exists r :: r in w.resources && r.Fip? && r.router == Some(router) then Reply(w, Refused)
      else Reply(w.(resources := Cleared(w.resources, router)), Done)
    case DeleteProject => if w.project then Reply(w.(project := false), Done) else Reply(w, NotFound)
  }

  /** A call with up to left attempts. Server errors, rate limits and lost responses are retried, refusals are not. */
  function Call(w: World, op: Op, left: nat, script: Script): Reply
    decreases left, w
  {
    if left == 0 then Reply(w, Refused)
    else
      var w1 := w.(clock := w.clock + 1);
      match script(w.clock)
      case Fine => Apply(w1, op)
      case Busy => Call(w1, op, left - 1, script)
      case Lost => Call(Apply(w1, op).w, op, left - 1, script)
      case _ => Reply(w1, Refused)
  }

  datatype Listing<T> = Listing(w: World, result: ListResult<T>)

  datatype ListResult<T> = Listed(items: seq<T>) | ServiceAbsent | ListFailed

  function ListCall<T>(w: World, items: seq<T>, left: nat, script: Script): Listing<T>
    decreases left, w
  {
    if left == 0 then Listing(w, ListFailed)
    else
      var w1 := w.(clock := w.clock + 1);
      match script(w.clock)
      case Fine => Listing(w1, Listed(items))
      case Busy => ListCall(w1, items, left - 1, script)
      case Lost => ListCall(w1, items, left - 1, script)
      case NoEndpoint => Listing(w1, ServiceAbsent)
      case Broken => Listing(w1, ListFailed)
  }

  function OfKind(rs: seq<Resource>, kind: Kind): seq<Resource> {
    Filter(rs, (r: Resource) => r.Kind() == kind)
  }

  // ---------- Deleting one item ----------

  datatype Status = Deleted | Failed

  datatype Action = Item(kind: Kind, id: Id, status: Status) | Project(status: Status)

  function Attached(rs: seq<Resource>, router: Id): seq<Id> {
    if rs == [] then []
    else if rs[0].Gate? && rs[0].id == router then rs[0].attached
    else Attached(rs[1..], router)
  }

  function DetachAll(w: World, router: Id, subnets: seq<Id>, script: Script): Reply
    decreases subnets
  {
    if subnets == [] then Reply(w, Done)
    else
      var r := Call(w, Detach(router, subnets[0]), MAX_ATTEMPTS, script);
      if r.answer != Done then r else DetachAll(r.w, router, subnets[1..], script)
  }

  /** Detaches the interfaces found, then clears the gateway. */
  function PrepareRouter(w: World, router: Id, script: Script): Reply {
    var ports := ListCall(w, Attached(w.resources, router), MAX_ATTEMPTS, script);
    if !ports.result.Listed? then Reply(ports.w, Refused)
    else
      var r := DetachAll(ports.w, router, ports.result.items, script);
      if r.answer != Done then r else Call(r.w, ClearGateway(router), MAX_ATTEMPTS, script)
  }

  function Prepare(w: World, kind: Kind, id: Id, script: Script): Reply {
    if kind == Router then PrepareRouter(w, id, script) else Reply(w, Done)
  }

  /** The answer that decides how the deletion of an item is reported. */
  function DeleteItem(w: World, kind: Kind, id: Id, script: Script): Reply {
    var p := Prepare(w, kind, id, script);
    if p.answer != Done then p else Call(p.w, Delete(kind, id), MAX_ATTEMPTS, script)
  }

  /** An item that is not there any more counts as deleted. */
  function StatusOf(a: Answer): Status {
    if a == Refused then Failed else Deleted
  }

  // ---------- The table ----------

  const STEPS: seq<Kind> := [FloatingIp, Snapshot, Router, Subnet, Network, SecurityGroup]

  datatype Progress = Progress(w: World, actions: seq<Action>, going: bool)

  predicate Skipped(r: Resource) {
    r.Group? && r.isDefault
  }

  function DeleteItems(w: World, items: seq<Resource>, actions: seq<Action>, script: Script): Progress
    decreases items
  {
    if items == [] then Progress(w, actions, true)
    else if Skipped(items[0]) then DeleteItems(w, items[1..], actions, script)
    else
      var kind, id := items[0].Kind(), items[0].id;
      var r := DeleteItem(w, kind, id, script);
      DeleteItems(r.w, items[1..], actions + [Item(kind, id, StatusOf(r.answer))], script)
  }

  function StepOf(w: World, kind: Kind, actions: seq<Action>, script: Script): Progress {
    var l := ListCall(w, OfKind(w.resources, kind), MAX_ATTEMPTS, script);
    match l.result
    case Listed(items) => DeleteItems(l.w, items, actions, script)
    case ServiceAbsent => Progress(l.w, actions, true)
    case ListFailed => Progress(l.w, actions, false)
  }

  function StepsOf(w: World, kinds: seq<Kind>, actions: seq<Action>, script: Script): Progress
    decreases kinds
  {
    if kinds == [] then Progress(w, actions, true)
    else
      var p := StepOf(w, kinds[0], actions, script);
      if !p.going then p else StepsOf(p.w, kinds[1..], p.actions, script)
  }

  datatype Outcome = Completed | RaisedFailures | Aborted

  datatype Torn = Torn(w: World, actions: seq<Action>, outcome: Outcome)

  predicate AnyFailed(actions: seq<Action>) {
    exists a :: a in actions && a.status == Failed
  }

  function TeardownOf(w: World, script: Script): Torn {
    var p := StepsOf(w, STEPS, [], script);
    if !p.going then Torn(p.w, p.actions, Aborted)
    else
      var r := Call(p.w, DeleteProject, MAX_ATTEMPTS, script);
      var actions := p.actions + [Project(StatusOf(r.answer))];
      Torn(r.w, actions, if AnyFailed(actions) then RaisedFailures else Completed)
  }

  class Cloud {
    var w: World
    const script: Script

    constructor (w: World, script: Script)
      ensures this.w == w && this.script == script
    {
      this.w := w;
      this.script := script;
    }

    method Retry(op: Op) returns (answer: Answer)
      modifies this
      ensures Reply(w, answer) == Call(old(w), op, MAX_ATTEMPTS, script)
    {
      var left := MAX_ATTEMPTS;
      while left > 0
        invariant 0 <= left
        invariant Call(old(w), op, MAX_ATTEMPTS, script) == Call(w, op, left, script)
      {
        var fault := script(w.clock);
        w := w.(clock := w.clock + 1);
        match fault {
          case Fine =>
            var r := Apply(w, op);
            w := r.w;
            return r.answer;
          case Busy =>
          case Lost =>
            w := Apply(w, op).w;
          case _ =>
            return Refused;
        }
        left := left - 1;
      }
      return Refused;
    }

    method List<T>(items: seq<T>) returns (result: ListResult<T>)
      modifies this
      ensures Listing(w, result) == ListCall(old(w), items, MAX_ATTEMPTS, script)
    {
      var left := MAX_ATTEMPTS;
      while left > 0
        invariant 0 <= left
        invariant ListCall(old(w), items, MAX_ATTEMPTS, script) == ListCall(w, items, left, script)
      {
        var fault := script(w.clock);
        w := w.(clock := w.clock + 1);
        match fault {
          case Fine =>
            return Listed(items);
          case NoEndpoint =>
            return ServiceAbsent;
          case Broken =>
            return ListFailed;
          case _ =>
        }
        left := left - 1;
      }
      return ListFailed;
    }

    method PrepareRouterDeletion(router: Id) returns (answer: Answer)
      modifies this
      ensures Reply(w, answer) == PrepareRouter(old(w), router, script)
    {
      var ports := List(Attached(w.resources, router));
      if !ports.Listed? {
        return Refused;
      }
      ghost var start := w;
      var subnets := ports.items;
      for i := 0 to |subnets|
        invariant DetachAll(start, router, subnets, script) == DetachAll(w, router, subnets[i..], script)
      {
        assert subnets[i..][1..] == subnets[i + 1..];
        answer := Retry(Detach(router, subnets[i]));
        if answer != Done {
          return;
        }
      }
      answer := Retry(ClearGateway(router));
    }

    method SafeDelete(kind: Kind, id: Id) returns (status: Status)
      modifies this
      ensures var r := DeleteItem(old(w), kind, id, script); w == r.w && status == StatusOf(r.answer)
    {
      var answer := Done;
      if kind == Router {
        answer := PrepareRouterDeletion(id);
      }
      if answer == Done {
        answer := Retry(Delete(kind, id));
      }
      status := StatusOf(answer);
    }

    method Step(kind: Kind, before: seq<Action>) returns (actions: seq<Action>, going: bool)
      modifies this
      ensures Progress(w, actions, going) == StepOf(old(w), kind, before, script)
    {
      hide DeleteItem;
      actions := before;
      var listing := List(OfKind(w.resources, kind));
      if listing.ServiceAbsent? {
        return actions, true;
      }
      if listing.ListFailed? {
        return actions, false;
      }
      var items := listing.items;
      ghost var start := w;
      for i := 0 to |items|
        invariant DeleteItems(start, items, before, script) == DeleteItems(w, items[i..], actions, script)
      {
        assert items[i..][1..] == items[i + 1..];
        if !Skipped(items[i]) {
          var status := SafeDelete(items[i].Kind(), items[i].id);
          actions := actions + [Item(items[i].Kind(), items[i].id, status)];
        }
      }
      going := true;
    }

    method TeardownProject() returns (actions: seq<Action>, outcome: Outcome)
      modifies this
      ensures Torn(w, actions, outcome) == TeardownOf(old(w), script)
    {
      hide StepOf, Call;
      actions := [];
      for i := 0 to |STEPS|
        invariant StepsOf(old(w), STEPS, [], script) == StepsOf(w, STEPS[i..], actions, script)
      {
        assert STEPS[i..][1..] == STEPS[i + 1..];
        var going;
        actions, going := Step(STEPS[i], actions);
        if !going {
          return actions, Aborted;
        }
      }
      var answer := Retry(DeleteProject);
      actions := actions + [Project(StatusOf(answer))];
      outcome := if AnyFailed(actions) then RaisedFailures else Completed;
    }
  }
}
