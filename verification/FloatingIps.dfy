/**
 The floating-IP run of src/resources/prealloc/fip.py and the world it acts on: the project's
 floating IPs and quota as the network service holds them, and the lists in the state file.

 Every call and every save takes one slot of an arbitrary script, so what is proved of every script
 holds at every crash point. Nobody else acts during a run.
 */
module FloatingIps {
  import opened Common

  type FipId = nat
  type Address = nat
  type NetId = nat

  datatype Fip = Fip(id: FipId, address: Address, net: NetId, inUse: bool)
  /** A floating IP as the state file remembers it. */
  datatype FipEntry = FipEntry(id: FipId, address: Address, inUse: bool)
  datatype ReleaseReason = TakenElsewhere | DeletedExternally
  datatype Released = Released(address: Address, reason: ReleaseReason, inUse: bool)
  datatype Snapshot = NoSnapshot | Snapshot(quota: int, size: nat)

  datatype Action =
    | ForeignFips(count: nat) | Adopted(id: FipId) | Reclaimed(address: Address) | Taken(address: Address)
    | Gone(address: Address) | Freed(id: FipId) | StillInUse(excess: int) | Created(id: FipId)
    | QuotaAbove(quota: int) | AlreadyAllocated | NothingRequested

  /**
   What becomes of one attempt of a call. Fine: answered. FailsBefore, FailsAfter: the run ends here,
   without or with the effect. Busy and Echo are transient failures, after which the retry decorator
   sends the call again: Busy was not applied, Echo was, and only its response is lost.
   */
  datatype Fault = Fine | FailsBefore | FailsAfter | Busy | Echo
  /** hint is the address the pool would hand out. */
  datatype Slot = Slot(fault: Fault, hint: Address)
  type Script = nat -> Slot

  /**
   actions: what the current call returns. strict: the API rejects a quota below usage. elsewhere:
   addresses other projects hold. overQuota counts the requests refused for want of quota.
   */
  datatype World = World(
    fips: seq<Fip>, quota: int, strict: bool, elsewhere: set<Address>, nextId: FipId,
    stored: seq<FipEntry>, released: seq<Released>, snapshot: Snapshot,
    actions: seq<Action>, creates: nat, overQuota: nat, pos: nat)

  datatype Config = Config(desired: nat, reclaim: bool, track: bool, ext: NetId)

  datatype Progress<+T> = Going(world: World, value: T) | Halted(world: World)
  datatype Outcome = Completed | Aborted
  datatype Exit = Exit(world: World, outcome: Outcome)

  function FipIds(fips: seq<Fip>): set<FipId> {
    set f | f in fips :: f.id
  }

  function FipAddresses(fips: seq<Fip>): set<Address> {
    set f | f in fips :: f.address
  }

  function EntryIds(entries: seq<FipEntry>): set<FipId> {
    set e | e in entries :: e.id
  }

  function EntryAddresses(entries: seq<FipEntry>): set<Address> {
    set e | e in entries :: e.address
  }

  function EntryOf(f: Fip): FipEntry {
    FipEntry(f.id, f.address, f.inUse)
  }

  function Entries(fips: seq<Fip>): (es: seq<FipEntry>)
    ensures |es| == |fips|
    ensures forall i :: 0 <= i < |fips| ==> es[i] == FipEntry(fips[i].id, fips[i].address, fips[i].inUse)
  {
    seq(|fips|, i requires 0 <= i < |fips| => EntryOf(fips[i]))
  }

  function Managed(fips: seq<Fip>, ext: NetId): seq<Fip> {
    Filter(fips, (f: Fip) => f.net == ext)
  }

  function Foreign(fips: seq<Fip>, ext: NetId): seq<Fip> {
    Filter(fips, (f: Fip) => f.net != ext)
  }

  function Unused(fips: seq<Fip>): seq<Fip> {
    Filter(fips, (f: Fip) => !f.inUse)
  }

  function Without(fips: seq<Fip>, ids: set<FipId>): seq<Fip> {
    Filter(fips, (f: Fip) => f.id !in ids)
  }

  // ------------------------------------------------------------------ the API

  function Note(w: World, a: Action): World {
    w.(actions := w.actions + [a])
  }

  predicate InPool(w: World, a: Address) {
    a !in FipAddresses(w.fips) && a !in w.elsewhere
  }

  function Highest(s: set<Address>): Address
    decreases |s|
  {
    if s == {} then 0 else Max(Least(s), Highest(s - {Least(s)}))
  }

  lemma {:induction false} HighestBounds(s: set<Address>)
    ensures forall a :: a in s ==> a <= Highest(s)
    decreases |s|
  {
    if s != {} {
      HighestBounds(s - {Least(s)});
      assert forall x :: x in s ==> x == Least(s) || x in s - {Least(s)};
    }
  }

  /** An address from the pool: the hinted one if it is there, otherwise one nobody holds. */
  function Offer(w: World, hint: Address): Address {
    if InPool(w, hint) then hint else Highest(FipAddresses(w.fips) + w.elsewhere) + 1
  }

  lemma OfferIsFree(w: World, hint: Address)
    ensures InPool(w, Offer(w, hint))
  {
    HighestBounds(FipAddresses(w.fips) + w.elsewhere);
  }

  /** A new floating IP with the given address; new ones are unattached. */
  function Allocate(w: World, net: NetId, address: Address): World {
    w.(fips := w.fips + [Fip(w.nextId, address, net, false)], nextId := w.nextId + 1, creates := w.creates + 1)
  }

  function Tick(w: World): World {
    w.(pos := w.pos + 1)
  }

  datatype Reply = Accepted(fip: Fip) | Refused

  /** create_ip without an address; refused when usage has reached the quota. */
  function CreateOnce(w: World, net: NetId, hint: Address): (World, Reply) {
    if |w.fips| >= w.quota then (w.(overQuota := w.overQuota + 1), Refused)
    else
      var v := Allocate(w, net, Offer(w, hint));
      (v, Accepted(v.fips[|w.fips|]))
  }

  /** What is left of the attempts the retry decorator makes. An echoed create leaves a twin behind. */
  function CreateAttempts(w: World, net: NetId, script: Script, left: nat): Progress<Fip>
    decreases left, w
  {
    if left == 0 then Halted(w)
    else
      var s := script(w.pos);
      var w0 := Tick(w);
      var (v, r) := CreateOnce(w0, net, s.hint);
      match s.fault
      case FailsBefore => Halted(w0)
      case FailsAfter => Halted(v)
      case Fine => if r.Accepted? then Going(v, r.fip) else Halted(v)
      case Busy => CreateAttempts(w0, net, script, left - 1)
      case Echo => CreateAttempts(v, net, script, left - 1)
  }

  /** A refused create is not caught: the run ends. */
  function CreateCall(w: World, net: NetId, script: Script): Progress<Fip> {
    CreateAttempts(w, net, script, MAX_ATTEMPTS)
  }

  /** create_ip with an address; a refusal for quota and one for the address are the same conflict. */
  function ReclaimOnce(w: World, net: NetId, address: Address): (World, Reply) {
    if |w.fips| >= w.quota then (w.(overQuota := w.overQuota + 1), Refused)
    else if !InPool(w, address) then (w, Refused)
    else
      var v := Allocate(w, net, address);
      (v, Accepted(v.fips[|w.fips|]))
  }

  function ReclaimAttempts(w: World, net: NetId, address: Address, script: Script, left: nat): Progress<Reply>
    decreases left, w
  {
    if left == 0 then Halted(w)
    else
      var w0 := Tick(w);
      var (v, r) := ReclaimOnce(w0, net, address);
      match script(w.pos).fault
      case FailsBefore => Halted(w0)
      case FailsAfter => Halted(v)
      case Fine => Going(v, r)
      case Busy => ReclaimAttempts(w0, net, address, script, left - 1)
      case Echo => ReclaimAttempts(v, net, address, script, left - 1)
  }

  function ReclaimCall(w: World, net: NetId, address: Address, script: Script): Progress<Reply> {
    ReclaimAttempts(w, net, address, script, MAX_ATTEMPTS)
  }

  /*
   The remaining calls do the same when sent again, so one slot stands for all attempts of a call: it is
   answered, or it ends the run. Deleting what is gone already succeeds.
   */

  function DeleteCall(w: World, id: FipId, script: Script): Progress<()> {
    var w0 := Tick(w);
    var v := w0.(fips := Without(w0.fips, {id}));
    match script(w.pos).fault
    case FailsBefore => Halted(w0)
    case FailsAfter => Halted(v)
    case _ => Going(v, ())
  }

  function ReadCall(w: World, script: Script): Progress<()> {
    var w0 := Tick(w);
    match script(w.pos).fault
    case FailsBefore => Halted(w0)
    case FailsAfter => Halted(w0)
    case _ => Going(w0, ())
  }

  /** update_quota; false is the rejection of a quota below usage. */
  function QuotaCall(w: World, n: int, script: Script): Progress<bool> {
    var w0 := Tick(w);
    var ok := !w.strict || n >= |w.fips|;
    var v := if ok then w0.(quota := n) else w0;
    match script(w.pos).fault
    case FailsBefore => Halted(w0)
    case FailsAfter => Halted(v)
    case _ => Going(v, ok)
  }

  function SaveStored(w: World, entries: seq<FipEntry>, script: Script): Progress<()> {
    var w0 := Tick(w);
    match script(w.pos).fault
    case FailsBefore => Halted(w0)
    case FailsAfter => Halted(w0.(stored := entries))
    case _ => Going(w0.(stored := entries), ())
  }

  function SaveReleased(w: World, released: seq<Released>, script: Script): Progress<()> {
    var w0 := Tick(w);
    match script(w.pos).fault
    case FailsBefore => Halted(w0)
    case FailsAfter => Halted(w0.(released := released))
    case _ => Going(w0.(released := released), ())
  }

  function SaveSnapshot(w: World, snap: Snapshot, script: Script): Progress<()> {
    var w0 := Tick(w);
    match script(w.pos).fault
    case FailsBefore => Halted(w0)
    case FailsAfter => Halted(w0.(snapshot := snap))
    case _ => Going(w0.(snapshot := snap), ())
  }

  // ------------------------------------------------------------------ quota

  /** _set_fip_quota: the asked quota, or current usage when that is rejected; yields the fallback if used. */
  function SetQuota(w: World, n: int, script: Script): Progress<Option<int>> {
    match QuotaCall(w, n, script)
    case Halted(w1) => Halted(w1)
    case Going(w1, true) => Going(w1, None)
    case Going(w1, false) =>
      match ReadCall(w1, script)
      case Halted(w2) => Halted(w2)
      case Going(w2, _) =>
        match QuotaCall(w2, |w2.fips|, script)
        case Halted(w3) => Halted(w3)
        case Going(w3, true) => Going(w3, Some(|w2.fips|))
        case Going(w3, false) => Halted(w3)
  }

  /** _set_fip_quota_and_record; yields the action recorded, if any. */
  function SetQuotaAndRecord(w: World, desired: int, actual: int, script: Script): Progress<Option<Action>> {
    var effective := Max(desired, actual);
    match SetQuota(w, effective, script)
    case Halted(w1) => Halted(w1)
    case Going(w1, Some(used)) => Going(Note(w1, QuotaAbove(used)), Some(QuotaAbove(used)))
    case Going(w1, None) =>
      if effective > desired then Going(Note(w1, QuotaAbove(effective)), Some(QuotaAbove(effective)))
      else Going(w1, None)
  }

  // ------------------------------------------------------------------ drift

  function Missing(config: seq<FipEntry>, existing: seq<Fip>): seq<FipEntry> {
    var ids := FipIds(existing);
    Filter(config, (e: FipEntry) => e.id !in ids)
  }

  function Untracked(config: seq<FipEntry>, existing: seq<Fip>): seq<Fip> {
    Without(existing, EntryIds(config))
  }

  function Surviving(config: seq<FipEntry>, missing: seq<FipEntry>): seq<FipEntry> {
    var ids := EntryIds(missing);
    Filter(config, (e: FipEntry) => e.id !in ids)
  }

  function MergedReleased(loaded: seq<Released>, newly: seq<Released>, active: seq<FipEntry>): seq<Released> {
    var addresses := EntryAddresses(active);
    Filter(loaded + newly, (r: Released) => r.address !in addresses)
  }

  /** _reconcile_released_fips. */
  function ReconcileReleased(w: World, loaded: seq<Released>, active: seq<FipEntry>, newly: seq<Released>,
                             script: Script)
    : Progress<()>
  {
    var merged := MergedReleased(loaded, newly, active);
    if merged == loaded then Going(w, ()) else SaveReleased(w, merged, script)
  }

  function AdoptionNotes(untracked: seq<Fip>): (r: seq<Action>)
    ensures |r| == |untracked|
    ensures forall i :: 0 <= i < |r| ==> r[i] == Adopted(untracked[i].id)
  {
    seq(|untracked|, i requires 0 <= i < |untracked| => Adopted(untracked[i].id))
  }

  function ReleasedOf(e: FipEntry, why: ReleaseReason): Released {
    Released(e.address, why, e.inUse)
  }

  function ReleaseAll(missing: seq<FipEntry>): (r: seq<Released>)
    ensures |r| == |missing|
    ensures forall i :: 0 <= i < |r| ==> r[i] == Released(missing[i].address, DeletedExternally, missing[i].inUse)
  {
    seq(|missing|, i requires 0 <= i < |missing| => ReleasedOf(missing[i], DeletedExternally))
  }

  function GoneNotes(missing: seq<FipEntry>): (r: seq<Action>)
    ensures |r| == |missing|
    ensures forall i :: 0 <= i < |r| ==> r[i] == Gone(missing[i].address)
  {
    seq(|missing|, i requires 0 <= i < |missing| => Gone(missing[i].address))
  }

  /** What became of the missing entries: those allocated again, and those given up. */
  datatype Recovery = Recovery(reclaimed: seq<FipEntry>, newly: seq<Released>)

  /** One missing entry: a conflict is taken to mean that another project holds the address. */
  function ReclaimStep(w: World, e: FipEntry, net: NetId, acc: Recovery, script: Script): Progress<Recovery> {
    match ReclaimCall(w, net, e.address, script)
    case Halted(w1) => Halted(w1)
    case Going(w1, Accepted(fip)) =>
      Going(Note(w1, Reclaimed(e.address)), acc.(reclaimed := acc.reclaimed + [EntryOf(fip)]))
    case Going(w1, Refused) =>
      Going(Note(w1, Taken(e.address)), acc.(newly := acc.newly + [ReleasedOf(e, TakenElsewhere)]))
  }

  function ReclaimAll(w: World, missing: seq<FipEntry>, net: NetId, acc: Recovery, script: Script): Progress<Recovery>
    decreases |missing|, w
  {
    if missing == [] then Going(w, acc)
    else match ReclaimStep(w, missing[0], net, acc, script)
      case Halted(w1) => Halted(w1)
      case Going(w1, acc1) => ReclaimAll(w1, missing[1..], net, acc1, script)
  }

  /** Room is made for all missing entries at once; a rejected raise is not caught. */
  function RaiseAndReclaim(w: World, missing: seq<FipEntry>, cfg: Config, script: Script): Progress<Recovery> {
    match QuotaCall(w, cfg.desired + |missing|, script)
    case Halted(w1) => Halted(w1)
    case Going(w1, false) => Halted(w1)
    case Going(w1, true) => ReclaimAll(w1, missing, cfg.ext, Recovery([], []), script)
  }

  function Recover(w: World, missing: seq<FipEntry>, cfg: Config, script: Script): Progress<Recovery> {
    if cfg.reclaim then RaiseAndReclaim(w, missing, cfg, script)
    else Going(w.(actions := w.actions + GoneNotes(missing)), Recovery([], ReleaseAll(missing)))
  }

  /** Adoption: the untracked floating IPs join the list at once. */
  function Adopt(w: World, config: seq<FipEntry>, existing: seq<Fip>, script: Script): Progress<seq<FipEntry>> {
    var untracked := Untracked(config, existing);
    var adopted := Entries(untracked);
    var w0 := w.(actions := w.actions + AdoptionNotes(untracked));
    if adopted == [] then Going(w0, adopted)
    else match SaveStored(w0, config + adopted, script)
      case Halted(w1) => Halted(w1)
      case Going(w1, _) => Going(w1, adopted)
  }

  /** _reconcile_fip_drift, not a dry run. */
  function Drift(w: World, config: seq<FipEntry>, loaded: seq<Released>, existing: seq<Fip>, cfg: Config,
                 script: Script)
    : Progress<()>
  {
    var missing := Missing(config, existing);
    match Adopt(w, config, existing, script)
    case Halted(w1) => Halted(w1)
    case Going(w1, adopted) =>
      if missing == [] then ReconcileReleased(w1, loaded, config + adopted, [], script)
      else match Recover(w1, missing, cfg, script)
        case Halted(w2) => Halted(w2)
        case Going(w2, rec) =>
          var updated := Surviving(config, missing) + rec.reclaimed + adopted;
          match SaveStored(w2, updated, script)
          case Halted(w3) => Halted(w3)
          case Going(w3, _) => ReconcileReleased(w3, loaded, updated, rec.newly, script)
  }

  // ------------------------------------------------------------------ the three branches

  function DeleteAll(w: World, todo: seq<Fip>, script: Script): Progress<()>
    decreases |todo|, w
  {
    if todo == [] then Going(w, ())
    else match DeleteCall(w, todo[0].id, script)
      case Halted(w1) => Halted(w1)
      case Going(w1, _) => DeleteAll(Note(w1, Freed(todo[0].id)), todo[1..], script)
  }

  /** Both scaling branches end by storing the list and setting the quota for its length. */
  function StoreAndSetQuota(w: World, entries: seq<FipEntry>, cfg: Config, script: Script): Exit {
    match SaveStored(w, entries, script)
    case Halted(w1) => Exit(w1, Aborted)
    case Going(w1, _) =>
      match SetQuotaAndRecord(w1, cfg.desired, |entries|, script)
      case Halted(w2) => Exit(w2, Aborted)
      case Going(w2, _) => Exit(w2, Completed)
  }

  function ToDelete(existing: seq<Fip>, desired: nat): (todo: seq<Fip>)
    requires |existing| >= desired
    ensures |todo| == Min(|existing| - desired, |Unused(existing)|)
  {
    Unused(existing)[..Min(|existing| - desired, |Unused(existing)|)]
  }

  function ScaleDown(w: World, existing: seq<Fip>, cfg: Config, script: Script): Exit
    requires |existing| > cfg.desired
  {
    var excess := |existing| - cfg.desired;
    var todo := ToDelete(existing, cfg.desired);
    match DeleteAll(w, todo, script)
    case Halted(w1) => Exit(w1, Aborted)
    case Going(w1, _) =>
      var w2 := if excess > |todo| then Note(w1, StillInUse(excess - |todo|)) else w1;
      StoreAndSetQuota(w2, Entries(Without(existing, FipIds(todo))), cfg, script)
  }

  function CreateAll(w: World, n: nat, net: NetId, acc: seq<FipEntry>, script: Script): Progress<seq<FipEntry>>
    decreases n, w
  {
    if n == 0 then Going(w, acc)
    else match CreateCall(w, net, script)
      case Halted(w1) => Halted(w1)
      case Going(w1, fip) => CreateAll(Note(w1, Created(fip.id)), n - 1, net, acc + [EntryOf(fip)], script)
  }

  function ScaleUp(w: World, existing: seq<Fip>, cfg: Config, script: Script): Exit
    requires |existing| < cfg.desired
  {
    match QuotaCall(w, cfg.desired, script)
    case Halted(w1) => Exit(w1, Aborted)
    case Going(w1, false) => Exit(w1, Aborted)
    case Going(w1, true) =>
      match CreateAll(w1, cfg.desired - |existing|, cfg.ext, [], script)
      case Halted(w2) => Exit(w2, Aborted)
      case Going(w2, created) =>
        StoreAndSetQuota(w2, Entries(existing) + created, cfg, script)
  }

  function ExactMatch(w: World, config: seq<FipEntry>, existing: seq<Fip>, cfg: Config, script: Script): Exit
    requires |existing| == cfg.desired
  {
    match SetQuotaAndRecord(w, cfg.desired, |existing|, script)
    case Halted(w1) => Exit(w1, Aborted)
    case Going(w1, quotaAction) =>
      match (if cfg.track && EntryIds(config) != FipIds(existing)
             then (match SaveStored(w1, Entries(existing), script)
                   case Halted(w2) => Halted(w2)
                   case Going(w2, _) => SaveSnapshot(w2, Snapshot(cfg.desired, |existing|), script))
             else Going(w1, ()))
      case Halted(w3) => Exit(w3, Aborted)
      case Going(w3, _) => Exit(if quotaAction.None? then Note(w3, AlreadyAllocated) else w3, Completed)
  }

  function Scale(w: World, config: seq<FipEntry>, existing: seq<Fip>, cfg: Config, script: Script): Exit {
    if |existing| == cfg.desired then ExactMatch(w, config, existing, cfg, script)
    else if |existing| > cfg.desired then ScaleDown(w, existing, cfg, script)
    else ScaleUp(w, existing, cfg, script)
  }

  /** The drift pass, only when something is stored, and the second listing, only when it acted. */
  function DriftAndRelist(w: World, config: seq<FipEntry>, loaded: seq<Released>, cfg: Config, script: Script)
    : Progress<seq<Fip>>
  {
    var existing := Managed(w.fips, cfg.ext);
    if config == [] then Going(w, existing)
    else match Drift(w, config, loaded, existing, cfg, script)
      case Halted(w1) => Halted(w1)
      case Going(w1, _) =>
        if w1.actions == w.actions then Going(w1, existing)
        else match ReadCall(w1, script)
          case Halted(w2) => Halted(w2)
          case Going(w2, _) => Going(w2, Managed(w2.fips, cfg.ext))
  }

  /**
   ensure_preallocated_fips, online, not a dry run, with the external network resolved. The call
   returns the actions it recorded, so the list starts empty.
   */
  function Run(w: World, cfg: Config, script: Script): Exit {
    RunFrom(w.(actions := []), cfg, script)
  }

  function RunFrom(w: World, cfg: Config, script: Script): Exit {
    if cfg.desired == 0 then Exit(Note(w, NothingRequested), Completed)
    else match ReadCall(w, script)
      case Halted(w1) => Exit(w1, Aborted)
      case Going(w1, _) =>
        var foreign := Foreign(w1.fips, cfg.ext);
        var w2 := if foreign == [] then w1 else Note(w1, ForeignFips(|foreign|));
        match DriftAndRelist(w2, w.stored, w.released, cfg, script)
        case Halted(w3) => Exit(w3, Aborted)
        case Going(w3, existing) => Scale(w3, w.stored, existing, cfg, script)
  }

  // ------------------------------------------------------------------ the program

  /** One project's pool as a run meets it. */
  class Pool {
    var world: World
    const script: Script

    constructor (w: World, script: Script)
      ensures world == w && this.script == script
    {
      world := w;
      this.script := script;
    }

    method ListFips() returns (ok: bool)
      modifies this
      ensures ReadCall(old(world), script) == if ok then Going(world, ()) else Halted(world)
    {
      var p := ReadCall(world, script);
      world, ok := p.world, p.Going?;
    }

    method UpdateQuota(n: int) returns (ok: bool, accepted: bool)
      modifies this
      ensures QuotaCall(old(world), n, script) == if ok then Going(world, accepted) else Halted(world)
    {
      var p := QuotaCall(world, n, script);
      world, ok := p.world, p.Going?;
      accepted := p.Going? && p.value;
    }

    method PersistFips(entries: seq<FipEntry>) returns (ok: bool)
      modifies this
      ensures SaveStored(old(world), entries, script) == if ok then Going(world, ()) else Halted(world)
    {
      var p := SaveStored(world, entries, script);
      world, ok := p.world, p.Going?;
    }

    method Record(a: Action)
      modifies this
      ensures world == Note(old(world), a)
    {
      world := world.(actions := world.actions + [a]);
    }

    /** _set_fip_quota. */
    method SetFipQuota(n: int) returns (ok: bool, fallback: Option<int>)
      modifies this
      ensures SetQuota(old(world), n, script) == if ok then Going(world, fallback) else Halted(world)
    {
      fallback := None;
      var done;
      ok, done := UpdateQuota(n);
      if !ok || done { return; }
      ok := ListFips();
      if !ok { return; }
      var used := |world.fips|;
      ok, done := UpdateQuota(used);
      if !done { return false, None; }
      fallback := Some(used);
    }

    /** _set_fip_quota_and_record. */
    method SetFipQuotaAndRecord(desired: int, actual: int) returns (ok: bool, action: Option<Action>)
      modifies this
      ensures SetQuotaAndRecord(old(world), desired, actual, script)
           == if ok then Going(world, action) else Halted(world)
    {
      action := None;
      var effective := Max(desired, actual);
      var fallback;
      ok, fallback := SetFipQuota(effective);
      if !ok { return; }
      if fallback.Some? {
        action := Some(QuotaAbove(fallback.value));
        Record(action.value);
      } else if effective > desired {
        action := Some(QuotaAbove(effective));
        Record(action.value);
      }
    }

    /** _reclaim_floating_ip under the retry decorator. */
    method ReclaimFloatingIp(net: NetId, address: Address) returns (ok: bool, reply: Reply)
      modifies this
      ensures ReclaimCall(old(world), net, address, script) == if ok then Going(world, reply) else Halted(world)
    {
      reply := Refused;
      var left := MAX_ATTEMPTS;
      while left > 0
        invariant ReclaimCall(old(world), net, address, script) == ReclaimAttempts(world, net, address, script, left)
      {
        var fault := script(world.pos).fault;
        world := Tick(world);
        if fault == FailsBefore { return false, reply; }
        if fault != Busy {
          var (w, r) := ReclaimOnce(world, net, address);
          world := w;
          if fault == FailsAfter { return false, reply; }
          if fault == Fine { return true, r; }
        }
        left := left - 1;
      }
      ok := false;
    }

    /** The reclaim loop. */
    method ReclaimMissing(missing: seq<FipEntry>, net: NetId) returns (ok: bool, rec: Recovery)
      modifies this
      ensures ReclaimAll(old(world), missing, net, Recovery([], []), script)
           == if ok then Going(world, rec) else Halted(world)
    {
      rec := Recovery([], []);
      var i := 0;
      while i < |missing|
        invariant 0 <= i <= |missing|
        invariant ReclaimAll(old(world), missing, net, Recovery([], []), script)
               == ReclaimAll(world, missing[i..], net, rec, script)
      {
        assert missing[i..][1..] == missing[i + 1..];
        var e := missing[i];
        var reply;
        ok, reply := ReclaimFloatingIp(net, e.address);
        if !ok { return false, rec; }
        if reply.Accepted? {
          rec := rec.(reclaimed := rec.reclaimed + [EntryOf(reply.fip)]);
          Record(Reclaimed(e.address));
        } else {
          rec := rec.(newly := rec.newly + [ReleasedOf(e, TakenElsewhere)]);
          Record(Taken(e.address));
        }
        i := i + 1;
      }
      ok := true;
    }

    /** The release loop used when reclaiming is switched off. */
    method ReleaseMissing(missing: seq<FipEntry>) returns (newly: seq<Released>)
      modifies this
      ensures newly == ReleaseAll(missing)
      ensures world == old(world).(actions := old(world).actions + GoneNotes(missing))
    {
      newly := [];
      var i := 0;
      while i < |missing|
        invariant 0 <= i <= |missing|
        invariant newly == ReleaseAll(missing)[..i]
        invariant world == old(world).(actions := old(world).actions + GoneNotes(missing)[..i])
      {
        newly := newly + [ReleasedOf(missing[i], DeletedExternally)];
        Record(Gone(missing[i].address));
        i := i + 1;
      }
    }

    /** The adoption loop and its save. */
    method AdoptUntracked(config: seq<FipEntry>, existing: seq<Fip>) returns (ok: bool, adopted: seq<FipEntry>)
      modifies this
      ensures Adopt(old(world), config, existing, script) == if ok then Going(world, adopted) else Halted(world)
    {
      var untracked := Untracked(config, existing);
      adopted := [];
      var i := 0;
      while i < |untracked|
        invariant 0 <= i <= |untracked|
        invariant adopted == Entries(untracked)[..i]
        invariant world == old(world).(actions := old(world).actions + AdoptionNotes(untracked)[..i])
      {
        adopted := adopted + [EntryOf(untracked[i])];
        Record(Adopted(untracked[i].id));
        i := i + 1;
      }
      assert Entries(untracked)[..i] == Entries(untracked);
      assert AdoptionNotes(untracked)[..i] == AdoptionNotes(untracked);
      ok := true;
      if adopted != [] {
        ok := PersistFips(config + adopted);
      }
    }

    /** _reconcile_released_fips. */
    method ReconcileReleasedFips(loaded: seq<Released>, active: seq<FipEntry>, newly: seq<Released>) returns (ok: bool)
      modifies this
      ensures ReconcileReleased(old(world), loaded, active, newly, script)
           == if ok then Going(world, ()) else Halted(world)
    {
      var merged := MergedReleased(loaded, newly, active);
      ok := true;
      if merged != loaded {
        var p := SaveReleased(world, merged, script);
        world, ok := p.world, p.Going?;
      }
    }

    method RaiseThenReclaim(missing: seq<FipEntry>, cfg: Config) returns (ok: bool, rec: Recovery)
      modifies this
      ensures RaiseAndReclaim(old(world), missing, cfg, script) == if ok then Going(world, rec) else Halted(world)
    {
      hide ReclaimAll;
      var raised;
      rec := Recovery([], []);
      ok, raised := UpdateQuota(cfg.desired + |missing|);
      if ok && !raised {
        ok := false;
      } else if ok {
        ok, rec := ReclaimMissing(missing, cfg.ext);
      }
    }

    method RecoverMissing(missing: seq<FipEntry>, cfg: Config) returns (ok: bool, rec: Recovery)
      modifies this
      ensures Recover(old(world), missing, cfg, script) == if ok then Going(world, rec) else Halted(world)
    {
      if cfg.reclaim {
        ok, rec := RaiseThenReclaim(missing, cfg);
      } else {
        var newly := ReleaseMissing(missing);
        ok, rec := true, Recovery([], newly);
      }
    }

    /** _reconcile_fip_drift. */
    method ReconcileDrift(config: seq<FipEntry>, loaded: seq<Released>, existing: seq<Fip>, cfg: Config)
      returns (ok: bool)
      modifies this
      ensures Drift(old(world), config, loaded, existing, cfg, script) == if ok then Going(world, ()) else Halted(world)
    {
      var missing := Missing(config, existing);
      var adopted;
      ok, adopted := AdoptUntracked(config, existing);
      if !ok { return; }
      if missing == [] {
        ok := ReconcileReleasedFips(loaded, config + adopted, []);
        return;
      }
      var rec;
      ok, rec := RecoverMissing(missing, cfg);
      if !ok { return; }
      var updated := Surviving(config, missing) + rec.reclaimed + adopted;
      ok := PersistFips(updated);
      if !ok { return; }
      ok := ReconcileReleasedFips(loaded, updated, rec.newly);
    }

    method PersistAndSetQuota(entries: seq<FipEntry>, cfg: Config) returns (outcome: Outcome)
      modifies this
      ensures Exit(world, outcome) == StoreAndSetQuota(old(world), entries, cfg, script)
    {
      var ok := PersistFips(entries);
      if !ok { return Aborted; }
      var noted;
      ok, noted := SetFipQuotaAndRecord(cfg.desired, |entries|);
      outcome := if ok then Completed else Aborted;
    }

    /** _scale_down_fips. */
    method ScaleDownFips(existing: seq<Fip>, cfg: Config) returns (outcome: Outcome)
      requires |existing| > cfg.desired
      modifies this
      ensures Exit(world, outcome) == ScaleDown(old(world), existing, cfg, script)
    {
      hide StoreAndSetQuota, Without, FipIds, Unused;
      var excess := |existing| - cfg.desired;
      var todo := ToDelete(existing, cfg.desired);
      var i := 0;
      while i < |todo|
        invariant 0 <= i <= |todo|
        invariant DeleteAll(old(world), todo, script) == DeleteAll(world, todo[i..], script)
      {
        assert todo[i..][1..] == todo[i + 1..];
        var p := DeleteCall(world, todo[i].id, script);
        world := p.world;
        if p.Halted? { return Aborted; }
        Record(Freed(todo[i].id));
        i := i + 1;
      }
      if excess > |todo| {
        Record(StillInUse(excess - |todo|));
      }
      var remaining := Without(existing, FipIds(todo));
      outcome := PersistAndSetQuota(Entries(remaining), cfg);
    }

    /** _create_floating_ip under the retry decorator. */
    method AllocateFloatingIp(net: NetId) returns (p: Progress<Fip>)
      modifies this
      ensures p == CreateCall(old(world), net, script) && world == p.world
    {
      var left := MAX_ATTEMPTS;
      while left > 0
        invariant CreateCall(old(world), net, script) == CreateAttempts(world, net, script, left)
      {
        var slot := script(world.pos);
        world := Tick(world);
        if slot.fault == FailsBefore { return Halted(world); }
        if slot.fault != Busy {
          var (w, r) := CreateOnce(world, net, slot.hint);
          world := w;
          if slot.fault == FailsAfter || (slot.fault == Fine && r.Refused?) { return Halted(world); }
          if slot.fault == Fine { return Going(world, r.fip); }
        }
        left := left - 1;
      }
      return Halted(world);
    }

    /** The allocation loop. */
    method CreateMissing(toAllocate: nat, net: NetId) returns (ok: bool, created: seq<FipEntry>)
      modifies this
      ensures CreateAll(old(world), toAllocate, net, [], script) == if ok then Going(world, created) else Halted(world)
    {
      created := [];
      ghost var left := toAllocate;
      for i := 0 to toAllocate
        invariant left == toAllocate - i
        invariant CreateAll(old(world), toAllocate, net, [], script) == CreateAll(world, left, net, created, script)
      {
        var p := AllocateFloatingIp(net);
        if p.Halted? { return false, created; }
        created := created + [EntryOf(p.value)];
        Record(Created(p.value.id));
        left := left - 1;
      }
      ok := true;
    }

    /** _scale_up_fips. */
    method ScaleUpFips(existing: seq<Fip>, cfg: Config) returns (outcome: Outcome)
      requires |existing| < cfg.desired
      modifies this
      ensures Exit(world, outcome) == ScaleUp(old(world), existing, cfg, script)
    {
      var toAllocate := cfg.desired - |existing|;
      var ok, raised := UpdateQuota(cfg.desired);
      if !ok || !raised { return Aborted; }
      var created;
      ok, created := CreateMissing(toAllocate, cfg.ext);
      if !ok { return Aborted; }
      outcome := PersistAndSetQuota(Entries(existing) + created, cfg);
    }

    method KeepExact(config: seq<FipEntry>, existing: seq<Fip>, cfg: Config) returns (outcome: Outcome)
      requires |existing| == cfg.desired
      modifies this
      ensures Exit(world, outcome) == ExactMatch(old(world), config, existing, cfg, script)
    {
      var ok, quotaAction := SetFipQuotaAndRecord(cfg.desired, |existing|);
      if !ok { return Aborted; }
      if cfg.track && EntryIds(config) != FipIds(existing) {
        ok := PersistFips(Entries(existing));
        if !ok { return Aborted; }
        var p := SaveSnapshot(world, Snapshot(cfg.desired, |existing|), script);
        world := p.world;
        if p.Halted? { return Aborted; }
      }
      if quotaAction.None? {
        Record(AlreadyAllocated);
      }
      return Completed;
    }

    method EnsurePreallocatedFips(cfg: Config) returns (outcome: Outcome)
      modifies this
      ensures Exit(world, outcome) == Run(old(world), cfg, script)
    {
      world := world.(actions := []);
      var config, loaded := world.stored, world.released;
      if cfg.desired == 0 {
        Record(NothingRequested);
        return Completed;
      }
      var ok := ListFips();
      if !ok { return Aborted; }
      var existing, foreign := Managed(world.fips, cfg.ext), Foreign(world.fips, cfg.ext);
      if foreign != [] {
        Record(ForeignFips(|foreign|));
      }
      if config != [] {
        var before := world.actions;
        ok := ReconcileDrift(config, loaded, existing, cfg);
        if !ok { return Aborted; }
        if world.actions != before {
          ok := ListFips();
          if !ok { return Aborted; }
          existing := Managed(world.fips, cfg.ext);
        }
      }
      if |existing| == cfg.desired {
        outcome := KeepExact(config, existing, cfg);
      } else if |existing| > cfg.desired {
        outcome := ScaleDownFips(existing, cfg);
      } else {
        outcome := ScaleUpFips(existing, cfg);
      }
    }
  }
}
