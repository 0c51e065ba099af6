/**
 One project through many runs: present, locked and absent, the state recorded after a run, and the
 decision to unshelve its servers (src/reconciler.py:149-345, :402-468, src/resources/project.py:81-187).

 Every step of a run can fail, before or after taking effect; a crash is such a failure, as nothing
 more happens to the project in that run. Runs are not dry and have a state store.
 */
module Lifecycle {
  import opened Common
  import opened Spans
  import opened Projects
  import opened Scopes

  datatype Fault = Fine | FailsBefore | FailsAfter

  type Script = nat -> Fault

  /** project is None without a project in the cloud, else whether it is enabled; last is the recorded state. */
  datatype World = World(project: Option<bool>, last: Option<ProjectState>, unshelves: nat, shelves: nat, clock: nat)

  datatype Config = Config(state: ProjectState, lifetime: Option<Lifetime>, enabled: bool)

  /** A run over the project; no scopes means all of them. */
  datatype Run = Run(cfg: Config, now: Instant, scopes: Option<set<Scope>>, script: Script) {
    function State(): ProjectState {
      EffectiveState(cfg.state, cfg.lifetime, now)
    }
  }

  datatype Progress = Progress(w: World, ok: bool)

  /** One step that turns the world into after when it takes effect. */
  function Attempt(w: World, after: World, script: Script): Progress {
    match script(w.clock)
    case Fine => Progress(after.(clock := w.clock + 1), true)
    case FailsBefore => Progress(w.(clock := w.clock + 1), false)
    case FailsAfter => Progress(after.(clock := w.clock + 1), false)
  }

  /** n steps that change nothing modelled here. */
  function Steps(w: World, n: nat, script: Script): Progress
    decreases n
  {
    if n == 0 then Progress(w, true)
    else
      var p := Attempt(w, w, script);
      if p.ok then Steps(p.w, n - 1, script) else p
  }

  /** Finds the project and creates it, or updates it where its settings differ. */
  function EnsureProject(w: World, enabled: bool, script: Script): Progress {
    Attempt(w, w.(project := Some(enabled)), script)
  }

  function ShouldUnshelve(w: World, cfg: Config, wasDisabled: Option<bool>): bool {
    if !cfg.enabled then false
    else if w.last.Some? then w.last == Some(Locked)
    else wasDisabled == Some(true)
  }

  function WasDisabled(w: World): Option<bool> {
    if w.project.Some? then Some(!w.project.value) else None
  }

  /** The handlers a present run calls, one step each; the network scope has two. */
  function HandlerSteps(scopes: Option<set<Scope>>): nat {
    var count := (s: Scope, n: nat) => if scopes.None? || s in scopes.value then n else 0;
    count(Roles, 1) + count(Network, 2) + count(Fips, 1) + count(PreallocNetwork, 1) + count(Quotas, 1)
      + count(SecurityGroups, 1) + count(Reservations, 1)
  }

  function Present1(w: World, r: Run): Progress {
    var a := Attempt(w, w, r.script);                                  // preflight
    if !a.ok then a
    else
      var b := EnsureProject(a.w, r.cfg.enabled, r.script);
      if !b.ok then b
      else
        var c := Steps(b.w, 2, r.script);                              // project_id and domain_id
        if !c.ok then c else Present2(c.w, r, WasDisabled(a.w))
  }

  function Present2(w: World, r: Run, wasDisabled: Option<bool>): Progress {
    var a := if r.scopes.None? then Attempt(w, w, r.script) else Progress(w, true);  // reads the record
    if !a.ok then a
    else
      var unshelve := r.scopes.None? && ShouldUnshelve(a.w, r.cfg, wasDisabled);
      var b := Steps(a.w, HandlerSteps(r.scopes), r.script);
      if !b.ok || !unshelve then b
      else Attempt(b.w, b.w.(unshelves := b.w.unshelves + 1), r.script)
  }

  function Locked1(w: World, r: Run): Progress {
    var a := EnsureProject(w, false, r.script);
    if !a.ok then a
    else
      var b := Steps(a.w, 2, r.script);
      if !b.ok then b else Attempt(b.w, b.w.(shelves := b.w.shelves + 1), r.script)
  }

  /** Looks the project up; if it exists: safety check, grants, roles, and the teardown that removes it. */
  function Absent1(w: World, r: Run): Progress {
    var a := Attempt(w, w, r.script);
    if !a.ok || a.w.project.None? then a
    else
      var b := Steps(a.w, 3, r.script);
      if !b.ok then b else Attempt(b.w, b.w.(project := None), r.script)
  }

  function Handle(w: World, r: Run): Progress {
    match r.State()
    case Present => Present1(w, r)
    case Locked => Locked1(w, r)
    case Absent => Absent1(w, r)
  }

  /** The state is recorded only after the whole handler has succeeded. */
  function RunOnce(w: World, r: Run): Progress {
    var a := Handle(w, r);
    if !a.ok then a
    else
      var b := Attempt(a.w, a.w, r.script);                            // last_reconciled_at
      if !b.ok then b else Attempt(b.w, b.w.(last := Some(r.State())), r.script)
  }

  // ---------- The reconciler ----------

  class Reconciler {
    var w: World
    const script: Script

    constructor (w: World, script: Script)
      ensures this.w == w && this.script == script
    {
      this.w := w;
      this.script := script;
    }

    method Do(after: World) returns (ok: bool)
      modifies this
      ensures Progress(w, ok) == Attempt(old(w), after, script)
    {
      var fault := script(w.clock);
      w := (if fault.FailsBefore? then w else after).(clock := w.clock + 1);
      ok := fault.Fine?;
    }

    method DoSteps(n: nat) returns (ok: bool)
      modifies this
      ensures Progress(w, ok) == Steps(old(w), n, script)
    {
      ok := true;
      var i := 0;
      while i < n && ok
        invariant 0 <= i <= n
        invariant Steps(old(w), n, script) == if ok then Steps(w, n - i, script) else Progress(w, ok)
      {
        ok := Do(w);
        i := i + 1;
      }
    }

    method ReconcilePresent(r: Run) returns (ok: bool)
      requires r.script == script
      modifies this
      ensures Progress(w, ok) == Present1(old(w), r)
    {
      ok := Do(w);
      if !ok {
        return;
      }
      var wasDisabled := WasDisabled(w);
      ok := Do(w.(project := Some(r.cfg.enabled)));
      if !ok {
        return;
      }
      ok := DoSteps(2);
      if !ok {
        return;
      }
      if r.scopes.None? {
        ok := Do(w);
        if !ok {
          return;
        }
      }
      var unshelve := r.scopes.None? && ShouldUnshelve(w, r.cfg, wasDisabled);
      ok := DoSteps(HandlerSteps(r.scopes));
      if ok && unshelve {
        ok := Do(w.(unshelves := w.unshelves + 1));
      }
    }

    method ReconcileLocked(r: Run) returns (ok: bool)
      requires r.script == script
      modifies this
      ensures Progress(w, ok) == Locked1(old(w), r)
    {
      ok := Do(w.(project := Some(false)));
      if !ok {
        return;
      }
      ok := DoSteps(2);
      if !ok {
        return;
      }
      ok := Do(w.(shelves := w.shelves + 1));
    }

    method ReconcileAbsent(r: Run) returns (ok: bool)
      requires r.script == script
      modifies this
      ensures Progress(w, ok) == Absent1(old(w), r)
    {
      ok := Do(w);
      if !ok || w.project.None? {
        return;
      }
      ok := DoSteps(3);
      if !ok {
        return;
      }
      ok := Do(w.(project := None));
    }

    method Reconcile(r: Run) returns (ok: bool)
      requires r.script == script
      modifies this
      ensures Progress(w, ok) == RunOnce(old(w), r)
    {
      hide Present1, Locked1, Absent1;
      var state := r.State();
      match state {
        case Present => ok := ReconcilePresent(r);
        case Locked => ok := ReconcileLocked(r);
        case Absent => ok := ReconcileAbsent(r);
      }
      if !ok {
        return;
      }
      ok := Do(w);
      if !ok {
        return;
      }
      ok := Do(w.(last := Some(state)));
    }
  }

  // ---------- One run ----------

  predicate SameRecord(a: World, b: World) {
    a.last == b.last && a.unshelves == b.unshelves
  }

  lemma {:induction false} StepsKeep(w: World, n: nat, script: Script)
    ensures var p := Steps(w, n, script); SameRecord(p.w, w) && p.w.project == w.project
    decreases n
  {
    if n > 0 {
      StepsKeep(Attempt(w, w, script).w, n - 1, script);
    }
  }

  /** What the record, or failing that the cloud, says about the transition. */
  predicate Transition(w: World) {
    if w.last.Some? then w.last == Some(Locked) else w.project == Some(false)
  }

  predicate Unshelves(w: World, r: Run) {
    r.State() == Present && r.cfg.enabled && r.scopes.None? && Transition(w)
  }

  lemma PresentCalls(w: World, r: Run)
    ensures var p := Present1(w, r);
      && p.w.last == w.last
      && w.unshelves <= p.w.unshelves <= w.unshelves + 1
      && (p.w.unshelves > w.unshelves ==> r.cfg.enabled && r.scopes.None? && Transition(w))
      && (p.ok ==> p.w.unshelves == w.unshelves + if r.cfg.enabled && r.scopes.None? && Transition(w) then 1 else 0)
  {
    hide Steps, HandlerSteps;
    var a := Attempt(w, w, r.script);
    if a.ok {
      var b := EnsureProject(a.w, r.cfg.enabled, r.script);
      if b.ok {
        StepsKeep(b.w, 2, r.script);
        var c := Steps(b.w, 2, r.script);
        if c.ok {
          var d := if r.scopes.None? then Attempt(c.w, c.w, r.script) else Progress(c.w, true);
          StepsKeep(d.w, HandlerSteps(r.scopes), r.script);
        }
      }
    }
  }

  lemma OthersCallNothing(w: World, r: Run)
    requires r.State() != Present
    ensures SameRecord(Handle(w, r).w, w)
  {
    hide Steps;
    if r.State() == Locked {
      StepsKeep(EnsureProject(w, false, r.script).w, 2, r.script);
    } else {
      StepsKeep(Attempt(w, w, r.script).w, 3, r.script);
    }
  }

  /**
   A run that changes the record has got through its whole handler: it has unshelved exactly if it is an
   enabled, unscoped present run that found the transition. A run that does not change it never unshelves
   without that either.
   */
  lemma UnshelveOnTransition(w: World, r: Run)
    ensures var p := RunOnce(w, r);
      && (p.w.last == w.last || p.w.last == Some(r.State()))
      && (p.ok ==> p.w.last == Some(r.State()))
      && (p.w.unshelves > w.unshelves ==> Unshelves(w, r))
      && (p.ok || p.w.last != w.last ==> p.w.unshelves == w.unshelves + if Unshelves(w, r) then 1 else 0)
      && w.unshelves <= p.w.unshelves
  {
    hide Present1, Locked1, Absent1;
    if r.State() == Present {
      PresentCalls(w, r);
    } else {
      OthersCallNothing(w, r);
    }
  }

  predicate SameProject(a: World, b: World) {
    a.project == b.project && a.shelves == b.shelves
  }

  lemma {:induction false} StepsKeepProject(w: World, n: nat, script: Script)
    ensures SameProject(Steps(w, n, script).w, w)
    decreases n
  {
    if n > 0 {
      StepsKeepProject(Attempt(w, w, script).w, n - 1, script);
    }
  }

  lemma PresentEffects(w: World, r: Run)
    ensures var p := Present1(w, r);
      p.w.shelves == w.shelves && (p.ok ==> p.w.project == Some(r.cfg.enabled))
  {
    hide Steps, HandlerSteps;
    var a := Attempt(w, w, r.script);
    var b := EnsureProject(a.w, r.cfg.enabled, r.script);
    StepsKeepProject(b.w, 2, r.script);
    var c := Steps(b.w, 2, r.script);
    var d := if r.scopes.None? then Attempt(c.w, c.w, r.script) else Progress(c.w, true);
    StepsKeepProject(d.w, HandlerSteps(r.scopes), r.script);
  }

  lemma OtherEffects(w: World, r: Run)
    ensures var p := Locked1(w, r);
      w.shelves <= p.w.shelves && (p.ok ==> p.w.project == Some(false) && p.w.shelves == w.shelves + 1)
    ensures var p := Absent1(w, r);
      p.w.shelves == w.shelves && (p.ok ==> p.w.project == None)
  {
    hide Steps;
    StepsKeepProject(EnsureProject(w, false, r.script).w, 2, r.script);
    StepsKeepProject(Attempt(w, w, r.script).w, 3, r.script);
  }

  /** Each scope brings its own handler, the network one two; the groups and the mapping are not part of a run. */
  lemma HandlersCalled(scopes: set<Scope>, s: Scope)
    requires s !in scopes
    ensures HandlerSteps(None) == 8 && HandlerSteps(Some({})) == 0
    ensures HandlerSteps(Some(scopes + {s})) == HandlerSteps(Some(scopes))
      + if s == Network then 2 else if s == KeystoneGroups || s == Federation then 0 else 1
  {}

  /** Servers are shelved only once the project is disabled. */
  lemma ShelvedIsDisabled(w: World, r: Run)
    ensures var v := RunOnce(w, r).w; v.shelves > w.shelves ==> v.project == Some(false)
  {
    hide Steps, HandlerSteps, Present1;
    PresentEffects(w, r);
    var a := EnsureProject(w, false, r.script);
    StepsKeepProject(a.w, 2, r.script);
    StepsKeepProject(Attempt(w, w, r.script).w, 3, r.script);
  }

  /**
   What a completed run leaves, from the configuration and the clock: the project gone if configured so or past
   a deadline that deletes, disabled with its servers shelved if configured locked or past a deadline that
   locks, and otherwise enabled or not as configured.
   */
  lemma CompletedRunEffects(w: World, r: Run)
    requires RunOnce(w, r).ok
    ensures var v, c := RunOnce(w, r).w, r.cfg;
      var past := c.lifetime.Some? && c.lifetime.value.until < r.now;
      var gone := c.state == Absent || (past && c.lifetime.value.action == Delete);
      var locked := !gone && (c.state == Locked || past);
      && v.last == Some(if gone then Absent else if locked then Locked else Present)
      && v.project == (if gone then None else if locked then Some(false) else Some(c.enabled))
      && v.shelves == w.shelves + if locked then 1 else 0
  {
    hide Present1, Locked1, Absent1;
    PresentEffects(w, r);
    OtherEffects(w, r);
  }

  // ---------- Many runs ----------

  /** A run, or a change that others make to the project. */
  datatype Event = Reconciled(run: Run) | Outside(project: Option<bool>)

  function After(w: World, e: Event): World {
    match e
    case Reconciled(r) => RunOnce(w, r).w
    case Outside(project) => w.(project := project)
  }

  function History(w: World, events: seq<Event>): World {
    if events == [] then w else After(History(w, events[..|events| - 1]), events[|events| - 1])
  }

  predicate PresentOnly(events: seq<Event>) {
    forall i :: 0 <= i < |events| && events[i].Reconciled? ==> events[i].run.State() == Present
  }

  /** Once a state other than locked is recorded, present runs never unshelve. */
  lemma {:induction false} NeverUnshelvesAgain(w: World, events: seq<Event>)
    requires w.last.Some? && w.last != Some(Locked) && PresentOnly(events)
    ensures var v := History(w, events);
      (v.last == w.last || v.last == Some(Present)) && v.unshelves == w.unshelves
  {
    hide RunOnce;
    if events != [] {
      var n := |events| - 1;
      NeverUnshelvesAgain(w, events[..n]);
      if events[n].Reconciled? {
        UnshelveOnTransition(History(w, events[..n]), events[n].run);
      }
    }
  }

  /** The run at position i records present over locked. */
  ghost predicate Reopens(w: World, events: seq<Event>, i: nat) {
    && i < |events| && events[i].Reconciled?
    && History(w, events[..i]).last == Some(Locked)
    && History(w, events[..i + 1]).last == Some(Present)
  }

  /**
   After a recorded lock, whatever present runs follow and wherever they fail, either locked is still
   recorded, or exactly one run has recorded present over it, this run has unshelved if it is enabled and
   unscoped, and no run after it has unshelved.
   */
  lemma {:induction false} LockIsUndoneOnce(w: World, events: seq<Event>)
    requires w.last == Some(Locked) && PresentOnly(events)
    ensures var v := History(w, events);
      v.last == Some(Locked) || exists i: nat :: Reopens(w, events, i) && UndoneAt(w, events, i)
  {
    hide RunOnce;
    if events != [] {
      var n := |events| - 1;
      LockIsUndoneOnce(w, events[..n]);
      var before := History(w, events[..n]);
      if events[n].Reconciled? {
        UnshelveOnTransition(before, events[n].run);
      }
      if before.last == Some(Locked) {
        if History(w, events).last != Some(Locked) {
          assert events[..n + 1] == events;
          assert Reopens(w, events, n) && UndoneAt(w, events, n);
        }
      } else {
        var i: nat :| Reopens(w, events[..n], i) && UndoneAt(w, events[..n], i);
        assert events[..n][..i] == events[..i] && events[..n][..i + 1] == events[..i + 1];
        ReopenedIsPresent(w, events[..n], i);
        assert Reopens(w, events, i) && UndoneAt(w, events, i);
      }
    }
  }

  ghost predicate UndoneAt(w: World, events: seq<Event>, i: nat)
    requires i < |events| && events[i].Reconciled?
  {
    var r := events[i].run;
    var before, done := History(w, events[..i]).unshelves, History(w, events[..i + 1]).unshelves;
    && (done == before + if r.cfg.enabled && r.scopes.None? then 1 else 0)
    && History(w, events).unshelves == done
  }

  lemma HistorySplit(w: World, a: seq<Event>, b: seq<Event>)
    ensures History(w, a + b) == History(History(w, a), b)
    decreases |b|
  {
    if b == [] {
      assert a + b == a;
    } else {
      var n := |b| - 1;
      assert (a + b)[..|a + b| - 1] == a + b[..n];
      HistorySplit(w, a, b[..n]);
    }
  }

  lemma ReopenedIsPresent(w: World, events: seq<Event>, i: nat)
    requires Reopens(w, events, i) && PresentOnly(events)
    ensures History(w, events).last == Some(Present)
  {
    assert events == events[..i + 1] + events[i + 1..];
    HistorySplit(w, events[..i + 1], events[i + 1..]);
    NeverUnshelvesAgain(History(w, events[..i + 1]), events[i + 1..]);
  }

  /** With one configuration and a clock that does not go back, nothing is unshelved once the state has tightened. */
  lemma {:induction false} TightenedStaysShut(w: World, events: seq<Event>, cfg: Config, since: Instant)
    requires EffectiveState(cfg.state, cfg.lifetime, since) != Present
    requires forall e :: e in events && e.Reconciled? ==> e.run.cfg == cfg && e.run.now >= since
    ensures History(w, events).unshelves == w.unshelves
  {
    hide RunOnce;
    if events != [] {
      var n := |events| - 1;
      TightenedStaysShut(w, events[..n], cfg, since);
      assert events[n] in events;
      if events[n].Reconciled? {
        EffectiveStateTightens(cfg.state, cfg.lifetime, since, events[n].run.now);
        UnshelveOnTransition(History(w, events[..n]), events[n].run);
      }
    }
  }

  // ---------- Without a record ----------

  /** The preflight of the run is served, and setting the project up takes effect, whether or not it is answered. */
  predicate Enables(r: Run, clock: nat) {
    r.script(clock) == Fine && r.script(clock + 1) != FailsBefore
  }

  lemma PresentEnables(w: World, r: Run)
    requires r.State() == Present && r.cfg.enabled
    ensures RunOnce(w, r).w.project == if Enables(r, w.clock) then Some(true) else w.project
  {
    hide Steps, HandlerSteps;
    var a := Attempt(w, w, r.script);
    if a.ok {
      var b := EnsureProject(a.w, r.cfg.enabled, r.script);
      if b.ok {
        StepsKeep(b.w, 2, r.script);
        var c := Steps(b.w, 2, r.script);
        if c.ok {
          var d := if r.scopes.None? then Attempt(c.w, c.w, r.script) else Progress(c.w, true);
          StepsKeep(d.w, HandlerSteps(r.scopes), r.script);
        }
      }
    }
  }

  ghost predicate AllPresentEnabled(runs: seq<Run>) {
    forall r :: r in runs ==> r.State() == Present && r.cfg.enabled && r.scopes.None?
  }

  function Runs(w: World, runs: seq<Run>): World {
    if runs == [] then w else RunOnce(Runs(w, runs[..|runs| - 1]), runs[|runs| - 1]).w
  }

  /** One of the runs set the project up. */
  ghost predicate SomeEnables(w: World, runs: seq<Run>) {
    exists i :: 0 <= i < |runs| && Enables(runs[i], Runs(w, runs[..i]).clock)
  }

  lemma {:induction false} ProjectAfter(w: World, runs: seq<Run>)
    requires AllPresentEnabled(runs)
    ensures Runs(w, runs).project == if SomeEnables(w, runs) then Some(true) else w.project
  {
    hide RunOnce, Enables;
    if runs != [] {
      var n := |runs| - 1;
      assert runs[n] in runs;
      ProjectAfter(w, runs[..n]);
      PresentEnables(Runs(w, runs[..n]), runs[n]);
      SomeStep(w, runs);
    }
  }

  lemma SomeStep(w: World, runs: seq<Run>)
    requires runs != []
    ensures var n := |runs| - 1;
      SomeEnables(w, runs) <==> SomeEnables(w, runs[..n]) || Enables(runs[n], Runs(w, runs[..n]).clock)
  {
    hide Enables, Runs;
    var n := |runs| - 1;
    assert forall i :: 0 <= i < n ==> runs[..n][i] == runs[i] && runs[..n][..i] == runs[..i];
    if i :| 0 <= i < n && Enables(runs[..n][i], Runs(w, runs[..n][..i]).clock) {
      assert Enables(runs[i], Runs(w, runs[..i]).clock);
    }
    if i :| 0 <= i < |runs| && Enables(runs[i], Runs(w, runs[..i]).clock) && i < n {
      assert Enables(runs[..n][i], Runs(w, runs[..n][..i]).clock);
    }
  }

  /**
   Without a recorded state the transition is read off the disabled project, and this is lost by a run that
   sets the project up and then fails: a later completed run unshelves exactly if in no earlier one the
   set-up took effect.
   */
  lemma FallbackForgets(w: World, runs: seq<Run>, r: Run)
    requires w.project == Some(false) && AllPresentEnabled(runs) && AllPresentEnabled([r])
    requires Runs(w, runs).last == None && RunOnce(Runs(w, runs), r).ok
    ensures var v := Runs(w, runs);
      RunOnce(v, r).w.unshelves == v.unshelves + if SomeEnables(w, runs) then 0 else 1
  {
    hide RunOnce, Enables;
    assert r in [r];
    ProjectAfter(w, runs);
    UnshelveOnTransition(Runs(w, runs), r);
  }

  /** A run that fails in its first handler, and the run after it that no longer unshelves. */
  lemma FallbackExample() returns (w: World, first: Run, second: Run)
    ensures w.last == None && w.project == Some(false)
    ensures AllPresentEnabled([first, second])
    ensures var v := RunOnce(w, first).w; RunOnce(v, second).ok && RunOnce(v, second).w.unshelves == 0
  {
    w := World(Some(false), None, 0, 0, 0);
    first := Run(Config(Present, None, true), 0, None, (n: nat) => if n == 5 then FailsBefore else Fine);
    second := Run(Config(Present, None, true), 0, None, (n: nat) => Fine);
    var v := RunOnce(w, first).w;
    FirstFails(w, first);
    AllFine(v, second);
    UnshelveOnTransition(v, second);
  }

  lemma FirstFails(w: World, r: Run)
    requires w == World(Some(false), None, 0, 0, 0) && r.State() == Present && r.cfg.enabled && r.scopes.None?
    requires forall n: nat :: r.script(n) == if n == 5 then FailsBefore else Fine
    ensures var v := RunOnce(w, r).w; v.project == Some(true) && v.last == None && v.unshelves == 0
  {
    var a := Attempt(w, w, r.script).w;
    var b := EnsureProject(a, true, r.script).w;
    assert Steps(b, 2, r.script) == Progress(b.(clock := 4), true) by {
      assert Steps(b, 1, r.script) == Progress(b.(clock := 3), true);
    }
    assert HandlerSteps(r.scopes) == 8;
  }

  lemma {:induction false} StepsFine(w: World, n: nat, script: Script)
    requires forall k: nat :: script(k) == Fine
    ensures Steps(w, n, script).ok
    decreases n
  {
    if n > 0 {
      StepsFine(Attempt(w, w, script).w, n - 1, script);
    }
  }

  lemma AllFine(w: World, r: Run)
    requires r.State() == Present && forall k: nat :: r.script(k) == Fine
    ensures RunOnce(w, r).ok
  {
    hide Steps, HandlerSteps;
    var a := Attempt(w, w, r.script);
    var b := EnsureProject(a.w, r.cfg.enabled, r.script);
    StepsFine(b.w, 2, r.script);
    var c := Steps(b.w, 2, r.script);
    var d := if r.scopes.None? then Attempt(c.w, c.w, r.script) else Progress(c.w, true);
    StepsFine(d.w, HandlerSteps(r.scopes), r.script);
  }
}
