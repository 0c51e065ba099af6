/**
 Any number of processes saving to and loading from one state file at the same time
 (src/state_store.py:155-184, :186-238), one step of one process at a time, with a crash possible
 at every step.

 Every process performs one call. The lock excludes other processes and is freed by the operating
 system when its holder dies; the temporary file has one name, shared by all processes.
 */
module StoreConcurrency {
  import opened Common
  import opened StateTree
  import opened StateStore

  datatype Job = Save(path: Path, value: Option<Tree>) | Load

  datatype Outcome = Saved | Loaded(data: Entries) | Refused(error: Error) | NotWritten | TimedOut | Crashed

  datatype Phase =
    | Idle
    | Waiting
    | Locked
    | HasRead(file: File)
    | Opened(data: Entries)
    | Written(data: Entries)
    | Leaving(outcome: Outcome)
    | Finished(outcome: Outcome)

  datatype Temp = Absent | Partial | Full(data: Entries)

  /**
   log lists the processes that renamed, in order; since is the length of log when a process began.
   Neither is visible to the program.
   */
  datatype System = System(file: File, temp: Temp, lock: Option<nat>, phases: map<nat, Phase>,
                           log: seq<nat>, since: map<nat, nat>) {
    function Phase(p: nat): Phase {
      if p in phases then phases[p] else Idle
    }

    function To(p: nat, phase: Phase): System {
      this.(phases := phases[p := phase])
    }

    function Unlocked(p: nat): System {
      if lock == Some(p) then this.(lock := None) else this
    }
  }

  datatype Action =
    | Begin(p: nat)
    | Acquire(p: nat)
    | GiveUp(p: nat)
    | ReadFile(p: nat)
    | OpenTemp(p: nat)
    | FinishTemp(p: nat)
    | DumpFails(p: nat)
    | Rename(p: nat)
    | Release(p: nat)
    | Crash(p: nat)

  type Jobs = nat -> Job

  /** A load of a missing file returns without the lock, a save to no path fails without it. */
  function BeginStep(jobs: Jobs, s: System, p: nat): System {
    var s1 := s.(since := s.since[p := |s.log|]);
    if jobs(p).Save? && jobs(p).path == [] then s1.To(p, Finished(Refused(EmptyPath)))
    else if jobs(p).Load? && s.file.Missing? then s1.To(p, Finished(Loaded(map[])))
    else s1.To(p, Waiting)
  }

  function OpenStep(jobs: Jobs, s: System, p: nat, f: File): System
    requires jobs(p).Save?
  {
    var error := SaveFileError(f, jobs(p).path, jobs(p).value);
    if error.Some? then s.To(p, Leaving(Refused(error.value)))
    else s.(temp := Partial).To(p, Opened(LoadFile(SaveFile(f, jobs(p).path, jobs(p).value))))
  }

  /** The rename moves whatever the temporary file holds. */
  function RenameStep(s: System, p: nat): System {
    s.(file := if s.temp.Full? then Mapping(s.temp.data) else Corrupt, temp := Absent, log := s.log + [p])
     .To(p, Leaving(Saved))
  }

  /** One action; an action that is not possible changes nothing. */
  function Step(jobs: Jobs, s: System, a: Action): System {
    var phase := s.Phase(a.p);
    match a
    case Begin(p) => if phase.Idle? then BeginStep(jobs, s, p) else s
    case Acquire(p) => if phase.Waiting? && s.lock == None then s.(lock := Some(p)).To(p, Locked) else s
    case GiveUp(p) => if phase.Waiting? then s.To(p, Finished(TimedOut)) else s
    case ReadFile(p) =>
      if !phase.Locked? then s
      else if jobs(p).Load? then s.To(p, Leaving(Loaded(LoadFile(s.file))))
      else s.To(p, HasRead(s.file))
    case OpenTemp(p) => if phase.HasRead? && jobs(p).Save? then OpenStep(jobs, s, p, phase.file) else s
    case FinishTemp(p) => if phase.Opened? then s.(temp := Full(phase.data)).To(p, Written(phase.data)) else s
    case DumpFails(p) => if phase.Opened? then s.To(p, Leaving(NotWritten)) else s
    case Rename(p) => if phase.Written? then RenameStep(s, p) else s
    case Release(p) => if phase.Leaving? then s.Unlocked(p).To(p, Finished(phase.outcome)) else s
    case Crash(p) => if phase.Finished? || phase.Idle? then s else s.Unlocked(p).To(p, Finished(Crashed))
  }

  function Exec(jobs: Jobs, s: System, actions: seq<Action>): System {
    if actions == [] then s
    else Step(jobs, Exec(jobs, s, actions[..|actions| - 1]), actions[|actions| - 1])
  }

  /** Nobody has begun; a temporary file may remain from an earlier crash. */
  predicate Initial(s: System) {
    s.lock == None && s.phases == map[] && s.log == [] && s.since == map[]
  }

  /** The saves of a list of processes, one after the other. */
  function Serial(jobs: Jobs, f: File, log: seq<nat>): File {
    if log == [] then f
    else
      var before := Serial(jobs, f, log[..|log| - 1]);
      var job := jobs(log[|log| - 1]);
      if job.Save? then SaveFile(before, job.path, job.value) else before
  }

  predicate Inside(phase: Phase) {
    phase.Locked? || phase.HasRead? || phase.Opened? || phase.Written? || phase.Leaving?
  }

  predicate Ended(phase: Phase, outcome: Outcome) {
    phase == Leaving(outcome) || phase == Finished(outcome)
  }

  ghost predicate Exclusive(s: System) {
    forall p: nat :: Inside(s.Phase(p)) <==> s.lock == Some(p)
  }

  /** What the process inside has read and written agrees with the file. */
  ghost predicate InStep(jobs: Jobs, s: System, p: nat) {
    match s.Phase(p)
    case HasRead(f) => jobs(p).Save? && jobs(p).path != [] && f == s.file
    case Opened(d) => Pending(jobs, s, p, d)
    case Written(d) => Pending(jobs, s, p, d) && s.temp == Full(d)
    case Locked => jobs(p).Save? ==> jobs(p).path != []
    case Waiting => jobs(p).Save? ==> jobs(p).path != []
    case _ => true
  }

  ghost predicate Pending(jobs: Jobs, s: System, p: nat, d: Entries) {
    && jobs(p).Save?
    && SaveFileError(s.file, jobs(p).path, jobs(p).value) == None
    && SaveFile(s.file, jobs(p).path, jobs(p).value) == Mapping(d)
  }

  /** A process is in the log exactly once if its save returned, at most once if it crashed, and never otherwise. */
  ghost predicate Logged(jobs: Jobs, s: System, p: nat) {
    && (Ended(s.Phase(p), Saved) ==> p in s.log)
    && (p in s.log ==> Ended(s.Phase(p), Saved) || s.Phase(p) == Finished(Crashed))
    && (p in s.log ==> jobs(p).Save? && jobs(p).path != [] && jobs(p).value.Some?)
  }

  /**
   A loaded dictionary is what the file held after some number of renames, none of them undone before the
   load began.
   */
  ghost predicate SawPrefix(jobs: Jobs, init: File, s: System, p: nat, d: Entries) {
    exists n: nat :: SawAt(jobs, init, s, p, d, n)
  }

  ghost predicate SawAt(jobs: Jobs, init: File, s: System, p: nat, d: Entries, n: nat) {
    n <= |s.log| && p in s.since && s.since[p] <= n && d == LoadFile(Serial(jobs, init, s.log[..n]))
  }

  ghost predicate Invariant(jobs: Jobs, init: File, s: System) {
    && s.file == Serial(jobs, init, s.log)
    && NoDup(s.log)
    && Exclusive(s)
    && (forall p: nat :: InStep(jobs, s, p))
    && (forall p: nat :: Logged(jobs, s, p))
    && (forall p: nat :: s.Phase(p) != Idle ==> p in s.since && s.since[p] <= |s.log|)
    && (forall p: nat, d :: Ended(s.Phase(p), Loaded(d)) ==> SawPrefix(jobs, init, s, p, d))
    && (forall i :: 0 <= i < |s.log| ==> s.log[i] in s.since && s.since[s.log[i]] <= i)
  }

  // ---------- Every step keeps the invariant ----------

  lemma PhaseAfter(s: System, p: nat, phase: Phase)
    ensures s.To(p, phase).Phase(p) == phase
    ensures forall q: nat :: q != p ==> s.To(p, phase).Phase(q) == s.Phase(q)
  {}

  /** Steps that touch neither the file nor the log: only the process itself has to be looked at. */
  lemma QuietStep(jobs: Jobs, init: File, s: System, p: nat, t: System)
    requires Invariant(jobs, init, s)
    requires t.file == s.file && t.log == s.log && t.since == s.since
    requires forall q: nat :: q != p ==> t.Phase(q) == s.Phase(q)
    requires Exclusive(t) && InStep(jobs, t, p) && Logged(jobs, t, p)
    requires t.temp == s.temp || s.lock == Some(p)
    requires t.Phase(p) != Idle ==> p in t.since && t.since[p] <= |t.log|
    requires forall d :: Ended(t.Phase(p), Loaded(d)) ==> SawPrefix(jobs, init, t, p, d)
    ensures Invariant(jobs, init, t)
  {
    forall q: nat | q != p ensures InStep(jobs, t, q) && Logged(jobs, t, q) {
      assert InStep(jobs, s, q) && Logged(jobs, s, q);
      assert Inside(s.Phase(q)) ==> s.lock == Some(q);
    }
    forall q: nat, d | Ended(t.Phase(q), Loaded(d)) ensures SawPrefix(jobs, init, t, q, d) {
      if q != p {
        assert SawPrefix(jobs, init, s, q, d);
        var n: nat :| SawAt(jobs, init, s, q, d, n);
        assert SawAt(jobs, init, t, q, d, n);
      }
    }
  }

  lemma BeginLocal(jobs: Jobs, s: System, p: nat)
    requires Exclusive(s) && Logged(jobs, s, p) && s.Phase(p).Idle?
    ensures var t := BeginStep(jobs, s, p);
      && t == s.(since := s.since[p := |s.log|]).To(p, t.Phase(p))
      && Exclusive(t) && InStep(jobs, t, p) && Logged(jobs, t, p) && p !in s.log
      && (forall d :: Ended(t.Phase(p), Loaded(d)) ==> d == map[] && s.file.Missing?)
  {
    assert !Inside(s.Phase(p));
  }

  lemma BeginKeeps(jobs: Jobs, init: File, s: System, p: nat)
    requires Invariant(jobs, init, s)
    ensures Invariant(jobs, init, Step(jobs, s, Begin(p)))
  {
    if s.Phase(p).Idle? {
      hide BeginStep, Exclusive, InStep, Logged, Serial;
      var s1 := s.(since := s.since[p := |s.log|]);
      BeginLocal(jobs, s, p);
      SinceKeeps(jobs, init, s, p);
      var t := BeginStep(jobs, s, p);
      if s.file.Missing? {
        assert s.log[..|s.log|] == s.log;
        assert SawAt(jobs, init, t, p, map[], |s.log|);
      }
      QuietStep(jobs, init, s1, p, t);
    }
  }

  lemma SinceKeeps(jobs: Jobs, init: File, s: System, p: nat)
    requires Invariant(jobs, init, s) && s.Phase(p).Idle? && p !in s.log
    ensures Invariant(jobs, init, s.(since := s.since[p := |s.log|]))
  {
    var t := s.(since := s.since[p := |s.log|]);
    forall q: nat ensures InStep(jobs, t, q) && Logged(jobs, t, q) {
      assert InStep(jobs, s, q) && Logged(jobs, s, q);
    }
    forall q: nat, d | Ended(t.Phase(q), Loaded(d)) ensures SawPrefix(jobs, init, t, q, d) {
      assert SawPrefix(jobs, init, s, q, d);
      var n: nat :| SawAt(jobs, init, s, q, d, n);
      assert SawAt(jobs, init, t, q, d, n);
    }
  }

  lemma AcquireKeeps(jobs: Jobs, init: File, s: System, p: nat)
    requires Invariant(jobs, init, s)
    ensures Invariant(jobs, init, Step(jobs, s, Acquire(p)))
  {
    if s.Phase(p).Waiting? && s.lock == None {
      var t := s.(lock := Some(p)).To(p, Locked);
      assert InStep(jobs, s, p) && Logged(jobs, s, p);
      QuietStep(jobs, init, s, p, t);
    }
  }

  lemma ReadKeeps(jobs: Jobs, init: File, s: System, p: nat)
    requires Invariant(jobs, init, s)
    ensures Invariant(jobs, init, Step(jobs, s, ReadFile(p)))
  {
    if s.Phase(p).Locked? {
      var t := Step(jobs, s, ReadFile(p));
      assert InStep(jobs, s, p) && Logged(jobs, s, p) && Inside(s.Phase(p));
      if jobs(p).Load? {
        assert s.log[..|s.log|] == s.log;
        assert SawAt(jobs, init, t, p, LoadFile(s.file), |s.log|);
      }
      QuietStep(jobs, init, s, p, t);
    }
  }

  /** Steps on the temporary file, and steps out of the lock. */
  lemma TempKeeps(jobs: Jobs, init: File, s: System, a: Action)
    requires Invariant(jobs, init, s) && (a.OpenTemp? || a.FinishTemp? || a.DumpFails?)
    ensures Invariant(jobs, init, Step(jobs, s, a))
  {
    var t := Step(jobs, s, a);
    if t != s {
      assert InStep(jobs, s, a.p) && Logged(jobs, s, a.p) && Inside(s.Phase(a.p));
      QuietStep(jobs, init, s, a.p, t);
    }
  }

  lemma LeaveKeeps(jobs: Jobs, init: File, s: System, a: Action)
    requires Invariant(jobs, init, s) && (a.GiveUp? || a.Release?)
    ensures Invariant(jobs, init, Step(jobs, s, a))
  {
    var p := a.p;
    var t := Step(jobs, s, a);
    if t != s {
      assert InStep(jobs, s, p) && Logged(jobs, s, p);
      assert Inside(s.Phase(p)) <==> s.lock == Some(p);
      forall d | Ended(t.Phase(p), Loaded(d)) ensures SawPrefix(jobs, init, t, p, d) {
        assert SawPrefix(jobs, init, s, p, d);
        var n: nat :| SawAt(jobs, init, s, p, d, n);
        assert SawAt(jobs, init, t, p, d, n);
      }
      QuietStep(jobs, init, s, p, t);
    }
  }

  lemma CrashKeeps(jobs: Jobs, init: File, s: System, p: nat)
    requires Invariant(jobs, init, s)
    ensures Invariant(jobs, init, Step(jobs, s, Crash(p)))
  {
    var t := Step(jobs, s, Crash(p));
    if t != s {
      assert InStep(jobs, s, p) && Logged(jobs, s, p);
      assert Inside(s.Phase(p)) <==> s.lock == Some(p);
      QuietStep(jobs, init, s, p, t);
    }
  }

  lemma SerialSnoc(jobs: Jobs, f: File, log: seq<nat>, p: nat)
    requires jobs(p).Save?
    ensures Serial(jobs, f, log + [p]) == SaveFile(Serial(jobs, f, log), jobs(p).path, jobs(p).value)
  {
    assert (log + [p])[..|log|] == log;
  }

  lemma RenameOthers(jobs: Jobs, init: File, s: System, p: nat, t: System, q: nat)
    requires Invariant(jobs, init, s) && s.Phase(p).Written? && t == RenameStep(s, p)
    ensures InStep(jobs, t, q) && Logged(jobs, t, q)
    ensures Inside(t.Phase(q)) <==> t.lock == Some(q)
  {
    assert InStep(jobs, s, q) && Logged(jobs, s, q);
    assert InStep(jobs, s, p) && Inside(s.Phase(p));
    assert Inside(s.Phase(q)) <==> s.lock == Some(q);
    PhaseAfter(s, p, Leaving(Saved));
    assert q in t.log <==> q in s.log || q == p;
  }

  lemma RenameFile(jobs: Jobs, init: File, s: System, p: nat)
    requires Invariant(jobs, init, s) && s.Phase(p).Written?
    ensures RenameStep(s, p).file == Serial(jobs, init, s.log + [p]) && p !in s.log
  {
    assert InStep(jobs, s, p) && Logged(jobs, s, p);
    SerialSnoc(jobs, init, s.log, p);
  }

  /** The rename is the moment at which a save takes effect. */
  lemma RenameKeeps(jobs: Jobs, init: File, s: System, p: nat)
    requires Invariant(jobs, init, s)
    ensures Invariant(jobs, init, Step(jobs, s, Rename(p)))
  {
    hide InStep, Logged, Serial, SawPrefix, Inside;
    if s.Phase(p).Written? {
      var t := RenameStep(s, p);
      RenameFile(jobs, init, s, p);
      forall q: nat ensures InStep(jobs, t, q) && Logged(jobs, t, q) && (Inside(t.Phase(q)) <==> t.lock == Some(q)) {
        RenameOthers(jobs, init, s, p, t, q);
      }
      RenameLoads(jobs, init, s, p, t);
    }
  }

  lemma RenameLoads(jobs: Jobs, init: File, s: System, p: nat, t: System)
    requires Invariant(jobs, init, s) && s.Phase(p).Written? && t == RenameStep(s, p)
    ensures forall q: nat, d :: Ended(t.Phase(q), Loaded(d)) ==> SawPrefix(jobs, init, t, q, d)
  {
    forall q: nat, d | Ended(t.Phase(q), Loaded(d)) ensures SawPrefix(jobs, init, t, q, d) {
      assert SawPrefix(jobs, init, s, q, d);
      var n: nat :| SawAt(jobs, init, s, q, d, n);
      assert t.log[..n] == s.log[..n];
      assert SawAt(jobs, init, t, q, d, n);
    }
  }

  lemma StepKeeps(jobs: Jobs, init: File, s: System, a: Action)
    requires Invariant(jobs, init, s)
    ensures Invariant(jobs, init, Step(jobs, s, a))
  {
    hide Invariant, Step;
    match a
    case Begin(p) => BeginKeeps(jobs, init, s, p);
    case Acquire(p) => AcquireKeeps(jobs, init, s, p);
    case GiveUp(p) => LeaveKeeps(jobs, init, s, a);
    case ReadFile(p) => ReadKeeps(jobs, init, s, p);
    case OpenTemp(p) => TempKeeps(jobs, init, s, a);
    case FinishTemp(p) => TempKeeps(jobs, init, s, a);
    case DumpFails(p) => TempKeeps(jobs, init, s, a);
    case Rename(p) => RenameKeeps(jobs, init, s, p);
    case Release(p) => LeaveKeeps(jobs, init, s, a);
    case Crash(p) => CrashKeeps(jobs, init, s, p);
  }

  lemma {:induction false} ExecKeeps(jobs: Jobs, init: File, s: System, actions: seq<Action>)
    requires Invariant(jobs, init, s)
    ensures Invariant(jobs, init, Exec(jobs, s, actions))
  {
    hide Invariant, Step;
    if actions != [] {
      ExecKeeps(jobs, init, s, actions[..|actions| - 1]);
      StepKeeps(jobs, init, Exec(jobs, s, actions[..|actions| - 1]), actions[|actions| - 1]);
    }
  }

  lemma AlwaysInvariant(jobs: Jobs, s: System, actions: seq<Action>)
    requires Initial(s)
    ensures Invariant(jobs, s.file, Exec(jobs, s, actions))
  {
    assert Invariant(jobs, s.file, s);
    ExecKeeps(jobs, s.file, s, actions);
  }

  /** The log only grows, and a process that has not begun yet will begin with at least the present log. */
  ghost predicate Later(s: System, t: System) {
    && s.log <= t.log
    && (forall q: nat :: s.Phase(q) == Idle && t.Phase(q) != Idle ==> q in t.since && |s.log| <= t.since[q])
  }

  lemma {:induction false} ExecLater(jobs: Jobs, s: System, actions: seq<Action>)
    ensures Later(s, Exec(jobs, s, actions))
  {
    if actions != [] {
      ExecLater(jobs, s, actions[..|actions| - 1]);
      StepLater(jobs, s, Exec(jobs, s, actions[..|actions| - 1]), actions[|actions| - 1]);
    }
  }

  lemma StepLater(jobs: Jobs, s: System, t: System, a: Action)
    requires Later(s, t)
    ensures Later(s, Step(jobs, t, a))
  {
    hide Step;
    var u := Step(jobs, t, a);
    StepLog(jobs, t, a);
    forall q: nat | s.Phase(q) == Idle && u.Phase(q) != Idle ensures q in u.since && |s.log| <= u.since[q] {
      StepSince(jobs, t, a, q);
    }
  }

  lemma StepLog(jobs: Jobs, t: System, a: Action)
    ensures t.log <= Step(jobs, t, a).log
  {}

  lemma StepSince(jobs: Jobs, t: System, a: Action, q: nat)
    ensures var u := Step(jobs, t, a);
      && (t.Phase(q) != Idle && q in t.since ==> q in u.since && u.since[q] == t.since[q])
      && (t.Phase(q) == Idle && u.Phase(q) != Idle ==> q in u.since && u.since[q] == |t.log|)
  {}

  // ---------- What holds of every run ----------

  /** The file is always the serial order of exactly the renamed saves. */
  lemma FileIsSerial(jobs: Jobs, s: System, actions: seq<Action>)
    requires Initial(s)
    ensures var t := Exec(jobs, s, actions);
      t.file == Serial(jobs, s.file, t.log) && NoDup(t.log)
  {
    AlwaysInvariant(jobs, s, actions);
  }

  /** What a call reports tells whether its save took effect; only a crash leaves this open. */
  lemma OutcomeTellsFate(jobs: Jobs, s: System, actions: seq<Action>, p: nat)
    requires Initial(s)
    ensures var t := Exec(jobs, s, actions);
      && (t.Phase(p) == Finished(Saved) ==> p in t.log)
      && (t.Phase(p).Finished? && t.Phase(p).outcome != Saved && t.Phase(p).outcome != Crashed ==> p !in t.log)
      && (p in t.log ==> jobs(p).Save? && jobs(p).path != [] && jobs(p).value.Some?)
  {
    AlwaysInvariant(jobs, s, actions);
    assert Logged(jobs, s, p) by {
      assert s.Phase(p) == Idle;
    }
    assert Logged(jobs, Exec(jobs, s, actions), p);
  }

  /** A load returns what the file held at one moment between its beginning and its end. */
  lemma LoadsSeeSerialStates(jobs: Jobs, s: System, actions: seq<Action>, p: nat, d: Entries)
    requires Initial(s) && Exec(jobs, s, actions).Phase(p) == Finished(Loaded(d))
    ensures var t := Exec(jobs, s, actions);
      exists n: nat :: (&& n <= |t.log| && p in t.since && t.since[p] <= n
                        && d == LoadFile(Serial(jobs, s.file, t.log[..n])))
  {
    AlwaysInvariant(jobs, s, actions);
    var t := Exec(jobs, s, actions);
    assert Ended(t.Phase(p), Loaded(d));
    assert SawPrefix(jobs, s.file, t, p, d);
    var n: nat :| SawAt(jobs, s.file, t, p, d, n);
    assert d == LoadFile(Serial(jobs, s.file, t.log[..n]));
  }

  /** A load that begins after a save has returned sees the file with that save in it. */
  lemma LoadsSeeReturnedSaves(jobs: Jobs, s: System, actions: seq<Action>, more: seq<Action>, p: nat, q: nat,
                              d: Entries)
    requires Initial(s)
    requires var t := Exec(jobs, s, actions); t.Phase(p) == Finished(Saved) && t.Phase(q) == Idle
    requires Exec(jobs, Exec(jobs, s, actions), more).Phase(q) == Finished(Loaded(d))
    ensures var u := Exec(jobs, Exec(jobs, s, actions), more);
      exists n: nat :: n <= |u.log| && p in u.log[..n] && d == LoadFile(Serial(jobs, s.file, u.log[..n]))
  {
    var t := Exec(jobs, s, actions);
    var u := Exec(jobs, t, more);
    AlwaysInvariant(jobs, s, actions);
    ExecKeeps(jobs, s.file, t, more);
    ExecLater(jobs, t, more);
    assert Logged(jobs, t, p) && Ended(u.Phase(q), Loaded(d));
    assert SawPrefix(jobs, s.file, u, q, d);
    var n: nat :| SawAt(jobs, s.file, u, q, d, n);
    assert u.log[..n][..|t.log|] == t.log;
    assert p in u.log[..n];
  }

  // ---------- Saves on paths that are not comparable ----------

  predicate Apart(jobs: Jobs, p: nat, q: nat) {
    jobs(p).Save? && jobs(q).Save? && !Comparable(jobs(p).path, jobs(q).path)
  }

  predicate Sound(jobs: Jobs, p: nat) {
    jobs(p).Save? && jobs(p).path != [] && jobs(p).value.Some?
  }

  /** A save stays readable as long as every save after it is on a path not comparable to its own. */
  lemma {:induction false} SerialKeeps(jobs: Jobs, f: File, log: seq<nat>, i: nat, rest: Path)
    requires i < |log| && !f.Other? && forall p :: p in log ==> Sound(jobs, p)
    requires forall j :: i < j < |log| ==> Apart(jobs, log[i], log[j])
    ensures Sound(jobs, log[i])
    ensures Read(LoadFile(Serial(jobs, f, log)), jobs(log[i]).path + rest) == Lookup(jobs(log[i]).value.value, rest)
    decreases |log|
  {
    var n := |log| - 1;
    var last := jobs(log[n]);
    SerialMaps(jobs, f, log[..n]);
    var before := LoadFile(Serial(jobs, f, log[..n]));
    assert Sound(jobs, log[n]);
    if i == n {
      ReadBack(before, last.path, last.value.value, rest);
    } else {
      SerialKeeps(jobs, f, log[..n], i, rest);
      assert log[..n][i] == log[i] && Apart(jobs, log[i], log[n]);
      var mine := jobs(log[i]).path;
      LongerStillApart(mine, last.path, rest);
      ReadElsewhere(before, last.path, last.value.value, mine + rest);
    }
  }

  lemma {:induction false} SerialMaps(jobs: Jobs, f: File, log: seq<nat>)
    requires !f.Other?
    ensures !Serial(jobs, f, log).Other?
  {
    if log != [] {
      SerialMaps(jobs, f, log[..|log| - 1]);
    }
  }

  lemma LongerStillApart(p: Path, q: Path, rest: Path)
    ensures Comparable(q, p + rest) ==> Comparable(p, q)
  {
    if q <= p + rest && |q| <= |p| {
      assert (p + rest)[..|p|] == p;
      assert q <= p;
    }
  }

  /** In every run, a save whose path is not comparable to those renamed after it can still be read in the file. */
  lemma NoUpdateIsLost(jobs: Jobs, s: System, actions: seq<Action>, i: nat, rest: Path)
    requires Initial(s) && !s.file.Other? && i < |Exec(jobs, s, actions).log|
    requires var log := Exec(jobs, s, actions).log; forall j :: i < j < |log| ==> Apart(jobs, log[i], log[j])
    ensures var t := Exec(jobs, s, actions);
      var job := jobs(t.log[i]);
      job.Save? && job.value.Some? && Read(LoadFile(t.file), job.path + rest) == Lookup(job.value.value, rest)
  {
    var t := Exec(jobs, s, actions);
    AlwaysInvariant(jobs, s, actions);
    forall p | p in t.log ensures Sound(jobs, p) {
      assert Logged(jobs, t, p);
    }
    SerialKeeps(jobs, s.file, t.log, i, rest);
  }

  lemma SavesSwap(f: File, p: Path, v: Tree, q: Path, w: Tree)
    requires p != [] && q != [] && !Comparable(p, q)
    ensures SaveFile(SaveFile(f, p, Some(v)), q, Some(w)) == SaveFile(SaveFile(f, q, Some(w)), p, Some(v))
  {
    if !f.Other? {
      UpdatesCommute(LoadFile(f), p, v, q, w);
    }
  }

  /** A save can be moved past later saves on other paths. */
  lemma {:induction false} SerialMoves(jobs: Jobs, f: File, a: seq<nat>, p: nat, b: seq<nat>)
    requires Sound(jobs, p) && forall q :: q in b ==> Sound(jobs, q) && Apart(jobs, p, q)
    ensures Serial(jobs, f, a + [p] + b) == Serial(jobs, f, a + b + [p])
    decreases |b|
  {
    if b == [] {
      assert a + [p] + b == a + b + [p];
    } else {
      var n := |b| - 1;
      var q := b[n];
      assert Sound(jobs, q) && Apart(jobs, p, q);
      assert b == b[..n] + [q];
      assert a + [p] + b == (a + [p] + b[..n]) + [q] && a + b + [p] == (a + b[..n] + [q]) + [p];
      SerialMoves(jobs, f, a, p, b[..n]);
      SerialSnoc(jobs, f, a + [p] + b[..n], q);
      SerialSnoc(jobs, f, a + b[..n], p);
      SerialSnoc(jobs, f, a + b[..n] + [q], p);
      SerialSnoc(jobs, f, a + b[..n], q);
      SavesSwap(Serial(jobs, f, a + b[..n]), jobs(p).path, jobs(p).value.value, jobs(q).path, jobs(q).value.value);
    }
  }

  ghost predicate AllApart(jobs: Jobs, log: seq<nat>) {
    && (forall p :: p in log ==> Sound(jobs, p))
    && (forall p, q :: p in log && q in log && p != q ==> Apart(jobs, p, q))
  }

  /** The same saves in another order make the same file. */
  lemma {:induction false} SerialOrderFree(jobs: Jobs, f: File, log: seq<nat>, other: seq<nat>)
    requires AllApart(jobs, log) && NoDup(log) && NoDup(other)
    requires SameMembers(log, other)
    ensures Serial(jobs, f, log) == Serial(jobs, f, other)
    decreases |log|
  {
    hide AllApart;
    if log == [] {
      NoneIn(other);
    } else {
      var n := |log| - 1;
      var p := log[n];
      var a, b := Without(log, other);
      assert log == log[..n] + [p];
      SerialMovesApart(jobs, f, log, a, p, b);
      FewerApart(jobs, log);
      SerialOrderFree(jobs, f, log[..n], a + b);
      SerialSnoc(jobs, f, log[..n], p);
      SerialSnoc(jobs, f, a + b, p);
    }
  }

  lemma FewerApart(jobs: Jobs, log: seq<nat>)
    requires AllApart(jobs, log) && log != []
    ensures AllApart(jobs, log[..|log| - 1]) && jobs(log[|log| - 1]).Save?
  {
    assert log[|log| - 1] in log;
    assert Sound(jobs, log[|log| - 1]);
  }

  lemma SerialMovesApart(jobs: Jobs, f: File, log: seq<nat>, a: seq<nat>, p: nat, b: seq<nat>)
    requires AllApart(jobs, log) && p in log && p !in b && forall q: nat :: q in b ==> q in log
    ensures Serial(jobs, f, a + [p] + b) == Serial(jobs, f, a + b + [p])
  {
    SerialMoves(jobs, f, a, p, b);
  }

  ghost predicate SameMembers(xs: seq<nat>, ys: seq<nat>) {
    forall x: nat :: x in xs <==> x in ys
  }

  /** Takes the last element of one list out of another with the same members. */
  lemma Without(xs: seq<nat>, ys: seq<nat>) returns (a: seq<nat>, b: seq<nat>)
    requires xs != [] && NoDup(xs) && NoDup(ys) && SameMembers(xs, ys)
    ensures ys == a + [xs[|xs| - 1]] + b && NoDup(a + b) && NoDup(xs[..|xs| - 1])
    ensures SameMembers(xs[..|xs| - 1], a + b)
    ensures xs[|xs| - 1] !in b && forall x: nat :: x in b ==> x in xs
  {
    var x := xs[|xs| - 1];
    assert x in xs;
    var i: nat :| i < |ys| && ys[i] == x;
    a, b := ys[..i], ys[i + 1..];
    assert ys == a + [x] + b;
    forall y: nat ensures y in xs[..|xs| - 1] <==> y in a + b {
      assert y in xs <==> y in ys;
      assert xs == xs[..|xs| - 1] + [x];
    }
  }

  lemma NoneIn(xs: seq<nat>)
    ensures SameMembers([], xs) ==> xs == []
  {
    if xs != [] {
      assert xs[0] in xs;
    }
  }

  /** Two runs that renamed the same saves, pairwise on paths not comparable, end with the same file. */
  lemma OrderDoesNotMatter(jobs: Jobs, s: System, actions: seq<Action>, others: seq<Action>)
    requires Initial(s)
    requires var t, u := Exec(jobs, s, actions), Exec(jobs, s, others);
      && SameMembers(t.log, u.log)
      && (forall p, q :: p in t.log && q in t.log && p != q ==> Apart(jobs, p, q))
    ensures Exec(jobs, s, actions).file == Exec(jobs, s, others).file
  {
    var t, u := Exec(jobs, s, actions), Exec(jobs, s, others);
    AlwaysInvariant(jobs, s, actions);
    AlwaysInvariant(jobs, s, others);
    forall p | p in t.log ensures Sound(jobs, p) {
      assert Logged(jobs, t, p);
    }
    SerialOrderFree(jobs, s.file, t.log, u.log);
  }

  // ---------- Saves and loads get through ----------

  lemma ExecSnoc(jobs: Jobs, s: System, actions: seq<Action>, a: Action)
    ensures Exec(jobs, s, actions + [a]) == Step(jobs, Exec(jobs, s, actions), a)
  {
    assert (actions + [a])[..|actions|] == actions;
  }

  lemma {:induction false} ExecConcat(jobs: Jobs, s: System, actions: seq<Action>, more: seq<Action>)
    ensures Exec(jobs, s, actions + more) == Exec(jobs, Exec(jobs, s, actions), more)
    decreases |more|
  {
    hide Step;
    if more == [] {
      assert actions + more == actions;
    } else {
      var n := |more| - 1;
      assert actions + more == (actions + more[..n]) + [more[n]];
      ExecSnoc(jobs, s, actions + more[..n], more[n]);
      ExecConcat(jobs, s, actions, more[..n]);
    }
  }

  /** The steps of one call from taking the lock to giving it back. */
  function Turn(p: nat): seq<Action> {
    [Acquire(p), ReadFile(p), OpenTemp(p), FinishTemp(p), Rename(p), Release(p)]
  }

  /** What a call does to the file and what it reports when nothing goes wrong and nobody is in its way. */
  ghost predicate Done(jobs: Jobs, s: System, p: nat, t: System) {
    && t.lock == None
    && match jobs(p)
       case Save(path, value) =>
         && t.file == SaveFile(s.file, path, value)
         && (t.Phase(p) == match SaveFileError(s.file, path, value)
                           case Some(e) => Finished(Refused(e))
                           case None => Finished(Saved))
       case Load => t.file == s.file && t.Phase(p) == Finished(Loaded(LoadFile(s.file)))
  }

  lemma ReadingStep(jobs: Jobs, s: System, p: nat)
    requires s.lock == None && s.Phase(p) == Waiting
    ensures var t := Step(jobs, Step(jobs, s, Acquire(p)), ReadFile(p));
      && t.file == s.file && t.lock == Some(p)
      && t.Phase(p) == if jobs(p).Load? then Leaving(Loaded(LoadFile(s.file))) else HasRead(s.file)
  {}

  lemma OpeningStep(jobs: Jobs, s: System, p: nat)
    requires s.lock == Some(p) && s.Phase(p) == HasRead(s.file) && jobs(p).Save?
    ensures var t := Step(jobs, s, OpenTemp(p));
      var error := SaveFileError(s.file, jobs(p).path, jobs(p).value);
      && t.file == s.file && t.lock == Some(p)
      && t.Phase(p) == (if error.Some? then Leaving(Refused(error.value))
                        else Opened(LoadFile(SaveFile(s.file, jobs(p).path, jobs(p).value))))
  {}

  lemma WritingStep(jobs: Jobs, s: System, p: nat)
    requires s.lock == Some(p)
    ensures var t := Step(jobs, Step(jobs, s, FinishTemp(p)), Rename(p));
      && t.lock == Some(p)
      && (s.Phase(p).Opened? ==> t.Phase(p) == Leaving(Saved) && t.file == Mapping(s.Phase(p).data))
      && (s.Phase(p).Leaving? ==> t == s)
  {}

  lemma ClosingStep(jobs: Jobs, s: System, p: nat)
    requires s.lock == Some(p) && s.Phase(p).Leaving?
    ensures var t := Step(jobs, s, Release(p));
      t.lock == None && t.file == s.file && t.Phase(p) == Finished(s.Phase(p).outcome)
  {}

  lemma OpeningIdle(jobs: Jobs, s: System, p: nat)
    requires s.Phase(p).Leaving?
    ensures Step(jobs, s, OpenTemp(p)) == s
  {}

  /** With the lock free, a process that waits for it does its call in one turn. */
  lemma TurnEnds(jobs: Jobs, s: System, p: nat)
    requires s.lock == None && s.Phase(p) == Waiting
    ensures Done(jobs, s, p, Exec(jobs, s, Turn(p)))
  {
    hide Step, SaveFileError, SaveFile, LoadFile;
    ReadingStep(jobs, s, p);
    var t2 := Step(jobs, Step(jobs, s, Acquire(p)), ReadFile(p));
    if jobs(p).Save? {
      OpeningStep(jobs, t2, p);
      WritesMapping(s.file, jobs(p).path, jobs(p).value);
    } else {
      OpeningIdle(jobs, t2, p);
    }
    var t3 := Step(jobs, t2, OpenTemp(p));
    WritingStep(jobs, t3, p);
    var t5 := Step(jobs, Step(jobs, t3, FinishTemp(p)), Rename(p));
    ClosingStep(jobs, t5, p);
    TurnIs(jobs, s, p);
  }

  lemma WritesMapping(f: File, path: Path, v: Option<Tree>)
    ensures if SaveFileError(f, path, v) == None then SaveFile(f, path, v) == Mapping(LoadFile(SaveFile(f, path, v)))
            else SaveFile(f, path, v) == f
  {}

  lemma TurnIs(jobs: Jobs, s: System, p: nat)
    ensures var t3 := Step(jobs, Step(jobs, Step(jobs, s, Acquire(p)), ReadFile(p)), OpenTemp(p));
      Exec(jobs, s, Turn(p)) == Step(jobs, Step(jobs, Step(jobs, t3, FinishTemp(p)), Rename(p)), Release(p))
  {
    hide Step;
    var turn := Turn(p);
    ExecUpTo(jobs, s, turn, 0);
    ExecUpTo(jobs, s, turn, 1);
    ExecUpTo(jobs, s, turn, 2);
    ExecUpTo(jobs, s, turn, 3);
    ExecUpTo(jobs, s, turn, 4);
    ExecUpTo(jobs, s, turn, 5);
    assert turn[..6] == turn;
  }

  lemma ExecUpTo(jobs: Jobs, s: System, actions: seq<Action>, i: nat)
    requires i < |actions|
    ensures Exec(jobs, s, actions[..i + 1]) == Step(jobs, Exec(jobs, s, actions[..i]), actions[i])
  {
    assert actions[..i + 1] == actions[..i] + [actions[i]];
    ExecSnoc(jobs, s, actions[..i], actions[i]);
  }

  /** With the lock free, a call that has not begun gets through: a save that nothing refuses is in the file. */
  lemma CallEnds(jobs: Jobs, s: System, p: nat)
    requires s.lock == None && (s.Phase(p) == Idle || s.Phase(p) == Waiting)
    ensures Done(jobs, s, p, Exec(jobs, s, [Begin(p)] + Turn(p)))
  {
    hide SaveFile;
    var t := Step(jobs, s, Begin(p));
    ExecSnoc(jobs, s, [], Begin(p));
    assert [] + [Begin(p)] == [Begin(p)];
    ExecConcat(jobs, s, [Begin(p)], Turn(p));
    if t.Phase(p) == Waiting {
      TurnEnds(jobs, t, p);
    } else {
      TurnIdle(jobs, t, p);
      AtOnce(jobs, s, p);
    }
  }

  /** A call that ends as it begins does what a call does. */
  lemma AtOnce(jobs: Jobs, s: System, p: nat)
    requires s.lock == None && s.Phase(p) == Idle && Step(jobs, s, Begin(p)).Phase(p) != Waiting
    ensures Done(jobs, s, p, Step(jobs, s, Begin(p)))
  {}

  lemma TurnIdle(jobs: Jobs, s: System, p: nat)
    requires s.Phase(p).Finished?
    ensures Exec(jobs, s, Turn(p)) == s
  {
    TurnIs(jobs, s, p);
  }

  /** The steps of its holder free the lock, wherever it is. */
  lemma HolderLeaves(jobs: Jobs, s: System, q: nat)
    requires s.lock == Some(q) && Inside(s.Phase(q)) && (s.Phase(q).HasRead? ==> jobs(q).Save?)
    ensures var t := Exec(jobs, s, Turn(q));
      t.lock == None && forall p: nat :: p != q ==> t.Phase(p) == s.Phase(p)
  {
    TurnIs(jobs, s, q);
    hide Step;
    NoAcquire(jobs, s, q);
    var t2 := Step(jobs, s, ReadFile(q));
    var t3 := Step(jobs, t2, OpenTemp(q));
    var t4 := Step(jobs, t3, FinishTemp(q));
    HolderReads(jobs, s, q);
    HolderOpens(jobs, t2, q);
    HolderWrites(jobs, t3, q);
    HolderEnds(jobs, t4, q);
  }

  lemma NoAcquire(jobs: Jobs, s: System, q: nat)
    requires s.lock == Some(q)
    ensures Step(jobs, s, Acquire(q)) == s
  {}

  ghost predicate Held(s: System, q: nat, t: System) {
    t.lock == Some(q) && forall p: nat :: p != q ==> t.Phase(p) == s.Phase(p)
  }

  lemma HolderReads(jobs: Jobs, s: System, q: nat)
    requires s.lock == Some(q) && Inside(s.Phase(q)) && (s.Phase(q).HasRead? ==> jobs(q).Save?)
    ensures var t := Step(jobs, s, ReadFile(q));
      Held(s, q, t) && Inside(t.Phase(q)) && t.Phase(q) != Locked && (t.Phase(q).HasRead? ==> jobs(q).Save?)
  {}

  lemma HolderOpens(jobs: Jobs, s: System, q: nat)
    requires s.lock == Some(q) && Inside(s.Phase(q)) && s.Phase(q) != Locked
    requires s.Phase(q).HasRead? ==> jobs(q).Save?
    ensures var t := Step(jobs, s, OpenTemp(q));
      Held(s, q, t) && (t.Phase(q).Opened? || t.Phase(q).Written? || t.Phase(q).Leaving?)
  {}

  lemma HolderWrites(jobs: Jobs, s: System, q: nat)
    requires s.lock == Some(q) && (s.Phase(q).Opened? || s.Phase(q).Written? || s.Phase(q).Leaving?)
    ensures var t := Step(jobs, s, FinishTemp(q));
      Held(s, q, t) && (t.Phase(q).Written? || t.Phase(q).Leaving?)
  {}

  lemma HolderEnds(jobs: Jobs, s: System, q: nat)
    requires s.lock == Some(q) && (s.Phase(q).Written? || s.Phase(q).Leaving?)
    ensures var t := Step(jobs, Step(jobs, s, Rename(q)), Release(q));
      t.lock == None && forall p: nat :: p != q ==> t.Phase(p) == s.Phase(p)
  {}

  /**
   No run comes to a state in which a call is stuck: whatever has happened and whoever has crashed, the holder of
   the lock, if there is one, can free it, and then a call that has not got the lock yet gets through.
   */
  lemma CallsCanAlwaysEnd(jobs: Jobs, s: System, actions: seq<Action>, p: nat)
    requires Initial(s)
    requires var phase := Exec(jobs, s, actions).Phase(p); phase == Idle || phase == Waiting
    ensures var t := Exec(jobs, s, actions);
      var u := if t.lock.Some? then Exec(jobs, t, Turn(t.lock.value)) else t;
      u.lock == None && Done(jobs, u, p, Exec(jobs, u, [Begin(p)] + Turn(p)))
  {
    hide Done, Turn, Step;
    var t := Exec(jobs, s, actions);
    AlwaysInvariant(jobs, s, actions);
    if t.lock.Some? {
      var q := t.lock.value;
      assert Inside(t.Phase(q));
      assert InStep(jobs, t, q);
      HolderLeaves(jobs, t, q);
      CallEnds(jobs, Exec(jobs, t, Turn(q)), p);
    } else {
      CallEnds(jobs, t, p);
    }
  }

  // ---------- What a save reports ----------

  /** What a save that has read f goes on to be, unless it crashes. */
  predicate Destined(jobs: Jobs, p: nat, f: File, phase: Phase)
    requires jobs(p).Save?
  {
    var error := SaveFileError(f, jobs(p).path, jobs(p).value);
    match phase
    case HasRead(g) => g == f
    case Opened(_) => error == None
    case Written(_) => error == None
    case Leaving(o) => if error.Some? then o == Refused(error.value) else o == Saved || o == NotWritten
    case Finished(o) => o == Crashed || if error.Some? then o == Refused(error.value) else o == Saved || o == NotWritten
    case _ => false
  }

  lemma {:induction false} ExecDestined(jobs: Jobs, s: System, actions: seq<Action>, p: nat, f: File)
    requires jobs(p).Save? && s.Phase(p) == HasRead(f)
    ensures Destined(jobs, p, f, Exec(jobs, s, actions).Phase(p))
  {
    hide Step, Destined;
    if actions == [] {
      assert Destined(jobs, p, f, HasRead(f)) by {
        ReadIsDestined(jobs, p, f);
      }
    } else {
      ExecDestined(jobs, s, actions[..|actions| - 1], p, f);
      StepDestined(jobs, Exec(jobs, s, actions[..|actions| - 1]), actions[|actions| - 1], p, f);
    }
  }

  lemma ReadIsDestined(jobs: Jobs, p: nat, f: File)
    requires jobs(p).Save?
    ensures Destined(jobs, p, f, HasRead(f))
  {}

  lemma StepDestined(jobs: Jobs, s: System, a: Action, p: nat, f: File)
    requires jobs(p).Save? && Destined(jobs, p, f, s.Phase(p))
    ensures Destined(jobs, p, f, Step(jobs, s, a).Phase(p))
  {
    hide SaveFileError, SaveFile;
  }

  /**
   In every run, a save that has read a file and has ended without a crash reports an error exactly if it is the
   one for that file, its path and its value; with none it is saved unless its dump has failed.
   */
  lemma SaveReports(jobs: Jobs, s: System, actions: seq<Action>, more: seq<Action>, p: nat, f: File)
    requires Initial(s) && Exec(jobs, s, actions).Phase(p) == HasRead(f)
    requires var phase := Exec(jobs, s, actions + more).Phase(p); phase.Finished? && phase.outcome != Crashed
    ensures jobs(p).Save? && f == Exec(jobs, s, actions).file
    ensures var o := Exec(jobs, s, actions + more).Phase(p).outcome;
      var error := SaveFileError(f, jobs(p).path, jobs(p).value);
      && (forall e :: o == Refused(e) <==> error == Some(e))
      && (error == None <==> o == Saved || o == NotWritten)
  {
    AlwaysInvariant(jobs, s, actions);
    assert InStep(jobs, Exec(jobs, s, actions), p);
    ExecConcat(jobs, s, actions, more);
    ExecDestined(jobs, Exec(jobs, s, actions), more, p, f);
  }

  /** Which error a save meets, and that it is the file's update exactly if it meets none. */
  lemma SaveErrors(f: File, path: Path, v: Option<Tree>)
    ensures SaveFileError(f, path, v) == Some(EmptyPath) <==> path == []
    ensures SaveFileError(f, path, v) == Some(DataclassValue)
       <==> path != [] && v == None && (f != Other || |path| == 1)
    ensures SaveFileError(f, path, v) == Some(NotAMapping)
       <==> path != [] && f == Other && (v.Some? || |path| > 1)
    ensures SaveFileError(f, path, v) == None <==> path != [] && v.Some? && f != Other
    ensures SaveFileError(f, path, v).Some? ==> SaveFile(f, path, v) == f
    ensures SaveFileError(f, path, v) == None ==>
      SaveFile(f, path, v) == Mapping(Update(if f.Mapping? then f.entries else map[], path, v.value))
  {}
}
