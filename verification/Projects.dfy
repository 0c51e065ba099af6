/** The state of a project and how a deadline tightens it (src/models/project.py:38-112). */
module Projects {
  import opened Common
  import opened Spans

  datatype ProjectState = Present | Locked | Absent

  datatype DeadlineAction = Lock | Delete

  /** A deadline: the last instant, included, at which the configured state still counts. */
  datatype Lifetime = Lifetime(until: Instant, action: DeadlineAction)

  /** The order in which deadlines may tighten a state. */
  function Rank(s: ProjectState): nat {
    match s
    case Present => 0
    case Locked => 1
    case Absent => 2
  }

  function EffectiveState(state: ProjectState, lifetime: Option<Lifetime>, now: Instant): ProjectState {
    if lifetime.None? || now <= lifetime.value.until then state
    else
      var floor := if lifetime.value.action.Lock? then Locked else Absent;
      if Rank(state) >= Rank(floor) then state else floor
  }

  /**
   Up to and including its deadline a project is as configured. After it a lock shuts a present project and
   leaves the others as they are, and a deletion removes every project.
   */
  lemma EffectiveStateIs(state: ProjectState, lifetime: Option<Lifetime>, now: Instant)
    ensures lifetime == None ==> EffectiveState(state, lifetime, now) == state
    ensures lifetime.Some? && now <= lifetime.value.until ==> EffectiveState(state, lifetime, now) == state
    ensures lifetime.Some? && lifetime.value.until < now && lifetime.value.action == Lock ==>
      EffectiveState(state, lifetime, now) == if state == Present then Locked else state
    ensures lifetime.Some? && lifetime.value.until < now && lifetime.value.action == Delete ==>
      EffectiveState(state, lifetime, now) == Absent
  {}

  /**
   As time passes a state only tightens, it is never looser than configured, and it changes at most once, at
   the deadline: two instants on the same side of it give the same state.
   */
  lemma EffectiveStateTightens(state: ProjectState, lifetime: Option<Lifetime>, now: Instant, later: Instant)
    requires now <= later
    ensures Rank(state) <= Rank(EffectiveState(state, lifetime, now))
    ensures Rank(EffectiveState(state, lifetime, now)) <= Rank(EffectiveState(state, lifetime, later))
    ensures (EffectiveState(state, lifetime, now) != EffectiveState(state, lifetime, later) ==>
             lifetime.Some? && now <= lifetime.value.until < later)
  {}
}
