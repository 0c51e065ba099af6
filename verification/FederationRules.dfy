/**
 What each mapping rule and each derived role says, from the configuration alone, and in which order the rules
 come (src/resources/federation.py:40-156, :263-281).
 */
module FederationRules {
  import opened Common
  import opened Spans
  import opened Projects
  import opened StableSort
  import opened Federation

  // ---------- One assignment ----------

  function NamesOf(a: Assignment): seq<string> {
    if a.idp.One? then [a.idp.name] else a.idp.names
  }

  predicate Absolute(path: string) {
    path != "" && path[0] == '/'
  }

  /** What follows the last slash of a path that has one. */
  ghost predicate IsLastSegment(path: string, last: string) {
    '/' !in last && exists base :: path == base + "/" + last
  }

  /** A configured name, or the project's name joined to the short name of the first group. */
  ghost predicate IsGroupName(p: Project, a: Assignment, name: string)
    requires p.federation.Some? && ValidAssignment(a)
  {
    var first := NamesOf(a)[0];
    if a.keystoneGroup != "" then name == a.keystoneGroup
    else exists short :: name == p.name + p.federation.value.separator + short
                         && if Absolute(first) then IsLastSegment(first, short) else short == first
  }

  /** The configured paths, short names put below the project. */
  function FullPaths(p: Project, names: seq<string>): seq<string>
    requires p.federation.Some?
  {
    seq(|names|, i requires 0 <= i < |names| =>
      if Absolute(names[i]) then names[i] else p.federation.value.groupPrefix + p.name + "/" + names[i])
  }

  /** The same in text order. */
  ghost predicate ArePaths(p: Project, a: Assignment, paths: seq<string>)
    requires p.federation.Some?
  {
    && (forall i, j :: 0 <= i < j < |paths| ==> TextLeq(paths[i], paths[j]))
    && multiset(paths) == multiset(FullPaths(p, NamesOf(a)))
  }

  function DomainOf(p: Project): Option<string>
    requires p.federation.Some?
  {
    match p.federation.value.domain
    case Override(name) => Some(name)
    case Inherit => p.domain
    case Suppress => None
  }

  /** The rule of an assignment, element by element. */
  ghost predicate IsRule(p: Project, a: Assignment, r: Rule)
    requires p.federation.Some? && ValidAssignment(a)
  {
    var fed := p.federation.value;
    && r.userType == fed.userType && r.issuer == fed.issuer
    && ArePaths(p, a, r.paths)
    && (a.group <==> r.group.Some?)
    && (a.group ==> IsGroupName(p, a, r.group.value.name)
                    && r.group.value.domainName
                       == if DomainOf(p).None? || DomainOf(p).value == "" then "Default" else DomainOf(p).value)
    && r.project == if a.project then Some(ProjectElement(p.name, a.roles, DomainOf(p))) else None
  }

  lemma {:induction false} LastSegmentIs(path: string)
    ensures '/' in path ==> IsLastSegment(path, LastSegment(path))
    ensures '/' !in path ==> LastSegment(path) == path
  {
    if path != "" {
      var n := |path| - 1;
      assert path == path[..n] + [path[n]];
      if path[n] == '/' {
        assert path == path[..n] + "/" + "";
      } else {
        LastSegmentIs(path[..n]);
        if '/' in path[..n] {
          var base :| path[..n] == base + "/" + LastSegment(path[..n]);
          assert path == base + "/" + LastSegment(path);
        }
      }
    }
  }

  lemma GroupNameIs(p: Project, a: Assignment)
    requires p.federation.Some? && ValidAssignment(a)
    ensures IsGroupName(p, a, DeriveGroupName(p.name, a, p.federation.value.separator))
  {
    LastSegmentIs(NamesOf(a)[0]);
  }

  lemma {:induction false} PathsAre(p: Project, names: seq<string>)
    requires p.federation.Some?
    ensures Paths(names, p.name, p.federation.value.groupPrefix) == FullPaths(p, names)
  {
    if names != [] {
      PathsAre(p, names[1..]);
    }
  }

  lemma RuleIs(p: Project, a: Assignment)
    requires p.federation.Some? && ValidAssignment(a)
    ensures var e := EntryOf(p, a);
      IsRule(p, a, e.rule) && e.project == p.name && e.rule.paths != [] && e.path == e.rule.paths[0]
  {
    hide DeriveGroupName, Sort, Paths, IsGroupName;
    var fed := p.federation.value;
    GroupNameIs(p, a);
    PathsAre(p, NamesOf(a));
    TextOrder();
    SortOrders(Paths(NamesOf(a), p.name, fed.groupPrefix), TextLeq);
    PathsLength(NamesOf(a), p.name, fed.groupPrefix);
    SortedLength(Paths(NamesOf(a), p.name, fed.groupPrefix));
    assert ArePaths(p, a, EntryOf(p, a).rule.paths);
  }

  // ---------- All rules ----------

  /** The assignments of the projects present. */
  function Assignments(ps: seq<Configured>, now: Instant): nat {
    if ps == [] then 0
    else
      var p := ps[|ps| - 1];
      Assignments(ps[..|ps| - 1], now)
      + if p.federation.Some? && p.PresentAt(now) then |p.federation.value.assignments| else 0
  }

  lemma {:induction false} EntryCount(ps: seq<Configured>, now: Instant)
    ensures |AllEntries(ps, now)| == Assignments(ps, now)
  {
    hide EntriesOf;
    if ps != [] {
      var p := ps[|ps| - 1];
      EntryCount(ps[..|ps| - 1], now);
      if p.federation.Some? && p.federation.value.assignments != [] {
        var n := |p.federation.value.assignments|;
        EntriesExact(p, n, EntryOf(p, p.federation.value.assignments[0]));
      } else if p.federation.Some? {
        NoEntriesOf(p);
      }
    }
  }

  lemma NoEntriesOf(p: Project)
    requires p.federation.Some? && ValidProject(p)
    ensures EntriesOf(p, 0) == []
  {}

  lemma {:induction false} RulesMatch(entries: seq<Entry>)
    ensures |RulesOf(entries)| == |entries| && forall k :: 0 <= k < |entries| ==> RulesOf(entries)[k] == entries[k].rule
  {
    if entries != [] {
      RulesMatch(entries[1..]);
    }
  }

  /** The rules are those of these assignments, sorted by project name and then by first group path. */
  ghost predicate InOrder(ps: seq<Configured>, now: Instant, rules: seq<Rule>, at: seq<nat>,
                          assignments: seq<Assignment>)
  {
    && |rules| == |at| == |assignments|
    && (forall k :: 0 <= k < |rules| ==>
          && Assigned(ps, now, at[k], assignments[k])
          && IsRule(ps[at[k]], assignments[k], rules[k]) && rules[k].paths != [])
    && (forall j, k :: 0 <= j < k < |rules| ==>
          && TextLeq(ps[at[j]].name, ps[at[k]].name)
          && (ps[at[j]].name == ps[at[k]].name ==> TextLeq(rules[j].paths[0], rules[k].paths[0])))
  }

  /** Every assignment of every present project gives its own rule; there are no others, and they are sorted. */
  lemma RulesAre(ps: seq<Configured>, now: Instant) returns (at: seq<nat>, assignments: seq<Assignment>)
    ensures |GeneratedRules(ps, now)| == Assignments(ps, now)
    ensures InOrder(ps, now, GeneratedRules(ps, now), at, assignments)
    ensures forall i: nat, a :: Assigned(ps, now, i, a) ==>
      exists rule :: rule in GeneratedRules(ps, now) && IsRule(ps[i], a, rule)
  {
    hide AllEntries, Sort, IsRule, EntryOf, EntryLeq, InOrder;
    var es := Sort(AllEntries(ps, now), EntryLeq);
    EntryOrder();
    SortOrders(AllEntries(ps, now), EntryLeq);
    EntryCount(ps, now);
    assert |es| == |multiset(es)| == |multiset(AllEntries(ps, now))|;
    RulesMatch(es);
    forall e | e in es ensures e in AllEntries(ps, now) {
      assert e in multiset(es);
    }
    at, assignments := Origins(ps, now, es);
    OriginsOrdered(ps, now, es, at, assignments);
    forall i: nat, a | Assigned(ps, now, i, a)
      ensures exists rule :: rule in GeneratedRules(ps, now) && IsRule(ps[i], a, rule)
    {
      RulesExact(ps, now, EntryOf(ps[i], a).rule);
      RuleIs(ps[i], a);
    }
  }

  lemma OriginsOrdered(ps: seq<Configured>, now: Instant, es: seq<Entry>, at: seq<nat>, assignments: seq<Assignment>)
    requires |at| == |assignments| == |es| && Ordered(es, EntryLeq)
    requires forall k :: 0 <= k < |es| ==> Origin(ps, now, es[k], at[k], assignments[k])
    ensures InOrder(ps, now, RulesOf(es), at, assignments)
  {
    hide IsRule, TextLeq;
    RulesMatch(es);
  }

  ghost predicate Origin(ps: seq<Configured>, now: Instant, e: Entry, i: nat, a: Assignment) {
    && Assigned(ps, now, i, a) && IsRule(ps[i], a, e.rule)
    && e.project == ps[i].name && e.rule.paths != [] && e.path == e.rule.paths[0]
  }

  lemma {:induction false} Origins(ps: seq<Configured>, now: Instant, es: seq<Entry>)
    returns (at: seq<nat>, assignments: seq<Assignment>)
    requires forall e :: e in es ==> e in AllEntries(ps, now)
    ensures |at| == |assignments| == |es|
    ensures forall k :: 0 <= k < |es| ==> Origin(ps, now, es[k], at[k], assignments[k])
  {
    hide AllEntries, IsRule, EntryOf, ProjectEntries;
    if es == [] {
      at, assignments := [], [];
    } else {
      at, assignments := Origins(ps, now, es[1..]);
      EntriesComeFromProjects(ps, now, es[0]);
      var i :| 0 <= i < |ps| && es[0] in ProjectEntries(ps[i], now);
      EntryAssigned(ps, now, i, es[0]);
      var a :| Assigned(ps, now, i, a) && EntryOf(ps[i], a) == es[0];
      RuleIs(ps[i], a);
      at, assignments := [i] + at, [a] + assignments;
    }
  }

  // ---------- Group roles ----------

  /** The derived roles are those of the assignments in group mode, in order, for their groups. */
  lemma {:induction false} RolesAre(p: Project, n: nat)
    requires p.federation.Some? && ValidProject(p) && n <= |p.federation.value.assignments|
    ensures var grouped := Filter(p.federation.value.assignments[..n], (a: Assignment) => a.group);
      var roles, names := RolesFrom(p, n), DerivedFrom(p, n);
      && |roles| == |names| == |grouped|
      && (forall k :: 0 <= k < |grouped| ==>
            && roles[k] == GroupRoles(names[k], grouped[k].roles)
            && ValidAssignment(grouped[k]) && IsGroupName(p, grouped[k], names[k]))
  {
    hide IsGroupName, DeriveGroupName;
    if n > 0 {
      var assignments := p.federation.value.assignments;
      RolesAre(p, n - 1);
      GroupNameIs(p, assignments[n - 1]);
      FilterSnoc(assignments[..n - 1], assignments[n - 1], (a: Assignment) => a.group);
      assert assignments[..n] == assignments[..n - 1] + [assignments[n - 1]];
    }
  }
}
