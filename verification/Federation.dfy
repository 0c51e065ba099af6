/**
 Federation mapping rules, the Keystone groups they name, and the roles of these groups
 (src/resources/federation.py:40-156, :263-281, src/resources/keystone_groups.py:42-136).
 */
module Federation {
  import opened Common
  import opened Spans
  import opened Projects
  import opened StableSort

  datatype Groups = One(name: string) | Many(names: seq<string>)

  /** group and project tell which modes are normalised into the assignment's mode set. */
  datatype Assignment = Assignment(idp: Groups, roles: seq<string>, keystoneGroup: string, group: bool, project: bool)

  /** An absent domain is inherited from the project, None suppresses it. */
  datatype FedDomain = Inherit | Suppress | Override(name: string)

  datatype FedConfig = FedConfig(issuer: string, groupPrefix: string, userType: string, domain: FedDomain,
                                 separator: string, assignments: seq<Assignment>)

  datatype Project = Project(name: string, state: ProjectState, lifetime: Option<Lifetime>, domainId: string,
                             domain: Option<string>, federation: Option<FedConfig>, roles: seq<GroupRoles>) {
    predicate PresentAt(now: Instant) {
      EffectiveState(state, lifetime, now) == Present
    }
  }

  /** A role assignment of a group on a project. */
  datatype GroupRoles = GroupRoles(group: string, roles: seq<string>)

  /** Validation refuses empty group lists. */
  predicate ValidAssignment(a: Assignment) {
    a.idp.Many? ==> a.idp.names != []
  }

  predicate ValidProject(p: Project) {
    p.federation.Some? ==> forall a :: a in p.federation.value.assignments ==> ValidAssignment(a)
  }

  /** A project that has passed validation. */
  type Configured = p: Project | ValidProject(p) witness Project("a", Present, None, "default", None, None, [])

  function LastSegment(path: string): string {
    if path == "" then ""
    else if path[|path| - 1] == '/' then ""
    else LastSegment(path[..|path| - 1]) + [path[|path| - 1]]
  }

  function ResolveGroupPath(group: string, project: string, prefix: string): string {
    if group != "" && group[0] == '/' then group else prefix + project + "/" + group
  }

  function DeriveGroupName(project: string, a: Assignment, separator: string): string
    requires ValidAssignment(a)
  {
    if a.keystoneGroup != "" then a.keystoneGroup
    else
      var short := if a.idp.One? then a.idp.name else a.idp.names[0];
      project + separator + (if short != "" && short[0] == '/' then LastSegment(short) else short)
  }

  // ---------- Mapping rules ----------

  datatype GroupElement = GroupElement(name: string, domainName: string)

  datatype ProjectElement = ProjectElement(name: string, roles: seq<string>, domainName: Option<string>)

  datatype Rule = Rule(userType: string, group: Option<GroupElement>, project: Option<ProjectElement>,
                       issuer: string, paths: seq<string>)

  /** A rule with its sort key. */
  datatype Entry = Entry(project: string, path: string, rule: Rule)

  function RuleDomain(p: Project): Option<string>
    requires p.federation.Some?
  {
    match p.federation.value.domain
    case Inherit => p.domain
    case Suppress => None
    case Override(name) => Some(name)
  }

  function Paths(names: seq<string>, project: string, prefix: string): seq<string> {
    if names == [] then [] else [ResolveGroupPath(names[0], project, prefix)] + Paths(names[1..], project, prefix)
  }

  lemma {:induction false} PathsLength(names: seq<string>, project: string, prefix: string)
    ensures |Paths(names, project, prefix)| == |names|
  {
    if names != [] {
      PathsLength(names[1..], project, prefix);
    }
  }

  lemma TextOrder()
    ensures TotalOrder(TextLeq)
  {
    forall a, b ensures TextLeq(a, b) || TextLeq(b, a) {
      TextTotal(a, b);
    }
    forall a, b, c | TextLeq(a, b) && TextLeq(b, c) ensures TextLeq(a, c) {
      TextTransitive(a, b, c);
    }
  }

  lemma {:induction false} SortedLength(xs: seq<string>)
    ensures |Sort(xs, TextLeq)| == |xs|
  {
    TextOrder();
    SortOrders(xs, TextLeq);
    assert |multiset(xs)| == |xs| && |multiset(Sort(xs, TextLeq))| == |Sort(xs, TextLeq)|;
  }

  function EntryOf(p: Project, a: Assignment): Entry
    requires p.federation.Some? && ValidAssignment(a)
  {
    var fed := p.federation.value;
    var domainName := RuleDomain(p);
    var names := if a.idp.One? then [a.idp.name] else a.idp.names;
    var paths := Sort(Paths(names, p.name, fed.groupPrefix), TextLeq);
    PathsLength(names, p.name, fed.groupPrefix);
    SortedLength(Paths(names, p.name, fed.groupPrefix));
    var group :=
      if !a.group then None
      else Some(GroupElement(DeriveGroupName(p.name, a, fed.separator),
                             if domainName.Some? && domainName.value != "" then domainName.value else "Default"));
    var project := if a.project then Some(ProjectElement(p.name, a.roles, domainName)) else None;
    Entry(p.name, paths[0], Rule(fed.userType, group, project, fed.issuer, paths))
  }

  /** The entries of a project's first n assignments. */
  function EntriesOf(p: Project, n: nat): seq<Entry>
    requires p.federation.Some? && ValidProject(p) && n <= |p.federation.value.assignments|
  {
    if n == 0 then []
    else EntriesOf(p, n - 1) + [EntryOf(p, p.federation.value.assignments[n - 1])]
  }

  function ProjectEntries(p: Project, now: Instant): seq<Entry>
    requires ValidProject(p)
  {
    if !p.PresentAt(now) || p.federation.None? then [] else EntriesOf(p, |p.federation.value.assignments|)
  }

  function AllEntries(ps: seq<Configured>, now: Instant): seq<Entry>
  {
    if ps == [] then []
    else AllEntries(ps[..|ps| - 1], now) + ProjectEntries(ps[|ps| - 1], now)
  }

  /** By project name, then by first group path. */
  predicate EntryLeq(x: Entry, y: Entry) {
    TextLeq(x.project, y.project) && (x.project == y.project ==> TextLeq(x.path, y.path))
  }

  function RulesOf(entries: seq<Entry>): seq<Rule> {
    if entries == [] then [] else [entries[0].rule] + RulesOf(entries[1..])
  }

  function GeneratedRules(ps: seq<Configured>, now: Instant): seq<Rule>
  {
    RulesOf(Sort(AllEntries(ps, now), EntryLeq))
  }

  method BuildProjectEntries(p: Project, now: Instant) returns (entries: seq<Entry>)
    requires ValidProject(p)
    ensures entries == ProjectEntries(p, now)
  {
    entries := [];
    if !p.PresentAt(now) || p.federation.None? {
      return;
    }
    var assignments := p.federation.value.assignments;
    for j := 0 to |assignments|
      invariant entries == EntriesOf(p, j)
    {
      entries := entries + [EntryOf(p, assignments[j])];
    }
  }

  method BuildGeneratedRules(ps: seq<Configured>, now: Instant) returns (rules: seq<Rule>)
    ensures rules == GeneratedRules(ps, now)
  {
    hide ProjectEntries;
    var entries: seq<Entry> := [];
    for i := 0 to |ps|
      invariant entries == AllEntries(ps[..i], now)
    {
      assert ps[..i + 1][..i] == ps[..i];
      var more := BuildProjectEntries(ps[i], now);
      entries := entries + more;
    }
    assert ps[..|ps|] == ps;
    rules := RulesOf(Sort(entries, EntryLeq));
  }

  // ---------- Group roles ----------

  /** The groups that a project's first n assignments need. */
  function DerivedFrom(p: Project, n: nat): seq<string>
    requires p.federation.Some? && ValidProject(p) && n <= |p.federation.value.assignments|
  {
    if n == 0 then []
    else
      var a := p.federation.value.assignments[n - 1];
      DerivedFrom(p, n - 1) + if a.group then [DeriveGroupName(p.name, a, p.federation.value.separator)] else []
  }

  function DerivedGroups(p: Project): seq<string>
    requires ValidProject(p)
  {
    if p.federation.None? then [] else DerivedFrom(p, |p.federation.value.assignments|)
  }

  function RolesFrom(p: Project, n: nat): seq<GroupRoles>
    requires p.federation.Some? && ValidProject(p) && n <= |p.federation.value.assignments|
  {
    if n == 0 then []
    else
      var a := p.federation.value.assignments[n - 1];
      var group := DeriveGroupName(p.name, a, p.federation.value.separator);
      RolesFrom(p, n - 1) + if a.group then [GroupRoles(group, a.roles)] else []
  }

  /** The project with the roles of its derived groups added behind the configured ones. */
  method AugmentGroupRoleAssignments(p: Project) returns (r: Project)
    requires ValidProject(p)
    ensures r == p.(roles := r.roles)
    ensures p.federation.None? ==> r == p
    ensures p.federation.Some? ==> r.roles == p.roles + RolesFrom(p, |p.federation.value.assignments|)
  {
    if p.federation.None? {
      return p;
    }
    var fed := p.federation.value;
    var derived: seq<GroupRoles> := [];
    for i := 0 to |fed.assignments|
      invariant derived == RolesFrom(p, i)
    {
      if fed.assignments[i].group {
        var name := DeriveGroupName(p.name, fed.assignments[i], fed.separator);
        derived := derived + [GroupRoles(name, fed.assignments[i].roles)];
      }
    }
    if derived == [] {
      return p;
    }
    return p.(roles := p.roles + derived);
  }

  // ---------- Ensuring groups ----------

  /** Adds names not seen before, with the domain of the project that needs them. */
  function AddNames(needed: map<string, string>, names: seq<string>, domainId: string): map<string, string> {
    if names == [] then needed
    else
      var before := AddNames(needed, names[..|names| - 1], domainId);
      var name := names[|names| - 1];
      if name in before then before else before[name := domainId]
  }

  lemma AddSnoc(needed: map<string, string>, names: seq<string>, name: string, domainId: string)
    ensures var before := AddNames(needed, names, domainId);
      AddNames(needed, names + [name], domainId) == if name in before then before else before[name := domainId]
  {
    assert (names + [name])[..|names|] == names;
  }

  /** The needed groups, each with the domain of the first present project that needs it. */
  function Needed(ps: seq<Configured>, now: Instant): map<string, string>
  {
    if ps == [] then map[]
    else
      var before := Needed(ps[..|ps| - 1], now);
      var p := ps[|ps| - 1];
      if p.PresentAt(now) then AddNames(before, DerivedGroups(p), p.domainId) else before
  }

  datatype Fault = Fine | FailsBefore | FailsAfter

  /** Keystone's groups by name and domain. A call that fails ends the phase. */
  class Keystone {
    var groups: set<(string, string)>
    var clock: nat
    const script: nat -> Fault
    const domainOf: string -> string

    constructor (groups: set<(string, string)>, script: nat -> Fault, domainOf: string -> string)
      ensures this.groups == groups && this.script == script && this.domainOf == domainOf && clock == 0
    {
      this.groups := groups;
      this.script := script;
      this.domainOf := domainOf;
      clock := 0;
    }

    method CreateGroup(name: string, domain: string) returns (ok: bool)
      modifies this
      ensures ok ==> groups == old(groups) + {(name, domain)}
      ensures old(groups) <= groups <= old(groups) + {(name, domain)}
    {
      var fault := script(clock);
      clock := clock + 1;
      if !fault.FailsBefore? {
        groups := groups + {(name, domain)};
      }
      ok := fault.Fine?;
    }

    method FindGroup(name: string, domain: string) returns (ok: bool, found: bool)
      modifies this`clock
      ensures ok ==> (found <==> (name, domain) in groups)
    {
      ok := script(clock).Fine?;
      found := (name, domain) in groups;
      clock := clock + 1;
    }

    method CollectFrom(p: Project, before: map<string, string>) returns (needed: map<string, string>)
      requires ValidProject(p)
      ensures needed == AddNames(before, DerivedGroups(p), p.domainId)
    {
      needed := before;
      if p.federation.None? {
        return;
      }
      var fed := p.federation.value;
      for j := 0 to |fed.assignments|
        invariant needed == AddNames(before, DerivedFrom(p, j), p.domainId)
      {
        assert fed.assignments[j] in fed.assignments;
        if fed.assignments[j].group {
          var name := DeriveGroupName(p.name, fed.assignments[j], fed.separator);
          AddSnoc(before, DerivedFrom(p, j), name, p.domainId);
          if name !in needed {
            needed := needed[name := p.domainId];
          }
        } else {
          assert DerivedFrom(p, j) + [] == DerivedFrom(p, j);
        }
      }
    }

    method CollectNeeded(ps: seq<Configured>, now: Instant) returns (needed: map<string, string>)
        ensures needed == Needed(ps, now)
    {
      hide DerivedGroups;
      needed := map[];
      for i := 0 to |ps|
        invariant needed == Needed(ps[..i], now)
      {
        assert ps[..i + 1][..i] == ps[..i];
        if ps[i].PresentAt(now) {
          needed := CollectFrom(ps[i], needed);
        }
      }
      assert ps[..|ps|] == ps;
    }

    /** After success every needed group exists in its domain; at any point only needed groups have been added. */
    method EnsureKeystoneGroups(ps: seq<Configured>, now: Instant) returns (ok: bool)
        modifies this
      ensures var needed := Needed(ps, now);
        && old(groups) <= groups
        && (forall g :: g in groups - old(groups) ==> g.0 in needed && g.1 == domainOf(needed[g.0]))
        && (ok ==> forall name :: name in needed ==> (name, domainOf(needed[name])) in groups)
    {
      var needed := CollectNeeded(ps, now);
      var names := needed.Keys;
      ok := true;
      while names != {} && ok
        invariant names <= needed.Keys && old(groups) <= groups
        invariant forall g :: g in groups - old(groups) ==> g.0 in needed && g.1 == domainOf(needed[g.0])
        invariant ok ==> forall name :: name in needed.Keys - names ==> (name, domainOf(needed[name])) in groups
        decreases |names|
      {
        var name :| name in names;
        var domain := domainOf(needed[name]);
        var found;
        ok, found := FindGroup(name, domain);
        if ok && !found {
          ok := CreateGroup(name, domain);
        }
        names := names - {name};
      }
    }
  }

  // ---------- Every group named is a group ensured ----------

  lemma {:induction false} AddedKeys(needed: map<string, string>, names: seq<string>, domainId: string)
    ensures var r := AddNames(needed, names, domainId);
      && (forall g :: g in r <==> g in needed || g in names)
      && (forall g :: g in r ==> r[g] == if g in needed then needed[g] else domainId)
  {
    if names != [] {
      AddedKeys(needed, names[..|names| - 1], domainId);
      assert names == names[..|names| - 1] + [names[|names| - 1]];
    }
  }

  /** The project at position i is present and derives the group. */
  ghost predicate Derives(ps: seq<Configured>, now: Instant, i: nat, g: string)
  {
    i < |ps| && ps[i].PresentAt(now) && g in DerivedGroups(ps[i])
  }

  ghost predicate DerivesFirst(ps: seq<Configured>, now: Instant, i: nat, g: string)
  {
    Derives(ps, now, i, g) && forall j: nat :: j < i ==> !Derives(ps, now, j, g)
  }

  /** What the last project adds. */
  lemma NeededStep(ps: seq<Configured>, now: Instant, g: string)
    requires ps != []
    ensures var n := |ps| - 1;
      var before := Needed(ps[..n], now);
      && (g in Needed(ps, now) <==> g in before || Derives(ps, now, n, g))
      && (g in Needed(ps, now) ==> Needed(ps, now)[g] == if g in before then before[g] else ps[n].domainId)
  {
    hide DerivedGroups;
    var n := |ps| - 1;
    if ps[n].PresentAt(now) {
      AddedKeys(Needed(ps[..n], now), DerivedGroups(ps[n]), ps[n].domainId);
    }
  }

  lemma DerivesInit(ps: seq<Configured>, now: Instant, i: nat, g: string)
    requires ps != [] && i < |ps| - 1
    ensures Derives(ps[..|ps| - 1], now, i, g) <==> Derives(ps, now, i, g)
  {}

  ghost predicate SomeDerives(ps: seq<Configured>, now: Instant, g: string)
  {
    exists i: nat :: Derives(ps, now, i, g)
  }

  /** A group is needed exactly if some present project derives it. */
  lemma {:induction false} NeededGroups(ps: seq<Configured>, now: Instant, g: string)
    ensures g in Needed(ps, now) <==> SomeDerives(ps, now, g)
  {
    if ps != [] {
      hide Needed;
      var n := |ps| - 1;
      NeededGroups(ps[..n], now, g);
      NeededStep(ps, now, g);
      SomeStep(ps, now, g);
    }
  }

  lemma SomeStep(ps: seq<Configured>, now: Instant, g: string)
    requires ps != []
    ensures SomeDerives(ps, now, g) <==> SomeDerives(ps[..|ps| - 1], now, g) || Derives(ps, now, |ps| - 1, g)
  {
    var n := |ps| - 1;
    var init := ps[..n];
    if SomeDerives(init, now, g) {
      var i: nat :| Derives(init, now, i, g);
      DerivesInit(ps, now, i, g);
    }
    if SomeDerives(ps, now, g) {
      var i: nat :| Derives(ps, now, i, g);
      if i < n {
        DerivesInit(ps, now, i, g);
      }
    }
  }

  /** A needed group is created in the domain of the first present project that derives it. */
  lemma {:induction false} FirstDomainWins(ps: seq<Configured>, now: Instant, i: nat, g: string)
    requires DerivesFirst(ps, now, i, g)
    ensures g in Needed(ps, now) && Needed(ps, now)[g] == ps[i].domainId
    decreases |ps|
  {
    hide Needed, Derives;
    assert i < |ps| by {
      DerivesBounds(ps, now, i, g);
    }
    var n := |ps| - 1;
    var init := ps[..n];
    NeededStep(ps, now, g);
    if i < n {
      DerivesInit(ps, now, i, g);
      forall j: nat | j < i ensures !Derives(init, now, j, g) {
        DerivesInit(ps, now, j, g);
      }
      FirstDomainWins(init, now, i, g);
    } else {
      NeededGroups(init, now, g);
      if SomeDerives(init, now, g) {
        var j: nat :| Derives(init, now, j, g);
        DerivesBounds(init, now, j, g);
        DerivesInit(ps, now, j, g);
        assert false;
      }
    }
  }

  lemma DerivesBounds(ps: seq<Configured>, now: Instant, i: nat, g: string)
    requires Derives(ps, now, i, g)
    ensures i < |ps|
  {}

  lemma {:induction false} EntriesNameDerived(p: Project, n: nat)
    requires p.federation.Some? && ValidProject(p) && n <= |p.federation.value.assignments|
    ensures forall e :: e in EntriesOf(p, n) && e.rule.group.Some? ==> e.rule.group.value.name in DerivedFrom(p, n)
    ensures forall e :: e in EntriesOf(p, n) ==> e.project == p.name
    ensures forall r :: r in RolesFrom(p, n) ==> r.group in DerivedFrom(p, n)
  {
    if n > 0 {
      EntriesNameDerived(p, n - 1);
    }
  }

  lemma {:induction false} EntriesComeFromProjects(ps: seq<Configured>, now: Instant, e: Entry)
    requires e in AllEntries(ps, now)
    ensures exists i :: 0 <= i < |ps| && e in ProjectEntries(ps[i], now)
  {
    if ps != [] {
      var n := |ps| - 1;
      if e in AllEntries(ps[..n], now) {
        EntriesComeFromProjects(ps[..n], now, e);
        var i :| 0 <= i < n && e in ProjectEntries(ps[..n][i], now);
        assert e in ProjectEntries(ps[i], now);
      } else {
        assert e in ProjectEntries(ps[n], now);
      }
    }
  }

  lemma {:induction false} RulesAreEntries(entries: seq<Entry>, rule: Rule)
    requires rule in RulesOf(entries)
    ensures exists e :: e in entries && e.rule == rule
  {
    if entries[0].rule == rule {
      assert entries[0] in entries;
    } else {
      RulesAreEntries(entries[1..], rule);
      var e :| e in entries[1..] && e.rule == rule;
      assert e in entries;
    }
  }

  lemma EntryOrder()
    ensures TotalOrder(EntryLeq)
  {
    TextOrder();
    forall x: Entry, y: Entry ensures EntryLeq(x, y) || EntryLeq(y, x) {
      TextTotal(x.project, y.project);
      TextTotal(x.path, y.path);
    }
    forall x: Entry, y: Entry, z: Entry | EntryLeq(x, y) && EntryLeq(y, z) ensures EntryLeq(x, z) {
      TextTransitive(x.project, y.project, z.project);
      TextTotal(x.project, y.project);
      TextTotal(y.project, z.project);
      if x.project == z.project {
        TextTransitive(x.path, y.path, z.path);
      }
    }
  }

  lemma StillPresent(p: Project, now: Instant, later: Instant)
    requires now <= later && p.PresentAt(later)
    ensures p.PresentAt(now)
  {
    EffectiveStateTightens(p.state, p.lifetime, now, later);
  }

  /** A group named in a rule built later, or at the same time, is among the groups ensured before. */
  lemma RuleGroupsAreEnsured(ps: seq<Configured>, ensured: Instant, built: Instant, rule: Rule)
    requires ensured <= built
    requires rule in GeneratedRules(ps, built) && rule.group.Some?
    ensures rule.group.value.name in Needed(ps, ensured)
  {
    hide DerivedGroups, EntriesOf, Needed;
    var entries := AllEntries(ps, built);
    EntryOrder();
    SortOrders(entries, EntryLeq);
    RulesAreEntries(Sort(entries, EntryLeq), rule);
    var e :| e in Sort(entries, EntryLeq) && e.rule == rule;
    assert e in multiset(entries);
    EntriesComeFromProjects(ps, built, e);
    var i :| 0 <= i < |ps| && e in ProjectEntries(ps[i], built);
    NamedIsDerived(ps[i], built, e);
    StillPresent(ps[i], ensured, built);
    assert Derives(ps, ensured, i, rule.group.value.name);
    NeededGroups(ps, ensured, rule.group.value.name);
  }

  lemma NamedIsDerived(p: Project, now: Instant, e: Entry)
    requires ValidProject(p) && e in ProjectEntries(p, now)
    ensures p.PresentAt(now) && (e.rule.group.Some? ==> e.rule.group.value.name in DerivedGroups(p))
  {
    EntriesNameDerived(p, |p.federation.value.assignments|);
  }

  /** So is every group that a project still present when it is reconciled needs for its derived roles. */
  lemma RoleGroupsAreEnsured(ps: seq<Configured>, ensured: Instant, reconciled: Instant, i: nat, r: GroupRoles)
    requires ensured <= reconciled && i < |ps| && ps[i].PresentAt(reconciled)
    requires ps[i].federation.Some? && r in RolesFrom(ps[i], |ps[i].federation.value.assignments|)
    ensures r.group in Needed(ps, ensured)
  {
    EntriesNameDerived(ps[i], |ps[i].federation.value.assignments|);
    StillPresent(ps[i], ensured, reconciled);
    assert Derives(ps, ensured, i, r.group);
    NeededGroups(ps, ensured, r.group);
  }

  /**
   Groups are told apart by name alone: a project finds a derived group in its own domain exactly if
   the first present project deriving that name has the same domain.
   */
  lemma OnlyFirstDomainIsEnsured(ps: seq<Configured>, now: Instant, i: nat, first: nat, g: string)
    requires Derives(ps, now, i, g) && DerivesFirst(ps, now, first, g)
    ensures g in Needed(ps, now)
    ensures (g, ps[i].domainId) in Needed(ps, now).Items <==> ps[i].domainId == ps[first].domainId
  {
    FirstDomainWins(ps, now, first, g);
  }

  /** Two present projects that share a group name but not a domain: the second one's group is not ensured. */
  lemma SharedNameExample() returns (ps: seq<Configured>, g: string)
    ensures Derives(ps, 0, 1, g) && (g, ps[1].domainId) !in Needed(ps, 0).Items
  {
    var fed := Some(FedConfig("", "", "", Inherit, " ", [Assignment(One("admins"), ["admin"], "ops", true, false)]));
    g := "ops";
    ps := [Project("a", Present, None, "d1", None, fed, []), Project("b", Present, None, "d2", None, fed, [])];
    assert forall p :: p in ps ==> p == ps[0] || p == ps[1];
    assert DerivedFrom(ps[0], 1) == ["ops"] && DerivedFrom(ps[1], 1) == ["ops"];
    assert Derives(ps, 0, 1, g);
    assert DerivesFirst(ps, 0, 0, g);
    OnlyFirstDomainIsEnsured(ps, 0, 1, 0, g);
  }

  // ---------- The domain a rule names ----------

  /** The domain a group is looked up in when the rule is applied. */
  function NamedDomain(p: Project): string
    requires p.federation.Some?
  {
    if RuleDomain(p).Some? && RuleDomain(p).value != "" then RuleDomain(p).value else "Default"
  }

  /** The groups that are made to exist: names with the domains they are created in. */
  function EnsuredPairs(ps: seq<Configured>, now: Instant, domainOf: string -> string): set<(string, string)> {
    var needed := Needed(ps, now);
    set g | g in needed :: (g, domainOf(needed[g]))
  }

  /** Some project is the first to derive a group that one derives. */
  lemma {:induction false} FirstExists(ps: seq<Configured>, now: Instant, i: nat, g: string) returns (first: nat)
    requires Derives(ps, now, i, g)
    ensures first <= i && DerivesFirst(ps, now, first, g)
    decreases i
  {
    if j: nat :| j < i && Derives(ps, now, j, g) {
      first := FirstExists(ps, now, j, g);
    } else {
      first := i;
    }
  }

  /**
   A rule names a group and a domain; groups are ensured in the domain a project is in. The pair that a rule
   built later names is an ensured one exactly if the named domain is that of the first project present at the
   earlier reading that derives the group.
   */
  lemma RulePairsAreEnsured(ps: seq<Configured>, ensured: Instant, built: Instant, i: nat, a: Assignment, first: nat,
                            domainOf: string -> string)
    requires ensured <= built && Assigned(ps, built, i, a) && a.group
    requires DerivesFirst(ps, ensured, first, DeriveGroupName(ps[i].name, a, ps[i].federation.value.separator))
    ensures EntryOf(ps[i], a).rule in GeneratedRules(ps, built)
    ensures var group := EntryOf(ps[i], a).rule.group;
      && group == Some(GroupElement(DeriveGroupName(ps[i].name, a, ps[i].federation.value.separator),
                                    NamedDomain(ps[i])))
      && ((group.value.name, domainOf(group.value.domainName)) in EnsuredPairs(ps, ensured, domainOf)
          <==> domainOf(NamedDomain(ps[i])) == domainOf(ps[first].domainId))
  {
    var g := DeriveGroupName(ps[i].name, a, ps[i].federation.value.separator);
    FirstDomainWins(ps, ensured, first, g);
    RulesExact(ps, built, EntryOf(ps[i], a).rule);
    hide Needed, GeneratedRules, Derives;
  }

  /** A project given its domain by its id only: the rule names the default domain, the group is in the other one. */
  lemma DefaultDomainExample() returns (ps: seq<Configured>, a: Assignment)
    ensures |ps| == 1 && Assigned(ps, 0, 0, a)
    ensures EntryOf(ps[0], a).rule.group == Some(GroupElement("ops", "Default"))
    ensures ("ops", "Default") !in EnsuredPairs(ps, 0, s => s) && ("ops", "d1") in EnsuredPairs(ps, 0, s => s)
  {
    hide EntryOf, Needed, GeneratedRules, DerivedGroups, DeriveGroupName, NamedDomain, EnsuredPairs;
    var p: Configured;
    p, a := ExampleProject();
    ps := [p];
    OnlyProject(ps, "ops");
    FirstDomainWins(ps, 0, 0, "ops");
    EnsuredIs(ps, 0, s => s, "ops");
    RulePairsAreEnsured(ps, 0, 0, 0, a, 0, s => s);
  }

  lemma ExampleProject() returns (p: Configured, a: Assignment)
    ensures p.PresentAt(0) && p.federation.Some? && p.domainId == "d1" && NamedDomain(p) == "Default"
    ensures a in p.federation.value.assignments && a.group && "ops" in DerivedGroups(p)
    ensures ValidAssignment(a) && DeriveGroupName(p.name, a, p.federation.value.separator) == "ops"
  {
    a := Assignment(One("admins"), ["admin"], "ops", true, false);
    p := Project("a", Present, None, "d1", None, Some(FedConfig("", "", "", Inherit, " ", [a])), []);
    assert a in p.federation.value.assignments;
    assert DerivedFrom(p, 1) == ["ops"];
  }

  lemma EnsuredIs(ps: seq<Configured>, now: Instant, domainOf: string -> string, g: string)
    requires g in Needed(ps, now)
    ensures (g, domainOf(Needed(ps, now)[g])) in EnsuredPairs(ps, now, domainOf)
  {
    hide Needed;
  }

  lemma OnlyProject(ps: seq<Configured>, g: string)
    requires |ps| == 1 && ps[0].PresentAt(0) && g in DerivedGroups(ps[0])
    ensures Derives(ps, 0, 0, g) && DerivesFirst(ps, 0, 0, g)
  {}

  // ---------- One rule per assignment ----------

  ghost predicate Assigned(ps: seq<Configured>, now: Instant, i: nat, a: Assignment) {
    i < |ps| && ps[i].PresentAt(now) && ps[i].federation.Some? && a in ps[i].federation.value.assignments
  }

  lemma {:induction false} EntriesExact(p: Project, n: nat, e: Entry)
    requires p.federation.Some? && ValidProject(p) && n <= |p.federation.value.assignments|
    ensures e in EntriesOf(p, n) <==> exists k :: 0 <= k < n && e == EntryOf(p, p.federation.value.assignments[k])
    ensures |EntriesOf(p, n)| == n
  {
    if n > 0 {
      hide EntryOf;
      EntriesExact(p, n - 1, e);
    }
  }

  lemma {:induction false} ProjectsGiveEntries(ps: seq<Configured>, now: Instant, i: nat)
    requires i < |ps|
    ensures forall e :: e in ProjectEntries(ps[i], now) ==> e in AllEntries(ps, now)
    decreases |ps|
  {
    hide ProjectEntries;
    var n := |ps| - 1;
    if i < n {
      ProjectsGiveEntries(ps[..n], now, i);
    }
  }

  lemma {:induction false} EntriesAreRules(entries: seq<Entry>, e: Entry)
    requires e in entries
    ensures e.rule in RulesOf(entries)
  {
    if entries[0] != e {
      EntriesAreRules(entries[1..], e);
    }
  }

  /** The mapping has a rule exactly if it is the rule of some assignment of some present project. */
  lemma RulesExact(ps: seq<Configured>, now: Instant, rule: Rule)
    ensures rule in GeneratedRules(ps, now)
      <==> exists i: nat, a :: Assigned(ps, now, i, a) && EntryOf(ps[i], a).rule == rule
  {
    hide EntryOf, AllEntries, ProjectEntries;
    var entries := AllEntries(ps, now);
    EntryOrder();
    SortOrders(entries, EntryLeq);
    if rule in GeneratedRules(ps, now) {
      RulesAreEntries(Sort(entries, EntryLeq), rule);
      var e :| e in Sort(entries, EntryLeq) && e.rule == rule;
      assert e in multiset(entries);
      EntriesComeFromProjects(ps, now, e);
      var i :| 0 <= i < |ps| && e in ProjectEntries(ps[i], now);
      EntryAssigned(ps, now, i, e);
    }
    if i: nat, a :| Assigned(ps, now, i, a) && EntryOf(ps[i], a).rule == rule {
      var e := EntryOf(ps[i], a);
      AssignedEntry(ps, now, i, a);
      ProjectsGiveEntries(ps, now, i);
      assert e in multiset(Sort(entries, EntryLeq));
      EntriesAreRules(Sort(entries, EntryLeq), e);
    }
  }

  lemma EntryAssigned(ps: seq<Configured>, now: Instant, i: nat, e: Entry)
    requires i < |ps| && e in ProjectEntries(ps[i], now)
    ensures exists a :: Assigned(ps, now, i, a) && EntryOf(ps[i], a) == e
  {
    hide EntryOf, EntriesOf;
    var p := ps[i];
    var n := |p.federation.value.assignments|;
    EntriesExact(p, n, e);
    var k :| 0 <= k < n && e == EntryOf(p, p.federation.value.assignments[k]);
    assert Assigned(ps, now, i, p.federation.value.assignments[k]);
  }

  lemma AssignedEntry(ps: seq<Configured>, now: Instant, i: nat, a: Assignment)
    requires Assigned(ps, now, i, a)
    ensures EntryOf(ps[i], a) in ProjectEntries(ps[i], now)
  {
    hide EntryOf, EntriesOf;
    var assignments := ps[i].federation.value.assignments;
    var k :| 0 <= k < |assignments| && assignments[k] == a;
    EntriesExact(ps[i], |assignments|, EntryOf(ps[i], a));
  }

  // ---------- The rules do not depend on the order of the projects ----------

  predicate NamesDiffer(ps: seq<Configured>) {
    forall i, j :: 0 <= i < j < |ps| ==> ps[i].name != ps[j].name
  }

  lemma DifferentProjects(x: Entry, y: Entry)
    requires x.project != y.project
    ensures Differ(x, y, EntryLeq)
  {
    TextTotal(x.project, y.project);
  }

  lemma EntriesNamed(p: Project, now: Instant)
    requires ValidProject(p)
    ensures forall e :: e in ProjectEntries(p, now) ==> e.project == p.name
  {
    if p.PresentAt(now) && p.federation.Some? {
      EntriesNameDerived(p, |p.federation.value.assignments|);
    }
  }

  lemma AllEntriesNamed(ps: seq<Configured>, now: Instant, e: Entry)
    requires e in AllEntries(ps, now)
    ensures exists i :: 0 <= i < |ps| && e.project == ps[i].name
  {
    EntriesComeFromProjects(ps, now, e);
    var i :| 0 <= i < |ps| && e in ProjectEntries(ps[i], now);
    EntriesNamed(ps[i], now);
  }

  lemma AllEntriesSnoc(ps: seq<Configured>, p: Configured, now: Instant)
    ensures AllEntries(ps + [p], now) == AllEntries(ps, now) + ProjectEntries(p, now)
  {
    hide ProjectEntries;
    assert (ps + [p])[..|ps|] == ps;
  }

  lemma {:induction false} AllEntriesConcat(a: seq<Configured>, b: seq<Configured>, now: Instant)
    ensures AllEntries(a + b, now) == AllEntries(a, now) + AllEntries(b, now)
    decreases |b|
  {
    hide ProjectEntries;
    if b == [] {
      assert a + b == a;
    } else {
      hide AllEntries;
      var n := |b| - 1;
      assert b == b[..n] + [b[n]] && a + b == (a + b[..n]) + [b[n]];
      AllEntriesConcat(a, b[..n], now);
      AllEntriesSnoc(a + b[..n], b[n], now);
      AllEntriesSnoc(b[..n], b[n], now);
    }
  }

  function SortedEntries(ps: seq<Configured>, now: Instant): seq<Entry>
  {
    Sort(AllEntries(ps, now), EntryLeq)
  }

  lemma OneProject(p: Configured, now: Instant)
    ensures AllEntries([p], now) == ProjectEntries(p, now)
  {
    assert [p][..0] == [];
    assert AllEntries([], now) == [];
  }

  /** A project can be moved to the front without changing the sorted entries. */
  lemma ProjectMoves(a: seq<Configured>, p: Configured, b: seq<Configured>, now: Instant)
    requires NamesDiffer(a + [p] + b)
    ensures SortedEntries(a + [p] + b, now) == Sort(ProjectEntries(p, now) + AllEntries(a + b, now), EntryLeq)
  {
    hide ProjectEntries, AllEntries;
    OneProject(p, now);
    AllEntriesConcat(a, [p], now);
    AllEntriesConcat(a + [p], b, now);
    AllEntriesConcat(a, b, now);
    EntriesNamed(p, now);
    forall x, y | x in ProjectEntries(p, now) && y in AllEntries(a, now) ensures Differ(x, y, EntryLeq) {
      AllEntriesNamed(a, now, y);
      var i :| 0 <= i < |a| && y.project == a[i].name;
      assert (a + [p] + b)[i] == a[i] && (a + [p] + b)[|a|] == p;
      DifferentProjects(x, y);
    }
    EntryOrder();
    SortMovesBlock(AllEntries(a, now), ProjectEntries(p, now), AllEntries(b, now), EntryLeq);
  }

  lemma {:induction false} SortedEntriesOrderFree(ps: seq<Configured>, qs: seq<Configured>, now: Instant)
    requires NamesDiffer(ps) && multiset(ps) == multiset(qs) && NamesDiffer(qs)
    ensures SortedEntries(ps, now) == SortedEntries(qs, now)
  {
    hide AllEntries, ProjectEntries;
    if ps == [] {
      assert |qs| == |multiset(qs)| == 0;
    } else {
      var p, rest := ps[0], ps[1..];
      var a, b := TakeOut(ps, qs);
      NamesStillDiffer(a, p, b);
      SortedEntriesOrderFree(rest, a + b, now);
      ProjectMoves([], p, rest, now);
      assert [] + [p] + rest == ps && [] + rest == rest;
      ProjectMoves(a, p, b, now);
      SortCongruent(ProjectEntries(p, now), AllEntries(rest, now), AllEntries(a + b, now), EntryLeq);
    }
  }

  /** Takes the first element of one list out of another with the same elements. */
  lemma TakeOut(ps: seq<Configured>, qs: seq<Configured>) returns (a: seq<Configured>, b: seq<Configured>)
    requires ps != [] && multiset(ps) == multiset(qs)
    ensures qs == a + [ps[0]] + b && multiset(a + b) == multiset(ps[1..])
  {
    var p, rest := ps[0], ps[1..];
    assert ps == [p] + rest;
    assert p in multiset(qs);
    var i :| 0 <= i < |qs| && qs[i] == p;
    a, b := qs[..i], qs[i + 1..];
    assert qs == a + [p] + b;
    assert multiset(a + b) == multiset(qs) - multiset{p};
    assert multiset(rest) == multiset(ps) - multiset{p};
  }

  lemma NamesStillDiffer(a: seq<Configured>, p: Configured, b: seq<Configured>)
    requires NamesDiffer(a + [p] + b)
    ensures NamesDiffer(a + b)
  {
    var all := a + [p] + b;
    forall i, j | 0 <= i < j < |a + b| ensures (a + b)[i].name != (a + b)[j].name {
      var k, l := if i < |a| then i else i + 1, if j < |a| then j else j + 1;
      assert all[k] == (a + b)[i] && all[l] == (a + b)[j];
    }
  }

  /** With distinct project names the mapping does not depend on the order in which projects are listed. */
  lemma RulesAreDeterministic(ps: seq<Configured>, qs: seq<Configured>, now: Instant)
    requires NamesDiffer(ps) && multiset(ps) == multiset(qs) && NamesDiffer(qs)
    ensures GeneratedRules(ps, now) == GeneratedRules(qs, now)
  {
    SortedEntriesOrderFree(ps, qs, now);
  }
}
