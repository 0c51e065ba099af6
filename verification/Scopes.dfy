/** The scopes of a partial run and their prerequisites (src/reconciler.py:61-146). */
module Scopes {
  import opened Common

  datatype Scope =
    | Roles | Network | Fips | PreallocNetwork | Quotas | SecurityGroups | Reservations | KeystoneGroups | Federation

  function Prerequisites(s: Scope): set<Scope> {
    match s
    case Fips => {Network}
    case PreallocNetwork => {Network}
    case Roles => {KeystoneGroups}
    case _ => {}
  }

  const SCOPE_COUNT: nat := 9

  predicate Closed(scopes: set<Scope>) {
    forall s, d :: s in scopes && d in Prerequisites(s) ==> d in scopes
  }

  /** The least closed set that contains the given one. */
  ghost predicate IsClosure(scopes: set<Scope>, r: set<Scope>) {
    && scopes <= r && Closed(r)
    && forall other: set<Scope> :: scopes <= other && Closed(other) ==> r <= other
  }

  function Additions(scopes: set<Scope>): set<Scope> {
    set s, d | s in scopes && d in Prerequisites(s) && d !in scopes :: d
  }

  /** Adds prerequisites, at most as often as there are scopes; this always suffices. */
  method ExpandScopeDependencies(scopes: set<Scope>) returns (expanded: set<Scope>)
    ensures IsClosure(scopes, expanded)
    ensures expanded == WithNeeds(scopes)
  {
    hide WithNeeds;
    NeedsClose(scopes);
    expanded := scopes;
    var i := 0;
    while i < SCOPE_COUNT
      invariant scopes <= expanded
      invariant forall other: set<Scope> :: scopes <= other && Closed(other) ==> expanded <= other
      invariant i > 0 ==> Closed(expanded)
    {
      var additions := Additions(expanded);
      if additions == {} {
        NothingMissing(expanded);
        break;
      }
      OneRound(expanded);
      expanded := expanded + additions;
      i := i + 1;
    }
  }

  /** The set with the network for what lives on it, and the groups for the roles that are given to them. */
  function WithNeeds(scopes: set<Scope>): set<Scope> {
    scopes + (if Fips in scopes || PreallocNetwork in scopes then {Network} else {})
    + if Roles in scopes then {KeystoneGroups} else {}
  }

  lemma NeedsClose(scopes: set<Scope>)
    ensures IsClosure(scopes, WithNeeds(scopes))
    ensures Closed(scopes) <==>
      && (Fips in scopes || PreallocNetwork in scopes ==> Network in scopes)
      && (Roles in scopes ==> KeystoneGroups in scopes)
  {
    forall other: set<Scope> | scopes <= other && Closed(other) ensures WithNeeds(scopes) <= other {
      assert Network in Prerequisites(Fips) && Network in Prerequisites(PreallocNetwork);
      assert KeystoneGroups in Prerequisites(Roles);
    }
  }

  lemma NothingMissing(scopes: set<Scope>)
    ensures Additions(scopes) == {} <==> Closed(scopes)
  {
    if Additions(scopes) == {} {
      forall s, d | s in scopes && d in Prerequisites(s) ensures d in scopes {
        assert d !in scopes ==> d in Additions(scopes);
      }
    }
  }

  /** No prerequisite has prerequisites of its own, so one round closes the set. */
  lemma OneRound(scopes: set<Scope>)
    ensures Closed(scopes + Additions(scopes))
  {}

  datatype Scoped = Everything | Only(scopes: set<Scope>) | Rejected

  method ValidateScopes(scopes: Option<set<Scope>>, autoExpand: bool) returns (r: Scoped)
    ensures scopes.None? ==> r == Everything
    ensures scopes == Some({}) ==> r == Rejected
    ensures scopes.Some? && scopes.value != {} ==>
      if autoExpand then r == Only(WithNeeds(scopes.value)) && IsClosure(scopes.value, r.scopes)
      else if Closed(scopes.value) then r == Only(scopes.value) && WithNeeds(scopes.value) == scopes.value
      else r == Rejected && WithNeeds(scopes.value) != scopes.value
  {
    if scopes.None? {
      return Everything;
    }
    if scopes.value == {} {
      return Rejected;
    }
    if autoExpand {
      var expanded := ExpandScopeDependencies(scopes.value);
      return Only(expanded);
    }
    NothingMissing(scopes.value);
    NeedsClose(scopes.value);
    return if Additions(scopes.value) == {} then Only(scopes.value) else Rejected;
  }
}
