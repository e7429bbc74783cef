/** Time-windowed role assignments and delegations, and the two readers of them that
    must agree: `roles_for` (this file) and the governance selection (Governance.dfy).

    A table is a map from primary key to row. A query may return its rows in any order,
    so every loop over a table picks rows nondeterministically. */
module Authority {
  import opened Common

  type Time = int

  datatype Assignment = Assignment(
    principal: string, role: string, scope: string,
    validFrom: Time, validUntil: Option<Time>)

  datatype Delegation = Delegation(
    source: string, target: string, role: string, scope: string,
    validFrom: Time, validUntil: Time)

  datatype Tables = Tables(
    principals: map<string, bool>,
    assignments: map<string, Assignment>,
    delegations: map<string, Delegation>)

  predicate WindowCurrent(validFrom: Time, validUntil: Option<Time>, at: Time) {
    validFrom <= at && (validUntil.None? || at < validUntil.value)
  }

  predicate ScopeMatches(granted: string, requested: string) {
    granted == "*" || granted == requested
  }

  /** The assignment gives `role` to `principal` for `scope` at instant `at`. */
  predicate Grants(a: Assignment, principal: string, role: string, scope: string, at: Time) {
    && a.principal == principal
    && a.role == role
    && WindowCurrent(a.validFrom, a.validUntil, at)
    && ScopeMatches(a.scope, scope)
  }

  /** The delegation is open towards `principal` for `role` and `scope` at instant `at`. */
  predicate Passes(d: Delegation, principal: string, role: string, scope: string, at: Time) {
    && d.target == principal
    && d.role == role
    && WindowCurrent(d.validFrom, Some(d.validUntil), at)
    && ScopeMatches(d.scope, scope)
  }

  ghost predicate HoldsDirectly(t: Tables, principal: string, role: string, scope: string, at: Time) {
    exists id :: id in t.assignments && Grants(t.assignments[id], principal, role, scope, at)
  }

  ghost predicate HoldsByDelegation(t: Tables, principal: string, role: string, scope: string, at: Time) {
    exists id :: id in t.delegations
      && Passes(t.delegations[id], principal, role, scope, at)
      && HoldsDirectly(t, t.delegations[id].source, role, scope, at)
  }

  ghost predicate Holds(t: Tables, principal: string, role: string, scope: string, at: Time) {
    HoldsDirectly(t, principal, role, scope, at) || HoldsByDelegation(t, principal, role, scope, at)
  }

  /** A delegation row can be read back only when its window is not empty. */
  predicate WellFormed(d: Delegation) {
    d.validFrom < d.validUntil
  }

  ghost predicate Readable(t: Tables, principal: string) {
    forall id :: id in t.delegations && t.delegations[id].target == principal ==> WellFormed(t.delegations[id])
  }

  method AnyGrant(t: Tables, principal: string, role: string, scope: string, at: Time) returns (found: bool)
    ensures found == HoldsDirectly(t, principal, role, scope, at)
  {
    var pending := t.assignments.Keys;
    while pending != {}
      invariant pending <= t.assignments.Keys
      invariant forall id :: id in t.assignments && id !in pending ==>
                  !Grants(t.assignments[id], principal, role, scope, at)
    {
      var id :| id in pending;
      if Grants(t.assignments[id], principal, role, scope, at) {
        return true;
      }
      pending := pending - {id};
    }
    return false;
  }

  method DirectRoles(t: Tables, principal: string, scope: string, at: Time) returns (roles: set<string>)
    ensures forall role :: role in roles <==> HoldsDirectly(t, principal, role, scope, at)
  {
    roles := {};
    var pending := t.assignments.Keys;
    while pending != {}
      invariant pending <= t.assignments.Keys
      invariant forall role :: role in roles ==> HoldsDirectly(t, principal, role, scope, at)
      invariant forall id, role ::
                  id in t.assignments && id !in pending && Grants(t.assignments[id], principal, role, scope, at)
                  ==> role in roles
    {
      var id :| id in pending;
      var a := t.assignments[id];
      if Grants(a, principal, a.role, scope, at) {
        roles := roles + {a.role};
      }
      pending := pending - {id};
    }
  }

  /** `roles_for`: fails exactly on an unreadable delegation row of the principal, whether or
      not that row is current; otherwise returns the roles held directly or by one delegation
      step from a direct holder. */
  method RolesFor(t: Tables, principal: string, scope: string, at: Time) returns (r: Result<set<string>>)
    ensures r.Ok? <==> Readable(t, principal)
    ensures r.Ok? ==> forall role :: role in r.value <==> Holds(t, principal, role, scope, at)
  {
    var roles := DirectRoles(t, principal, scope, at);
    var pending := t.delegations.Keys;
    while pending != {}
      invariant pending <= t.delegations.Keys
      invariant forall id :: id in t.delegations && id !in pending && t.delegations[id].target == principal
                  ==> WellFormed(t.delegations[id])
      invariant forall role :: HoldsDirectly(t, principal, role, scope, at) ==> role in roles
      invariant forall role :: role in roles ==> Holds(t, principal, role, scope, at)
      invariant forall id, role ::
                  id in t.delegations && id !in pending && Passes(t.delegations[id], principal, role, scope, at)
                  ==> HoldsDirectly(t, t.delegations[id].source, role, scope, at) ==> role in roles
    {
      var id :| id in pending;
      var d := t.delegations[id];
      if d.target == principal {
        if !WellFormed(d) {
          return Err("delegation valid_until must be after valid_from");
        }
        if Passes(d, principal, d.role, scope, at) {
          var sourceHolds := AnyGrant(t, d.source, d.role, scope, at);
          if sourceHolds {
            roles := roles + {d.role};
          }
        }
      }
      pending := pending - {id};
    }
    return Ok(roles);
  }

  /** Who holds a role, by the columns of the rows alone: an assignment of the role that covers the
      scope and the instant, or a delegation that does, from the principal of such an assignment. */
  lemma HoldsMeaning(t: Tables, principal: string, role: string, scope: string, at: Time)
    ensures Holds(t, principal, role, scope, at) <==>
            || (exists a :: a in t.assignments && t.assignments[a].principal == principal
                  && t.assignments[a].role == role && t.assignments[a].scope in ["*", scope]
                  && t.assignments[a].validFrom <= at
                  && (t.assignments[a].validUntil.Some? ==> at < t.assignments[a].validUntil.value))
            || (exists d, a :: d in t.delegations && t.delegations[d].target == principal
                  && t.delegations[d].role == role && t.delegations[d].scope in ["*", scope]
                  && t.delegations[d].validFrom <= at < t.delegations[d].validUntil
                  && a in t.assignments && t.assignments[a].principal == t.delegations[d].source
                  && t.assignments[a].role == role && t.assignments[a].scope in ["*", scope]
                  && t.assignments[a].validFrom <= at
                  && (t.assignments[a].validUntil.Some? ==> at < t.assignments[a].validUntil.value))
  {
    forall d, a | d in t.delegations && a in t.assignments
      ensures Grants(t.assignments[a], t.delegations[d].source, role, scope, at)
              ==> HoldsDirectly(t, t.delegations[d].source, role, scope, at)
    {
    }
  }

  /** No chain of delegations creates a role: whoever holds it, somebody holds it directly. */
  lemma RoleNeedsDirectHolder(t: Tables, principal: string, role: string, scope: string, at: Time)
    requires Holds(t, principal, role, scope, at)
    ensures exists holder :: HoldsDirectly(t, holder, role, scope, at)
  {
    if !HoldsDirectly(t, principal, role, scope, at) {
      var id :| id in t.delegations && Passes(t.delegations[id], principal, role, scope, at)
        && HoldsDirectly(t, t.delegations[id].source, role, scope, at);
    }
  }
}
