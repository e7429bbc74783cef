/** What deactivating a principal takes away, and what the lifecycle events tell about the tables. */
module AuthorityAudit {
  import opened Common
  import opened Authority
  import opened AuthorityLifecycle
  import Governance

  // ---------- Deactivation ----------

  predicate NeverReinstated(ops: seq<Op>, p: string) {
    forall i :: 0 <= i < |ops| ==> ops[i] != PutPrincipal(p, true)
  }

  lemma {:induction false} InactiveStays(s: State, ops: seq<Op>, p: string)
    requires p in s.t.principals && !s.t.principals[p] && NeverReinstated(ops, p)
    ensures p in Run(s, ops).t.principals && !Run(s, ops).t.principals[p]
    decreases |ops|
  {
    if ops != [] {
      assert ops[0] != PutPrincipal(p, true);
      InactiveStays(Next(s, ops[0]), ops[1..], p);
    }
  }

  /** Once deactivated and until put back as active, a principal is resolved for no external identity
      at any instant, past or future, and no identity can be bound to it. */
  lemma DeactivatedShutOut(s: State, p: string, actor: string, reason: string, at: Time, ops: seq<Op>)
    requires Accepted(s, Deactivate(p, actor, reason, at)) && NeverReinstated(ops, p)
    ensures var s' := Run(Next(s, Deactivate(p, actor, reason, at)), ops);
            && (forall provider, subject, when :: !ResolvesTo(s', provider, subject, when, p))
            && (forall id, b: Binding, who, why, event ::
                  b.principal == p ==> !Accepted(s', Bind(id, b, who, why, event)))
  {
    InactiveStays(Next(s, Deactivate(p, actor, reason, at)), ops, p);
  }

  /** And every frozen basis with a qualification of that principal is refused. */
  lemma DeactivatedRefused(s: State, p: string, actor: string, reason: string, at: Time, ops: seq<Op>,
                           digest: Governance.Facts -> string, b: Governance.Basis, c: Governance.Case,
                           policy: Governance.PolicyStatus, transactions: Result<seq<string>>, now: Time,
                           q: Governance.Qualification)
    requires Accepted(s, Deactivate(p, actor, reason, at)) && NeverReinstated(ops, p)
    requires q in b.qualifications && q.principal == p
    ensures var s' := Run(Next(s, Deactivate(p, actor, reason, at)), ops);
            Governance.Refused(s'.t, digest, b, c, policy, transactions, now)
  {
    var s' := Run(Next(s, Deactivate(p, actor, reason, at)), ops);
    InactiveStays(Next(s, Deactivate(p, actor, reason, at)), ops, p);
    assert Governance.Applies(s'.t, digest, b, c, policy, transactions, now, Governance.NoLongerQualifies(p, q.role));
  }

  // ---------- What is handed out takes effect ----------

  /** An assignment is refused exactly when its id stands for another row, and in force it gives its
      role for its scope throughout its window. */
  lemma AssignmentTakesEffect(s: State, id: string, a: Assignment, scope: string, at: Time)
    ensures Accepted(s, PutAssignment(id, a)) <==> (id in s.t.assignments ==> s.t.assignments[id] == a)
    ensures Accepted(s, PutAssignment(id, a)) && a.scope in ["*", scope] && a.validFrom <= at
            && (a.validUntil.Some? ==> at < a.validUntil.value) ==>
              Holds(Next(s, PutAssignment(id, a)).t, a.principal, a.role, scope, at)
  {
    if Accepted(s, PutAssignment(id, a)) {
      assert id in Next(s, PutAssignment(id, a)).t.assignments;
    }
  }

  /** A delegation is refused exactly when its window is empty or its id stands for another row, and in
      force it passes on what its source holds directly. */
  lemma DelegationTakesEffect(s: State, id: string, d: Delegation, scope: string, at: Time)
    ensures Accepted(s, PutDelegation(id, d))
            <==> d.validFrom < d.validUntil && (id in s.t.delegations ==> s.t.delegations[id] == d)
    ensures Accepted(s, PutDelegation(id, d)) && d.scope in ["*", scope] && d.validFrom <= at < d.validUntil
            && HoldsDirectly(s.t, d.source, d.role, scope, at) ==>
              Holds(Next(s, PutDelegation(id, d)).t, d.target, d.role, scope, at)
  {
    if Accepted(s, PutDelegation(id, d)) {
      var t' := Next(s, PutDelegation(id, d)).t;
      assert id in t'.delegations && t'.delegations[id] == d;
      assert HoldsDirectly(t', d.source, d.role, scope, at) <==> HoldsDirectly(s.t, d.source, d.role, scope, at);
    }
  }

  predicate SameSubject(b: Binding, provider: string, subject: string) {
    b.provider == provider && b.subject == subject
  }

  /** Some binding of the identity is current at an instant of the window of `b`. */
  ghost predicate Taken(s: State, b: Binding) {
    exists x, at :: x in s.bindings && SameSubject(s.bindings[x], b.provider, b.subject)
      && BindingCurrent(s.bindings[x], at) && BindingCurrent(b, at)
  }

  /** Where no window is empty, an identity is bound exactly when a reason is given, the principal is
      active, both ids are new, and no instant of the window is taken for that identity. */
  lemma BindAcceptedIff(s: State, id: string, b: Binding, actor: string, reason: string, event: string)
    requires !Empty(b)
    requires forall x :: x in s.bindings && SameSubject(s.bindings[x], b.provider, b.subject) ==> !Empty(s.bindings[x])
    ensures Accepted(s, Bind(id, b, actor, reason, event)) <==>
            && !Blank(reason) && b.principal in s.t.principals && s.t.principals[b.principal]
            && id !in s.bindings && Assigned(event) !in s.events && !Taken(s, b)
  {
    forall x | x in s.bindings && SameSubject(s.bindings[x], b.provider, b.subject)
      ensures WindowsOverlap(s.bindings[x], b) <==> ShareInstant(s.bindings[x], b)
    {
      OverlapMeaning(s.bindings[x], b);
    }
  }

  /** A binding by either operation resolves its identity to its principal throughout its window, if
      that principal is active. */
  lemma BindTakesEffect(s: State, op: Op, at: Time)
    requires op.Bind? || op.PutBinding?
    requires Accepted(s, op) && op.binding.validFrom <= at
    requires op.binding.validUntil.Some? ==> at < op.binding.validUntil.value
    ensures var s' := Next(s, op); var b := op.binding;
            ResolvesTo(s', b.provider, b.subject, at, b.principal) <==> ActivePrincipal(s, b.principal)
  {
    var s', b := Next(s, op), op.binding;
    forall x | x in CurrentIds(s'.bindings, b.provider, b.subject, at) ensures x == op.id {
      if x != op.id {
        assert ShareInstant(s.bindings[x], b);
        OverlapMeaning(s.bindings[x], b);
      }
    }
    assert op.id in CurrentIds(s'.bindings, b.provider, b.subject, at);
    assert CurrentIds(s'.bindings, b.provider, b.subject, at) == {op.id};
  }

  /** While two bindings of an identity are current it resolves to nobody. */
  lemma AmbiguousResolvesToNobody(s: State, provider: string, subject: string, at: Time, x: string, y: string,
                                  p: string)
    requires x != y && x in s.bindings && y in s.bindings
    requires SameSubject(s.bindings[x], provider, subject) && BindingCurrent(s.bindings[x], at)
    requires SameSubject(s.bindings[y], provider, subject) && BindingCurrent(s.bindings[y], at)
    ensures !ResolvesTo(s, provider, subject, at, p)
  {
    var ids := CurrentIds(s.bindings, provider, subject, at);
    assert {x, y} <= ids;
    assert ids == {x, y} + (ids - {x, y});
  }

  /** `put_identity_binding` writes exactly the first binding of an identity, under a new id. */
  lemma PutBindingAcceptedIff(s: State, id: string, b: Binding)
    ensures Accepted(s, PutBinding(id, b)) <==>
            id !in s.bindings && forall x :: x in s.bindings ==> !SameSubject(s.bindings[x], b.provider, b.subject)
  {
  }

  /** A known principal with a reason given is deactivated unless another deactivation of it is recorded
      for the very instant; to put a principal is never refused and decides whether it is active. */
  lemma PrincipalChanges(s: State, p: string, active: bool, actor: string, reason: string, at: Time)
    ensures Accepted(s, Deactivate(p, actor, reason, at)) <==>
            && !Blank(reason) && p in s.t.principals
            && (DeactivationKey(p, at) in s.events ==>
                  s.events[DeactivationKey(p, at)]
                  == Event("principal.deactivated", actor, "principal:" + p, reason, None, at))
    ensures ActivePrincipal(Next(s, PutPrincipal(p, active)), p) <==> active
  {
  }

  // ---------- Every change has its event ----------

  /** Some event of this type records that the row's window now is `from` to `until`. */
  ghost predicate EndRecorded(events: map<EventKey, Event>, kind: string, target: string, from: Time, until: Time) {
    exists at :: Derived(kind, target, at) in events
      && events[Derived(kind, target, at)].kind == kind && events[Derived(kind, target, at)].target == target
      && events[Derived(kind, target, at)].window == Some((from, until)) && events[Derived(kind, target, at)].at == at
      && !Blank(events[Derived(kind, target, at)].reason)
  }

  ghost predicate AssignmentEndsRecorded(s: State, s': State) {
    forall id ::
      (&& id in s.t.assignments && id in s'.t.assignments
       && s'.t.assignments[id].validUntil != s.t.assignments[id].validUntil) ==>
        && s'.t.assignments[id].validUntil.Some?
        && EndRecorded(s'.events, "role_assignment.expired", "role-assignment:" + id,
                       s.t.assignments[id].validFrom, s'.t.assignments[id].validUntil.value)
  }

  ghost predicate DelegationEndsRecorded(s: State, s': State) {
    forall id ::
      (&& id in s.t.delegations && id in s'.t.delegations
       && s'.t.delegations[id].validUntil != s.t.delegations[id].validUntil) ==>
        EndRecorded(s'.events, "delegation.expired", "delegation:" + id,
                    s.t.delegations[id].validFrom, s'.t.delegations[id].validUntil)
  }

  ghost predicate BindingEndsRecorded(s: State, s': State) {
    forall id :: id in s.bindings && id in s'.bindings && s'.bindings[id].validUntil != s.bindings[id].validUntil ==>
        && s'.bindings[id].validUntil.Some?
        && EndRecorded(s'.events, "identity_binding.revoked", "identity-binding:" + id,
                       s.bindings[id].validFrom, s'.bindings[id].validUntil.value)
  }

  ghost predicate EndsRecorded(s: State, s': State) {
    AssignmentEndsRecorded(s, s') && DelegationEndsRecorded(s, s') && BindingEndsRecorded(s, s')
  }

  lemma EndStaysRecorded(events: map<EventKey, Event>, events': map<EventKey, Event>, kind: string, target: string,
                         from: Time, until: Time)
    requires EndRecorded(events, kind, target, from, until) && EventsKept(events, events')
    ensures EndRecorded(events', kind, target, from, until)
  {
  }

  lemma ExpiryRecorded(s: State, op: Op)
    requires Accepted(s, op) && op.Expire?
    ensures var s' := Next(s, op); var w := WindowOf(s', op.kind, op.id);
            w.Some? && w.value.1.Some?
            && EndRecorded(s'.events, EventKind(op.kind), Target(op.kind, op.id), w.value.0, w.value.1.value)
  {
    var key := ExpiryKey(op.kind, op.id, op.at);
    assert key in Next(s, op).events && Next(s, op).events[key].at == op.at;
  }

  lemma NextRecordsEnds(s: State, op: Op)
    ensures EndsRecorded(s, Next(s, op))
  {
    if Accepted(s, op) && op.Expire? {
      ExpiryRecorded(s, op);
      match op.kind
      case BindingRow =>
      case AssignmentRow =>
      case DelegationRow =>
    }
  }

  lemma AssignmentEndsJoin(s: State, s': State, s'': State)
    requires Shortened(s, s') && Shortened(s', s'')
    requires AssignmentEndsRecorded(s, s') && AssignmentEndsRecorded(s', s'')
    ensures AssignmentEndsRecorded(s, s'')
  {
    forall id | id in s.t.assignments && id in s''.t.assignments
      && s'.t.assignments[id].validUntil != s.t.assignments[id].validUntil
      && s''.t.assignments[id].validUntil == s'.t.assignments[id].validUntil
      ensures EndRecorded(s''.events, "role_assignment.expired", "role-assignment:" + id,
                          s.t.assignments[id].validFrom, s''.t.assignments[id].validUntil.value)
    {
      EndStaysRecorded(s'.events, s''.events, "role_assignment.expired", "role-assignment:" + id,
                       s.t.assignments[id].validFrom, s'.t.assignments[id].validUntil.value);
    }
  }

  lemma DelegationEndsJoin(s: State, s': State, s'': State)
    requires Shortened(s, s') && Shortened(s', s'')
    requires DelegationEndsRecorded(s, s') && DelegationEndsRecorded(s', s'')
    ensures DelegationEndsRecorded(s, s'')
  {
    forall id | id in s.t.delegations && id in s''.t.delegations
      && s'.t.delegations[id].validUntil != s.t.delegations[id].validUntil
      && s''.t.delegations[id].validUntil == s'.t.delegations[id].validUntil
      ensures EndRecorded(s''.events, "delegation.expired", "delegation:" + id,
                          s.t.delegations[id].validFrom, s''.t.delegations[id].validUntil)
    {
      EndStaysRecorded(s'.events, s''.events, "delegation.expired", "delegation:" + id,
                       s.t.delegations[id].validFrom, s'.t.delegations[id].validUntil);
    }
  }

  lemma BindingEndsJoin(s: State, s': State, s'': State)
    requires Shortened(s, s') && Shortened(s', s'')
    requires BindingEndsRecorded(s, s') && BindingEndsRecorded(s', s'')
    ensures BindingEndsRecorded(s, s'')
  {
    forall id | id in s.bindings && id in s''.bindings
      && s'.bindings[id].validUntil != s.bindings[id].validUntil
      && s''.bindings[id].validUntil == s'.bindings[id].validUntil
      ensures EndRecorded(s''.events, "identity_binding.revoked", "identity-binding:" + id,
                          s.bindings[id].validFrom, s''.bindings[id].validUntil.value)
    {
      EndStaysRecorded(s'.events, s''.events, "identity_binding.revoked", "identity-binding:" + id,
                       s.bindings[id].validFrom, s'.bindings[id].validUntil.value);
    }
  }

  /** Over every run: whatever row ends up with another end than it had, an event with a reason records
      the window it ended up with. */
  lemma {:induction false} RunRecordsEnds(s: State, ops: seq<Op>)
    ensures EndsRecorded(s, Run(s, ops))
    decreases |ops|
  {
    if ops != [] {
      var s' := Next(s, ops[0]);
      NextRecordsEnds(s, ops[0]);
      NextShortens(s, ops[0]);
      RunRecordsEnds(s', ops[1..]);
      RunShortens(s', ops[1..]);
      AssignmentEndsJoin(s, s', Run(s, ops));
      DelegationEndsJoin(s, s', Run(s, ops));
      BindingEndsJoin(s, s', Run(s, ops));
    }
  }

  // ---------- Every event has its operation ----------

  /** The event is what this operation leaves behind: who did what to which row, why and when. */
  predicate Tells(key: EventKey, e: Event, op: Op) {
    match op
    case Bind(id, b, actor, reason, eventId) =>
      && key == Assigned(eventId) && !Blank(reason)
      && e == Event("identity_binding.created", actor, "identity-binding:" + id, reason, None, b.validFrom)
    case Expire(kind, id, actor, reason, at) =>
      && key == Derived(e.kind, e.target, at) && !Blank(reason)
      && e.actor == actor && e.reason == reason && e.at == at
      && (kind == BindingRow ==> e.kind == "identity_binding.revoked" && e.target == "identity-binding:" + id)
      && (kind == AssignmentRow ==> e.kind == "role_assignment.expired" && e.target == "role-assignment:" + id)
      && (kind == DelegationRow ==> e.kind == "delegation.expired" && e.target == "delegation:" + id)
      && e.window.Some? && e.window.value.0 <= at && e.window.value.1 <= at
    case Deactivate(p, actor, reason, at) =>
      && key == Derived("principal.deactivated", "principal:" + p, at) && !Blank(reason)
      && e == Event("principal.deactivated", actor, "principal:" + p, reason, None, at)
    case _ => false
  }

  ghost predicate Told(key: EventKey, e: Event, ops: seq<Op>) {
    exists i :: 0 <= i < |ops| && Tells(key, e, ops[i])
  }

  lemma NextTells(s: State, op: Op, key: EventKey)
    requires key in Next(s, op).events && key !in s.events
    ensures Tells(key, Next(s, op).events[key], op)
  {
  }

  /** Over every run: each event recorded on the way is told by one of its operations. */
  lemma {:induction false} RunTells(s: State, ops: seq<Op>, key: EventKey)
    requires key in Run(s, ops).events && key !in s.events
    ensures Told(key, Run(s, ops).events[key], ops)
    decreases |ops|
  {
    var s' := Next(s, ops[0]);
    RunShortens(s', ops[1..]);
    if key in s'.events {
      NextTells(s, ops[0], key);
    } else {
      RunTells(s', ops[1..], key);
      var i :| 0 <= i < |ops| - 1 && Tells(key, Run(s, ops).events[key], ops[1..][i]);
      assert ops[i + 1] == ops[1..][i];
    }
  }

  /** A binding comes into being by a put, or by a bind that left its event. */
  ghost predicate BindingTraced(events: map<EventKey, Event>, ops: seq<Op>, id: string) {
    || (exists i :: 0 <= i < |ops| && ops[i].PutBinding? && ops[i].id == id)
    || (exists e :: Assigned(e) in events && events[Assigned(e)].kind == "identity_binding.created"
          && events[Assigned(e)].target == "identity-binding:" + id)
  }

  lemma {:induction false} RunTracesBindings(s: State, ops: seq<Op>, id: string)
    requires id in Run(s, ops).bindings && id !in s.bindings
    ensures BindingTraced(Run(s, ops).events, ops, id)
    decreases |ops|
  {
    var s' := Next(s, ops[0]);
    RunShortens(s', ops[1..]);
    if id !in s'.bindings {
      RunTracesBindings(s', ops[1..], id);
      if i :| 0 <= i < |ops| - 1 && ops[1..][i].PutBinding? && ops[1..][i].id == id {
        assert ops[i + 1] == ops[1..][i];
      }
    } else if ops[0].Bind? {
      assert Assigned(ops[0].eventId) in Run(s, ops).events;
    }
  }

  /** A principal goes from active to inactive only by being put so, or by a deactivation with its event. */
  lemma {:induction false} RunDeactivates(s: State, ops: seq<Op>, p: string)
    requires ActivePrincipal(s, p) && !ActivePrincipal(Run(s, ops), p)
    ensures || (exists i :: 0 <= i < |ops| && ops[i] == PutPrincipal(p, false))
            || (exists at :: Derived("principal.deactivated", "principal:" + p, at) in Run(s, ops).events)
    decreases |ops|
  {
    var s' := Next(s, ops[0]);
    if ActivePrincipal(s', p) {
      RunDeactivates(s', ops[1..], p);
      if i :| 0 <= i < |ops| - 1 && ops[1..][i] == PutPrincipal(p, false) {
        assert ops[i + 1] == PutPrincipal(p, false);
      }
    } else if ops[0] != PutPrincipal(p, false) {
      RunShortens(s', ops[1..]);
      assert Derived("principal.deactivated", "principal:" + p, ops[0].at) in s'.events;
    }
  }
}
