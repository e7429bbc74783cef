/** What a series of expiries means for approvals already given and for bases already frozen. */
module AuthorityHistory {
  import opened Common
  import opened Authority
  import opened AuthorityLifecycle
  import opened Approval
  import Governance

  /** Operations that hand out nothing: no assignment and no delegation is added. */
  predicate GrantsNothing(op: Op) {
    !op.PutAssignment? && !op.PutDelegation?
  }

  /** The window as seen before `cutoff` is the same. */
  ghost predicate SameBefore(cutoff: Time, from: Time, until: Option<Time>, until': Option<Time>) {
    forall at :: at < cutoff ==> (WindowCurrent(from, until, at) <==> WindowCurrent(from, until', at))
  }

  /** Between the two tables nothing was added, windows only shortened, and before `cutoff` no
      window changed. */
  ghost predicate EndedAfter(cutoff: Time, t: Tables, t': Tables) {
    && t'.assignments.Keys == t.assignments.Keys && AssignmentsShortened(t.assignments, t'.assignments)
    && t'.delegations.Keys == t.delegations.Keys && DelegationsShortened(t.delegations, t'.delegations)
    && (forall id :: id in t.assignments ==>
          SameBefore(cutoff, t.assignments[id].validFrom, t.assignments[id].validUntil, t'.assignments[id].validUntil))
    && (forall id :: id in t.delegations ==>
          SameBefore(cutoff, t.delegations[id].validFrom, Some(t.delegations[id].validUntil),
                     Some(t'.delegations[id].validUntil)))
  }

  /** Expiries take effect at or after `cutoff`; the rest of the operations grant nothing. */
  predicate Late(cutoff: Time, op: Op) {
    GrantsNothing(op) && (op.Expire? ==> cutoff <= op.at)
  }

  lemma NextEndsAfter(cutoff: Time, s: State, op: Op)
    requires Late(cutoff, op)
    ensures EndedAfter(cutoff, s.t, Next(s, op).t)
  {
    NextShortens(s, op);
    if Accepted(s, op) && op.Expire? {
      match op.kind
      case BindingRow =>
      case AssignmentRow => assert Next(s, op).t.assignments.Keys == s.t.assignments.Keys;
      case DelegationRow => assert Next(s, op).t.delegations.Keys == s.t.delegations.Keys;
    }
  }

  lemma EndedAfterTransitive(cutoff: Time, t: Tables, t': Tables, t'': Tables)
    requires EndedAfter(cutoff, t, t') && EndedAfter(cutoff, t', t'')
    ensures EndedAfter(cutoff, t, t'')
  {
  }

  lemma {:induction false} RunEndsAfter(cutoff: Time, s: State, ops: seq<Op>)
    requires forall i :: 0 <= i < |ops| ==> Late(cutoff, ops[i])
    ensures EndedAfter(cutoff, s.t, Run(s, ops).t)
    decreases |ops|
  {
    if ops != [] {
      var s' := Next(s, ops[0]);
      NextEndsAfter(cutoff, s, ops[0]);
      RunEndsAfter(cutoff, s', ops[1..]);
      EndedAfterTransitive(cutoff, s.t, s'.t, Run(s, ops).t);
    }
  }

  lemma DirectAfterEnding(cutoff: Time, t: Tables, t': Tables, principal: string, role: string, scope: string, at: Time)
    requires EndedAfter(cutoff, t, t')
    ensures HoldsDirectly(t', principal, role, scope, at) ==> HoldsDirectly(t, principal, role, scope, at)
    ensures at < cutoff ==>
              (HoldsDirectly(t', principal, role, scope, at) <==> HoldsDirectly(t, principal, role, scope, at))
  {
    forall id | id in t.assignments
      ensures Grants(t'.assignments[id], principal, role, scope, at)
              ==> Grants(t.assignments[id], principal, role, scope, at)
      ensures at < cutoff && Grants(t.assignments[id], principal, role, scope, at)
              ==> Grants(t'.assignments[id], principal, role, scope, at)
    {
    }
  }

  /** Over every run of late expiries nobody gains a role at any instant, and at instants before
      the cutoff nobody loses one. */
  lemma HoldsAfterEnding(cutoff: Time, t: Tables, t': Tables, principal: string, role: string, scope: string, at: Time)
    requires EndedAfter(cutoff, t, t')
    ensures Holds(t', principal, role, scope, at) ==> Holds(t, principal, role, scope, at)
    ensures at < cutoff ==> (Holds(t', principal, role, scope, at) <==> Holds(t, principal, role, scope, at))
  {
    DirectAfterEnding(cutoff, t, t', principal, role, scope, at);
    forall id | id in t.delegations
      ensures Passes(t'.delegations[id], principal, role, scope, at)
              ==> Passes(t.delegations[id], principal, role, scope, at)
      ensures at < cutoff && Passes(t.delegations[id], principal, role, scope, at)
              ==> Passes(t'.delegations[id], principal, role, scope, at)
      ensures t'.delegations[id].source == t.delegations[id].source
    {
      DirectAfterEnding(cutoff, t, t', t.delegations[id].source, role, scope, at);
    }
    if HoldsByDelegation(t', principal, role, scope, at) {
      var id :| id in t'.delegations && Passes(t'.delegations[id], principal, role, scope, at)
        && HoldsDirectly(t', t'.delegations[id].source, role, scope, at);
      DirectAfterEnding(cutoff, t, t', t.delegations[id].source, role, scope, at);
    }
    if at < cutoff && HoldsByDelegation(t, principal, role, scope, at) {
      var id :| id in t.delegations && Passes(t.delegations[id], principal, role, scope, at)
        && HoldsDirectly(t, t.delegations[id].source, role, scope, at);
      DirectAfterEnding(cutoff, t, t', t.delegations[id].source, role, scope, at);
      assert HoldsDirectly(t', t'.delegations[id].source, role, scope, at);
    }
  }

  /** The operation is accepted and ends a delegation towards the principal at its very start. */
  predicate StartExpiry(s: State, op: Op, principal: string) {
    && op.Expire? && op.kind == DelegationRow && Accepted(s, op)
    && s.t.delegations[op.id].target == principal && s.t.delegations[op.id].validFrom == op.at
  }

  /** Some operation of the run does, in the state it meets. */
  predicate EndsAtStart(s: State, ops: seq<Op>, principal: string)
    decreases |ops|
  {
    ops != [] && (StartExpiry(s, ops[0], principal) || EndsAtStart(Next(s, ops[0]), ops[1..], principal))
  }

  lemma ReadableStep(s: State, op: Op, principal: string)
    ensures Readable(Next(s, op).t, principal) <==> Readable(s.t, principal) && !StartExpiry(s, op, principal)
  {
    if Accepted(s, op) && op.Expire? && op.kind == DelegationRow {
      var d, d' := s.t.delegations[op.id], Next(s, op).t.delegations[op.id];
      assert WellFormed(d') <==> WellFormed(d) && d.validFrom != op.at;
      assert forall x :: x in s.t.delegations && x != op.id ==> Next(s, op).t.delegations[x] == s.t.delegations[x];
    } else if Accepted(s, op) && op.PutDelegation? {
      assert forall x :: x in s.t.delegations ==> Next(s, op).t.delegations[x] == s.t.delegations[x];
    }
  }

  /** Over every run of every operation, a principal's delegations can be read back exactly when they
      could be before and none towards that principal was ended at its start. */
  lemma {:induction false} RunReadableIff(s: State, ops: seq<Op>, principal: string)
    ensures Readable(Run(s, ops).t, principal) <==> Readable(s.t, principal) && !EndsAtStart(s, ops, principal)
    decreases |ops|
  {
    if ops != [] {
      ReadableStep(s, ops[0], principal);
      RunReadableIff(Next(s, ops[0]), ops[1..], principal);
    }
  }

  /** A deciding principal whose delegation the run ends at its start. */
  ghost predicate DeciderEnded(s: State, ops: seq<Op>, q: Query, ds: seq<Decision>) {
    exists i :: 0 <= i < |ds| && Relevant(q, ds[i]) && EndsAtStart(s, ops, ds[i].principal)
  }

  lemma AllReadableIff(s: State, ops: seq<Op>, q: Query, ds: seq<Decision>)
    ensures AllReadable(Run(s, ops).t, q, ds) <==> AllReadable(s.t, q, ds) && !DeciderEnded(s, ops, q, ds)
  {
    forall i | 0 <= i < |ds| && Relevant(q, ds[i])
      ensures Readable(Run(s, ops).t, ds[i].principal)
          <==> Readable(s.t, ds[i].principal) && !EndsAtStart(s, ops, ds[i].principal)
    {
      RunReadableIff(s, ops, ds[i].principal);
    }
  }

  /** The whole assessment of decisions made before the cutoff, verdict, missing roles and selected
      decisions alike, is the same after a run of expiries that take effect at or after it, exactly
      when it failed already or no deciding principal had a delegation ended at its start. */
  lemma PastApprovalsStandIff(cutoff: Time, s: State, ops: seq<Op>, q: Query, ds: seq<Decision>)
    requires forall i :: 0 <= i < |ops| ==> Late(cutoff, ops[i])
    requires forall i :: 0 <= i < |ds| && Relevant(q, ds[i]) ==> ds[i].decidedAt < cutoff
    ensures AssessSpec(Run(s, ops).t, q, ds) == AssessSpec(s.t, q, ds)
            <==> (AllReadable(s.t, q, ds) ==> !DeciderEnded(s, ops, q, ds))
  {
    var t, t' := s.t, Run(s, ops).t;
    RunEndsAfter(cutoff, s, ops);
    AllReadableIff(s, ops, q, ds);
    forall role | role in q.roles ensures EligibleFor(t', q, role, ds) == EligibleFor(t, q, role, ds) {
      SameEligible(cutoff, t, t', q, role, ds);
    }
    assert CandidatesOf(t', q, ds) == CandidatesOf(t, q, ds);
  }

  lemma {:induction false} SameEligible(cutoff: Time, t: Tables, t': Tables, q: Query, role: string, ds: seq<Decision>)
    requires EndedAfter(cutoff, t, t')
    requires forall i :: 0 <= i < |ds| && Relevant(q, ds[i]) ==> ds[i].decidedAt < cutoff
    ensures EligibleFor(t', q, role, ds) == EligibleFor(t, q, role, ds)
  {
    if ds != [] {
      var d := ds[|ds| - 1];
      HoldsAfterEnding(cutoff, t, t', d.principal, role, q.scope, d.decidedAt);
      SameEligible(cutoff, t, t', q, role, ds[..|ds| - 1]);
    }
  }

  /** From the moment an assignment or delegation is expired, every basis that names it is refused,
      whatever happens to the tables afterwards. */
  lemma ExpiredRowRefusedForever(s: State, kind: Kind, id: string, actor: string, reason: string, at: Time,
                                 ops: seq<Op>,
                                 digest: Governance.Facts -> string, b: Governance.Basis, c: Governance.Case,
                                 policy: Governance.PolicyStatus, transactions: Result<seq<string>>, now: Time,
                                 q: Governance.Qualification)
    requires Accepted(s, Expire(kind, id, actor, reason, at)) && at <= now
    requires q in b.qualifications
    requires (kind == AssignmentRow && Governance.RoleRef(id) in q.refs)
          || (kind == DelegationRow && Governance.DelegationRef(id) in q.refs)
    ensures var s' := Run(Next(s, Expire(kind, id, actor, reason, at)), ops);
            Governance.Refused(s'.t, digest, b, c, policy, transactions, now)
  {
    var s1 := Next(s, Expire(kind, id, actor, reason, at));
    var s2 := Run(s1, ops);
    RunShortens(s1, ops);
    Governance.EndedRowInvalidates(s2.t, digest, b, c, policy, transactions, now, q, id);
  }

  /** An expiry at the very start of a delegation makes the assessment of an earlier, unrelated
      approval of its holder fail. */
  lemma StartExpiryBreaksAssessment()
    ensures var t := Tables(map["bob" := true], map["r" := Assignment("bob", "approver", "*", 0, None)],
                            map["d" := Delegation("ann", "bob", "auditor", "*", 5, 9)]);
            var s := State(t, map[], map[]);
            var q := Query("c", 1, "p", ["approver"], false, "*");
            var ds := [Decision("1", "c", 1, "bob", Some("approver"), Approve, "p", 2)];
            var op := Expire(DelegationRow, "d", "ops", "left", 5);
            AssessSpec(s.t, q, ds).Ok? && Accepted(s, op) && AssessSpec(Next(s, op).t, q, ds).Err?
  {
    var t := Tables(map["bob" := true], map["r" := Assignment("bob", "approver", "*", 0, None)],
                    map["d" := Delegation("ann", "bob", "auditor", "*", 5, 9)]);
    var op := Expire(DelegationRow, "d", "ops", "left", 5);
    assert "left"[0] == 'l';
    var t' := Next(State(t, map[], map[]), op).t;
    assert "d" in t'.delegations && !WellFormed(t'.delegations["d"]);
    var ds := [Decision("1", "c", 1, "bob", Some("approver"), Approve, "p", 2)];
    var q := Query("c", 1, "p", ["approver"], false, "*");
    assert Relevant(q, ds[0]) && !Readable(t', ds[0].principal);
  }
}
