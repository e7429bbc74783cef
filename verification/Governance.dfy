/** The governance basis: the rows an approval rested on, frozen when it was granted and
    checked again before every later use. */
module Governance {
  import opened Common
  import opened Sorting
  import opened Authority

  function RoleRef(id: string): string { "role:" + id }

  function DelegationRef(id: string): string { "delegation:" + id }

  function RefsKey(refs: seq<string>): Key {
    seq(|refs|, i requires 0 <= i < |refs| => Text(refs[i]))
  }

  predicate Active(t: Tables, principal: string) {
    principal in t.principals && t.principals[principal]
  }

  // ---------- Selecting the rows a qualification rests on ----------

  ghost predicate DirectRefs(t: Tables, principal: string, role: string, scope: string, at: Time, refs: seq<string>) {
    exists id :: id in t.assignments
      && Grants(t.assignments[id], principal, role, scope, at)
      && refs == [RoleRef(id)]
  }

  ghost predicate DelegatedRefs(t: Tables, principal: string, role: string, scope: string, at: Time,
                                refs: seq<string>) {
    exists d, a :: d in t.delegations && a in t.assignments
      && Passes(t.delegations[d], principal, role, scope, at)
      && Grants(t.assignments[a], t.delegations[d].source, role, scope, at)
      && refs == [DelegationRef(d), RoleRef(a)]
  }

  /** Rows that would qualify the principal; direct assignments shadow delegations. */
  ghost predicate Supports(t: Tables, principal: string, role: string, scope: string, at: Time, refs: seq<string>) {
    if HoldsDirectly(t, principal, role, scope, at)
    then DirectRefs(t, principal, role, scope, at, refs)
    else DelegatedRefs(t, principal, role, scope, at, refs)
  }

  /** The basis is the least supporting reference tuple, and none without an active holder. */
  ghost predicate IsBasis(t: Tables, principal: string, role: string, scope: string, at: Time, r: Option<seq<string>>) {
    match r
    case None => !(Active(t, principal) && Holds(t, principal, role, scope, at))
    case Some(refs) =>
      && Active(t, principal)
      && Supports(t, principal, role, scope, at, refs)
      && forall other :: Supports(t, principal, role, scope, at, other) ==> !KeyBefore(RefsKey(other), RefsKey(refs))
  }

  lemma RefsKeyInjective(a: seq<string>, b: seq<string>)
    requires RefsKey(a) == RefsKey(b)
    ensures a == b
  {
    forall i | 0 <= i < |a| ensures |a| == |b| && a[i] == b[i] {
      assert RefsKey(a)[i] == RefsKey(b)[i];
    }
    assert |RefsKey(a)| == |RefsKey(b)|;
  }

  lemma HoldsIffSupported(t: Tables, principal: string, role: string, scope: string, at: Time)
    ensures Holds(t, principal, role, scope, at) <==> exists refs :: Supports(t, principal, role, scope, at, refs)
  {
    if HoldsDirectly(t, principal, role, scope, at) {
      var id :| id in t.assignments && Grants(t.assignments[id], principal, role, scope, at);
      assert Supports(t, principal, role, scope, at, [RoleRef(id)]);
    } else if HoldsByDelegation(t, principal, role, scope, at) {
      var d :| d in t.delegations && Passes(t.delegations[d], principal, role, scope, at)
        && HoldsDirectly(t, t.delegations[d].source, role, scope, at);
      var a :| a in t.assignments && Grants(t.assignments[a], t.delegations[d].source, role, scope, at);
      assert Supports(t, principal, role, scope, at, [DelegationRef(d), RoleRef(a)]);
    }
  }

  /** At most one basis, whatever order the rows come in. */
  lemma BasisUnique(t: Tables, principal: string, role: string, scope: string, at: Time,
                    r1: Option<seq<string>>, r2: Option<seq<string>>)
    requires IsBasis(t, principal, role, scope, at, r1) && IsBasis(t, principal, role, scope, at, r2)
    ensures r1 == r2
  {
    HoldsIffSupported(t, principal, role, scope, at);
    if r1.Some? && r2.Some? {
      KeyTotal(RefsKey(r1.value), RefsKey(r2.value));
      RefsKeyInjective(r1.value, r2.value);
    }
  }

  /** `min(items, key=key)`. */
  method Least<T(!new)>(key: T -> Key, items: seq<T>) returns (least: T)
    requires items != []
    ensures least in items
    ensures forall x :: x in items ==> !KeyBefore(key(x), key(least))
  {
    least := items[0];
    KeyIrreflexive(key(least));
    for i := 1 to |items|
      invariant least in items
      invariant forall j :: 0 <= j < i ==> !KeyBefore(key(items[j]), key(least))
    {
      if KeyBefore(key(items[i]), key(least)) {
        ghost var previous := least;
        least := items[i];
        KeyIrreflexive(key(least));
        forall j | 0 <= j < i ensures !KeyBefore(key(items[j]), key(least)) {
          if KeyBefore(key(items[j]), key(least)) {
            KeyTransitive(key(items[j]), key(least), key(previous));
          }
        }
      }
    }
  }

  lemma {:induction false} PrefixKeepsOrder(p: string, a: string, b: string)
    ensures Before(p + a, p + b) <==> Before(a, b)
  {
    if p == [] {
      assert p + a == a && p + b == b;
    } else {
      assert (p + a)[1..] == p[1..] + a && (p + b)[1..] == p[1..] + b;
      PrefixKeepsOrder(p[1..], a, b);
    }
  }

  lemma RoleRefKeepsOrder(a: string, b: string)
    ensures KeyBefore(RefsKey([RoleRef(a)]), RefsKey([RoleRef(b)])) <==> KeyBefore([Text(a)], [Text(b)])
  {
    PrefixKeepsOrder("role:", a, b);
    assert RefsKey([RoleRef(a)])[1..] == [] && RefsKey([RoleRef(b)])[1..] == [];
  }

  lemma RefInjective(a: string, b: string)
    ensures RoleRef(a) == RoleRef(b) ==> a == b
    ensures DelegationRef(a) == DelegationRef(b) ==> a == b
    ensures RoleRef(a) != DelegationRef(b) && DelegationRef(a) != RoleRef(b)
  {
    assert RoleRef(a)[0] == 'r' && DelegationRef(a)[0] == 'd' && RoleRef(b)[0] == 'r' && DelegationRef(b)[0] == 'd';
    assert a == RoleRef(a)[5..] && b == RoleRef(b)[5..];
    assert a == DelegationRef(a)[11..] && b == DelegationRef(b)[11..];
  }

  method DirectIds(t: Tables, principal: string, role: string, scope: string, at: Time) returns (ids: seq<string>)
    ensures forall id :: id in ids <==> id in t.assignments && Grants(t.assignments[id], principal, role, scope, at)
  {
    ids := [];
    var pending := t.assignments.Keys;
    while pending != {}
      invariant pending <= t.assignments.Keys
      invariant forall id :: id in ids <==>
                  id in t.assignments && id !in pending && Grants(t.assignments[id], principal, role, scope, at)
    {
      var id :| id in pending;
      if Grants(t.assignments[id], principal, role, scope, at) {
        ids := ids + [id];
      }
      pending := pending - {id};
    }
  }

  method DelegatedCandidates(t: Tables, principal: string, role: string, scope: string, at: Time)
    returns (candidates: seq<seq<string>>)
    ensures forall refs :: refs in candidates <==> DelegatedRefs(t, principal, role, scope, at, refs)
  {
    candidates := [];
    var pending := t.delegations.Keys;
    while pending != {}
      invariant pending <= t.delegations.Keys
      invariant forall refs :: refs in candidates ==> DelegatedRefs(t, principal, role, scope, at, refs)
      invariant forall d, a ::
                  d in t.delegations && d !in pending && a in t.assignments
                  && Passes(t.delegations[d], principal, role, scope, at)
                  && Grants(t.assignments[a], t.delegations[d].source, role, scope, at)
                  ==> [DelegationRef(d), RoleRef(a)] in candidates
    {
      var d :| d in pending;
      if Passes(t.delegations[d], principal, role, scope, at) {
        var sources := DirectIds(t, t.delegations[d].source, role, scope, at);
        ghost var earlier := candidates;
        for i := 0 to |sources|
          invariant forall refs :: refs in candidates ==> DelegatedRefs(t, principal, role, scope, at, refs)
          invariant forall refs :: refs in earlier ==> refs in candidates
          invariant forall j :: 0 <= j < i ==> [DelegationRef(d), RoleRef(sources[j])] in candidates
        {
          assert sources[i] in sources;
          candidates := candidates + [[DelegationRef(d), RoleRef(sources[i])]];
        }
      }
      pending := pending - {d};
    }
  }

  method SelectQualificationBasis(t: Tables, principal: string, role: string, scope: string, at: Time)
    returns (r: Option<seq<string>>)
    ensures IsBasis(t, principal, role, scope, at, r)
    ensures r.Some? <==> Active(t, principal) && Holds(t, principal, role, scope, at)
  {
    HoldsIffSupported(t, principal, role, scope, at);
    if !Active(t, principal) {
      return None;
    }
    var direct := DirectIds(t, principal, role, scope, at);
    if direct != [] {
      var chosen := Least((id: string) => [Text(id)], direct);
      forall other | DirectRefs(t, principal, role, scope, at, other)
        ensures !KeyBefore(RefsKey(other), RefsKey([RoleRef(chosen)]))
      {
        var id :| id in t.assignments && Grants(t.assignments[id], principal, role, scope, at)
          && other == [RoleRef(id)];
        RoleRefKeepsOrder(id, chosen);
      }
      return Some([RoleRef(chosen)]);
    }
    var candidates := DelegatedCandidates(t, principal, role, scope, at);
    if candidates == [] {
      return None;
    }
    var least := Least(RefsKey, candidates);
    return Some(least);
  }

  lemma {:induction false} LeastExists(s: set<seq<string>>) returns (least: seq<string>)
    requires s != {}
    ensures least in s && forall x :: x in s ==> !KeyBefore(RefsKey(x), RefsKey(least))
  {
    var x :| x in s;
    KeyIrreflexive(RefsKey(x));
    if s == {x} {
      least := x;
    } else {
      var m := LeastExists(s - {x});
      least := if KeyBefore(RefsKey(x), RefsKey(m)) then x else m;
      forall y | y in s ensures !KeyBefore(RefsKey(y), RefsKey(least)) {
        if least == x && y != x && KeyBefore(RefsKey(y), RefsKey(x)) {
          KeyTransitive(RefsKey(y), RefsKey(x), RefsKey(m));
        }
      }
    }
  }

  lemma BasisExists(t: Tables, principal: string, role: string, scope: string, at: Time)
    ensures exists r :: IsBasis(t, principal, role, scope, at, r)
  {
    HoldsIffSupported(t, principal, role, scope, at);
    if Active(t, principal) && Holds(t, principal, role, scope, at) {
      var direct := set id | id in t.assignments :: [RoleRef(id)];
      var delegated := set d, a | d in t.delegations && a in t.assignments :: [DelegationRef(d), RoleRef(a)];
      var supports := set refs | refs in direct + delegated && Supports(t, principal, role, scope, at, refs);
      assert forall refs :: Supports(t, principal, role, scope, at, refs) ==> refs in supports;
      var m := LeastExists(supports);
      assert IsBasis(t, principal, role, scope, at, Some(m));
    } else {
      assert IsBasis(t, principal, role, scope, at, None);
    }
  }

  /** The one basis of a principal in a role. */
  ghost function BasisOf(t: Tables, principal: string, role: string, scope: string, at: Time): (r: Option<seq<string>>)
    ensures IsBasis(t, principal, role, scope, at, r)
    ensures r.Some? <==> Active(t, principal) && Holds(t, principal, role, scope, at)
  {
    BasisExists(t, principal, role, scope, at);
    HoldsIffSupported(t, principal, role, scope, at);
    var r :| IsBasis(t, principal, role, scope, at, r);
    r
  }

  // ---------- Building and revalidating a basis ----------

  type Facts = map<string, string>

  datatype Snapshot = Snapshot(id: string, facts: Facts)

  datatype Case = Case(caseId: string, epoch: int, snapshot: Option<Snapshot>, policy: Option<string>)

  datatype Satisfaction = Satisfaction(
    id: string, caseId: string, epoch: int, policy: string, decisionIds: seq<string>, assessedAt: Time)

  datatype StoredDecision = StoredDecision(principal: string, role: Option<string>)

  datatype Qualification = Qualification(decisionId: string, principal: string, role: string, refs: seq<string>)

  datatype Basis = Basis(
    caseId: string, epoch: int, snapshotId: string, factDigest: string,
    policy: string, definitionDigest: string, scope: string, satisfactionId: string,
    qualifications: seq<Qualification>,
    dependencyKeys: Option<seq<string>>, dependencyValues: map<string, Option<string>>,
    transactionQualifications: seq<string>)

  /** What the policy plane currently resolves a policy id to. */
  datatype PolicyStatus = Unresolvable | Effective(policy: string, definition: Facts)

  function Get(facts: Facts, key: string): Option<string> {
    if key in facts then Some(facts[key]) else None
  }

  function QualificationKey(q: Qualification): Key {
    [Text(q.role), Text(q.principal), Text(q.decisionId)]
  }

  predicate Recorded(decisions: map<string, StoredDecision>, id: string) {
    id in decisions && decisions[id].role.Some? && decisions[id].role.value != ""
  }

  ghost predicate DecisionQualified(t: Tables, d: StoredDecision, scope: string, at: Time) {
    d.role.Some? && Active(t, d.principal) && Holds(t, d.principal, d.role.value, scope, at)
  }

  /** The frozen record of one decision; meaningful for a qualified decision. */
  ghost function QualificationOf(t: Tables, id: string, decisions: map<string, StoredDecision>, scope: string,
                                 at: Time): Qualification {
    if id in decisions && DecisionQualified(t, decisions[id], scope, at) then
      var d := decisions[id];
      Qualification(id, d.principal, d.role.value, BasisOf(t, d.principal, d.role.value, scope, at).value)
    else
      Qualification(id, "", "", [])
  }

  ghost predicate AllQualified(t: Tables, ids: seq<string>, decisions: map<string, StoredDecision>, scope: string,
                               at: Time) {
    forall i :: 0 <= i < |ids| ==> ids[i] in decisions && DecisionQualified(t, decisions[ids[i]], scope, at)
  }

  ghost function Qualifications(t: Tables, ids: seq<string>, decisions: map<string, StoredDecision>, scope: string,
                                at: Time)
    : seq<Qualification>
  {
    Map((id: string) => QualificationOf(t, id, decisions, scope, at), ids)
  }

  function ValuesOf(facts: Facts, keys: seq<string>): (r: map<string, Option<string>>)
    ensures forall key :: key in r <==> key in keys
    ensures forall key :: key in r ==> r[key] == Get(facts, key)
  {
    if keys == [] then map[]
    else
      var n := |keys| - 1;
      assert keys == keys[..n] + [keys[n]];
      ValuesOf(facts, keys[..n])[keys[n] := Get(facts, keys[n])]
  }

  /** The basis frozen for an approval. */
  ghost function FrozenBasis(t: Tables, digest: Facts -> string, c: Case, s: Satisfaction, scope: string,
                             decisions: map<string, StoredDecision>, definition: Facts,
                             dependencyKeys: Option<seq<string>>, transactionQualifications: seq<string>): Basis
    requires c.snapshot.Some? && c.policy.Some?
  {
    Basis(
      c.caseId, c.epoch, c.snapshot.value.id, digest(c.snapshot.value.facts),
      c.policy.value, digest(definition), scope, s.id,
      SortBy(QualificationKey, Qualifications(t, s.decisionIds, decisions, scope, s.assessedAt)),
      dependencyKeys,
      if dependencyKeys.None? then map[]
      else ValuesOf(c.snapshot.value.facts, dependencyKeys.value),
      transactionQualifications)
  }

  /** Each decision with the refs its principal qualifies by; all or nothing. */
  method QualifyDecisions(t: Tables, ids: seq<string>, decisions: map<string, StoredDecision>, scope: string, at: Time)
    returns (r: Result<seq<Qualification>>)
    ensures r.Ok? <==>
              (forall id :: id in ids ==> Recorded(decisions, id)) && AllQualified(t, ids, decisions, scope, at)
    ensures r.Ok? ==> r.value == Qualifications(t, ids, decisions, scope, at)
  {
    var qualifications: seq<Qualification> := [];
    for n := 0 to |ids|
      invariant |qualifications| == n
      invariant forall i :: 0 <= i < n ==>
                  Recorded(decisions, ids[i]) && DecisionQualified(t, decisions[ids[i]], scope, at)
                  && qualifications[i] == QualificationOf(t, ids[i], decisions, scope, at)
    {
      var id := ids[n];
      assert id in ids;
      if id !in decisions {
        return Err("approval decision is not persisted");
      }
      if decisions[id].role.None? || decisions[id].role.value == "" {
        return Err("governed approval decision lacks decision_role");
      }
      var d := decisions[id];
      var refs := SelectQualificationBasis(t, d.principal, d.role.value, scope, at);
      if refs.None? {
        return Err("principal is not currently qualified");
      }
      BasisUnique(t, d.principal, d.role.value, scope, at,
                  refs, BasisOf(t, d.principal, d.role.value, scope, at));
      qualifications := qualifications + [Qualification(id, d.principal, d.role.value, refs.value)];
    }
    assert qualifications == Qualifications(t, ids, decisions, scope, at);
    return Ok(qualifications);
  }

  lemma QualifiedInFull(t: Tables, ids: seq<string>, decisions: map<string, StoredDecision>, scope: string, at: Time)
    ensures (forall id :: id in ids ==> Recorded(decisions, id)) && AllQualified(t, ids, decisions, scope, at) <==>
            forall id :: id in ids ==>
              && id in decisions && decisions[id].role.Some? && decisions[id].role.value != ""
              && decisions[id].principal in t.principals && t.principals[decisions[id].principal]
              && Holds(t, decisions[id].principal, decisions[id].role.value, scope, at)
  {
    if AllQualified(t, ids, decisions, scope, at) {
      forall id | id in ids ensures id in decisions && DecisionQualified(t, decisions[id], scope, at) {
        var i :| 0 <= i < |ids| && ids[i] == id;
      }
    }
  }

  /** `create_for_approval`: succeeds exactly when the approval is current and every deciding
      principal is still active and qualified at the time of the assessment. */
  method CreateForApproval(t: Tables, digest: Facts -> string, c: Case, s: Satisfaction, scope: string,
                           decisions: map<string, StoredDecision>, definition: Option<Facts>,
                           dependencyKeys: Option<seq<string>>, transactionQualifications: seq<string>)
    returns (r: Result<Basis>)
    ensures r.Ok? <==>
              && definition.Some? && c.snapshot.Some? && c.policy.Some?
              && s.caseId == c.caseId && s.epoch == c.epoch && c.policy == Some(s.policy)
              && forall id :: id in s.decisionIds ==>
                   && id in decisions && decisions[id].role.Some? && decisions[id].role.value != ""
                   && decisions[id].principal in t.principals && t.principals[decisions[id].principal]
                   && Holds(t, decisions[id].principal, decisions[id].role.value, scope, s.assessedAt)
    ensures r.Ok? ==> r.value == FrozenBasis(t, digest, c, s, scope, decisions, definition.value, dependencyKeys,
                                             transactionQualifications)
  {
    if c.snapshot.None? || c.policy.None? || s.caseId != c.caseId || s.epoch != c.epoch || s.policy != c.policy.value {
      return Err("approval satisfaction is not current for the case");
    }
    if definition.None? {
      return Err("current policy version is not persisted");
    }
    var qualifications := QualifyDecisions(t, s.decisionIds, decisions, scope, s.assessedAt);
    QualifiedInFull(t, s.decisionIds, decisions, scope, s.assessedAt);
    if qualifications.Err? {
      return Err(qualifications.error);
    }
    var values := if dependencyKeys.None? then map[]
                  else ValuesOf(c.snapshot.value.facts, dependencyKeys.value);
    return Ok(Basis(
      c.caseId, c.epoch, c.snapshot.value.id, digest(c.snapshot.value.facts),
      c.policy.value, digest(definition.value), scope, s.id,
      SortBy(QualificationKey, qualifications.value), dependencyKeys, values, transactionQualifications));
  }

  /** The frozen qualifications, and so their digest, do not depend on the order in which the
      approval lists its decisions. */
  lemma BasisIgnoresDecisionOrder(t: Tables, ids: seq<string>, ids': seq<string>,
                                  decisions: map<string, StoredDecision>,
                                  scope: string, at: Time)
    requires multiset(ids) == multiset(ids')
    requires AllQualified(t, ids, decisions, scope, at)
    ensures AllQualified(t, ids', decisions, scope, at)
    ensures SortBy(QualificationKey, Qualifications(t, ids, decisions, scope, at))
         == SortBy(QualificationKey, Qualifications(t, ids', decisions, scope, at))
  {
    forall i | 0 <= i < |ids'|
      ensures ids'[i] in decisions && DecisionQualified(t, decisions[ids'[i]], scope, at)
    {
      assert ids'[i] in multiset(ids);
      var j :| 0 <= j < |ids| && ids[j] == ids'[i];
    }
    var a, b := Qualifications(t, ids, decisions, scope, at), Qualifications(t, ids', decisions, scope, at);
    MapPermutes((id: string) => QualificationOf(t, id, decisions, scope, at), ids, ids');
    var sa, sb := SortBy(QualificationKey, a), SortBy(QualificationKey, b);
    assert KeyIdentifies(QualificationKey, sa) by {
      forall x, y | x in sa && y in sa && QualificationKey(x) == QualificationKey(y) ensures x == y {
        assert x in multiset(a) && y in multiset(a);
        var i :| 0 <= i < |a| && a[i] == x;
        var j :| 0 <= j < |a| && a[j] == y;
        assert QualificationKey(x)[2] == QualificationKey(y)[2];
      }
    }
    SortedUnique(QualificationKey, sa, sb);
  }

  datatype Reason =
    | EpochChanged | NoSnapshot | SnapshotDiffers | FactsDiffer | DependencyChanged(key: string)
    | NoPolicy | PolicyDiffers | PolicyUnresolvable | EffectivePolicyDiffers | DefinitionDiffers
    | TransactionsAmbiguous | TransactionsChanged
    | NoLongerQualifies(principal: string, role: string) | QualificationChanged(principal: string, role: string)

  /** When each reason for refusing a basis applies: the case side. */
  predicate CaseReason(digest: Facts -> string, b: Basis, c: Case, reason: Reason) {
    match reason
    case EpochChanged => c.caseId != b.caseId || c.epoch != b.epoch
    case NoSnapshot => c.snapshot.None?
    case SnapshotDiffers => c.snapshot.Some? && b.dependencyKeys.None? && c.snapshot.value.id != b.snapshotId
    case FactsDiffer => c.snapshot.Some? && b.dependencyKeys.None? && digest(c.snapshot.value.facts) != b.factDigest
    case DependencyChanged(key) =>
      c.snapshot.Some? && b.dependencyKeys.Some? && key in b.dependencyKeys.value
          && ValueChanged(b, c.snapshot.value, key)
    case NoPolicy => c.policy.None?
    case PolicyDiffers => c.policy.Some? && c.policy.value != b.policy
    case _ => false
  }

  predicate ValueChanged(b: Basis, s: Snapshot, key: string) {
    Get(s.facts, key) != if key in b.dependencyValues then b.dependencyValues[key] else None
  }

  /** The policy plane and transaction side. */
  predicate PolicyReason(digest: Facts -> string, b: Basis, policy: PolicyStatus, transactions: Result<seq<string>>,
                         reason: Reason) {
    match reason
    case PolicyUnresolvable => policy.Unresolvable?
    case EffectivePolicyDiffers => policy.Effective? && policy.policy != b.policy
    case DefinitionDiffers => policy.Effective? && digest(policy.definition) != b.definitionDigest
    case TransactionsAmbiguous => transactions.Err?
    case TransactionsChanged => b.transactionQualifications != [] && transactions != Ok(b.transactionQualifications)
    case _ => false
  }

  /** The authority side. */
  ghost predicate QualificationReason(t: Tables, scope: string, quals: seq<Qualification>, now: Time, reason: Reason) {
    match reason
    case NoLongerQualifies(p, r) =>
      exists q :: q in quals && q.principal == p && q.role == r && BasisOf(t, p, r, scope, now).None?
    case QualificationChanged(p, r) =>
      exists q :: q in quals && q.principal == p && q.role == r
        && BasisOf(t, p, r, scope, now).Some? && BasisOf(t, p, r, scope, now).value != q.refs
    case _ => false
  }

  ghost predicate Applies(t: Tables, digest: Facts -> string, b: Basis, c: Case, policy: PolicyStatus,
                          transactions: Result<seq<string>>, now: Time, reason: Reason)
  {
    || CaseReason(digest, b, c, reason)
    || PolicyReason(digest, b, policy, transactions, reason)
    || QualificationReason(t, b.scope, b.qualifications, now, reason)
  }

  /** Some reason applies, so `revalidate` reports the basis invalid. */
  ghost predicate Refused(t: Tables, digest: Facts -> string, b: Basis, c: Case, policy: PolicyStatus,
                          transactions: Result<seq<string>>, now: Time)
  {
    exists reason :: Applies(t, digest, b, c, policy, transactions, now, reason)
  }

  method CaseReasons(digest: Facts -> string, b: Basis, c: Case) returns (reasons: seq<Reason>)
    ensures forall reason :: reason in reasons <==> CaseReason(digest, b, c, reason)
  {
    reasons := [];
    if c.caseId != b.caseId || c.epoch != b.epoch {
      reasons := reasons + [EpochChanged];
    }
    if c.snapshot.None? {
      reasons := reasons + [NoSnapshot];
    } else if b.dependencyKeys.None? {
      if c.snapshot.value.id != b.snapshotId {
        reasons := reasons + [SnapshotDiffers];
      }
      if digest(c.snapshot.value.facts) != b.factDigest {
        reasons := reasons + [FactsDiffer];
      }
    } else {
      var keys := b.dependencyKeys.value;
      ghost var earlier := reasons;
      for i := 0 to |keys|
        invariant forall reason :: reason in reasons <==>
                    reason in earlier
                    || (reason.DependencyChanged? && reason.key in keys[..i]
                        && ValueChanged(b, c.snapshot.value, reason.key))
      {
        assert keys[..i + 1] == keys[..i] + [keys[i]];
        if ValueChanged(b, c.snapshot.value, keys[i]) {
          reasons := reasons + [DependencyChanged(keys[i])];
        }
      }
      assert keys[..|keys|] == keys;
    }
    if c.policy.None? {
      reasons := reasons + [NoPolicy];
    } else if c.policy.value != b.policy {
      reasons := reasons + [PolicyDiffers];
    }
  }

  method QualificationReasons(t: Tables, scope: string, quals: seq<Qualification>, now: Time)
    returns (reasons: seq<Reason>)
    ensures forall reason :: reason in reasons <==> QualificationReason(t, scope, quals, now, reason)
  {
    reasons := [];
    for i := 0 to |quals|
      invariant forall reason :: reason in reasons <==> QualificationReason(t, scope, quals[..i], now, reason)
    {
      var q := quals[i];
      var refs := SelectQualificationBasis(t, q.principal, q.role, scope, now);
      BasisUnique(t, q.principal, q.role, scope, now, refs, BasisOf(t, q.principal, q.role, scope, now));
      assert quals[..i + 1] == quals[..i] + [q];
      if refs.None? {
        reasons := reasons + [NoLongerQualifies(q.principal, q.role)];
      } else if refs.value != q.refs {
        reasons := reasons + [QualificationChanged(q.principal, q.role)];
      }
    }
    assert quals[..|quals|] == quals;
  }

  /** `revalidate`: reports exactly the reasons that apply. */
  method Revalidate(t: Tables, digest: Facts -> string, b: Basis, c: Case, policy: PolicyStatus,
                    transactions: Result<seq<string>>, now: Time)
    returns (valid: bool, reasons: seq<Reason>)
    ensures valid <==> reasons == []
    ensures valid <==> !Refused(t, digest, b, c, policy, transactions, now)
    ensures forall reason :: reason in reasons <==> Applies(t, digest, b, c, policy, transactions, now, reason)
  {
    reasons := CaseReasons(digest, b, c);
    match policy {
      case Unresolvable => reasons := reasons + [PolicyUnresolvable];
      case Effective(current, definition) =>
        if current != b.policy {
          reasons := reasons + [EffectivePolicyDiffers];
        }
        if digest(definition) != b.definitionDigest {
          reasons := reasons + [DefinitionDiffers];
        }
    }
    var current := transactions;
    if transactions.Err? {
      reasons := reasons + [TransactionsAmbiguous];
      current := Ok([]);
    }
    if b.transactionQualifications != [] && current.value != b.transactionQualifications {
      reasons := reasons + [TransactionsChanged];
    }
    var qualificationReasons := QualificationReasons(t, b.scope, b.qualifications, now);
    reasons := reasons + qualificationReasons;
    valid := reasons == [];
    if valid {
      assert forall reason :: reason !in reasons;
    } else {
      assert reasons[0] in reasons && Applies(t, digest, b, c, policy, transactions, now, reasons[0]);
    }
  }

  lemma QualificationsHold(t: Tables, scope: string, quals: seq<Qualification>, now: Time)
    ensures (forall reason :: !QualificationReason(t, scope, quals, now, reason))
        <==> (forall q :: q in quals ==> BasisOf(t, q.principal, q.role, scope, now) == Some(q.refs))
  {
    forall q | q in quals && BasisOf(t, q.principal, q.role, scope, now) != Some(q.refs)
      ensures exists reason :: QualificationReason(t, scope, quals, now, reason)
    {
      if BasisOf(t, q.principal, q.role, scope, now).None? {
        assert QualificationReason(t, scope, quals, now, NoLongerQualifies(q.principal, q.role));
      } else {
        assert QualificationReason(t, scope, quals, now, QualificationChanged(q.principal, q.role));
      }
    }
  }

  /** What a valid revalidation means, field by field: the same case and epoch; the very snapshot and its
      facts, or, where the basis names the facts it depends on, the same value for each of these; the same
      policy, still the one in effect and defined as it was; readable transactions, the same if the basis
      has any; and each principal qualified by the very rows frozen. */
  lemma ValidMeaning(t: Tables, digest: Facts -> string, b: Basis, c: Case, policy: PolicyStatus,
                     transactions: Result<seq<string>>, now: Time)
    ensures !Refused(t, digest, b, c, policy, transactions, now) <==>
            && c.caseId == b.caseId && c.epoch == b.epoch && c.snapshot.Some?
            && (b.dependencyKeys.None? ==>
                  c.snapshot.value.id == b.snapshotId && digest(c.snapshot.value.facts) == b.factDigest)
            && (b.dependencyKeys.Some? ==> forall key :: key in b.dependencyKeys.value ==>
                  (if key in c.snapshot.value.facts then Some(c.snapshot.value.facts[key]) else None)
                  == (if key in b.dependencyValues then b.dependencyValues[key] else None))
            && c.policy == Some(b.policy) && policy.Effective? && policy.policy == b.policy
            && digest(policy.definition) == b.definitionDigest
            && transactions.Ok? && b.transactionQualifications in [[], transactions.value]
            && (forall q :: q in b.qualifications ==> BasisOf(t, q.principal, q.role, b.scope, now) == Some(q.refs))
  {
    QualificationsHold(t, b.scope, b.qualifications, now);
    CaseHolds(digest, b, c);
    PolicyHolds(digest, b, policy, transactions);
    if forall reason :: !Applies(t, digest, b, c, policy, transactions, now, reason) {
      assert forall reason :: CaseReason(digest, b, c, reason) ==>
               Applies(t, digest, b, c, policy, transactions, now, reason);
      assert forall reason :: PolicyReason(digest, b, policy, transactions, reason) ==>
               Applies(t, digest, b, c, policy, transactions, now, reason);
      assert forall reason :: QualificationReason(t, b.scope, b.qualifications, now, reason) ==>
               Applies(t, digest, b, c, policy, transactions, now, reason);
    }
  }

  lemma CaseHolds(digest: Facts -> string, b: Basis, c: Case)
    ensures (forall reason :: !CaseReason(digest, b, c, reason)) <==>
            && c.caseId == b.caseId && c.epoch == b.epoch && c.snapshot.Some? && c.policy == Some(b.policy)
            && (b.dependencyKeys.None? ==>
                  c.snapshot.value.id == b.snapshotId && digest(c.snapshot.value.facts) == b.factDigest)
            && (b.dependencyKeys.Some? ==> forall key :: key in b.dependencyKeys.value ==>
                  (if key in c.snapshot.value.facts then Some(c.snapshot.value.facts[key]) else None)
                  == (if key in b.dependencyValues then b.dependencyValues[key] else None))
  {
    if forall reason :: !CaseReason(digest, b, c, reason) {
      assert !CaseReason(digest, b, c, EpochChanged) && !CaseReason(digest, b, c, NoSnapshot);
      assert !CaseReason(digest, b, c, SnapshotDiffers) && !CaseReason(digest, b, c, FactsDiffer);
      assert !CaseReason(digest, b, c, NoPolicy) && !CaseReason(digest, b, c, PolicyDiffers);
      if b.dependencyKeys.Some? {
        forall key | key in b.dependencyKeys.value ensures !ValueChanged(b, c.snapshot.value, key) {
          assert !CaseReason(digest, b, c, DependencyChanged(key));
        }
      }
    }
  }

  lemma PolicyHolds(digest: Facts -> string, b: Basis, policy: PolicyStatus, transactions: Result<seq<string>>)
    ensures (forall reason :: !PolicyReason(digest, b, policy, transactions, reason)) <==>
            && policy.Effective? && policy.policy == b.policy && digest(policy.definition) == b.definitionDigest
            && transactions.Ok? && b.transactionQualifications in [[], transactions.value]
  {
    if forall reason :: !PolicyReason(digest, b, policy, transactions, reason) {
      assert !PolicyReason(digest, b, policy, transactions, PolicyUnresolvable);
      assert !PolicyReason(digest, b, policy, transactions, EffectivePolicyDiffers);
      assert !PolicyReason(digest, b, policy, transactions, DefinitionDiffers);
      assert !PolicyReason(digest, b, policy, transactions, TransactionsAmbiguous);
      assert !PolicyReason(digest, b, policy, transactions, TransactionsChanged);
    }
  }

  lemma FrozenMembers(t: Tables, ids: seq<string>, decisions: map<string, StoredDecision>, scope: string, at: Time,
                      q: Qualification)
    ensures q in SortBy(QualificationKey, Qualifications(t, ids, decisions, scope, at))
        <==> exists id :: id in ids && q == QualificationOf(t, id, decisions, scope, at)
  {
    var quals := Qualifications(t, ids, decisions, scope, at);
    assert q in SortBy(QualificationKey, quals) <==> q in multiset(quals);
    if q in quals {
      var i :| 0 <= i < |quals| && quals[i] == q;
      assert ids[i] in ids;
    }
    if id :| id in ids && q == QualificationOf(t, id, decisions, scope, at) {
      var i :| 0 <= i < |ids| && ids[i] == id;
      assert quals[i] == q;
    }
  }

  /** Under its own case, facts, policy and transactions a frozen basis can only be refused on the
      authority side. */
  lemma FrozenCaseMatches(digest: Facts -> string, c: Case, b: Basis, definition: Facts, reason: Reason)
    requires c.snapshot.Some? && c.policy.Some?
    requires b.caseId == c.caseId && b.epoch == c.epoch && b.policy == c.policy.value
    requires b.snapshotId == c.snapshot.value.id && b.factDigest == digest(c.snapshot.value.facts)
    requires b.definitionDigest == digest(definition)
    requires b.dependencyKeys.Some? ==>
               b.dependencyValues == ValuesOf(c.snapshot.value.facts, b.dependencyKeys.value)
    ensures !CaseReason(digest, b, c, reason)
    ensures !PolicyReason(digest, b, Effective(c.policy.value, definition), Ok(b.transactionQualifications), reason)
  {
  }

  /** A frozen basis stays valid for its own case, facts, policy and transactions exactly as long
      as each deciding principal's basis is still the one frozen. */
  lemma FrozenBasisValidity(t0: Tables, digest: Facts -> string, c: Case, s: Satisfaction, scope: string,
                            decisions: map<string, StoredDecision>, definition: Facts,
                            dependencyKeys: Option<seq<string>>, transactions: seq<string>, t: Tables, now: Time)
    requires c.snapshot.Some? && c.policy.Some?
    requires AllQualified(t0, s.decisionIds, decisions, scope, s.assessedAt)
    ensures var b := FrozenBasis(t0, digest, c, s, scope, decisions, definition, dependencyKeys, transactions);
            !Refused(t, digest, b, c, Effective(c.policy.value, definition), Ok(transactions), now)
            <==>
            (forall id :: id in s.decisionIds ==>
               var d := decisions[id];
               BasisOf(t, d.principal, d.role.value, scope, now)
               == BasisOf(t0, d.principal, d.role.value, scope, s.assessedAt))
  {
    var b := FrozenBasis(t0, digest, c, s, scope, decisions, definition, dependencyKeys, transactions);
    var policy := Effective(c.policy.value, definition);
    forall reason
      ensures Applies(t, digest, b, c, policy, Ok(transactions), now, reason)
          <==> QualificationReason(t, scope, b.qualifications, now, reason)
    {
      FrozenCaseMatches(digest, c, b, definition, reason);
    }
    QualificationsHold(t, scope, b.qualifications, now);
    forall q ensures q in b.qualifications
                 <==> exists id :: id in s.decisionIds && q == QualificationOf(t0, id, decisions, scope, s.assessedAt)
    {
      FrozenMembers(t0, s.decisionIds, decisions, scope, s.assessedAt, q);
    }
    forall id | id in s.decisionIds
      ensures var d := decisions[id];
              var q := QualificationOf(t0, id, decisions, scope, s.assessedAt);
              q in b.qualifications && q.principal == d.principal && q.role == d.role.value
              && Some(q.refs) == BasisOf(t0, d.principal, d.role.value, scope, s.assessedAt)
    {
      var i :| 0 <= i < |s.decisionIds| && s.decisionIds[i] == id;
    }
  }

  /** Every row a basis names is current at the instant the basis is for. */
  lemma BasisRowsCurrent(t: Tables, principal: string, role: string, scope: string, at: Time, refs: seq<string>,
                         id: string)
    requires IsBasis(t, principal, role, scope, at, Some(refs))
    ensures RoleRef(id) in refs ==>
              id in t.assignments && WindowCurrent(t.assignments[id].validFrom, t.assignments[id].validUntil, at)
    ensures DelegationRef(id) in refs ==>
              id in t.delegations && WindowCurrent(t.delegations[id].validFrom, Some(t.delegations[id].validUntil), at)
  {
    if HoldsDirectly(t, principal, role, scope, at) {
      var a :| a in t.assignments && Grants(t.assignments[a], principal, role, scope, at) && refs == [RoleRef(a)];
      RefInjective(a, id);
    } else {
      var d, a :| d in t.delegations && a in t.assignments
        && Passes(t.delegations[d], principal, role, scope, at)
        && Grants(t.assignments[a], t.delegations[d].source, role, scope, at)
        && refs == [DelegationRef(d), RoleRef(a)];
      RefInjective(a, id);
      RefInjective(d, id);
    }
  }

  /** A basis that names a row whose window is over is refused. */
  lemma EndedRowInvalidates(t: Tables, digest: Facts -> string, b: Basis, c: Case, policy: PolicyStatus,
                            transactions: Result<seq<string>>, now: Time, q: Qualification, id: string)
    requires q in b.qualifications
    requires || (&& RoleRef(id) in q.refs && id in t.assignments
                 && !WindowCurrent(t.assignments[id].validFrom, t.assignments[id].validUntil, now))
             || (&& DelegationRef(id) in q.refs && id in t.delegations
                 && !WindowCurrent(t.delegations[id].validFrom, Some(t.delegations[id].validUntil), now))
    ensures Refused(t, digest, b, c, policy, transactions, now)
  {
    var basis := BasisOf(t, q.principal, q.role, b.scope, now);
    if basis.Some? {
      BasisRowsCurrent(t, q.principal, q.role, b.scope, now, basis.value, id);
      assert Applies(t, digest, b, c, policy, transactions, now, QualificationChanged(q.principal, q.role));
    } else {
      assert Applies(t, digest, b, c, policy, transactions, now, NoLongerQualifies(q.principal, q.role));
    }
  }
}
