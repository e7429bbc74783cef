/** Approval satisfaction: collect the eligible decisions per required role, then search by
    backtracking for one decision per role, with pairwise different principals on demand. */
module Approval {
  import opened Common
  import opened Authority

  datatype Disposition = Approve | Reject | RequestChanges | Escalate

  datatype Decision = Decision(
    id: string, caseId: string, epoch: int, principal: string, role: Option<string>,
    disposition: Disposition, policy: string, decidedAt: Time)

  /** What is being approved: the case at one authority epoch under one policy evaluation. */
  datatype Query = Query(
    caseId: string, epoch: int, policy: string,
    roles: seq<string>, distinct: bool, scope: string)

  datatype Assessment = Assessment(satisfied: bool, missing: seq<string>, selected: seq<Decision>)

  type Candidates = map<string, seq<Decision>>

  // ---------- Choices ----------

  function PrincipalsOf(ds: seq<Decision>): set<string> {
    set i | 0 <= i < |ds| :: ds[i].principal
  }

  ghost predicate PairwiseDistinct(ds: seq<Decision>) {
    forall i, j :: 0 <= i < j < |ds| ==> ds[i].principal != ds[j].principal
  }

  /** `c` takes, for each of the first |c| roles in order, one of that role's candidates. */
  ghost predicate IsPartialChoice(roles: seq<string>, cands: Candidates, distinct: bool, c: seq<Decision>) {
    && |c| <= |roles|
    && (forall i :: 0 <= i < |c| ==> roles[i] in cands && c[i] in cands[roles[i]])
    && (distinct ==> PairwiseDistinct(c))
  }

  ghost predicate IsChoice(roles: seq<string>, cands: Candidates, distinct: bool, c: seq<Decision>) {
    |c| == |roles| && IsPartialChoice(roles, cands, distinct, c)
  }

  // ---------- Backtracking search ----------

  /** Depth-first search for a full choice that extends `prefix` and takes its next decision
      from position `k` on. */
  ghost function Search(roles: seq<string>, cands: Candidates, distinct: bool, prefix: seq<Decision>, k: nat)
    : Option<seq<Decision>>
    requires |prefix| <= |roles|
    requires forall role :: role in roles ==> role in cands
    requires |prefix| < |roles| ==> k <= |cands[roles[|prefix|]]|
    decreases |roles| - |prefix|, if |prefix| < |roles| then |cands[roles[|prefix|]]| - k else 0
  {
    if |prefix| == |roles| then Some(prefix)
    else
      var options := cands[roles[|prefix|]];
      if k == |options| then None
      else if distinct && options[k].principal in PrincipalsOf(prefix) then
        Search(roles, cands, distinct, prefix, k + 1)
      else
        var deeper := Search(roles, cands, distinct, prefix + [options[k]], 0);
        if deeper.Some? then deeper else Search(roles, cands, distinct, prefix, k + 1)
  }

  /** Whatever the search returns is a choice in role order that extends the prefix. */
  lemma {:induction false} SearchSound(roles: seq<string>, cands: Candidates, distinct: bool, prefix: seq<Decision>,
                                       k: nat)
    requires |prefix| <= |roles|
    requires forall role :: role in roles ==> role in cands
    requires |prefix| < |roles| ==> k <= |cands[roles[|prefix|]]|
    requires IsPartialChoice(roles, cands, distinct, prefix)
    ensures var r := Search(roles, cands, distinct, prefix, k);
            r.Some? ==> prefix <= r.value && IsChoice(roles, cands, distinct, r.value)
    decreases |roles| - |prefix|, if |prefix| < |roles| then |cands[roles[|prefix|]]| - k else 0
  {
    if |prefix| < |roles| {
      var options := cands[roles[|prefix|]];
      if k < |options| {
        SearchSound(roles, cands, distinct, prefix, k + 1);
        if !(distinct && options[k].principal in PrincipalsOf(prefix)) {
          ExtendPartialChoice(roles, cands, distinct, prefix, options[k]);
          SearchSound(roles, cands, distinct, prefix + [options[k]], 0);
        }
      }
    }
  }

  lemma ExtendPartialChoice(roles: seq<string>, cands: Candidates, distinct: bool, prefix: seq<Decision>, d: Decision)
    requires |prefix| < |roles| && IsPartialChoice(roles, cands, distinct, prefix)
    requires roles[|prefix|] in cands && d in cands[roles[|prefix|]]
    ensures IsPartialChoice(roles, cands, distinct, prefix + [d])
        <==> !(distinct && d.principal in PrincipalsOf(prefix))
  {
    var longer := prefix + [d];
    assert forall i :: 0 <= i < |prefix| ==> longer[i] == prefix[i];
    if distinct && d.principal in PrincipalsOf(prefix) {
      var i :| 0 <= i < |prefix| && prefix[i].principal == d.principal;
      assert longer[i].principal == longer[|prefix|].principal;
    }
  }

  /** A failed search leaves no choice unseen. */
  lemma {:induction false} SearchComplete(roles: seq<string>, cands: Candidates, distinct: bool, prefix: seq<Decision>,
                                          k: nat,
                                          c: seq<Decision>, j: nat)
    requires |prefix| <= |roles|
    requires forall role :: role in roles ==> role in cands
    requires |prefix| < |roles| ==> k <= |cands[roles[|prefix|]]|
    requires IsChoice(roles, cands, distinct, c) && prefix <= c
    requires |prefix| < |roles| ==> k <= j < |cands[roles[|prefix|]]| && c[|prefix|] == cands[roles[|prefix|]][j]
    ensures Search(roles, cands, distinct, prefix, k).Some?
    decreases |roles| - |prefix|, if |prefix| < |roles| then |cands[roles[|prefix|]]| - k else 0
  {
    if |prefix| < |roles| {
      var options := cands[roles[|prefix|]];
      if k < j {
        SearchComplete(roles, cands, distinct, prefix, k + 1, c, j);
      } else {
        assert options[k].principal !in PrincipalsOf(prefix) || !distinct;
        var longer := prefix + [options[k]];
        assert longer == c[..|prefix| + 1];
        var next := if |longer| < |roles| then Position(cands[roles[|longer|]], c[|longer|]) else 0;
        SearchComplete(roles, cands, distinct, longer, 0, c, next);
      }
    }
  }

  ghost function Position(s: seq<Decision>, d: Decision): (i: nat)
    requires d in s
    ensures i < |s| && s[i] == d && d !in s[..i]
  {
    if s[0] == d then 0 else 1 + Position(s[1..], d)
  }

  /** The search succeeds exactly when a choice exists. */
  lemma SearchDecides(roles: seq<string>, cands: Candidates, distinct: bool)
    requires forall role :: role in roles ==> role in cands
    ensures var r := Search(roles, cands, distinct, [], 0);
            && (r.Some? <==> exists c :: IsChoice(roles, cands, distinct, c))
            && (r.Some? ==> IsChoice(roles, cands, distinct, r.value))
  {
    SearchSound(roles, cands, distinct, [], 0);
    forall c | IsChoice(roles, cands, distinct, c)
      ensures Search(roles, cands, distinct, [], 0).Some?
    {
      var j := if |roles| > 0 then Position(cands[roles[0]], c[0]) else 0;
      SearchComplete(roles, cands, distinct, [], 0, c, j);
    }
  }

  /** Among all choices the search returns the earliest one: no choice that agrees with it on
      the first `i` roles takes, for role `i`, a decision that precedes the returned one. */
  lemma {:induction false} SearchEarliest(roles: seq<string>, cands: Candidates, distinct: bool, prefix: seq<Decision>,
                                          k: nat,
                                          i: nat, c: seq<Decision>)
    requires |prefix| <= i < |roles|
    requires forall role :: role in roles ==> role in cands
    requires k <= |cands[roles[|prefix|]]|
    requires IsPartialChoice(roles, cands, distinct, prefix)
    requires Search(roles, cands, distinct, prefix, k).Some?
    requires IsChoice(roles, cands, distinct, c)
    requires var r := Search(roles, cands, distinct, prefix, k).value; |r| == |roles| && c[..i] == r[..i] && prefix <= c
    ensures var r := Search(roles, cands, distinct, prefix, k).value;
            r[i] in cands[roles[i]]
            && (forall j :: (if i == |prefix| then k else 0) <= j < Position(cands[roles[i]], r[i])
                  ==> cands[roles[i]][j] != c[i])
    decreases |roles| - |prefix|, |cands[roles[|prefix|]]| - k
  {
    SearchSound(roles, cands, distinct, prefix, k);
    var r := Search(roles, cands, distinct, prefix, k).value;
    var options := cands[roles[|prefix|]];
    var skip := distinct && options[k].principal in PrincipalsOf(prefix);
    if !skip && Search(roles, cands, distinct, prefix + [options[k]], 0).Some? {
      var longer := prefix + [options[k]];
      ExtendPartialChoice(roles, cands, distinct, prefix, options[k]);
      SearchSound(roles, cands, distinct, longer, 0);
      assert r[|prefix|] == longer[|prefix|] == options[k];
      if i > |prefix| {
        assert c[|prefix|] == c[..i][|prefix|] == r[..i][|prefix|];
        assert longer <= c;
        SearchEarliest(roles, cands, distinct, longer, 0, i, c);
      }
    } else {
      SearchEarliest(roles, cands, distinct, prefix, k + 1, i, c);
      if i == |prefix| && c[i] == options[k] {
        if skip {
          assert false;
        } else {
          var longer := prefix + [options[k]];
          assert longer <= c;
          var next := if |longer| < |roles| then Position(cands[roles[|longer|]], c[|longer|]) else 0;
          SearchComplete(roles, cands, distinct, longer, 0, c, next);
        }
      }
    }
  }

  /** The search of `_select_role_decisions`: `selected` and `usedPrincipals` are shared by all
      levels of the recursion and undone when a branch fails. */
  class RoleSelector {
    const roles: seq<string>
    const candidates: Candidates
    const distinct: bool
    var selected: seq<Decision>
    var usedPrincipals: set<string>

    ghost predicate Valid()
      reads this
    {
      && (forall role :: role in roles ==> role in candidates)
      && |selected| <= |roles|
      && usedPrincipals == PrincipalsOf(selected)
    }

    constructor (roles: seq<string>, candidates: Candidates, distinct: bool)
      requires forall role :: role in roles ==> role in candidates
      ensures Valid() && selected == []
      ensures this.roles == roles && this.candidates == candidates && this.distinct == distinct
    {
      this.roles, this.candidates, this.distinct := roles, candidates, distinct;
      selected, usedPrincipals := [], {};
    }

    method Visit(index: nat) returns (found: bool)
      requires Valid() && index == |selected|
      modifies this
      ensures Valid()
      ensures found <==> Search(roles, candidates, distinct, old(selected), 0).Some?
      ensures found ==> selected == Search(roles, candidates, distinct, old(selected), 0).value
      ensures !found ==> selected == old(selected)
      decreases |roles| - index
    {
      if index == |roles| {
        return true;
      }
      var options := candidates[roles[index]];
      var k := 0;
      while k < |options|
        invariant 0 <= k <= |options|
        invariant Valid() && selected == old(selected)
        invariant Search(roles, candidates, distinct, selected, 0) == Search(roles, candidates, distinct, selected, k)
      {
        var decision := options[k];
        if !(distinct && decision.principal in usedPrincipals) {
          selected := selected + [decision];
          usedPrincipals := usedPrincipals + {decision.principal};
          PrincipalsOfAppend(old(selected), decision);
          found := Visit(index + 1);
          if found {
            return;
          }
          selected := selected[..|selected| - 1];
          assert selected == old(selected);
          if forall i :: 0 <= i < |selected| ==> selected[i].principal != decision.principal {
            usedPrincipals := usedPrincipals - {decision.principal};
          }
        }
        k := k + 1;
      }
      return false;
    }
  }

  lemma PrincipalsOfAppend(ds: seq<Decision>, d: Decision)
    ensures PrincipalsOf(ds + [d]) == PrincipalsOf(ds) + {d.principal}
  {
    var longer := ds + [d];
    assert forall i :: 0 <= i < |ds| ==> longer[i] == ds[i];
    assert longer[|ds|] == d;
  }

  /** The selection made for a satisfied approval is the earliest one. */
  lemma SelectionEarliest(roles: seq<string>, cands: Candidates, distinct: bool, c: seq<Decision>, i: nat)
    requires forall role :: role in roles ==> role in cands
    requires IsChoice(roles, cands, distinct, c) && i < |roles|
    ensures var r := Search(roles, cands, distinct, [], 0);
            && r.Some? && |r.value| == |roles| && r.value[i] in cands[roles[i]]
            && (c[..i] == r.value[..i] ==> Position(cands[roles[i]], r.value[i]) <= Position(cands[roles[i]], c[i]))
  {
    SearchDecides(roles, cands, distinct);
    var r := Search(roles, cands, distinct, [], 0).value;
    if c[..i] == r[..i] {
      SearchEarliest(roles, cands, distinct, [], 0, i, c);
    }
  }

  // ---------- Assessment ----------

  predicate Relevant(q: Query, d: Decision) {
    && d.caseId == q.caseId
    && d.epoch == q.epoch
    && d.policy == q.policy
    && d.disposition == Approve
    && d.role.Some? && d.role.value in q.roles
  }

  /** The decision counts towards `role`: its principal held the role when it was made. */
  ghost predicate Eligible(t: Tables, q: Query, role: string, d: Decision) {
    Relevant(q, d) && d.role == Some(role) && Holds(t, d.principal, role, q.scope, d.decidedAt)
  }

  ghost predicate AllReadable(t: Tables, q: Query, ds: seq<Decision>) {
    forall i :: 0 <= i < |ds| && Relevant(q, ds[i]) ==> Readable(t, ds[i].principal)
  }

  ghost function EligibleFor(t: Tables, q: Query, role: string, ds: seq<Decision>): (r: seq<Decision>)
    ensures forall d :: d in r <==> d in ds && Eligible(t, q, role, d)
  {
    if ds == [] then []
    else
      var rest := EligibleFor(t, q, role, ds[..|ds| - 1]);
      assert ds == ds[..|ds| - 1] + [ds[|ds| - 1]];
      if Eligible(t, q, role, ds[|ds| - 1]) then rest + [ds[|ds| - 1]] else rest
  }

  ghost function CandidatesOf(t: Tables, q: Query, ds: seq<Decision>): Candidates {
    Tabulate((set role | role in q.roles), role => EligibleFor(t, q, role, ds))
  }

  function MissingRoles(roles: seq<string>, cands: Candidates): (r: seq<string>)
    requires forall role :: role in roles ==> role in cands
    ensures forall role :: role in r <==> role in roles && cands[role] == []
  {
    if roles == [] then []
    else
      var n := |roles| - 1;
      assert roles == roles[..n] + [roles[n]];
      var rest := MissingRoles(roles[..n], cands);
      if cands[roles[n]] == [] then rest + [roles[n]] else rest
  }

  ghost function AssessSpec(t: Tables, q: Query, ds: seq<Decision>): Result<Assessment> {
    if !AllReadable(t, q, ds) then Err("delegation valid_until must be after valid_from")
    else
      var cands := CandidatesOf(t, q, ds);
      var missing := MissingRoles(q.roles, cands);
      if missing != [] then Ok(Assessment(false, missing, []))
      else
        var found := Search(q.roles, cands, q.distinct, [], 0);
        if found.None? then Ok(Assessment(false, [], [])) else Ok(Assessment(true, [], found.value))
  }

  method NoCandidates(roles: seq<string>) returns (r: Candidates)
    ensures forall role :: role in r <==> role in roles
    ensures forall role :: role in r ==> r[role] == []
  {
    r := map[];
    for n := 0 to |roles|
      invariant forall role :: role in r <==> role in roles[..n]
      invariant forall role :: role in r ==> r[role] == []
    {
      r := r[roles[n] := []];
    }
  }

  /** One decision joins the candidates of its own role, if its principal held that role. */
  method AddDecision(t: Tables, q: Query, d: Decision, cands: Candidates) returns (r: Result<Candidates>)
    requires forall role :: role in cands <==> role in q.roles
    ensures r.Ok? <==> (Relevant(q, d) ==> Readable(t, d.principal))
    ensures r.Ok? ==> forall role :: role in r.value <==> role in q.roles
    ensures r.Ok? ==> forall role :: role in cands ==>
              r.value[role] == cands[role] + if Eligible(t, q, role, d) then [d] else []
  {
    if !Relevant(q, d) {
      return Ok(cands);
    }
    var roles := RolesFor(t, d.principal, q.scope, d.decidedAt);
    if roles.Err? {
      return Err("delegation valid_until must be after valid_from");
    }
    if d.role.value !in roles.value {
      return Ok(cands);
    }
    return Ok(cands[d.role.value := cands[d.role.value] + [d]]);
  }

  ghost predicate AreCandidates(t: Tables, q: Query, ds: seq<Decision>, cands: Candidates) {
    && (forall role :: role in cands <==> role in q.roles)
    && (forall role :: role in cands ==> cands[role] == EligibleFor(t, q, role, ds))
  }

  lemma CandidatesNext(t: Tables, q: Query, ds: seq<Decision>, n: nat, cands: Candidates, cands': Candidates)
    requires n < |ds| && AreCandidates(t, q, ds[..n], cands)
    requires forall role :: role in cands' <==> role in q.roles
    requires forall role :: role in cands ==>
               cands'[role] == cands[role] + if Eligible(t, q, role, ds[n]) then [ds[n]] else []
    ensures AreCandidates(t, q, ds[..n + 1], cands')
  {
    assert ds[..n + 1][..n] == ds[..n];
  }

  lemma ReadableNext(t: Tables, q: Query, ds: seq<Decision>, n: nat)
    requires n < |ds| && AllReadable(t, q, ds[..n])
    ensures AllReadable(t, q, ds[..n + 1]) <==> (Relevant(q, ds[n]) ==> Readable(t, ds[n].principal))
    ensures AllReadable(t, q, ds) ==> AllReadable(t, q, ds[..n + 1])
  {
    assert ds[..n + 1][n] == ds[n];
  }

  lemma CandidatesComplete(t: Tables, q: Query, ds: seq<Decision>, cands: Candidates)
    requires AreCandidates(t, q, ds, cands)
    ensures cands == CandidatesOf(t, q, ds)
  {
  }

  /** The eligible decisions by role; a principal's roles must be readable to judge a decision. */
  method CollectCandidates(t: Tables, q: Query, decisions: seq<Decision>) returns (r: Result<Candidates>)
    ensures r.Ok? <==> AllReadable(t, q, decisions)
    ensures r.Ok? ==> r.value == CandidatesOf(t, q, decisions)
  {
    var candidates := NoCandidates(q.roles);
    for n := 0 to |decisions|
      invariant AreCandidates(t, q, decisions[..n], candidates)
      invariant AllReadable(t, q, decisions[..n])
    {
      ReadableNext(t, q, decisions, n);
      var added := AddDecision(t, q, decisions[n], candidates);
      if added.Err? {
        return Err("delegation valid_until must be after valid_from");
      }
      CandidatesNext(t, q, decisions, n, candidates, added.value);
      candidates := added.value;
    }
    assert decisions[..|decisions|] == decisions;
    CandidatesComplete(t, q, decisions, candidates);
    return Ok(candidates);
  }

  method AssessApprovalSatisfaction(t: Tables, q: Query, decisions: seq<Decision>) returns (r: Result<Assessment>)
    ensures r == AssessSpec(t, q, decisions)
    ensures r.Err? <==> exists d :: d in decisions && Unreadable(t, q, d)
    ensures r.Ok? ==> (r.value.satisfied <==> exists c :: Approves(t, q, Elements(decisions), c))
    ensures r.Ok? && r.value.satisfied ==> Approves(t, q, Elements(decisions), r.value.selected)
  {
    AssessmentFails(t, q, decisions);
    if AllReadable(t, q, decisions) {
      AssessmentMeaning(t, q, decisions);
    }
    var candidates := CollectCandidates(t, q, decisions);
    if candidates.Err? {
      return Err("delegation valid_until must be after valid_from");
    }
    var missing := MissingRoles(q.roles, candidates.value);
    if missing != [] {
      return Ok(Assessment(false, missing, []));
    }
    var selector := new RoleSelector(q.roles, candidates.value, q.distinct);
    var found := selector.Visit(0);
    r := if found then Ok(Assessment(true, [], selector.selected)) else Ok(Assessment(false, [], []));
  }

  // What follows says what an approval is without the terms of the assessment.

  /** An approving decision about this case, epoch and policy, in this role, by a principal who held
      the role when deciding. */
  ghost predicate Endorses(t: Tables, q: Query, role: string, d: Decision) {
    && d.disposition == Approve && d.role == Some(role)
    && d.caseId == q.caseId && d.epoch == q.epoch && d.policy == q.policy
    && Holds(t, d.principal, role, q.scope, d.decidedAt)
  }

  /** `c` is an approval of the query by some of the given decisions: one for each role in order, no
      two by the same principal where that is required. */
  ghost predicate Approves(t: Tables, q: Query, ds: set<Decision>, c: seq<Decision>) {
    && |c| == |q.roles|
    && (forall i :: 0 <= i < |c| ==> c[i] in ds && Endorses(t, q, q.roles[i], c[i]))
    && (q.distinct ==> forall i, j :: 0 <= i < j < |c| ==> c[i].principal != c[j].principal)
  }

  ghost predicate Endorsed(t: Tables, q: Query, ds: set<Decision>, role: string) {
    exists d :: d in ds && Endorses(t, q, role, d)
  }

  /** The decision approves, for one of the roles asked for, but its principal's roles cannot be read. */
  ghost predicate Unreadable(t: Tables, q: Query, d: Decision) {
    && d.disposition == Approve && d.role.Some? && d.role.value in q.roles
    && d.caseId == q.caseId && d.epoch == q.epoch && d.policy == q.policy
    && !Readable(t, d.principal)
  }

  ghost function Elements(ds: seq<Decision>): set<Decision> {
    set d | d in ds
  }

  lemma ChoiceIsApproval(t: Tables, q: Query, ds: seq<Decision>, c: seq<Decision>)
    ensures IsChoice(q.roles, CandidatesOf(t, q, ds), q.distinct, c) <==> Approves(t, q, Elements(ds), c)
  {
    var cands := CandidatesOf(t, q, ds);
    forall i | 0 <= i < |q.roles| && i < |c|
      ensures c[i] in cands[q.roles[i]] <==> c[i] in Elements(ds) && Endorses(t, q, q.roles[i], c[i])
    {
      assert cands[q.roles[i]] == EligibleFor(t, q, q.roles[i], ds);
    }
  }

  lemma NoCandidateMeansMissing(t: Tables, q: Query, ds: seq<Decision>, role: string)
    requires role in q.roles
    ensures CandidatesOf(t, q, ds)[role] == [] <==> !Endorsed(t, q, Elements(ds), role)
  {
    var options := EligibleFor(t, q, role, ds);
    if options != [] {
      assert options[0] in options;
      assert options[0] in Elements(ds) && Endorses(t, q, role, options[0]);
    } else {
      forall d | d in Elements(ds) ensures !Endorses(t, q, role, d) {
        assert d !in options;
      }
    }
  }

  lemma ApprovalCoversRole(t: Tables, q: Query, ds: set<Decision>, role: string, c: seq<Decision>)
    requires role in q.roles && Approves(t, q, ds, c)
    ensures Endorsed(t, q, ds, role)
  {
    var i :| 0 <= i < |q.roles| && q.roles[i] == role;
    assert c[i] in ds && Endorses(t, q, role, c[i]);
  }

  /** The assessment fails exactly on an approving decision whose principal's roles cannot be read. */
  lemma AssessmentFails(t: Tables, q: Query, ds: seq<Decision>)
    ensures AssessSpec(t, q, ds).Err? <==> exists d :: d in ds && Unreadable(t, q, d)
  {
    if i :| 0 <= i < |ds| && Relevant(q, ds[i]) && !Readable(t, ds[i].principal) {
      assert ds[i] in ds && Unreadable(t, q, ds[i]);
    }
    if d :| d in ds && Unreadable(t, q, d) {
      var i :| 0 <= i < |ds| && ds[i] == d;
      assert Relevant(q, ds[i]);
    }
  }

  lemma MissingMeaning(t: Tables, q: Query, ds: seq<Decision>)
    ensures var missing := MissingRoles(q.roles, CandidatesOf(t, q, ds));
            && (forall role :: role in missing <==> role in q.roles && !Endorsed(t, q, Elements(ds), role))
            && (missing != [] ==> forall c :: !Approves(t, q, Elements(ds), c))
  {
    var missing := MissingRoles(q.roles, CandidatesOf(t, q, ds));
    forall role | role in q.roles
      ensures role in missing <==> !Endorsed(t, q, Elements(ds), role)
    {
      NoCandidateMeansMissing(t, q, ds, role);
    }
    if missing != [] {
      assert missing[0] in missing;
      forall c | Approves(t, q, Elements(ds), c) ensures false {
        ApprovalCoversRole(t, q, Elements(ds), missing[0], c);
      }
    }
  }

  lemma SearchMeaning(t: Tables, q: Query, ds: seq<Decision>)
    ensures var found := Search(q.roles, CandidatesOf(t, q, ds), q.distinct, [], 0);
            && (found.Some? <==> exists c :: Approves(t, q, Elements(ds), c))
            && (found.Some? ==> Approves(t, q, Elements(ds), found.value))
  {
    var cands := CandidatesOf(t, q, ds);
    SearchDecides(q.roles, cands, q.distinct);
    forall c ensures IsChoice(q.roles, cands, q.distinct, c) <==> Approves(t, q, Elements(ds), c) {
      ChoiceIsApproval(t, q, ds, c);
    }
  }

  /** What an assessment means, without reference to how it filters and searches: satisfied exactly
      when an approval exists, and then the selection is one; the missing roles are those nobody
      endorsed. */
  lemma AssessmentMeaning(t: Tables, q: Query, ds: seq<Decision>)
    requires AllReadable(t, q, ds)
    ensures AssessSpec(t, q, ds).Ok?
    ensures var a := AssessSpec(t, q, ds).value;
            && (a.satisfied <==> exists c :: Approves(t, q, Elements(ds), c))
            && (a.satisfied ==> Approves(t, q, Elements(ds), a.selected))
            && (forall role :: role in a.missing <==> role in q.roles && !Endorsed(t, q, Elements(ds), role))
  {
    MissingMeaning(t, q, ds);
    SearchMeaning(t, q, ds);
  }

  /** Unsatisfied without a missing role happens exactly when every role is endorsed,
      distinct principals are required, and no distinct-principal choice exists. */
  lemma BlockedByDistinctness(t: Tables, q: Query, ds: seq<Decision>)
    requires AllReadable(t, q, ds)
    ensures AssessSpec(t, q, ds).Ok?
    ensures var a := AssessSpec(t, q, ds).value;
            (!a.satisfied && a.missing == [])
            <==>
            (&& q.distinct
             && (forall role :: role in q.roles ==> Endorsed(t, q, Elements(ds), role))
             && !exists c :: Approves(t, q, Elements(ds), c))
  {
    AssessmentMeaning(t, q, ds);
    var a := AssessSpec(t, q, ds).value;
    if a.missing == [] {
      assert forall role :: role !in a.missing;
      if !q.distinct {
        var c := EndorsedChoice(t, q, Elements(ds));
      }
    } else {
      assert a.missing[0] in a.missing;
    }
  }

  /** Without distinctness, one endorsement per role is an approval. */
  lemma EndorsedChoice(t: Tables, q: Query, ds: set<Decision>) returns (c: seq<Decision>)
    requires !q.distinct && forall role :: role in q.roles ==> Endorsed(t, q, ds, role)
    ensures Approves(t, q, ds, c)
  {
    c := seq(|q.roles|, i requires 0 <= i < |q.roles| => AnEndorsement(t, q, ds, q.roles[i]));
  }

  ghost function AnEndorsement(t: Tables, q: Query, ds: set<Decision>, role: string): (d: Decision)
    requires Endorsed(t, q, ds, role)
    ensures d in ds && Endorses(t, q, role, d)
  {
    var d :| d in ds && Endorses(t, q, role, d);
    d
  }

  /** More decisions, in whatever order, never undo a satisfied assessment, and never add a
      missing role; with the same decisions in another order the verdict is the same. */
  lemma AssessmentMonotone(t: Tables, q: Query, fewer: seq<Decision>, more: seq<Decision>)
    requires AllReadable(t, q, more)
    requires Elements(fewer) <= Elements(more)
    ensures AssessSpec(t, q, fewer).Ok? && AssessSpec(t, q, more).Ok?
    ensures var a, b := AssessSpec(t, q, fewer).value, AssessSpec(t, q, more).value;
            && (a.satisfied ==> b.satisfied)
            && (forall role :: role in b.missing ==> role in a.missing)
            && (Elements(fewer) == Elements(more) ==>
                  a.satisfied == b.satisfied && (forall role :: role in b.missing <==> role in a.missing))
  {
    assert AllReadable(t, q, fewer) by {
      forall i | 0 <= i < |fewer| && Relevant(q, fewer[i]) ensures Readable(t, fewer[i].principal) {
        assert fewer[i] in Elements(more);
      }
    }
    AssessmentMeaning(t, q, fewer);
    AssessmentMeaning(t, q, more);
    forall c | Approves(t, q, Elements(fewer), c) ensures Approves(t, q, Elements(more), c) {
    }
  }

  /** The assessment fails exactly when some relevant decision was made by a principal with an
      unreadable delegation row, so one such decision can make a satisfied approval fail. */
  lemma OneUnreadablePrincipalBlocksAll(t: Tables, q: Query, ds: seq<Decision>, d: Decision)
    requires AllReadable(t, q, ds)
    ensures AssessSpec(t, q, ds + [d]).Err? <==> Unreadable(t, q, d)
  {
    var more := ds + [d];
    assert more[|ds|] == d;
    assert forall i :: 0 <= i < |ds| ==> more[i] == ds[i];
  }
}
