/** Overlaying an authoritative HR record on claimed facts, and checking the result against HR again. */
module FactOverlay {
  import opened Common

  datatype Value = Null | Flag(flag: bool) | Text(text: string) | Number(number: int)

  datatype Authority = Claim | Attested | Authoritative

  datatype Assertion = Assertion(
    value: Value, authority: Authority, source: string, owner: string,
    sourceRef: Option<string>, sourceVersion: Option<string>, observedAt: int, digest: Option<string>)

  datatype Snapshot = Snapshot(
    source: string, owner: string, authority: Authority,
    sourceRef: Option<string>, sourceVersion: Option<string>, observedAt: int,
    facts: map<string, Value>, assertions: map<string, Assertion>, digest: Option<string>)

  datatype Record = Record(
    source: string, sourceRef: Option<string>, sourceVersion: Option<string>, observedAt: int,
    value: map<string, Value>)

  /** The SHA-256 digests over canonical JSON. */
  datatype Digests = Digests(value: Value -> string, snapshot: (map<string, Value>, map<string, Assertion>) -> string)

  predicate Truthy(v: Value) {
    match v
    case Null => false
    case Flag(b) => b
    case Text(s) => s != ""
    case Number(n) => n != 0
  }

  predicate Present(r: Record) {
    "present" in r.value && Truthy(r.value["present"])
  }

  /** The record has a value for this key, and the key is one it may overlay. */
  predicate Supplies(r: Record, keys: seq<string>, k: string) {
    k in keys && k in r.value && r.value[k] != Null
  }

  /** Every assertion has a flattened fact with its value. */
  predicate Consistent(facts: map<string, Value>, assertions: map<string, Assertion>) {
    forall k :: k in assertions ==> k in facts && facts[k] == assertions[k].value
  }

  /** A snapshot without assertions stands for one assertion per fact. */
  ghost function ExistingAssertions(s: Snapshot, d: Digests): (r: map<string, Assertion>)
    ensures Consistent(s.facts, s.assertions) ==> Consistent(s.facts, r)
    ensures s.assertions == map[] ==> r.Keys == s.facts.Keys
  {
    if s.assertions != map[] then s.assertions
    else Tabulate(s.facts.Keys, k requires k in s.facts => Inherited(s, s.facts[k], d))
  }

  function Inherited(s: Snapshot, v: Value, d: Digests): Assertion {
    Assertion(v, s.authority, s.source, s.owner, s.sourceRef, s.sourceVersion, s.observedAt, Some(d.value(v)))
  }

  method InheritAssertions(s: Snapshot, d: Digests) returns (r: map<string, Assertion>)
    ensures r == ExistingAssertions(s, d)
  {
    if s.assertions != map[] {
      return s.assertions;
    }
    r := map[];
    var pending := s.facts.Keys;
    while pending != {}
      invariant pending <= s.facts.Keys && r.Keys == s.facts.Keys - pending
      invariant forall k :: k in r ==> r[k] == Inherited(s, s.facts[k], d)
      decreases |pending|
    {
      var k :| k in pending;
      pending := pending - {k};
      r := r[k := Inherited(s, s.facts[k], d)];
    }
    assert r == ExistingAssertions(s, d);
  }

  function AuthoritativeAssertion(r: Record, owner: string, v: Value, d: Digests): Assertion {
    Assertion(v, Authoritative, r.source, owner, r.sourceRef, r.sourceVersion, r.observedAt, Some(d.value(v)))
  }

  // ---------- What a merge means ----------

  ghost function Overlaid<V>(base: map<string, V>, r: Record, keys: seq<string>, f: Value -> V): (m: map<string, V>)
    ensures forall k :: k in m <==> Supplies(r, keys, k) || k in base
    ensures forall k :: k in m ==> m[k] == if Supplies(r, keys, k) then f(r.value[k]) else base[k]
  {
    Tabulate((set k | k in base.Keys + r.value.Keys && (Supplies(r, keys, k) || k in base)),
             k requires Supplies(r, keys, k) || k in base => if Supplies(r, keys, k) then f(r.value[k]) else base[k])
  }

  ghost function OverlaidFacts(facts: map<string, Value>, r: Record, keys: seq<string>): map<string, Value> {
    Overlaid(facts, r, keys, v => v)
  }

  ghost function OverlaidAssertions(assertions: map<string, Assertion>, r: Record, keys: seq<string>, owner: string,
                                    d: Digests): map<string, Assertion> {
    Overlaid(assertions, r, keys, v => AuthoritativeAssertion(r, owner, v, d))
  }

  ghost function Merged(s: Snapshot, r: Record, source: string, keys: seq<string>, owner: string,
                        d: Digests): Snapshot {
    var facts := OverlaidFacts(s.facts, r, keys);
    var assertions := OverlaidAssertions(ExistingAssertions(s, d), r, keys, owner, d);
    Snapshot(source, owner, Claim, r.sourceRef, r.sourceVersion, r.observedAt, facts, assertions,
             Some(d.snapshot(facts, assertions)))
  }

  lemma OverlaidNext<V>(base: map<string, V>, r: Record, keys: seq<string>, i: nat, f: Value -> V)
    requires i < |keys|
    ensures Overlaid(base, r, keys[..i + 1], f)
         == if keys[i] in r.value && r.value[keys[i]] != Null
            then Overlaid(base, r, keys[..i], f)[keys[i] := f(r.value[keys[i]])]
            else Overlaid(base, r, keys[..i], f)
    ensures Overlaid(base, r, [], f) == base
  {
    assert keys[..i + 1] == keys[..i] + [keys[i]];
    forall k
      ensures Supplies(r, keys[..i + 1], k)
          <==> Supplies(r, keys[..i], k) || (k == keys[i] && k in r.value && r.value[k] != Null)
    {
    }
  }

  /** The loop of the merge: key by key, skipping what the record does not report. The new snapshot is
      built, and so validated, exactly when every assertion the record leaves alone fits its fact. */
  method MergeAuthoritativeFacts(current: Option<Snapshot>, r: Record, source: string, keys: seq<string>,
                                 owner: string, d: Digests)
    returns (result: Result<Snapshot>)
    ensures result.Ok? <==>
              && current.Some? && Present(r)
              && (forall k :: k in ExistingAssertions(current.value, d) && !Supplies(r, keys, k) ==>
                    k in current.value.facts && current.value.facts[k] == ExistingAssertions(current.value, d)[k].value)
    ensures result.Ok? ==>
              && result.value == Merged(current.value, r, source, keys, owner, d)
              && Consistent(result.value.facts, result.value.assertions)
  {
    if current.None? {
      return Err("case has no current fact snapshot");
    }
    if !Present(r) {
      return Err("authoritative HRIS reports employee absent");
    }
    var facts := current.value.facts;
    var assertions := InheritAssertions(current.value, d);
    ghost var facts0, assertions0 := facts, assertions;
    for i := 0 to |keys|
      invariant facts == OverlaidFacts(facts0, r, keys[..i])
      invariant assertions == OverlaidAssertions(assertions0, r, keys[..i], owner, d)
    {
      var key := keys[i];
      OverlaidNext(facts0, r, keys, i, v => v);
      OverlaidNext(assertions0, r, keys, i, v => AuthoritativeAssertion(r, owner, v, d));
      if key in r.value && r.value[key] != Null {
        facts := facts[key := r.value[key]];
        assertions := assertions[key := AuthoritativeAssertion(r, owner, r.value[key], d)];
      }
    }
    assert keys[..|keys|] == keys;
    if !Consistent(facts, assertions) {
      return Err("fact assertion does not match flattened fact");
    }
    result := Ok(Snapshot(source, owner, Claim, r.sourceRef, r.sourceVersion, r.observedAt, facts, assertions,
                          Some(d.snapshot(facts, assertions))));
  }

  /** What a merge leaves behind, key by key: what the record reports of a key it may overlay is taken
      over, with an authoritative assertion of that value from the record's source; everything else
      stays as it was, claims included. */
  lemma MergeMeaning(s: Snapshot, r: Record, source: string, keys: seq<string>, owner: string, d: Digests, k: string)
    ensures var m := Merged(s, r, source, keys, owner, d);
            var reported := k in keys && k in r.value && r.value[k] != Null;
            && (reported ==>
                  && k in m.facts && m.facts[k] == r.value[k] && k in m.assertions
                  && m.assertions[k] == Assertion(r.value[k], Authoritative, r.source, owner, r.sourceRef,
                                                  r.sourceVersion, r.observedAt, Some(d.value(r.value[k]))))
            && (!reported ==> (k in m.facts <==> k in s.facts) && (k in s.facts ==> m.facts[k] == s.facts[k]))
            && (!reported && s.assertions != map[] ==>
                  && (k in m.assertions <==> k in s.assertions)
                  && (k in s.assertions ==> m.assertions[k] == s.assertions[k]))
            && (!reported && s.assertions == map[] ==>
                  && (k in m.assertions <==> k in s.facts)
                  && (k in s.facts ==>
                        m.assertions[k] == Assertion(s.facts[k], s.authority, s.source, s.owner, s.sourceRef,
                                                     s.sourceVersion, s.observedAt, Some(d.value(s.facts[k])))))
            && m.source == source && m.owner == owner && m.authority == Claim && m.sourceRef == r.sourceRef
            && m.sourceVersion == r.sourceVersion && m.observedAt == r.observedAt
            && m.digest == Some(d.snapshot(m.facts, m.assertions))
  {
    var m := Merged(s, r, source, keys, owner, d);
    assert Supplies(r, keys, k) <==> k in keys && k in r.value && r.value[k] != Null;
  }

  lemma MergeKeepsConsistent(s: Snapshot, r: Record, source: string, keys: seq<string>, owner: string, d: Digests)
    requires Consistent(s.facts, s.assertions)
    ensures var m := Merged(s, r, source, keys, owner, d); Consistent(m.facts, m.assertions)
  {
  }

  lemma OverlaidTwice<V>(base: map<string, V>, r: Record, keys: seq<string>, f: Value -> V)
    ensures Overlaid(Overlaid(base, r, keys, f), r, keys, f) == Overlaid(base, r, keys, f)
  {
  }

  /** The assertions of a merged snapshot are taken as they are by the next merge. */
  lemma MergedAssertionsExist(s: Snapshot, r: Record, source: string, keys: seq<string>, owner: string, d: Digests)
    ensures var m := Merged(s, r, source, keys, owner, d); ExistingAssertions(m, d) == m.assertions
  {
    var m := Merged(s, r, source, keys, owner, d);
    if s.assertions == map[] {
      assert m.assertions.Keys == m.facts.Keys;
    } else {
      var k :| k in s.assertions;
      assert k in m.assertions;
    }
  }

  /** Merging the same record again changes neither facts nor assertions. */
  lemma MergeIdempotent(s: Snapshot, r: Record, source: string, keys: seq<string>, owner: string, d: Digests)
    ensures Merged(Merged(s, r, source, keys, owner, d), r, source, keys, owner, d)
            == Merged(s, r, source, keys, owner, d)
  {
    MergedAssertionsExist(s, r, source, keys, owner, d);
    OverlaidTwice(s.facts, r, keys, v => v);
    OverlaidTwice(ExistingAssertions(s, d), r, keys, v => AuthoritativeAssertion(r, owner, v, d));
  }

  // ---------- Any number of merges ----------

  ghost function MergeAll(s: Snapshot, rs: seq<Record>, source: string, keys: seq<string>, owner: string,
                          d: Digests): Snapshot {
    if rs == [] then s
    else Merged(MergeAll(s, rs[..|rs| - 1], source, keys, owner, d), rs[|rs| - 1], source, keys, owner, d)
  }

  /** The last of the records with a value for the key. */
  function LastSupplier(rs: seq<Record>, keys: seq<string>, k: string): (r: Option<Record>)
    ensures r.Some? <==> exists i :: 0 <= i < |rs| && Supplies(rs[i], keys, k)
    ensures r.Some? ==> exists i :: 0 <= i < |rs| && rs[i] == r.value && Supplies(rs[i], keys, k)
                                    && forall j :: i < j < |rs| ==> !Supplies(rs[j], keys, k)
  {
    if rs == [] then None
    else
      var n := |rs| - 1;
      if Supplies(rs[n], keys, k) then Some(rs[n]) else LastSupplier(rs[..n], keys, k)
  }

  /** However many records are merged, and whatever they leave out: a fact is the value of the last
      record that had one, and otherwise the claim it always was. */
  lemma {:induction false} FactsAfterMerges(s: Snapshot, rs: seq<Record>, source: string, keys: seq<string>,
                                            owner: string, d: Digests, k: string)
    ensures var last := LastSupplier(rs, keys, k); var facts := MergeAll(s, rs, source, keys, owner, d).facts;
            && (last.Some? ==> k in last.value.value && k in facts && facts[k] == last.value.value[k])
            && (last.None? ==> (k in facts <==> k in s.facts) && (k in s.facts ==> facts[k] == s.facts[k]))
  {
    if rs != [] {
      FactsAfterMerges(s, rs[..|rs| - 1], source, keys, owner, d, k);
    }
  }

  // ---------- Checking against HR again ----------

  const CHECKED_KEYS := {
    "employee_ref", "department_ref", "start_date", "employment_type", "manager_ref", "work_email", "active",
    "employment_state", "termination_status", "termination_effective_at", "employment_episode_ref"}

  const ONBOARDING_KEYS := [
    "employee_ref", "department_ref", "start_date", "employment_type", "manager_ref", "work_email", "active",
    "employment_state"]

  const OFFBOARDING_KEYS := [
    "employee_ref", "department_ref", "employment_type", "termination_status", "termination_effective_at",
    "employment_episode_ref", "departing_principal_id", "active"]

  datatype Reason = NoSnapshot | NoDependencies | ReadFailed | Stale | SubjectAbsent
    | Changed(key: string, what: Change)

  datatype Change = SourceChanged | IdentityChanged | ValueChanged

  predicate IsExpected(s: Snapshot, changing: seq<string>, k: string) {
    && k in s.assertions && s.assertions[k].authority == Authoritative
    && k !in changing && k in CHECKED_KEYS
  }

  function Get(m: map<string, Value>, k: string): Value {
    if k in m then m[k] else Null
  }

  /** The difference reported for one key, the first of the three that applies. */
  function Difference(a: Assertion, current: Record, k: string): Option<Change> {
    if a.source != current.source then Some(SourceChanged)
    else if a.sourceRef != current.sourceRef then Some(IdentityChanged)
    else if Get(current.value, k) != a.value then Some(ValueChanged)
    else None
  }

  /** `current` is what the source returned, if it could be read. */
  ghost predicate StillHolds(s: Snapshot, current: Option<Record>, recent: bool, changing: seq<string>) {
    && (exists k :: IsExpected(s, changing, k))
    && current.Some? && recent && Present(current.value)
    && (forall k :: IsExpected(s, changing, k) ==> Difference(s.assertions[k], current.value, k) == None)
  }

  predicate IsReason(s: Snapshot, current: Record, x: Reason) {
    x.Changed? && x.key in s.assertions && Difference(s.assertions[x.key], current, x.key) == Some(x.what)
  }

  method ValidateWithDependencies(s: Option<Snapshot>, current: Option<Record>, recent: bool, changing: seq<string>)
    returns (valid: bool, reasons: seq<Reason>)
    ensures valid <==> reasons == []
    ensures valid <==> s.Some? && StillHolds(s.value, current, recent, changing)
    ensures s.Some? && (exists k :: IsExpected(s.value, changing, k)) && current.Some? && recent ==>
              Present(current.value) ==>
              forall x :: x in reasons <==> IsReason(s.value, current.value, x) && IsExpected(s.value, changing, x.key)
    ensures NoSnapshot in reasons <==> s.None?
    ensures NoDependencies in reasons <==> s.Some? && !exists k :: IsExpected(s.value, changing, k)
    ensures ReadFailed in reasons <==> s.Some? && (exists k :: IsExpected(s.value, changing, k)) && current.None?
    ensures Stale in reasons <==>
              s.Some? && (exists k :: IsExpected(s.value, changing, k)) && current.Some? && !recent
    ensures SubjectAbsent in reasons <==>
              && s.Some? && (exists k :: IsExpected(s.value, changing, k)) && current.Some? && recent
              && !Present(current.value)
  {
    if s.None? {
      return false, [NoSnapshot];
    }
    var expected := set k | k in s.value.assertions && IsExpected(s.value, changing, k);
    if expected == {} {
      assert forall k :: IsExpected(s.value, changing, k) ==> k in expected;
      return false, [NoDependencies];
    }
    ghost var some :| some in expected;
    if current.None? {
      return false, [ReadFailed];
    }
    if !recent {
      return false, [Stale];
    }
    if !Present(current.value) {
      return false, [SubjectAbsent];
    }
    reasons := CompareKeys(s.value, current.value, expected);
    assert IsExpected(s.value, changing, some);
    valid := reasons == [];
  }

  method CompareKeys(s: Snapshot, current: Record, expected: set<string>) returns (reasons: seq<Reason>)
    requires expected <= s.assertions.Keys
    ensures reasons == [] <==> forall k :: k in expected ==> Difference(s.assertions[k], current, k) == None
    ensures forall x :: x in reasons <==> IsReason(s, current, x) && x.key in expected
  {
    reasons := [];
    var pending := expected;
    while pending != {}
      invariant pending <= expected
      invariant reasons == [] <==> forall k :: k in expected - pending ==>
                                     Difference(s.assertions[k], current, k) == None
      invariant forall x :: x in reasons <==> IsReason(s, current, x) && x.key in expected - pending
      decreases |pending|
    {
      var k :| k in pending;
      assert expected - (pending - {k}) == (expected - pending) + {k};
      pending := pending - {k};
      var change := Difference(s.assertions[k], current, k);
      if change.Some? {
        reasons := reasons + [Changed(k, change.value)];
      }
    }
    assert expected - {} == expected;
  }

  /** The reason reported for a key names the first thing that differs: the source, then the record, then
      the value. */
  lemma ReasonMeaning(s: Snapshot, current: Record, k: string, what: Change)
    requires k in s.assertions
    ensures IsReason(s, current, Changed(k, what)) <==>
            match what
            case SourceChanged => s.assertions[k].source != current.source
            case IdentityChanged =>
              s.assertions[k].source == current.source && s.assertions[k].sourceRef != current.sourceRef
            case ValueChanged =>
              && s.assertions[k].source == current.source && s.assertions[k].sourceRef == current.sourceRef
              && s.assertions[k].value != (if k in current.value then current.value[k] else Null)
  {
  }

  /** The key rests on HR's word, is one that is checked, and is not about to change. */
  predicate DependsOn(s: Snapshot, changing: seq<string>, k: string) {
    k in s.assertions && s.assertions[k].authority == Authoritative && k !in changing && k in CHECKED_KEYS
  }

  /** What a valid revalidation means: HR was read recently and reports the subject as present, and for
      each key the snapshot depends on, of which there are some, the same source gives the same record
      and the same value. */
  lemma HoldsMeaning(s: Snapshot, current: Option<Record>, recent: bool, changing: seq<string>)
    ensures StillHolds(s, current, recent, changing) <==>
            && recent && current.Some? && "present" in current.value.value
            && current.value.value["present"] !in [Null, Flag(false), Text(""), Number(0)]
            && (exists k :: DependsOn(s, changing, k))
            && (forall k :: DependsOn(s, changing, k) ==>
                  && s.assertions[k].source == current.value.source
                  && s.assertions[k].sourceRef == current.value.sourceRef
                  && s.assertions[k].value == (if k in current.value.value then current.value.value[k] else Null))
  {
    forall k ensures DependsOn(s, changing, k) <==> IsExpected(s, changing, k) {
    }
  }

  /** A snapshot that still holds has nothing to gain from HR on the keys it depends on: merging what HR
      returns leaves each of those facts as it is. */
  lemma HoldingMergesUnchanged(s: Snapshot, r: Record, source: string, keys: seq<string>, owner: string, d: Digests,
                               changing: seq<string>, k: string)
    requires Consistent(s.facts, s.assertions)
    requires StillHolds(s, Some(r), true, changing) && DependsOn(s, changing, k)
    ensures k in s.facts && k in Merged(s, r, source, keys, owner, d).facts
    ensures Merged(s, r, source, keys, owner, d).facts[k] == s.facts[k]
  {
    HoldsMeaning(s, Some(r), true, changing);
  }

  predicate Checked(changing: seq<string>, k: string) {
    k !in changing && k in CHECKED_KEYS
  }

  /** An authoritative assertion from before the merge that the record has no value for. */
  ghost predicate Inherits(s: Snapshot, d: Digests, r: Record, keys: seq<string>, k: string) {
    k in ExistingAssertions(s, d) && ExistingAssertions(s, d)[k].authority == Authoritative && !Supplies(r, keys, k)
  }

  lemma MergedExpects(s: Snapshot, r: Record, source: string, keys: seq<string>, owner: string, d: Digests,
                      changing: seq<string>, k: string)
    ensures var m := Merged(s, r, source, keys, owner, d);
            && (IsExpected(m, changing, k)
                <==> Checked(changing, k) && (Supplies(r, keys, k) || Inherits(s, d, r, keys, k)))
            && (Supplies(r, keys, k) ==> k in m.assertions && Difference(m.assertions[k], r, k) == None)
            && (Inherits(s, d, r, keys, k) ==> k in m.assertions && m.assertions[k] == ExistingAssertions(s, d)[k])
  {
    var m := Merged(s, r, source, keys, owner, d);
    if Supplies(r, keys, k) {
      assert m.assertions[k] == AuthoritativeAssertion(r, owner, r.value[k], d);
    }
  }

  /** A merged snapshot checked against the record it was merged from holds exactly when a checked key
      is supplied or inherited, and the record agrees with each checked assertion that is inherited. */
  lemma MergedHoldsIff(s: Snapshot, r: Record, source: string, keys: seq<string>, owner: string, d: Digests,
                       changing: seq<string>)
    requires Present(r)
    ensures StillHolds(Merged(s, r, source, keys, owner, d), Some(r), true, changing) <==>
            && (exists k :: Checked(changing, k) && (Supplies(r, keys, k) || Inherits(s, d, r, keys, k)))
            && (forall k :: Checked(changing, k) && Inherits(s, d, r, keys, k) ==>
                  Difference(ExistingAssertions(s, d)[k], r, k) == None)
  {
    var m := Merged(s, r, source, keys, owner, d);
    forall k
      ensures IsExpected(m, changing, k)
          <==> Checked(changing, k) && (Supplies(r, keys, k) || Inherits(s, d, r, keys, k))
      ensures Supplies(r, keys, k) ==> k in m.assertions && Difference(m.assertions[k], r, k) == None
      ensures Inherits(s, d, r, keys, k) ==> k in m.assertions && m.assertions[k] == ExistingAssertions(s, d)[k]
    {
      MergedExpects(s, r, source, keys, owner, d, changing, k);
    }
    if k :| Checked(changing, k) && (Supplies(r, keys, k) || Inherits(s, d, r, keys, k)) {
      assert IsExpected(m, changing, k);
    }
  }

  /** From claims only, it holds exactly when the record supplies a checked key that is not about to
      change. */
  lemma ClaimsMergedHoldIff(s: Snapshot, r: Record, source: string, keys: seq<string>, owner: string, d: Digests,
                            changing: seq<string>)
    requires Present(r)
    requires forall k :: k in ExistingAssertions(s, d) ==> ExistingAssertions(s, d)[k].authority != Authoritative
    ensures StillHolds(Merged(s, r, source, keys, owner, d), Some(r), true, changing)
            <==> exists k :: Checked(changing, k) && Supplies(r, keys, k)
  {
    MergedHoldsIff(s, r, source, keys, owner, d, changing);
    assert forall k :: !Inherits(s, d, r, keys, k);
  }

  lemma NotChecked()
    ensures "departing_principal_id" !in CHECKED_KEYS && "present" !in CHECKED_KEYS
  {
    assert forall k :: k in CHECKED_KEYS ==> k[0] != 'd' || k[2] != 'p' || k == "department_ref";
    assert "departing_principal_id"[6] == 'i' && "department_ref"[6] == 'm';
  }

  /** Every key the two overlays may write is checked again, but for the departing principal, and no key
      is checked that neither writes. */
  lemma OverlaysChecked(k: string)
    ensures k in CHECKED_KEYS <==> (k in ONBOARDING_KEYS || k in OFFBOARDING_KEYS) && k != "departing_principal_id"
  {
    NotChecked();
    assert forall x :: x in ONBOARDING_KEYS ==> x in CHECKED_KEYS;
    assert forall x :: x in OFFBOARDING_KEYS ==> x in CHECKED_KEYS || x == "departing_principal_id";
  }

  /** A present record whose only overlaid value is the departing principal leaves nothing to check. */
  lemma DepartingPrincipalAloneDoesNotHold(s: Snapshot, r: Record, owner: string, d: Digests)
    requires s.facts == map[] && s.assertions == map[]
    requires r.value == map["present" := Flag(true), "departing_principal_id" := Text("p")]
    ensures !StillHolds(Merged(s, r, "composite:employee-offboarding", OFFBOARDING_KEYS, owner, d), Some(r), true, [])
  {
    NotChecked();
    ClaimsMergedHoldIff(s, r, "composite:employee-offboarding", OFFBOARDING_KEYS, owner, d, []);
  }
}
