/** Deciding completion: every required obligation needs a proof of its own kind. */
module Completion {
  import opened Common
  import opened Ledger

  datatype FulfillmentKind = ExternalEffectVerified | DomainStateVerified

  datatype Obligation = Obligation(
    id: string, kind: FulfillmentKind, subject: string, target: string, operation: string,
    authorityClass: string, required: bool)

  datatype ObligationSet = ObligationSet(
    requirement: string, kase: string, epoch: int, basis: string, obligations: seq<Obligation>)

  datatype Link = Link(effect: string, obligation: string)

  datatype Fulfillment = Fulfillment(obligation: string, kase: string, epoch: int)

  datatype Evidence = Evidence(
    effects: seq<(string, Effect)>, outcomes: seq<(string, Outcome)>, realizations: seq<(string, Realization)>,
    links: seq<Link>, fulfillments: seq<Fulfillment>)

  datatype Assessment = Assessment(
    requirement: string, satisfied: bool,
    missingObligations: seq<string>, uncovered: seq<string>, missingKinds: seq<string>,
    missingRealizations: seq<string>, missingDomainState: seq<string>, basis: string, reasons: seq<Reason>)

  datatype Reason = NotCovered | NoConfirmedOutcome | KindNotConfirmed | NoVerifiedRealization | NoDomainState

  // ---------- Dictionaries ----------

  /** A dict comprehension over `items`: the last item with a key wins. */
  function Index<T>(items: seq<T>, key: T -> string): map<string, T> {
    if items == [] then map[]
    else
      var n := |items| - 1;
      Index(items[..n], key)[key(items[n]) := items[n]]
  }

  lemma {:induction false} IndexHolds<T>(items: seq<T>, key: T -> string, k: string)
    ensures k in Index(items, key) ==> Index(items, key)[k] in items && key(Index(items, key)[k]) == k
    ensures k in Index(items, key) <==> exists i :: 0 <= i < |items| && key(items[i]) == k
  {
    if items != [] {
      var n := |items| - 1;
      IndexHolds(items[..n], key, k);
      if i :| 0 <= i < |items| && key(items[i]) == k {
        assert i == n || items[..n][i] == items[i];
      }
    }
  }

  /** The keys of that dict in insertion order. */
  function Keys<T>(items: seq<T>, key: T -> string): (r: seq<string>)
    ensures forall k :: k in r <==> k in Index(items, key)
    ensures NoRepeats(r)
  {
    if items == [] then []
    else
      var n := |items| - 1;
      var front := Keys(items[..n], key);
      if key(items[n]) in front then front else front + [key(items[n])]
  }

  method BuildIndex<T>(items: seq<T>, key: T -> string) returns (r: map<string, T>, keys: seq<string>)
    ensures r == Index(items, key) && keys == Keys(items, key)
  {
    r, keys := map[], [];
    for i := 0 to |items|
      invariant r == Index(items[..i], key) && keys == Keys(items[..i], key)
    {
      assert items[..i + 1][..i] == items[..i];
      if key(items[i]) !in keys {
        keys := keys + [key(items[i])];
      }
      r := r[key(items[i]) := items[i]];
    }
    assert items[..|items|] == items;
  }

  lemma {:induction false} IndexAppendFresh<T>(items: seq<T>, more: seq<T>, key: T -> string, k: string)
    requires k in Index(items, key) && forall y :: y in more ==> key(y) != k
    ensures k in Index(items + more, key) && Index(items + more, key)[k] == Index(items, key)[k]
    decreases |more|
  {
    if more == [] {
      assert items + more == items;
    } else {
      var n := |more| - 1;
      assert (items + more)[..|items| + n] == items + more[..n];
      IndexAppendFresh(items, more[..n], key, k);
    }
  }

  lemma {:induction false} IndexOfDistinct<T>(items: seq<T>, key: T -> string, x: T)
    requires forall i, j :: 0 <= i < j < |items| ==> key(items[i]) != key(items[j])
    requires x in items
    ensures key(x) in Index(items, key) && Index(items, key)[key(x)] == x
  {
    var n := |items| - 1;
    assert items == items[..n] + [items[n]];
    if x != items[n] {
      IndexOfDistinct(items[..n], key, x);
    }
  }

  predicate IsRequired(o: Obligation) { o.required }
  function ObligationId(o: Obligation): string { o.id }
  function LinkObligation(l: Link): string { l.obligation }
  function FulfilledObligation(f: Fulfillment): string { f.obligation }
  function RowId<V>(x: (string, V)): string { x.0 }

  function Filter<T(!new)>(items: seq<T>, keep: T -> bool): (r: seq<T>)
    ensures forall x :: x in r <==> x in items && keep(x)
  {
    if items == [] then []
    else
      var n := |items| - 1;
      assert items == items[..n] + [items[n]];
      if keep(items[n]) then Filter(items[..n], keep) + [items[n]] else Filter(items[..n], keep)
  }

  method FilterItems<T(!new)>(items: seq<T>, keep: T -> bool) returns (r: seq<T>)
    ensures r == Filter(items, keep)
  {
    r := [];
    for i := 0 to |items|
      invariant r == Filter(items[..i], keep)
    {
      assert items[..i + 1][..i] == items[..i];
      if keep(items[i]) {
        r := r + [items[i]];
      }
    }
    assert items[..|items|] == items;
  }

  // ---------- Proof of one obligation ----------

  function RequiredKind(o: Obligation): string {
    o.target + "." + o.operation + ".verified"
  }

  predicate Matches(e: Effect, o: Obligation) {
    && e.target == o.target && e.operation == o.operation
    && e.subject == o.subject && e.authorityClass == o.authorityClass
  }

  /** The outcome has the kind asked for and rests on a VERIFIED realization of the same effect. */
  predicate Confirms(oc: Outcome, effect: string, o: Obligation, realizations: map<string, (string, Realization)>) {
    && oc.effect == effect && oc.kind == RequiredKind(o)
    && oc.realization in realizations
    && realizations[oc.realization].1.effect == effect
    && realizations[oc.realization].1.disposition == Verified
  }

  ghost predicate HasProof(goal: ObligationSet, ev: Evidence, o: Obligation) {
    match o.kind
    case DomainStateVerified =>
      exists f :: f in ev.fulfillments && f.obligation == o.id && f.kase == goal.kase && f.epoch == goal.epoch
    case ExternalEffectVerified =>
      var links := Index(ev.links, LinkObligation);
      var effects := Index(ev.effects, RowId<Effect>);
      && o.id in links && links[o.id].effect in effects
      && Matches(effects[links[o.id].effect].1, o)
      && var realizations := Index(ev.realizations, RowId<Realization>);
         exists x :: x in ev.outcomes && Confirms(x.1, links[o.id].effect, o, realizations)
  }

  function Required(goal: ObligationSet): map<string, Obligation> {
    Index(Filter(goal.obligations, IsRequired), ObligationId)
  }

  function RequiredIds(goal: ObligationSet): (r: seq<string>)
    ensures NoRepeats(r) && forall id :: id in r <==> id in Required(goal)
  {
    Keys(Filter(goal.obligations, IsRequired), ObligationId)
  }

  ghost predicate Satisfied(goal: ObligationSet, ev: Evidence) {
    forall id :: id in Required(goal) ==> HasProof(goal, ev, Required(goal)[id])
  }

  // ---------- What the loop reports ----------

  datatype Verdict = Proved | DomainStateMissing | Uncovered | Unconfirmed | WrongKind | Unverified

  function OutcomesOf(outcomes: seq<(string, Outcome)>, effect: string): seq<(string, Outcome)> {
    Filter(outcomes, (x: (string, Outcome)) => x.1.effect == effect)
  }

  /** Why an obligation with this evidence is not yet proved. */
  ghost predicate IsVerdict(goal: ObligationSet, ev: Evidence, o: Obligation, v: Verdict) {
    var links := Index(ev.links, LinkObligation);
    var effects := Index(ev.effects, RowId<Effect>);
    var covered := o.id in links && links[o.id].effect in effects && Matches(effects[links[o.id].effect].1, o);
    match v
    case Proved => HasProof(goal, ev, o)
    case DomainStateMissing => o.kind.DomainStateVerified? && !HasProof(goal, ev, o)
    case Uncovered => o.kind.ExternalEffectVerified? && !covered
    case Unconfirmed =>
      && o.kind.ExternalEffectVerified? && covered
      && forall x :: x in ev.outcomes ==> x.1.effect != links[o.id].effect
    case WrongKind =>
      && o.kind.ExternalEffectVerified? && covered
      && (exists x :: x in ev.outcomes && x.1.effect == links[o.id].effect)
      && (forall x :: x in ev.outcomes && x.1.effect == links[o.id].effect ==> x.1.kind != RequiredKind(o))
    case Unverified =>
      && o.kind.ExternalEffectVerified? && covered && !HasProof(goal, ev, o)
      && (exists x :: x in ev.outcomes && x.1.effect == links[o.id].effect && x.1.kind == RequiredKind(o))
  }

  lemma VerdictUnique(goal: ObligationSet, ev: Evidence, o: Obligation, v: Verdict, w: Verdict)
    requires IsVerdict(goal, ev, o, v) && IsVerdict(goal, ev, o, w)
    ensures v == w
  {
  }

  datatype Lookups = Lookups(
    effects: map<string, (string, Effect)>, byEffect: map<string, seq<(string, Outcome)>>,
    realizations: map<string, (string, Realization)>, links: map<string, Link>, fulfillments: map<string, Fulfillment>)

  ghost predicate LookupsOf(t: Lookups, goal: ObligationSet, ev: Evidence) {
    && t.effects == Index(ev.effects, RowId<Effect>)
    && (forall e :: if e in t.byEffect then t.byEffect[e] == OutcomesOf(ev.outcomes, e)
        else OutcomesOf(ev.outcomes, e) == [])
    && t.realizations == Index(ev.realizations, RowId<Realization>)
    && t.links == Index(ev.links, LinkObligation)
    && (forall id :: id in t.fulfillments <==>
          exists f :: f in ev.fulfillments && f.obligation == id && f.kase == goal.kase && f.epoch == goal.epoch)
  }

  method BuildLookups(goal: ObligationSet, ev: Evidence) returns (t: Lookups)
    ensures LookupsOf(t, goal, ev)
  {
    var effects, _ := BuildIndex(ev.effects, RowId<Effect>);
    var byEffect := GroupOutcomes(ev.outcomes);
    var realizations, _ := BuildIndex(ev.realizations, RowId<Realization>);
    var links, _ := BuildIndex(ev.links, LinkObligation);
    var fulfillments := CurrentFulfillments(goal, ev.fulfillments);
    t := Lookups(effects, byEffect, realizations, links, fulfillments);
  }

  method Judge(goal: ObligationSet, ghost ev: Evidence, o: Obligation, t: Lookups) returns (v: Verdict)
    requires LookupsOf(t, goal, ev)
    ensures IsVerdict(goal, ev, o, v)
  {
    var Lookups(effects, byEffect, realizations, links, fulfillments) := t;
    if o.kind.DomainStateVerified? {
      return if o.id in fulfillments then Proved else DomainStateMissing;
    }
    if o.id !in links || links[o.id].effect !in effects {
      return Uncovered;
    }
    var id := links[o.id].effect;
    if !Matches(effects[id].1, o) {
      return Uncovered;
    }
    v := JudgeOutcomes(goal, ev, o, if id in byEffect then byEffect[id] else [], realizations);
  }

  ghost function LinkedEffect(ev: Evidence, o: Obligation): (r: Option<string>)
    ensures r.Some? ==> r.value in Index(ev.effects, RowId<Effect>)
  {
    var links := Index(ev.links, LinkObligation);
    var effects := Index(ev.effects, RowId<Effect>);
    if o.id in links && links[o.id].effect in effects && Matches(effects[links[o.id].effect].1, o)
    then Some(links[o.id].effect)
    else None
  }

  method JudgeOutcomes(goal: ObligationSet, ghost ev: Evidence, o: Obligation,
                       found: seq<(string, Outcome)>, realizations: map<string, (string, Realization)>)
    returns (v: Verdict)
    requires o.kind.ExternalEffectVerified? && LinkedEffect(ev, o).Some?
    requires found == OutcomesOf(ev.outcomes, LinkedEffect(ev, o).value)
    requires realizations == Index(ev.realizations, RowId<Realization>)
    ensures IsVerdict(goal, ev, o, v)
  {
    ghost var id := LinkedEffect(ev, o).value;
    if found == [] {
      NoneFound(ev.outcomes, id);
      return Unconfirmed;
    }
    assert found[0] in found;
    var matching := FilterItems(found, (x: (string, Outcome)) => x.1.kind == RequiredKind(o));
    if matching == [] {
      NoneMatching(found, o);
      return WrongKind;
    }
    assert matching[0] in matching;
    var verified := exists x :: x in matching && Confirms(x.1, x.1.effect, o, realizations);
    return if verified then Proved else Unverified;
  }

  lemma {:induction false} NoneFound(outcomes: seq<(string, Outcome)>, effect: string)
    requires OutcomesOf(outcomes, effect) == []
    ensures forall x :: x in outcomes ==> x.1.effect != effect
  {
    forall x | x in outcomes ensures x.1.effect != effect {
      assert x !in OutcomesOf(outcomes, effect);
    }
  }

  lemma NoneMatching(found: seq<(string, Outcome)>, o: Obligation)
    requires Filter(found, (x: (string, Outcome)) => x.1.kind == RequiredKind(o)) == []
    ensures forall x :: x in found ==> x.1.kind != RequiredKind(o)
  {
    forall x | x in found ensures x.1.kind != RequiredKind(o) {
      assert x !in Filter(found, (x: (string, Outcome)) => x.1.kind == RequiredKind(o));
    }
  }

  // ---------- The assessment ----------

  /** The obligations among `ids` with this verdict, in order. */
  ghost function Having(goal: ObligationSet, ev: Evidence, ids: seq<string>, v: Verdict): seq<string>
    requires forall id :: id in ids ==> id in Required(goal)
  {
    if ids == [] then []
    else
      var n := |ids| - 1;
      Having(goal, ev, ids[..n], v) + if IsVerdict(goal, ev, Required(goal)[ids[n]], v) then [ids[n]] else []
  }

  /** The outcome kinds still missing, in order; an obligation without any outcome misses its kind too. */
  ghost function KindsMissing(goal: ObligationSet, ev: Evidence, ids: seq<string>): seq<string>
    requires forall id :: id in ids ==> id in Required(goal)
  {
    if ids == [] then []
    else
      var n := |ids| - 1;
      var o := Required(goal)[ids[n]];
      KindsMissing(goal, ev, ids[..n])
      + if IsVerdict(goal, ev, o, Unconfirmed) || IsVerdict(goal, ev, o, WrongKind) then [RequiredKind(o)] else []
  }

  lemma HavingNext(goal: ObligationSet, ev: Evidence, ids: seq<string>, i: nat, v: Verdict, w: Verdict)
    requires i < |ids| && (forall id :: id in ids ==> id in Required(goal))
    requires IsVerdict(goal, ev, Required(goal)[ids[i]], v)
    ensures Having(goal, ev, ids[..i + 1], w) == Having(goal, ev, ids[..i], w) + if w == v then [ids[i]] else []
  {
    assert ids[..i + 1][..i] == ids[..i];
    if IsVerdict(goal, ev, Required(goal)[ids[i]], w) {
      VerdictUnique(goal, ev, Required(goal)[ids[i]], v, w);
    }
  }

  lemma KindsNext(goal: ObligationSet, ev: Evidence, ids: seq<string>, i: nat, v: Verdict)
    requires i < |ids| && (forall id :: id in ids ==> id in Required(goal))
    requires IsVerdict(goal, ev, Required(goal)[ids[i]], v)
    ensures KindsMissing(goal, ev, ids[..i + 1])
         == KindsMissing(goal, ev, ids[..i])
            + if v == Unconfirmed || v == WrongKind then [RequiredKind(Required(goal)[ids[i]])] else []
  {
    assert ids[..i + 1][..i] == ids[..i];
    forall w | IsVerdict(goal, ev, Required(goal)[ids[i]], w) ensures w == v {
      VerdictUnique(goal, ev, Required(goal)[ids[i]], v, w);
    }
  }

  /** The five lists of the report. */
  datatype Missing = Missing(
    uncovered: seq<string>, confirmed: seq<string>, kinds: seq<string>, realized: seq<string>, domain: seq<string>)

  const NONE_MISSING := Missing([], [], [], [], [])

  ghost function MissingAmong(goal: ObligationSet, ev: Evidence, ids: seq<string>): Missing
    requires forall id :: id in ids ==> id in Required(goal)
  {
    Missing(Having(goal, ev, ids, Uncovered), Having(goal, ev, ids, Unconfirmed), KindsMissing(goal, ev, ids),
            Having(goal, ev, ids, Unverified), Having(goal, ev, ids, DomainStateMissing))
  }

  function Add(m: Missing, v: Verdict, o: Obligation, id: string): Missing {
    match v
    case Proved => m
    case DomainStateMissing => m.(domain := m.domain + [id])
    case Uncovered => m.(uncovered := m.uncovered + [id])
    case Unconfirmed => m.(confirmed := m.confirmed + [id], kinds := m.kinds + [RequiredKind(o)])
    case WrongKind => m.(kinds := m.kinds + [RequiredKind(o)])
    case Unverified => m.(realized := m.realized + [id])
  }

  lemma Advance(goal: ObligationSet, ev: Evidence, ids: seq<string>, i: nat, v: Verdict)
    requires i < |ids| && (forall id :: id in ids ==> id in Required(goal))
    requires IsVerdict(goal, ev, Required(goal)[ids[i]], v)
    ensures MissingAmong(goal, ev, ids[..i + 1])
            == Add(MissingAmong(goal, ev, ids[..i]), v, Required(goal)[ids[i]], ids[i])
  {
    HavingNext(goal, ev, ids, i, v, Uncovered);
    HavingNext(goal, ev, ids, i, v, Unconfirmed);
    HavingNext(goal, ev, ids, i, v, Unverified);
    HavingNext(goal, ev, ids, i, v, DomainStateMissing);
    KindsNext(goal, ev, ids, i, v);
  }

  lemma VerdictExists(goal: ObligationSet, ev: Evidence, o: Obligation) returns (v: Verdict)
    ensures IsVerdict(goal, ev, o, v)
  {
    v := if HasProof(goal, ev, o) then Proved
         else if o.kind.DomainStateVerified? then DomainStateMissing
         else if LinkedEffect(ev, o).None? then Uncovered
         else if forall x :: x in ev.outcomes ==> x.1.effect != LinkedEffect(ev, o).value then Unconfirmed
         else if exists x :: x in ev.outcomes && x.1.effect == LinkedEffect(ev, o).value &&
                   x.1.kind == RequiredKind(o) then Unverified
         else WrongKind;
  }

  lemma {:induction false} EmptyWhenProved(goal: ObligationSet, ev: Evidence, ids: seq<string>)
    requires forall id :: id in ids ==> id in Required(goal)
    ensures MissingAmong(goal, ev, ids) == NONE_MISSING
            <==> forall id :: id in ids ==> HasProof(goal, ev, Required(goal)[id])
  {
    if ids != [] {
      var n := |ids| - 1;
      EmptyWhenProved(goal, ev, ids[..n]);
      LastEmpty(goal, ev, ids, n);
      assert ids[..n + 1] == ids && ids == ids[..n] + [ids[n]];
    }
  }

  lemma LastEmpty(goal: ObligationSet, ev: Evidence, ids: seq<string>, n: nat)
    requires n < |ids| && forall id :: id in ids ==> id in Required(goal)
    ensures MissingAmong(goal, ev, ids[..n + 1]) == NONE_MISSING
            <==> MissingAmong(goal, ev, ids[..n]) == NONE_MISSING && HasProof(goal, ev, Required(goal)[ids[n]])
  {
    var o := Required(goal)[ids[n]];
    var v := VerdictExists(goal, ev, o);
    Advance(goal, ev, ids, n, v);
    AddEmpty(MissingAmong(goal, ev, ids[..n]), v, o, ids[n]);
    if HasProof(goal, ev, o) {
      VerdictUnique(goal, ev, o, v, Proved);
    }
  }

  lemma AddEmpty(m: Missing, v: Verdict, o: Obligation, id: string)
    ensures Add(m, v, o, id) == NONE_MISSING <==> m == NONE_MISSING && v == Proved
  {
  }

  method GroupOutcomes(outcomes: seq<(string, Outcome)>) returns (r: map<string, seq<(string, Outcome)>>)
    ensures forall e :: if e in r then r[e] == OutcomesOf(outcomes, e) else OutcomesOf(outcomes, e) == []
  {
    r := map[];
    for i := 0 to |outcomes|
      invariant forall e :: if e in r then r[e] == OutcomesOf(outcomes[..i], e) else OutcomesOf(outcomes[..i], e) == []
    {
      assert outcomes[..i + 1][..i] == outcomes[..i];
      var e := outcomes[i].1.effect;
      r := r[e := (if e in r then r[e] else []) + [outcomes[i]]];
    }
    assert outcomes[..|outcomes|] == outcomes;
  }

  /** The dict of fulfillments of this case and epoch. */
  method CurrentFulfillments(goal: ObligationSet, fs: seq<Fulfillment>) returns (r: map<string, Fulfillment>)
    ensures forall id :: id in r <==> exists f :: f in fs && f.obligation == id && f.kase == goal.kase &&
                                        f.epoch == goal.epoch
  {
    var current := FilterItems(fs, (f: Fulfillment) => f.kase == goal.kase && f.epoch == goal.epoch);
    var keys;
    r, keys := BuildIndex(current, FulfilledObligation);
    forall id
      ensures id in r <==> exists f :: f in fs && f.obligation == id && f.kase == goal.kase && f.epoch == goal.epoch
    {
      IndexHolds(current, FulfilledObligation, id);
      assert forall f :: f in current <==> f in fs && f.kase == goal.kase && f.epoch == goal.epoch;
      if f :| f in current && f.obligation == id {
        var i :| 0 <= i < |current| && current[i] == f;
        assert FulfilledObligation(current[i]) == id;
      }
    }
  }

  /** The report lists every unproved obligation once, under its reason, in insertion order, and is
      satisfied exactly when each required obligation has its own proof. */
  method AssessObligations(goal: ObligationSet, ev: Evidence) returns (r: Assessment)
    ensures r.satisfied <==> Satisfied(goal, ev)
    ensures r.uncovered == Having(goal, ev, RequiredIds(goal), Uncovered)
    ensures r.missingObligations == Having(goal, ev, RequiredIds(goal), Unconfirmed)
    ensures r.missingKinds == KindsMissing(goal, ev, RequiredIds(goal))
    ensures r.missingRealizations == Having(goal, ev, RequiredIds(goal), Unverified)
    ensures r.missingDomainState == Having(goal, ev, RequiredIds(goal), DomainStateMissing)
    ensures r.requirement == goal.requirement && r.basis == goal.basis
    ensures r.satisfied <==> r.reasons == []
  {
    var required := FilterItems(goal.obligations, IsRequired);
    var byId, ids := BuildIndex(required, ObligationId);
    var t := BuildLookups(goal, ev);
    var found := Collect(goal, ev, byId, ids, t);
    var reasons := Reasons(found);
    r := Assessment(goal.requirement, reasons == [], found.confirmed, found.uncovered, found.kinds, found.realized,
                    found.domain, goal.basis, reasons);
    EmptyWhenProved(goal, ev, ids);
    assert forall id :: id in Required(goal) <==> id in ids;
  }

  method Collect(goal: ObligationSet, ghost ev: Evidence, byId: map<string, Obligation>, ids: seq<string>, t: Lookups)
    returns (found: Missing)
    requires byId == Required(goal) && (forall id :: id in ids ==> id in byId) && LookupsOf(t, goal, ev)
    ensures found == MissingAmong(goal, ev, ids)
  {
    found := NONE_MISSING;
    for i := 0 to |ids|
      invariant found == MissingAmong(goal, ev, ids[..i])
    {
      var v := Judge(goal, ev, byId[ids[i]], t);
      Advance(goal, ev, ids, i, v);
      found := Add(found, v, byId[ids[i]], ids[i]);
    }
    assert ids[..|ids|] == ids;
  }

  function Reasons(m: Missing): (r: seq<Reason>)
    ensures r == [] <==> m == NONE_MISSING
  {
    (if m.uncovered != [] then [NotCovered] else [])
    + (if m.confirmed != [] then [NoConfirmedOutcome] else [])
    + (if m.kinds != [] then [KindNotConfirmed] else [])
    + (if m.realized != [] then [NoVerifiedRealization] else [])
    + (if m.domain != [] then [NoDomainState] else [])
  }

  // ---------- What satisfied means ----------

  // Where a key comes more than once the last row counts. The following say so row by row.

  ghost predicate LastLink(links: seq<Link>, i: int, obligation: string) {
    && 0 <= i < |links| && links[i].obligation == obligation
    && forall j :: i < j < |links| ==> links[j].obligation != obligation
  }

  ghost predicate LastRow<V>(rows: seq<(string, V)>, i: int, id: string) {
    0 <= i < |rows| && rows[i].0 == id && forall j :: i < j < |rows| ==> rows[j].0 != id
  }

  ghost predicate LastRequired(obligations: seq<Obligation>, i: int) {
    && 0 <= i < |obligations| && obligations[i].required
    && forall j :: i < j < |obligations| && obligations[j].required ==> obligations[j].id != obligations[i].id
  }

  /** The effect linked to the obligation does what the obligation asks for: target, operation, subject
      and authority class. */
  ghost predicate EffectFits(ev: Evidence, o: Obligation, effect: string) {
    && (exists l :: LastLink(ev.links, l, o.id) && ev.links[l].effect == effect)
    && (exists e :: LastRow(ev.effects, e, effect)
          && ev.effects[e].1.target == o.target && ev.effects[e].1.operation == o.operation
          && ev.effects[e].1.subject == o.subject && ev.effects[e].1.authorityClass == o.authorityClass)
  }

  /** Outcome `x` names the effect, has the kind asked for, and rests on a realization of the same effect
      that was verified. */
  ghost predicate OutcomeShows(ev: Evidence, o: Obligation, effect: string, x: int) {
    && 0 <= x < |ev.outcomes| && ev.outcomes[x].1.effect == effect
    && ev.outcomes[x].1.kind == o.target + "." + o.operation + ".verified"
    && exists z :: LastRow(ev.realizations, z, ev.outcomes[x].1.realization)
         && ev.realizations[z].1.effect == effect && ev.realizations[z].1.disposition == Verified
  }

  ghost predicate Shown(goal: ObligationSet, ev: Evidence, o: Obligation) {
    if o.kind.DomainStateVerified?
    then exists f :: f in ev.fulfillments && f.obligation == o.id && f.kase == goal.kase && f.epoch == goal.epoch
    else exists effect, x :: EffectFits(ev, o, effect) && OutcomeShows(ev, o, effect, x)
  }

  lemma {:induction false} IndexLast<T>(items: seq<T>, key: T -> string, k: string) returns (i: nat)
    requires k in Index(items, key)
    ensures i < |items| && key(items[i]) == k && Index(items, key)[k] == items[i]
    ensures forall j :: i < j < |items| ==> key(items[j]) != k
  {
    var n := |items| - 1;
    if key(items[n]) == k {
      i := n;
    } else {
      i := IndexLast(items[..n], key, k);
    }
  }

  lemma {:induction false} LastIsIndexed<T>(items: seq<T>, key: T -> string, i: nat)
    requires i < |items| && forall j :: i < j < |items| ==> key(items[j]) != key(items[i])
    ensures key(items[i]) in Index(items, key) && Index(items, key)[key(items[i])] == items[i]
  {
    var n := |items| - 1;
    if i < n {
      LastIsIndexed(items[..n], key, i);
    }
  }

  lemma LinkMeaning(ev: Evidence, obligation: string, effect: string)
    ensures (var links := Index(ev.links, LinkObligation); obligation in links && links[obligation].effect == effect)
        <==> exists l :: LastLink(ev.links, l, obligation) && ev.links[l].effect == effect
  {
    if obligation in Index(ev.links, LinkObligation) {
      var i := IndexLast(ev.links, LinkObligation, obligation);
      assert LastLink(ev.links, i, obligation);
    }
    forall l | LastLink(ev.links, l, obligation)
      ensures obligation in Index(ev.links, LinkObligation)
              && Index(ev.links, LinkObligation)[obligation] == ev.links[l]
    {
      LastIsIndexed(ev.links, LinkObligation, l);
    }
  }

  lemma RowMeaning<V>(rows: seq<(string, V)>, id: string)
    ensures id in Index(rows, RowId<V>) <==> exists i :: LastRow(rows, i, id)
    ensures forall i :: LastRow(rows, i, id) ==> id in Index(rows, RowId<V>) && Index(rows, RowId<V>)[id] == rows[i]
  {
    if id in Index(rows, RowId<V>) {
      var i := IndexLast(rows, RowId<V>, id);
      assert LastRow(rows, i, id);
    }
    forall i | LastRow(rows, i, id) ensures id in Index(rows, RowId<V>) && Index(rows, RowId<V>)[id] == rows[i] {
      LastIsIndexed(rows, RowId<V>, i);
    }
  }

  lemma EffectMeaning(ev: Evidence, o: Obligation, effect: string)
    ensures EffectFits(ev, o, effect) <==> LinkedEffect(ev, o) == Some(effect)
  {
    LinkMeaning(ev, o.id, effect);
    RowMeaning(ev.effects, effect);
  }

  lemma OutcomeMeaning(ev: Evidence, o: Obligation, effect: string, x: nat)
    requires x < |ev.outcomes|
    ensures OutcomeShows(ev, o, effect, x)
        <==> Confirms(ev.outcomes[x].1, effect, o, Index(ev.realizations, RowId<Realization>))
  {
    RowMeaning(ev.realizations, ev.outcomes[x].1.realization);
  }

  lemma ProofMeaning(goal: ObligationSet, ev: Evidence, o: Obligation)
    ensures HasProof(goal, ev, o) <==> Shown(goal, ev, o)
  {
    if o.kind.ExternalEffectVerified? {
      forall effect ensures EffectFits(ev, o, effect) <==> LinkedEffect(ev, o) == Some(effect) {
        EffectMeaning(ev, o, effect);
      }
      forall effect, x | 0 <= x < |ev.outcomes|
        ensures OutcomeShows(ev, o, effect, x)
            <==> Confirms(ev.outcomes[x].1, effect, o, Index(ev.realizations, RowId<Realization>))
      {
        OutcomeMeaning(ev, o, effect, x);
      }
      if HasProof(goal, ev, o) {
        var effect := LinkedEffect(ev, o).value;
        var row :| row in ev.outcomes && Confirms(row.1, effect, o, Index(ev.realizations, RowId<Realization>));
        var x :| 0 <= x < |ev.outcomes| && ev.outcomes[x] == row;
        assert EffectFits(ev, o, effect) && OutcomeShows(ev, o, effect, x);
      }
    }
  }

  lemma {:induction false} RequiredMeaning(obligations: seq<Obligation>, o: Obligation)
    ensures (var r := Index(Filter(obligations, IsRequired), ObligationId); o.id in r && r[o.id] == o)
        <==> exists i :: LastRequired(obligations, i) && obligations[i] == o
  {
    if obligations != [] {
      var n := |obligations| - 1;
      var front, last := obligations[..n], obligations[n];
      RequiredMeaning(front, o);
      LastsOfFront(obligations, o);
      if last.required {
        var kept := Filter(front, IsRequired);
        assert (kept + [last])[..|kept|] == kept;
      }
    }
  }

  lemma LastsOfFront(obligations: seq<Obligation>, o: Obligation)
    requires obligations != []
    ensures var n := |obligations| - 1; var last := obligations[n];
            (exists i :: LastRequired(obligations, i) && obligations[i] == o) <==>
            || (last.required && last == o)
            || (!(last.required && last.id == o.id)
                && exists i :: LastRequired(obligations[..n], i) && obligations[..n][i] == o)
  {
    var n := |obligations| - 1;
    var front, last := obligations[..n], obligations[n];
    assert last.required ==> LastRequired(obligations, n);
    forall i | 0 <= i < n
      ensures LastRequired(obligations, i) <==> LastRequired(front, i) && !(last.required && last.id == front[i].id)
    {
      assert obligations[i] == front[i];
    }
  }

  /** Complete exactly when for each required obligation, the last under its id, the rows show it: a
      fulfillment for this case and epoch, or a linked effect of the kind asked for whose outcome rests
      on a verified realization of that same effect. */
  lemma SatisfiedMeaning(goal: ObligationSet, ev: Evidence)
    ensures Satisfied(goal, ev)
        <==> forall i :: LastRequired(goal.obligations, i) ==> Shown(goal, ev, goal.obligations[i])
  {
    forall o: Obligation ensures o.id in Required(goal) && Required(goal)[o.id] == o
                 <==> exists i :: LastRequired(goal.obligations, i) && goal.obligations[i] == o
    {
      RequiredMeaning(goal.obligations, o);
    }
    forall o: Obligation ensures HasProof(goal, ev, o) <==> Shown(goal, ev, o) {
      ProofMeaning(goal, ev, o);
    }
    forall id | id in Required(goal) ensures Required(goal)[id].id == id {
      IndexHolds(Filter(goal.obligations, IsRequired), ObligationId, id);
    }
  }

  // ---------- More evidence ----------

  /** `ev'` still shows all that `ev` shows: rows keep their meaning, whatever their status. */
  ghost predicate Retains(ev: Evidence, ev': Evidence) {
    && RetainsRows(ev, ev')
    && (forall x :: x in ev.outcomes ==> x in ev'.outcomes)
    && (forall f :: f in ev.fulfillments ==> f in ev'.fulfillments)
  }

  ghost predicate RetainsRows(ev: Evidence, ev': Evidence) {
    var effects, effects' := Index(ev.effects, RowId<Effect>), Index(ev'.effects, RowId<Effect>);
    var realizations := Index(ev.realizations, RowId<Realization>);
    var realizations' := Index(ev'.realizations, RowId<Realization>);
    var links, links' := Index(ev.links, LinkObligation), Index(ev'.links, LinkObligation);
    && (forall id :: id in effects ==> id in effects' && SameButStatus(effects[id].1, effects'[id].1))
    && (forall id :: id in realizations ==> id in realizations' && realizations'[id] == realizations[id])
    && (forall id :: id in links ==> id in links' && links'[id] == links[id])
  }

  lemma ProofKept(goal: ObligationSet, ev: Evidence, ev': Evidence, o: Obligation)
    requires Retains(ev, ev') && HasProof(goal, ev, o)
    ensures HasProof(goal, ev', o)
  {
    if o.kind.ExternalEffectVerified? {
      var effect := Index(ev.links, LinkObligation)[o.id].effect;
      var x :| x in ev.outcomes && Confirms(x.1, effect, o, Index(ev.realizations, RowId<Realization>));
      assert x in ev'.outcomes && Confirms(x.1, effect, o, Index(ev'.realizations, RowId<Realization>));
    }
  }

  lemma SatisfiedMonotone(goal: ObligationSet, ev: Evidence, ev': Evidence)
    requires Retains(ev, ev') && Satisfied(goal, ev)
    ensures Satisfied(goal, ev')
  {
    forall id | id in Required(goal) ensures HasProof(goal, ev', Required(goal)[id]) {
      ProofKept(goal, ev, ev', Required(goal)[id]);
    }
  }

  ghost predicate Fresh<T(!new)>(items: seq<T>, more: seq<T>, key: T -> string) {
    forall x, y :: x in items && y in more ==> key(x) != key(y)
  }

  function Joined(ev: Evidence, more: Evidence): Evidence {
    Evidence(ev.effects + more.effects, ev.outcomes + more.outcomes, ev.realizations + more.realizations,
             ev.links + more.links, ev.fulfillments + more.fulfillments)
  }

  /** Evidence under fresh ids, of whatever content, never takes a proof away. Outcomes and
      fulfillments may even repeat ids. */
  lemma FreshEvidenceKeepsSatisfied(goal: ObligationSet, ev: Evidence, more: Evidence)
    requires Fresh(ev.effects, more.effects, RowId<Effect>)
    requires Fresh(ev.realizations, more.realizations, RowId<Realization>)
    requires Fresh(ev.links, more.links, LinkObligation)
    requires Satisfied(goal, ev)
    ensures Satisfied(goal, Joined(ev, more))
  {
    FreshKept(ev.effects, more.effects, RowId<Effect>);
    FreshKept(ev.realizations, more.realizations, RowId<Realization>);
    FreshKept(ev.links, more.links, LinkObligation);
    SatisfiedMonotone(goal, ev, Joined(ev, more));
  }

  lemma FreshKept<T(!new)>(items: seq<T>, more: seq<T>, key: T -> string)
    requires Fresh(items, more, key)
    ensures forall k :: k in Index(items, key) ==>
              k in Index(items + more, key) && Index(items + more, key)[k] == Index(items, key)[k]
  {
    forall k | k in Index(items, key)
      ensures k in Index(items + more, key) && Index(items + more, key)[k] == Index(items, key)[k]
    {
      IndexHolds(items, key, k);
      IndexAppendFresh(items, more, key, k);
    }
  }

  lemma {:induction false} IndexJoined<T>(items: seq<T>, more: seq<T>, key: T -> string)
    ensures Index(items + more, key) == Index(items, key) + Index(more, key)
    decreases |more|
  {
    if more == [] {
      assert items + more == items;
    } else {
      var n := |more| - 1;
      assert (items + more)[..|items| + n] == items + more[..n];
      IndexJoined(items, more[..n], key);
    }
  }

  /** The effect linked to a proved obligation. */
  ghost function ProvenEffect(ev: Evidence, o: Obligation): string {
    if o.id in Index(ev.links, LinkObligation) then Index(ev.links, LinkObligation)[o.id].effect else ""
  }

  /** Some outcome confirms the obligation through a realization whose id the added rows leave alone. */
  ghost predicate Untouched(ev: Evidence, more: Evidence, o: Obligation) {
    exists x :: x in ev.outcomes + more.outcomes
      && Confirms(x.1, ProvenEffect(ev, o), o, Index(ev.realizations, RowId<Realization>))
      && x.1.realization !in Index(more.realizations, RowId<Realization>)
  }

  /** Some outcome confirms it through an added row. */
  ghost predicate Renewed(ev: Evidence, more: Evidence, o: Obligation) {
    exists x :: x in ev.outcomes + more.outcomes
      && Confirms(x.1, ProvenEffect(ev, o), o, Index(more.realizations, RowId<Realization>))
  }

  lemma JoinedConfirms(ev: Evidence, more: Evidence, o: Obligation, oc: Outcome, effect: string)
    ensures Confirms(oc, effect, o, Index(Joined(ev, more).realizations, RowId<Realization>))
        <==> if oc.realization in Index(more.realizations, RowId<Realization>)
             then Confirms(oc, effect, o, Index(more.realizations, RowId<Realization>))
             else Confirms(oc, effect, o, Index(ev.realizations, RowId<Realization>))
  {
    IndexJoined(ev.realizations, more.realizations, RowId<Realization>);
  }

  /** A proved obligation after rows were added that may reuse realization ids. */
  lemma ReusedProofIff(goal: ObligationSet, ev: Evidence, more: Evidence, o: Obligation)
    requires Fresh(ev.effects, more.effects, RowId<Effect>) && Fresh(ev.links, more.links, LinkObligation)
    requires HasProof(goal, ev, o) && o.kind.ExternalEffectVerified?
    ensures HasProof(goal, Joined(ev, more), o) <==> Untouched(ev, more, o) || Renewed(ev, more, o)
  {
    var joined, effect := Joined(ev, more), ProvenEffect(ev, o);
    FreshKept(ev.effects, more.effects, RowId<Effect>);
    FreshKept(ev.links, more.links, LinkObligation);
    assert HasProof(goal, joined, o) <==>
      exists x :: x in joined.outcomes && Confirms(x.1, effect, o, Index(joined.realizations, RowId<Realization>));
    forall x | x in joined.outcomes
      ensures Confirms(x.1, effect, o, Index(joined.realizations, RowId<Realization>))
          <==> if x.1.realization in Index(more.realizations, RowId<Realization>)
               then Confirms(x.1, effect, o, Index(more.realizations, RowId<Realization>))
               else Confirms(x.1, effect, o, Index(ev.realizations, RowId<Realization>))
    {
      JoinedConfirms(ev, more, o, x.1, effect);
    }
  }

  /** Reused realization ids take a satisfied completion away exactly when, for some required external
      obligation, every confirming outcome rests on a reused id and no added row confirms it anew. */
  lemma ReusedRealizationsIff(goal: ObligationSet, ev: Evidence, more: Evidence)
    requires Fresh(ev.effects, more.effects, RowId<Effect>) && Fresh(ev.links, more.links, LinkObligation)
    requires Satisfied(goal, ev)
    ensures Satisfied(goal, Joined(ev, more)) <==>
            forall id :: id in Required(goal) && Required(goal)[id].kind.ExternalEffectVerified? ==>
              Untouched(ev, more, Required(goal)[id]) || Renewed(ev, more, Required(goal)[id])
  {
    forall id | id in Required(goal)
      ensures HasProof(goal, Joined(ev, more), Required(goal)[id]) <==>
              (Required(goal)[id].kind.ExternalEffectVerified? ==>
                 Untouched(ev, more, Required(goal)[id]) || Renewed(ev, more, Required(goal)[id]))
    {
      var o := Required(goal)[id];
      assert HasProof(goal, ev, o);
      if o.kind.ExternalEffectVerified? {
        ReusedProofIff(goal, ev, more, o);
      }
    }
  }

  /** One verified obligation: effect `e`, its outcome, and the realization `z` it rests on. */
  const SAMPLE := Obligation("o", ExternalEffectVerified, "s", "t", "op", "c", true)
  const SAMPLE_GOAL := ObligationSet("r", "k", 1, "b", [SAMPLE])
  const SAMPLE_PROOF := Realization("e", Verified, ["x"], 0)
  const SAMPLE_EVIDENCE := Evidence(
    [("e", Effect("k", 1, 1, "a", "t", "op", "s", "rev", "c", Succeeded, None, 0, 0))],
    [("oc", Outcome("k", 1, 1, "e", "z", RequiredKind(SAMPLE), ["x"], 0))],
    [("z", SAMPLE_PROOF)], [Link("e", "o")], [])

  lemma SampleSatisfied()
    ensures Required(SAMPLE_GOAL) == map["o" := SAMPLE] && Satisfied(SAMPLE_GOAL, SAMPLE_EVIDENCE)
    ensures Index(SAMPLE_EVIDENCE.realizations, RowId<Realization>) == map["z" := ("z", SAMPLE_PROOF)]
  {
    var ev := SAMPLE_EVIDENCE;
    SingleRequired(SAMPLE_GOAL, SAMPLE);
    assert Index(ev.links, LinkObligation) == map["o" := Link("e", "o")];
    assert Index(ev.effects, RowId<Effect>) == map["e" := ev.effects[0]];
    assert Index(ev.realizations, RowId<Realization>) == map["z" := ("z", SAMPLE_PROOF)];
    assert ev.outcomes[0] in ev.outcomes;
    assert Confirms(ev.outcomes[0].1, "e", SAMPLE, Index(ev.realizations, RowId<Realization>));
  }

  /** A second row for the realization `z`, with another disposition, takes the sample's proof away. */
  lemma ReusedIdBreaksProof()
    ensures var more := Evidence([], [], [("z", SAMPLE_PROOF.(disposition := Mismatch))], [], []);
            Satisfied(SAMPLE_GOAL, SAMPLE_EVIDENCE) && !Satisfied(SAMPLE_GOAL, Joined(SAMPLE_EVIDENCE, more))
  {
    var more := Evidence([], [], [("z", SAMPLE_PROOF.(disposition := Mismatch))], [], []);
    SampleSatisfied();
    assert Index(more.realizations, RowId<Realization>) == map["z" := more.realizations[0]];
    ReusedRealizationsIff(SAMPLE_GOAL, SAMPLE_EVIDENCE, more);
    assert Required(SAMPLE_GOAL)["o"] == SAMPLE;
    assert !Untouched(SAMPLE_EVIDENCE, more, SAMPLE) && !Renewed(SAMPLE_EVIDENCE, more, SAMPLE);
  }

  lemma SingleRequired(goal: ObligationSet, o: Obligation)
    requires goal.obligations == [o] && o.required
    ensures Required(goal) == map[o.id := o]
  {
    assert [o][..0] == [];
    assert Filter([o], IsRequired) == [o];
    assert Index([o], ObligationId) == map[o.id := o];
  }

  /** Neither way of proving an obligation reads the other's evidence. */
  lemma ModesIndependent(goal: ObligationSet, ev: Evidence, ev': Evidence, o: Obligation)
    requires if o.kind.DomainStateVerified? then ev'.fulfillments == ev.fulfillments
             else ev' == ev.(fulfillments := ev'.fulfillments)
    ensures HasProof(goal, ev, o) <==> HasProof(goal, ev', o)
  {
  }

  // ---------- Completion over the ledger ----------

  /** The evidence the ledger lists for the case and epoch of `goal`. */
  ghost predicate ListedBy(s: State, goal: ObligationSet, ev: Evidence) {
    && ListsEffects(s, ev.effects, goal.kase, goal.epoch)
    && ListsRealizations(s, ev.realizations, goal.kase, Some(goal.epoch))
    && ListsOutcomes(s, ev.outcomes, goal.kase, Some(goal.epoch))
  }

  lemma IndexOfListing<V(!new)>(r: seq<(string, V)>, table: map<string, V>, keep: V -> bool, id: string)
    requires forall x, v :: (x, v) in r <==> x in table && table[x] == v && keep(v)
    requires NoRepeats(r)
    ensures id in Index(r, RowId<V>) <==> id in table && keep(table[id])
    ensures id in Index(r, RowId<V>) ==> Index(r, RowId<V>)[id] == (id, table[id])
  {
    IndexHolds(r, RowId<V>, id);
    if id in table && keep(table[id]) {
      assert (id, table[id]) in r;
      forall i, j | 0 <= i < j < |r| ensures RowId(r[i]) != RowId(r[j]) {
        assert (r[i].0, r[i].1) in r && (r[j].0, r[j].1) in r;
      }
      IndexOfDistinct(r, RowId<V>, (id, table[id]));
    }
    if id in Index(r, RowId<V>) {
      var x := Index(r, RowId<V>)[id];
      assert (x.0, x.1) in r;
    }
  }

  lemma ListedEffects(s: State, goal: ObligationSet, ev: Evidence, id: string)
    requires ListedBy(s, goal, ev)
    ensures id in Index(ev.effects, RowId<Effect>)
            <==> id in s.effects && EffectOf(s.effects[id], goal.kase, goal.epoch)
    ensures id in Index(ev.effects, RowId<Effect>) ==> Index(ev.effects, RowId<Effect>)[id] == (id, s.effects[id])
  {
    IndexOfListing(ev.effects, s.effects, e => EffectOf(e, goal.kase, goal.epoch), id);
  }

  lemma ListedRealizations(s: State, goal: ObligationSet, ev: Evidence, id: string)
    requires ListedBy(s, goal, ev)
    ensures id in Index(ev.realizations, RowId<Realization>)
            <==> id in s.realizations && RealizationOf(s, s.realizations[id], goal.kase, Some(goal.epoch))
    ensures id in Index(ev.realizations, RowId<Realization>)
            ==> Index(ev.realizations, RowId<Realization>)[id] == (id, s.realizations[id])
  {
    IndexOfListing(ev.realizations, s.realizations, x => RealizationOf(s, x, goal.kase, Some(goal.epoch)), id);
  }

  lemma ExtensionRetains(s: State, s': State, goal: ObligationSet, ev: Evidence, ev': Evidence)
    requires Extends(s, s') && ListedBy(s, goal, ev) && ListedBy(s', goal, ev')
    requires ev'.links == ev.links && ev'.fulfillments == ev.fulfillments
    ensures Retains(ev, ev')
  {
    forall id | id in Index(ev.effects, RowId<Effect>)
      ensures id in Index(ev'.effects, RowId<Effect>)
      ensures SameButStatus(Index(ev.effects, RowId<Effect>)[id].1, Index(ev'.effects, RowId<Effect>)[id].1)
    {
      ListedEffects(s, goal, ev, id);
      ListedEffects(s', goal, ev', id);
    }
    forall id | id in Index(ev.realizations, RowId<Realization>)
      ensures id in Index(ev'.realizations, RowId<Realization>)
      ensures Index(ev'.realizations, RowId<Realization>)[id] == Index(ev.realizations, RowId<Realization>)[id]
    {
      ListedRealizations(s, goal, ev, id);
      ListedRealizations(s', goal, ev', id);
      assert SameButStatus(s.effects[s.realizations[id].effect], s'.effects[s.realizations[id].effect]);
    }
    forall x | x in ev.outcomes ensures x in ev'.outcomes {
      assert (x.0, x.1) in ev.outcomes;
      assert (x.0, x.1) in ev'.outcomes;
    }
  }

  /** A satisfied completion stays satisfied through any further ledger calls, in any order and by
      any caller, accepted or refused. */
  lemma SatisfiedForever(s: State, steps: seq<Step>, goal: ObligationSet, ev: Evidence, ev': Evidence)
    requires Linked(s) && ListedBy(s, goal, ev) && ListedBy(Run(s, steps), goal, ev')
    requires ev'.links == ev.links && ev'.fulfillments == ev.fulfillments
    requires Satisfied(goal, ev)
    ensures Satisfied(goal, ev')
  {
    RunKeepsLinked(s, steps);
    ExtensionRetains(s, Run(s, steps), goal, ev, ev');
    SatisfiedMonotone(goal, ev, ev');
  }

  /** What a satisfied external obligation rests on in the ledger: an outcome of this case and epoch,
      confirmed through a VERIFIED realization of the very effect linked to the obligation. */
  lemma SatisfiedRestsOnLedger(s: State, goal: ObligationSet, ev: Evidence, id: string)
    requires Linked(s) && ListedBy(s, goal, ev) && Satisfied(goal, ev)
    requires id in Required(goal) && Required(goal)[id].kind == ExternalEffectVerified
    ensures exists oc :: oc in s.outcomes
              && s.outcomes[oc].kase == goal.kase && s.outcomes[oc].epoch == goal.epoch
              && s.outcomes[oc].kind == RequiredKind(Required(goal)[id])
              && OutcomeFits(s, s.outcomes[oc])
              && Link(s.outcomes[oc].effect, id) in ev.links
              && Matches(s.effects[s.outcomes[oc].effect], Required(goal)[id])
              && s.realizations[s.outcomes[oc].realization].disposition == Verified
  {
    var o := Required(goal)[id];
    IndexHolds(Filter(goal.obligations, IsRequired), ObligationId, id);
    assert HasProof(goal, ev, o);
    var links := Index(ev.links, LinkObligation);
    IndexHolds(ev.links, LinkObligation, id);
    var effect := links[id].effect;
    ListedEffects(s, goal, ev, effect);
    var x :| x in ev.outcomes && Confirms(x.1, effect, o, Index(ev.realizations, RowId<Realization>));
    ListedRealizations(s, goal, ev, x.1.realization);
    assert (x.0, x.1) in ev.outcomes;
    assert links[id] == Link(effect, id);
    assert x.0 in s.outcomes && s.outcomes[x.0] == x.1;
  }
}
