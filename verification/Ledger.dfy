/** The evidence ledger: effects, realizations and confirmed outcomes that only accumulate. */
module Ledger {
  import opened Common
  import opened Sorting

  datatype EffectStatus = Planned | Dispatched | Succeeded | Failed | OutcomeUnknown
  datatype Disposition = Verified | NotVerified | Mismatch | Unknown

  datatype Effect = Effect(
    kase: string, caseVersion: int, epoch: int, authorization: string,
    target: string, operation: string, subject: string, reversibility: string, authorityClass: string,
    status: EffectStatus, providerRef: Option<string>, createdAt: int, updatedAt: int)

  datatype Realization = Realization(effect: string, disposition: Disposition, evidence: seq<string>, assessedAt: int)

  datatype Outcome = Outcome(
    kase: string, caseVersion: int, epoch: int, effect: string, realization: string,
    kind: string, evidence: seq<string>, confirmedAt: int)

  datatype Event =
    | EffectPlanned(kase: string, id: string)
    | StatusChanged(kase: string, id: string, status: EffectStatus, providerRef: Option<string>)
    | RealizationAssessed(kase: string, id: string)
    | OutcomeConfirmed(kase: string, id: string)

  datatype State = State(
    effects: map<string, Effect>, realizations: map<string, Realization>, outcomes: map<string, Outcome>,
    audit: seq<Event>)

  datatype Step =
    | PutEffect(id: string, effect: Effect)
    | SetStatus(id: string, status: EffectStatus, providerRef: Option<string>, now: int)
    | PutRealization(id: string, realization: Realization, kase: string)
    | PutOutcome(id: string, outcome: Outcome)

  /** `_effect_identity`: neither the case version nor anything a status change touches. */
  predicate SameIdentity(a: Effect, b: Effect) {
    a == b.(caseVersion := a.caseVersion, status := a.status, providerRef := a.providerRef,
            createdAt := a.createdAt, updatedAt := a.updatedAt)
  }

  predicate SameButStatus(a: Effect, b: Effect) {
    a == b.(status := a.status, providerRef := a.providerRef, updatedAt := a.updatedAt)
  }

  /** What an outcome must fit before it is looked up or stored. */
  predicate OutcomeFits(s: State, o: Outcome) {
    && o.effect in s.effects
    && o.realization in s.realizations
    && s.realizations[o.realization].effect == o.effect
    && s.effects[o.effect].kase == o.kase
    && s.effects[o.effect].caseVersion == o.caseVersion
    && s.effects[o.effect].epoch == o.epoch
  }

  predicate Accepted(s: State, step: Step) {
    match step
    case PutEffect(id, e) => id in s.effects ==> SameIdentity(s.effects[id], e)
    case SetStatus(id, _, _, _) => id in s.effects
    case PutRealization(id, r, kase) =>
      && r.effect in s.effects && s.effects[r.effect].kase == kase
      && (id in s.realizations ==> s.realizations[id] == r)
    case PutOutcome(id, o) => OutcomeFits(s, o) && (id in s.outcomes ==> s.outcomes[id] == o)
  }

  function WithStatus(e: Effect, status: EffectStatus, providerRef: Option<string>, now: int): Effect {
    e.(status := status, providerRef := if providerRef.Some? then providerRef else e.providerRef, updatedAt := now)
  }

  function Next(s: State, step: Step): State {
    if !Accepted(s, step) then s
    else
      match step
      case PutEffect(id, e) =>
        if id in s.effects then s
        else s.(effects := s.effects[id := e], audit := s.audit + [EffectPlanned(e.kase, id)])
      case SetStatus(id, status, providerRef, now) =>
        var e := s.effects[id];
        if e.status == status && (providerRef.None? || e.providerRef == providerRef) then s
        else
          var e' := WithStatus(e, status, providerRef, now);
          s.(effects := s.effects[id := e'], audit := s.audit + [StatusChanged(e.kase, id, status, e'.providerRef)])
      case PutRealization(id, r, kase) =>
        if id in s.realizations then s
        else s.(realizations := s.realizations[id := r], audit := s.audit + [RealizationAssessed(kase, id)])
      case PutOutcome(id, o) =>
        if id in s.outcomes then s
        else s.(outcomes := s.outcomes[id := o], audit := s.audit + [OutcomeConfirmed(o.kase, id)])
  }

  function Run(s: State, steps: seq<Step>): State
    decreases |steps|
  {
    if steps == [] then s else Run(Next(s, steps[0]), steps[1..])
  }

  const EMPTY := State(map[], map[], map[], [])

  // ---------- What every run keeps ----------

  /** Every outcome's effect and realization exist, belong together and share its case and epoch. */
  ghost predicate Linked(s: State) {
    && (forall id :: id in s.realizations ==> s.realizations[id].effect in s.effects)
    && (forall id :: id in s.outcomes ==> OutcomeFits(s, s.outcomes[id]))
  }

  /** Nothing is lost and nothing rewritten but an effect's status. */
  ghost predicate Extends(s: State, s': State) {
    && (forall id :: id in s.effects ==> id in s'.effects && SameButStatus(s.effects[id], s'.effects[id]))
    && (forall id :: id in s.realizations ==> id in s'.realizations && s'.realizations[id] == s.realizations[id])
    && (forall id :: id in s.outcomes ==> id in s'.outcomes && s'.outcomes[id] == s.outcomes[id])
    && s.audit <= s'.audit
  }

  lemma ExtensionKeepsFit(s: State, s': State, o: Outcome)
    requires Extends(s, s') && OutcomeFits(s, o)
    ensures OutcomeFits(s', o)
  {
    assert SameButStatus(s.effects[o.effect], s'.effects[o.effect]);
  }

  lemma NextExtends(s: State, step: Step)
    ensures Extends(s, Next(s, step))
  {
  }

  lemma NextKeepsLinked(s: State, step: Step)
    requires Linked(s)
    ensures Linked(Next(s, step))
  {
    var s' := Next(s, step);
    NextExtends(s, step);
    forall id | id in s'.outcomes ensures OutcomeFits(s', s'.outcomes[id]) {
      ExtensionKeepsFit(s, s', s'.outcomes[id]);
    }
  }

  lemma ExtendsTransitive(a: State, b: State, c: State)
    requires Extends(a, b) && Extends(b, c)
    ensures Extends(a, c)
  {
    forall id | id in a.effects ensures id in c.effects && SameButStatus(a.effects[id], c.effects[id]) {
      assert SameButStatus(a.effects[id], b.effects[id]);
    }
  }

  lemma {:induction false} RunKeepsLinked(s: State, steps: seq<Step>)
    requires Linked(s)
    ensures Linked(Run(s, steps)) && Extends(s, Run(s, steps))
    decreases |steps|
  {
    if steps != [] {
      NextKeepsLinked(s, steps[0]);
      RunKeepsLinked(Next(s, steps[0]), steps[1..]);
    }
    RunExtends(s, steps);
  }

  /** Once stored, an effect is answered to exactly those repetitions that agree with it on case, epoch,
      authorization, target, operation, subject, reversibility and authority class, whatever has happened
      to its status since; a repetition writes nothing. */
  lemma RepeatedEffectIff(s: State, id: string, e: Effect, steps: seq<Step>, again: Effect)
    requires id !in s.effects
    ensures var s' := Run(Next(s, PutEffect(id, e)), steps);
            && Next(s', PutEffect(id, again)) == s'
            && (Accepted(s', PutEffect(id, again)) <==>
                  && again.kase == e.kase && again.epoch == e.epoch && again.authorization == e.authorization
                  && again.target == e.target && again.operation == e.operation && again.subject == e.subject
                  && again.reversibility == e.reversibility && again.authorityClass == e.authorityClass)
  {
    var s1 := Next(s, PutEffect(id, e));
    RunExtends(s1, steps);
    assert SameButStatus(s1.effects[id], Run(s1, steps).effects[id]);
  }

  /** A realization is answered to the very same row of the same case only. */
  lemma RepeatedRealizationIff(s: State, id: string, r: Realization, kase: string, steps: seq<Step>, again: Realization,
                               case': string)
    requires Accepted(s, PutRealization(id, r, kase))
    ensures var s' := Run(Next(s, PutRealization(id, r, kase)), steps);
            && Next(s', PutRealization(id, again, case')) == s'
            && (Accepted(s', PutRealization(id, again, case')) <==> again == r && case' == kase)
  {
    var s1 := Next(s, PutRealization(id, r, kase));
    RunExtends(s1, steps);
    assert SameButStatus(s1.effects[r.effect], Run(s1, steps).effects[r.effect]);
  }

  /** An outcome is answered to the very same row only. */
  lemma RepeatedOutcomeIff(s: State, id: string, o: Outcome, steps: seq<Step>, again: Outcome)
    requires Accepted(s, PutOutcome(id, o))
    ensures var s' := Run(Next(s, PutOutcome(id, o)), steps);
            && Next(s', PutOutcome(id, again)) == s'
            && (Accepted(s', PutOutcome(id, again)) <==> again == o)
  {
    var s1 := Next(s, PutOutcome(id, o));
    RunExtends(s1, steps);
    ExtensionKeepsFit(s1, Run(s1, steps), o);
  }

  /** A status is set for every stored effect; the effect then has it, and keeps a provider reference it
      had when none is given. Anything else about it stays, and a repetition writes nothing. */
  lemma StatusTakesEffect(s: State, id: string, status: EffectStatus, providerRef: Option<string>, now: int)
    requires id in s.effects
    ensures var s' := Next(s, SetStatus(id, status, providerRef, now));
            && id in s'.effects && s'.effects[id].status == status
            && s'.effects[id].providerRef == (if providerRef.Some? then providerRef else s.effects[id].providerRef)
            && (s'.effects[id].updatedAt == if s'.effects[id].status == s.effects[id].status
                && s'.effects[id].providerRef == s.effects[id].providerRef then s.effects[id].updatedAt else now)
            && s'.audit == s.audit + (if s' == s then []
                                      else [StatusChanged(s.effects[id].kase, id, status, s'.effects[id].providerRef)])
            && Next(s', SetStatus(id, status, providerRef, now)) == s'
  {
  }

  /** An outcome is taken exactly when its effect and realization are stored and belong together, the
      effect is of the outcome's case, case version and epoch, and its id stands for no other outcome. */
  lemma OutcomeAcceptedIff(s: State, id: string, o: Outcome)
    ensures Accepted(s, PutOutcome(id, o)) <==>
            && o.effect in s.effects && s.effects[o.effect].kase == o.kase
            && s.effects[o.effect].caseVersion == o.caseVersion && s.effects[o.effect].epoch == o.epoch
            && o.realization in s.realizations && s.realizations[o.realization].effect == o.effect
            && (id in s.outcomes ==> s.outcomes[id] == o)
  {
  }

  lemma {:induction false} RunExtends(s: State, steps: seq<Step>)
    ensures Extends(s, Run(s, steps))
    decreases |steps|
  {
    if steps != [] {
      NextExtends(s, steps[0]);
      RunExtends(Next(s, steps[0]), steps[1..]);
      ExtendsTransitive(s, Next(s, steps[0]), Run(s, steps));
    }
  }

  // ---------- The audit trail ----------

  predicate Creates(e: Event) {
    !e.StatusChanged?
  }

  ghost predicate CreatedRow(s: State, e: Event) {
    match e
    case EffectPlanned(kase, id) => id in s.effects && s.effects[id].kase == kase
    case StatusChanged(kase, id, _, _) => id in s.effects && s.effects[id].kase == kase
    case RealizationAssessed(kase, id) =>
      id in s.realizations && s.realizations[id].effect in s.effects
          && s.effects[s.realizations[id].effect].kase == kase
    case OutcomeConfirmed(kase, id) => id in s.outcomes && s.outcomes[id].kase == kase
  }

  ghost predicate TrailSound(s: State) {
    forall e :: e in s.audit ==> CreatedRow(s, e)
  }

  ghost predicate CreatedOnce(audit: seq<Event>) {
    forall i, j :: 0 <= i < j < |audit| && Creates(audit[i]) ==> audit[i] != audit[j]
  }

  ghost predicate TrailComplete(s: State) {
    && (forall id :: id in s.effects ==> EffectPlanned(s.effects[id].kase, id) in s.audit)
    && (forall id :: id in s.realizations ==>
          s.realizations[id].effect in s.effects
          && RealizationAssessed(s.effects[s.realizations[id].effect].kase, id) in s.audit)
    && (forall id :: id in s.outcomes ==> OutcomeConfirmed(s.outcomes[id].kase, id) in s.audit)
  }

  /** Each stored row has exactly one creation event, under its own case. */
  ghost predicate Audited(s: State) {
    TrailSound(s) && CreatedOnce(s.audit) && TrailComplete(s)
  }

  lemma CreatedRowKept(s: State, s': State, e: Event)
    requires Extends(s, s') && CreatedRow(s, e)
    ensures CreatedRow(s', e)
  {
    match e
    case EffectPlanned(_, id) => assert SameButStatus(s.effects[id], s'.effects[id]);
    case StatusChanged(_, id, _, _) => assert SameButStatus(s.effects[id], s'.effects[id]);
    case RealizationAssessed(_, id) =>
      var effect := s.realizations[id].effect;
      assert SameButStatus(s.effects[effect], s'.effects[effect]);
    case OutcomeConfirmed(_, id) =>
  }

  /** A write whose one event is new and describes a row of the new state. */
  lemma TrailGrows(s: State, s': State, last: Event)
    requires TrailSound(s) && CreatedOnce(s.audit) && Extends(s, s')
    requires s'.audit == s.audit + [last] && CreatedRow(s', last) && (Creates(last) ==> !CreatedRow(s, last))
    ensures TrailSound(s') && CreatedOnce(s'.audit)
  {
    forall e | e in s'.audit ensures CreatedRow(s', e) {
      if e in s.audit {
        CreatedRowKept(s, s', e);
      }
    }
    assert Creates(last) ==> last !in s.audit;
  }

  lemma NextKeepsTrail(s: State, step: Step)
    requires TrailSound(s) && CreatedOnce(s.audit)
    ensures TrailSound(Next(s, step)) && CreatedOnce(Next(s, step).audit)
  {
    var s' := Next(s, step);
    NextExtends(s, step);
    if s'.audit != s.audit {
      TrailGrows(s, s', s'.audit[|s.audit|]);
    }
  }

  lemma StatusKeepsComplete(s: State, step: Step)
    requires TrailComplete(s) && step.SetStatus?
    ensures TrailComplete(Next(s, step))
  {
    assert forall e :: e in s.audit ==> e in Next(s, step).audit;
  }

  lemma PutsKeepComplete(s: State, step: Step)
    requires TrailComplete(s) && !step.SetStatus?
    ensures TrailComplete(Next(s, step))
  {
    var s' := Next(s, step);
    assert forall e :: e in s.audit ==> e in s'.audit;
    if s' != s {
      match step
      case PutEffect(id, e) => assert EffectPlanned(e.kase, id) in s'.audit;
      case PutRealization(id, r, kase) => assert RealizationAssessed(kase, id) in s'.audit;
      case PutOutcome(id, o) => assert OutcomeConfirmed(o.kase, id) in s'.audit;
    }
  }

  lemma NextKeepsAudited(s: State, step: Step)
    requires Audited(s)
    ensures Audited(Next(s, step))
  {
    NextKeepsTrail(s, step);
    if step.SetStatus? {
      StatusKeepsComplete(s, step);
    } else {
      PutsKeepComplete(s, step);
    }
  }

  lemma {:induction false} RunKeepsAudited(s: State, steps: seq<Step>)
    requires Audited(s)
    ensures Audited(Run(s, steps))
    decreases |steps|
  {
    if steps != [] {
      NextKeepsAudited(s, steps[0]);
      RunKeepsAudited(Next(s, steps[0]), steps[1..]);
    }
  }

  lemma StartsOk()
    ensures Linked(EMPTY) && Audited(EMPTY)
  {
  }

  // ---------- Listings ----------

  ghost predicate NoRepeats<T>(s: seq<T>) {
    forall i, j :: 0 <= i < j < |s| ==> s[i] != s[j]
  }

  lemma {:induction false} NoRepeatsCounts<T>(s: seq<T>, x: T)
    requires NoRepeats(s)
    ensures multiset(s)[x] <= 1
  {
    if s != [] {
      var n := |s| - 1;
      assert s == s[..n] + [s[n]];
      NoRepeatsCounts(s[..n], x);
      assert s[n] !in s[..n];
    }
  }

  lemma PermutationKeepsNoRepeats<T>(a: seq<T>, b: seq<T>)
    requires NoRepeats(a) && multiset(a) == multiset(b)
    ensures NoRepeats(b)
  {
    forall i, j | 0 <= i < j < |b| ensures b[i] != b[j] {
      if b[i] == b[j] {
        assert b == b[..i] + [b[i]] + b[i + 1..j] + [b[j]] + b[j + 1..];
        assert multiset(b)[b[i]] >= 2;
        NoRepeatsCounts(a, b[i]);
      }
    }
  }

  /** `r` lists exactly the rows of `table` that `keep` selects, each once, in key order. */
  ghost predicate IsListing<V(!new)>(r: seq<(string, V)>, table: map<string, V>, keep: V -> bool,
                                     key: ((string, V)) -> Key) {
    && (forall id, v :: (id, v) in r <==> id in table && table[id] == v && keep(v))
    && NoRepeats(r)
    && Sorted(key, r)
  }

  method Listing<V(!new)>(table: map<string, V>, keep: V -> bool, key: ((string, V)) -> Key)
    returns (r: seq<(string, V)>)
    ensures IsListing(r, table, keep, key)
  {
    var pending := table.Keys;
    var rows: seq<(string, V)> := [];
    while pending != {}
      invariant pending <= table.Keys
      invariant forall id, v :: (id, v) in rows <==> id in table && id !in pending && table[id] == v && keep(v)
      invariant NoRepeats(rows)
      decreases |pending|
    {
      var id :| id in pending;
      pending := pending - {id};
      if keep(table[id]) {
        rows := rows + [(id, table[id])];
      }
    }
    r := SortBy(key, rows);
    PermutationKeepsNoRepeats(rows, r);
    forall id, v ensures (id, v) in r <==> (id, v) in rows {
      assert (id, v) in r <==> (id, v) in multiset(r);
      assert (id, v) in rows <==> (id, v) in multiset(rows);
    }
  }

  predicate EffectOf(e: Effect, kase: string, epoch: int) {
    e.kase == kase && e.epoch == epoch
  }

  /** The join of `list_realizations`; without an epoch, all of the case. */
  predicate RealizationOf(s: State, r: Realization, kase: string, epoch: Option<int>) {
    && r.effect in s.effects && s.effects[r.effect].kase == kase
    && (epoch.Some? ==> s.effects[r.effect].epoch == epoch.value)
  }

  predicate OutcomeOf(o: Outcome, kase: string, epoch: Option<int>) {
    o.kase == kase && (epoch.Some? ==> o.epoch == epoch.value)
  }

  function EffectKey(x: (string, Effect)): Key { [Text(x.1.target), Text(x.1.operation), Text(x.0)] }
  function RealizationKey(x: (string, Realization)): Key { [Number(x.1.assessedAt), Text(x.0)] }
  function OutcomeKey(x: (string, Outcome)): Key { [Number(x.1.confirmedAt), Text(x.0)] }

  ghost predicate ListsEffects(s: State, r: seq<(string, Effect)>, kase: string, epoch: int) {
    IsListing(r, s.effects, e => EffectOf(e, kase, epoch), EffectKey)
  }

  ghost predicate ListsRealizations(s: State, r: seq<(string, Realization)>, kase: string, epoch: Option<int>) {
    IsListing(r, s.realizations, x => RealizationOf(s, x, kase, epoch), RealizationKey)
  }

  ghost predicate ListsOutcomes(s: State, r: seq<(string, Outcome)>, kase: string, epoch: Option<int>) {
    IsListing(r, s.outcomes, o => OutcomeOf(o, kase, epoch), OutcomeKey)
  }

  /** The outcomes listed for a case and epoch resolve inside the effects and realizations listed
      for that pair. */
  lemma ListingsClosed(s: State, kase: string, epoch: int, es: seq<(string, Effect)>,
                       rs: seq<(string, Realization)>, os: seq<(string, Outcome)>, id: string, o: Outcome)
    requires Linked(s)
    requires ListsEffects(s, es, kase, epoch)
    requires ListsRealizations(s, rs, kase, Some(epoch)) && ListsOutcomes(s, os, kase, Some(epoch))
    requires (id, o) in os
    ensures o.effect in s.effects && (o.effect, s.effects[o.effect]) in es
    ensures o.realization in s.realizations && (o.realization, s.realizations[o.realization]) in rs
    ensures s.realizations[o.realization].effect == o.effect
  {
    assert OutcomeFits(s, o);
    assert EffectOf(s.effects[o.effect], kase, epoch);
    assert RealizationOf(s, s.realizations[o.realization], kase, Some(epoch));
  }

  // ---------- The repository ----------

  class ExecutionRepository {
    var effects: map<string, Effect>
    var realizations: map<string, Realization>
    var outcomes: map<string, Outcome>
    var audit: seq<Event>

    function View(): State
      reads this
    {
      State(effects, realizations, outcomes, audit)
    }

    method AddEffect(id: string, effect: Effect) returns (r: Result<Effect>)
      modifies this
      ensures View() == Next(old(View()), PutEffect(id, effect))
      ensures r.Ok? <==> Accepted(old(View()), PutEffect(id, effect))
      ensures r.Ok? ==> id in effects && r.value == effects[id]
    {
      if id in effects {
        if !SameIdentity(effects[id], effect) {
          return Err("effect id already exists with different semantics");
        }
        return Ok(effects[id]);
      }
      effects := effects[id := effect];
      audit := audit + [EffectPlanned(effect.kase, id)];
      return Ok(effect);
    }

    method SetEffectStatus(id: string, status: EffectStatus, providerRef: Option<string>, now: int)
      returns (r: Result<Effect>)
      modifies this
      ensures View() == Next(old(View()), SetStatus(id, status, providerRef, now))
      ensures r.Ok? <==> id in old(effects)
      ensures r.Ok? ==> r.value == effects[id] && effects[id].status == status
      ensures r.Ok? && providerRef.Some? ==> effects[id].providerRef == providerRef
    {
      if id !in effects {
        return Err("effect not found");
      }
      var row := effects[id];
      if row.status == status && (providerRef.None? || row.providerRef == providerRef) {
        return Ok(row);
      }
      row := row.(status := status);
      if providerRef.Some? {
        row := row.(providerRef := providerRef);
      }
      row := row.(updatedAt := now);
      effects := effects[id := row];
      audit := audit + [StatusChanged(row.kase, id, status, row.providerRef)];
      return Ok(row);
    }

    method AddRealization(id: string, realization: Realization, kase: string) returns (r: Result<Realization>)
      modifies this
      ensures View() == Next(old(View()), PutRealization(id, realization, kase))
      ensures r.Ok? <==> Accepted(old(View()), PutRealization(id, realization, kase))
      ensures r.Ok? ==> id in realizations && r.value == realizations[id]
    {
      if realization.effect !in effects {
        return Err("realization requires a persisted effect");
      }
      if effects[realization.effect].kase != kase {
        return Err("realization case does not match its effect");
      }
      if id in realizations {
        if realizations[id] != realization {
          return Err("realization id already exists with different semantics");
        }
        return Ok(realizations[id]);
      }
      realizations := realizations[id := realization];
      audit := audit + [RealizationAssessed(kase, id)];
      return Ok(realization);
    }

    method AddOutcome(id: string, outcome: Outcome) returns (r: Result<Outcome>)
      modifies this
      ensures View() == Next(old(View()), PutOutcome(id, outcome))
      ensures r.Ok? <==> Accepted(old(View()), PutOutcome(id, outcome))
      ensures r.Ok? ==> id in outcomes && r.value == outcomes[id]
    {
      if outcome.effect !in effects {
        return Err("outcome requires a persisted effect");
      }
      if outcome.realization !in realizations {
        return Err("outcome requires a persisted realization");
      }
      if realizations[outcome.realization].effect != outcome.effect {
        return Err("outcome realization belongs to a different effect");
      }
      var effect := effects[outcome.effect];
      if effect.kase != outcome.kase || effect.caseVersion != outcome.caseVersion || effect.epoch != outcome.epoch {
        return Err("outcome case, version, or authority epoch does not match its effect");
      }
      if id in outcomes {
        if outcomes[id] != outcome {
          return Err("outcome id already exists with different semantics");
        }
        return Ok(outcomes[id]);
      }
      outcomes := outcomes[id := outcome];
      audit := audit + [OutcomeConfirmed(outcome.kase, id)];
      return Ok(outcome);
    }

    method ListEffects(kase: string, epoch: int) returns (r: seq<(string, Effect)>)
      ensures ListsEffects(View(), r, kase, epoch)
      ensures forall id, e :: (id, e) in r <==>
                id in effects && effects[id] == e && e.kase == kase && e.epoch == epoch
    {
      r := Listing(effects, e => EffectOf(e, kase, epoch), EffectKey);
    }

    method ListRealizations(kase: string, epoch: Option<int>) returns (r: seq<(string, Realization)>)
      ensures ListsRealizations(View(), r, kase, epoch)
      ensures forall id, x :: (id, x) in r <==>
                && id in realizations && realizations[id] == x
                && x.effect in effects && effects[x.effect].kase == kase
                && (epoch.None? || effects[x.effect].epoch == epoch.value)
    {
      var s := View();
      r := Listing(realizations, x => RealizationOf(s, x, kase, epoch), RealizationKey);
    }

    method ListOutcomes(kase: string, epoch: Option<int>) returns (r: seq<(string, Outcome)>)
      ensures ListsOutcomes(View(), r, kase, epoch)
      ensures forall id, o :: (id, o) in r <==>
                id in outcomes && outcomes[id] == o && o.kase == kase && (epoch.None? || o.epoch == epoch.value)
    {
      r := Listing(outcomes, o => OutcomeOf(o, kase, epoch), OutcomeKey);
    }
  }
}
