/** The administrative lifecycle of the authority tables: rows are added, windows are only ever
    shortened, and every shortening is recorded once. */
module AuthorityLifecycle {
  import opened Common
  import opened Authority

  datatype Binding = Binding(
    provider: string, subject: string, principal: string,
    validFrom: Time, validUntil: Option<Time>)

  /** Expiry and deactivation events have ids derived from what they record; a creation event has
      an id of its own. */
  datatype EventKey = Derived(kind: string, target: string, at: Time) | Assigned(id: string)

  datatype Event = Event(
    kind: string, actor: string, target: string, reason: string, window: Option<(Time, Time)>, at: Time)

  datatype State = State(t: Tables, bindings: map<string, Binding>, events: map<EventKey, Event>)

  datatype Kind = BindingRow | AssignmentRow | DelegationRow

  datatype Op =
    | PutPrincipal(principal: string, active: bool)
    | PutAssignment(id: string, assignment: Assignment)
    | PutDelegation(id: string, delegation: Delegation)
    | PutBinding(id: string, binding: Binding)
    | Bind(id: string, binding: Binding, actor: string, reason: string, eventId: string)
    | Expire(kind: Kind, id: string, actor: string, reason: string, at: Time)
    | Deactivate(principal: string, actor: string, reason: string, at: Time)

  /** Unicode white space, as `strip` removes it. */
  predicate IsSpace(c: char) {
    var n := c as int;
    9 <= n <= 13 || 28 <= n <= 32 || 0x2000 <= n <= 0x200A
    || n in {0x85, 0xA0, 0x1680, 0x2028, 0x2029, 0x202F, 0x205F, 0x3000}
  }

  predicate Blank(text: string) {
    forall i :: 0 <= i < |text| ==> IsSpace(text[i])
  }

  function EventKind(kind: Kind): string {
    match kind
    case BindingRow => "identity_binding.revoked"
    case AssignmentRow => "role_assignment.expired"
    case DelegationRow => "delegation.expired"
  }

  function Target(kind: Kind, id: string): string {
    match kind
    case BindingRow => "identity-binding:" + id
    case AssignmentRow => "role-assignment:" + id
    case DelegationRow => "delegation:" + id
  }

  function ExpiryKey(kind: Kind, id: string, at: Time): EventKey {
    Derived(EventKind(kind), Target(kind, id), at)
  }

  // ---------- Windows ----------

  predicate SameIdentity(a: Binding, b: Binding) {
    a.provider == b.provider && a.subject == b.subject
  }

  predicate WindowsOverlap(left: Binding, right: Binding) {
    if left.validUntil.Some? && left.validUntil.value <= right.validFrom then false
    else !(right.validUntil.Some? && right.validUntil.value <= left.validFrom)
  }

  predicate BindingCurrent(b: Binding, at: Time) {
    WindowCurrent(b.validFrom, b.validUntil, at)
  }

  ghost predicate ShareInstant(a: Binding, b: Binding) {
    exists at :: BindingCurrent(a, at) && BindingCurrent(b, at)
  }

  /** The window ends where it starts or before. */
  predicate Empty(b: Binding) {
    b.validUntil.Some? && b.validUntil.value <= b.validFrom
  }

  lemma EmptyMeaning(b: Binding)
    ensures Empty(b) <==> forall at :: !BindingCurrent(b, at)
  {
    if !Empty(b) {
      assert BindingCurrent(b, b.validFrom);
    }
  }

  /** The overlap test misses no shared instant, and says what is the case exactly when it says no or
      neither window is empty. */
  lemma OverlapMeaning(a: Binding, b: Binding)
    ensures ShareInstant(a, b) ==> WindowsOverlap(a, b)
    ensures (WindowsOverlap(a, b) <==> ShareInstant(a, b)) <==> !WindowsOverlap(a, b) || (!Empty(a) && !Empty(b))
  {
    EmptyMeaning(a);
    EmptyMeaning(b);
    if WindowsOverlap(a, b) && !Empty(a) && !Empty(b) {
      var at := if a.validFrom <= b.validFrom then b.validFrom else a.validFrom;
      assert BindingCurrent(a, at) && BindingCurrent(b, at);
    }
  }

  /** A binding revoked at the instant it starts is empty, and still blocks a window around it. */
  lemma RevokedAtStartStillBlocks()
    ensures var revoked := Binding("p", "s", "alice", 5, Some(5));
            var later := Binding("p", "s", "bob", 4, None);
            Empty(revoked) && !ShareInstant(revoked, later) && WindowsOverlap(revoked, later)
  {
  }

  function Shorten(until: Option<Time>, at: Time): Time {
    if until.None? || at < until.value then at else until.value
  }

  // ---------- Transitions ----------

  /** The window of the addressed row, if the row exists. */
  function WindowOf(s: State, kind: Kind, id: string): Option<(Time, Option<Time>)> {
    match kind
    case BindingRow => if id in s.bindings then Some((s.bindings[id].validFrom, s.bindings[id].validUntil)) else None
    case AssignmentRow =>
      if id in s.t.assignments then Some((s.t.assignments[id].validFrom, s.t.assignments[id].validUntil)) else None
    case DelegationRow =>
      if id in s.t.delegations then Some((s.t.delegations[id].validFrom, Some(s.t.delegations[id].validUntil)))
      else None
  }

  function WithUntil(s: State, kind: Kind, id: string, until: Time): State
    requires WindowOf(s, kind, id).Some?
  {
    match kind
    case BindingRow => s.(bindings := s.bindings[id := s.bindings[id].(validUntil := Some(until))])
    case AssignmentRow =>
      s.(t := s.t.(assignments := s.t.assignments[id := s.t.assignments[id].(validUntil := Some(until))]))
    case DelegationRow =>
      s.(t := s.t.(delegations := s.t.delegations[id := s.t.delegations[id].(validUntil := until)]))
  }

  /** `_record`: inserts a new event, accepts an identical one, refuses a different one. */
  predicate Recordable(events: map<EventKey, Event>, key: EventKey, e: Event) {
    key in events ==> events[key] == e
  }

  function ExpiryEvent(kind: Kind, id: string, actor: string, reason: string, at: Time, from: Time,
                       until: Time): Event {
    Event(EventKind(kind), actor, Target(kind, id), reason, Some((from, until)), at)
  }

  function DeactivationKey(principal: string, at: Time): EventKey {
    Derived("principal.deactivated", "principal:" + principal, at)
  }

  function DeactivationEvent(principal: string, actor: string, reason: string, at: Time): Event {
    Event("principal.deactivated", actor, "principal:" + principal, reason, None, at)
  }

  function CreationEvent(id: string, b: Binding, actor: string, reason: string): Event {
    Event("identity_binding.created", actor, "identity-binding:" + id, reason, None, b.validFrom)
  }

  predicate Accepted(s: State, op: Op) {
    match op
    case PutPrincipal(_, _) => true
    case PutAssignment(id, a) => id in s.t.assignments ==> s.t.assignments[id] == a
    case PutDelegation(id, d) => WellFormed(d) && (id in s.t.delegations ==> s.t.delegations[id] == d)
    case PutBinding(id, b) => id !in s.bindings && forall x :: x in s.bindings ==> !SameIdentity(s.bindings[x], b)
    case Bind(id, b, _, reason, eventId) =>
      && !Blank(reason)
      && b.principal in s.t.principals && s.t.principals[b.principal]
      && id !in s.bindings && Assigned(eventId) !in s.events
      && forall x :: x in s.bindings && SameIdentity(s.bindings[x], b) ==> !WindowsOverlap(s.bindings[x], b)
    case Expire(kind, id, actor, reason, at) =>
      var w := WindowOf(s, kind, id);
      && !Blank(reason)
      && w.Some? && w.value.0 <= at
      && Recordable(s.events, ExpiryKey(kind, id, at),
                    ExpiryEvent(kind, id, actor, reason, at, w.value.0, Shorten(w.value.1, at)))
    case Deactivate(p, actor, reason, at) =>
      && !Blank(reason)
      && p in s.t.principals
      && Recordable(s.events, DeactivationKey(p, at), DeactivationEvent(p, actor, reason, at))
  }

  /** The state after an operation; a refused operation rolls back. */
  function Next(s: State, op: Op): State {
    if !Accepted(s, op) then s
    else
      match op
      case PutPrincipal(p, active) => s.(t := s.t.(principals := s.t.principals[p := active]))
      case PutAssignment(id, a) => s.(t := s.t.(assignments := s.t.assignments[id := a]))
      case PutDelegation(id, d) => s.(t := s.t.(delegations := s.t.delegations[id := d]))
      case PutBinding(id, b) => s.(bindings := s.bindings[id := b])
      case Bind(id, b, actor, reason, eventId) =>
        s.(bindings := s.bindings[id := b],
           events := s.events[Assigned(eventId) := CreationEvent(id, b, actor, reason)])
      case Expire(kind, id, actor, reason, at) =>
        var (from, until) := WindowOf(s, kind, id).value;
        var ended := WithUntil(s, kind, id, Shorten(until, at));
        ended.(events := s.events[ExpiryKey(kind, id, at) :=
                                  ExpiryEvent(kind, id, actor, reason, at, from, Shorten(until, at))])
      case Deactivate(p, actor, reason, at) =>
        s.(t := s.t.(principals := s.t.principals[p := false]),
           events := s.events[DeactivationKey(p, at) := DeactivationEvent(p, actor, reason, at)])
  }

  function Run(s: State, ops: seq<Op>): State
    decreases |ops|
  {
    if ops == [] then s else Run(Next(s, ops[0]), ops[1..])
  }

  // ---------- Windows only ever shorten ----------

  predicate Shorter(after: Option<Time>, before: Option<Time>) {
    before.None? || (after.Some? && after.value <= before.value)
  }

  ghost predicate AssignmentsShortened(before: map<string, Assignment>, after: map<string, Assignment>) {
    forall id :: id in before ==>
      && id in after
      && Shorter(after[id].validUntil, before[id].validUntil)
      && after[id] == before[id].(validUntil := after[id].validUntil)
  }

  ghost predicate DelegationsShortened(before: map<string, Delegation>, after: map<string, Delegation>) {
    forall id :: id in before ==>
      && id in after
      && after[id].validUntil <= before[id].validUntil
      && after[id] == before[id].(validUntil := after[id].validUntil)
  }

  ghost predicate BindingsShortened(before: map<string, Binding>, after: map<string, Binding>) {
    forall id :: id in before ==>
      && id in after
      && Shorter(after[id].validUntil, before[id].validUntil)
      && after[id] == before[id].(validUntil := after[id].validUntil)
  }

  ghost predicate EventsKept(before: map<EventKey, Event>, after: map<EventKey, Event>) {
    forall key :: key in before ==> key in after && after[key] == before[key]
  }

  /** Every row survives with its identity, start and content; only its end may move earlier, and
      no recorded event changes. */
  ghost predicate Shortened(s: State, s': State) {
    && AssignmentsShortened(s.t.assignments, s'.t.assignments)
    && DelegationsShortened(s.t.delegations, s'.t.delegations)
    && BindingsShortened(s.bindings, s'.bindings)
    && EventsKept(s.events, s'.events)
  }

  lemma NextShortens(s: State, op: Op)
    ensures Shortened(s, Next(s, op))
  {
    if Accepted(s, op) && op.Expire? {
      match op.kind
      case BindingRow =>
      case AssignmentRow =>
      case DelegationRow =>
    }
  }

  /** Over every run of every operation. */
  lemma {:induction false} RunShortens(s: State, ops: seq<Op>)
    ensures Shortened(s, Run(s, ops))
    decreases |ops|
  {
    if ops != [] {
      NextShortens(s, ops[0]);
      RunShortens(Next(s, ops[0]), ops[1..]);
    }
  }

  // ---------- Identity resolution ----------

  /** The bindings of one external identity have no instant in common. */
  ghost predicate Separated(bindings: map<string, Binding>) {
    forall x, y :: x in bindings && y in bindings && x != y && SameIdentity(bindings[x], bindings[y])
      ==> !ShareInstant(bindings[x], bindings[y])
  }

  lemma ShorteningKeepsApart(a: Binding, b: Binding, a': Binding, b': Binding)
    requires Shorter(a'.validUntil, a.validUntil) && a' == a.(validUntil := a'.validUntil)
    requires Shorter(b'.validUntil, b.validUntil) && b' == b.(validUntil := b'.validUntil)
    ensures ShareInstant(a', b') ==> ShareInstant(a, b)
  {
    if at :| BindingCurrent(a', at) && BindingCurrent(b', at) {
      assert BindingCurrent(a, at) && BindingCurrent(b, at);
    }
  }

  lemma ShorteningSeparates(before: map<string, Binding>, after: map<string, Binding>)
    requires Separated(before) && BindingsShortened(before, after) && after.Keys == before.Keys
    ensures Separated(after)
  {
    forall x, y | x in after && y in after && x != y && SameIdentity(after[x], after[y])
      ensures !ShareInstant(after[x], after[y])
    {
      assert x in before && y in before;
      ShorteningKeepsApart(before[x], before[y], after[x], after[y]);
    }
  }

  lemma NewBindingSeparates(bindings: map<string, Binding>, id: string, b: Binding)
    requires Separated(bindings) && id !in bindings
    requires forall x :: x in bindings && SameIdentity(bindings[x], b) ==> !WindowsOverlap(bindings[x], b)
    ensures Separated(bindings[id := b])
  {
    var after := bindings[id := b];
    forall x, y | x in after && y in after && x != y && SameIdentity(after[x], after[y])
      ensures !ShareInstant(after[x], after[y])
    {
      if x == id {
        OverlapMeaning(after[y], b);
      } else if y == id {
        OverlapMeaning(after[x], b);
      }
    }
  }

  lemma NextSeparates(s: State, op: Op)
    requires Separated(s.bindings)
    ensures Separated(Next(s, op).bindings)
  {
    if Accepted(s, op) {
      match op
      case PutBinding(id, b) => NewBindingSeparates(s.bindings, id, b);
      case Bind(id, b, _, _, _) => NewBindingSeparates(s.bindings, id, b);
      case Expire(kind, id, _, _, _) =>
        NextShortens(s, op);
        ShorteningSeparates(s.bindings, Next(s, op).bindings);
      case _ =>
    }
  }

  lemma {:induction false} RunSeparates(s: State, ops: seq<Op>)
    requires Separated(s.bindings)
    ensures Separated(Run(s, ops).bindings)
    decreases |ops|
  {
    if ops != [] {
      NextSeparates(s, ops[0]);
      RunSeparates(Next(s, ops[0]), ops[1..]);
    }
  }

  predicate BindsNow(b: Binding, provider: string, subject: string, at: Time) {
    b.provider == provider && b.subject == subject && BindingCurrent(b, at)
  }

  ghost function CurrentIds(bindings: map<string, Binding>, provider: string, subject: string, at: Time): set<string> {
    set id | id in bindings && BindsNow(bindings[id], provider, subject, at)
  }

  ghost predicate PointsTo(s: State, provider: string, subject: string, at: Time, principal: string) {
    exists id :: id in s.bindings && BindsNow(s.bindings[id], provider, subject, at)
        && s.bindings[id].principal == principal
  }

  predicate ActivePrincipal(s: State, principal: string) {
    principal in s.t.principals && s.t.principals[principal]
  }

  method CurrentBindings(bindings: map<string, Binding>, provider: string, subject: string, at: Time)
    returns (current: seq<string>)
    ensures (set id | id in current) == CurrentIds(bindings, provider, subject, at)
    ensures |current| == |CurrentIds(bindings, provider, subject, at)|
  {
    current := [];
    ghost var seen: set<string> := {};
    var pending := bindings.Keys;
    while pending != {}
      invariant pending <= bindings.Keys
      invariant seen == (set id | id in current)
      invariant forall id :: id in seen <==>
                  id in bindings && id !in pending && BindsNow(bindings[id], provider, subject, at)
      invariant |seen| == |current|
    {
      var id :| id in pending;
      if BindsNow(bindings[id], provider, subject, at) {
        current := current + [id];
        seen := seen + {id};
      }
      pending := pending - {id};
    }
    assert seen == CurrentIds(bindings, provider, subject, at);
  }

  /** Exactly one binding is current and its principal is the active `p`. */
  ghost predicate ResolvesTo(s: State, provider: string, subject: string, at: Time, p: string) {
    && |CurrentIds(s.bindings, provider, subject, at)| == 1
    && PointsTo(s, provider, subject, at, p) && ActivePrincipal(s, p)
  }

  /** `resolve_identity`: exactly one current binding, to an active principal. */
  method ResolveIdentity(s: State, provider: string, subject: string, at: Time) returns (r: Option<string>)
    ensures forall p :: r == Some(p) <==> ResolvesTo(s, provider, subject, at, p)
  {
    var current := CurrentBindings(s.bindings, provider, subject, at);
    if |current| != 1 {
      return None;
    }
    ghost var ids := CurrentIds(s.bindings, provider, subject, at);
    assert current[0] in ids;
    assert forall id :: id in ids ==> id == current[0];
    var principal := s.bindings[current[0]].principal;
    assert PointsTo(s, provider, subject, at, principal);
    forall p | PointsTo(s, provider, subject, at, p) ensures p == principal {
      var id :| id in s.bindings && BindsNow(s.bindings[id], provider, subject, at) && s.bindings[id].principal == p;
      assert id in ids;
    }
    return if ActivePrincipal(s, principal) then Some(principal) else None;
  }

  /** After any run from an empty table at most one binding is current, so a resolution returns a
      principal exactly when some current binding points to it and it is active: the case of several
      matches does not occur. */
  lemma ResolutionExact(t: Tables, events: map<EventKey, Event>, ops: seq<Op>, provider: string, subject: string,
                        at: Time)
    ensures var s := Run(State(t, map[], events), ops);
            && |CurrentIds(s.bindings, provider, subject, at)| <= 1
            && (forall p :: ResolvesTo(s, provider, subject, at, p)
                  <==> PointsTo(s, provider, subject, at, p) && ActivePrincipal(s, p))
            && (forall p, q :: PointsTo(s, provider, subject, at, p) && PointsTo(s, provider, subject, at, q)
                  ==> p == q)
  {
    var s := Run(State(t, map[], events), ops);
    RunSeparates(State(t, map[], events), ops);
    var ids := CurrentIds(s.bindings, provider, subject, at);
    forall x, y | x in ids && y in ids ensures ShareInstant(s.bindings[x], s.bindings[y]) {
      assert BindingCurrent(s.bindings[x], at) && BindingCurrent(s.bindings[y], at);
    }
    assert forall x, y :: x in ids && y in ids ==> x == y;
    if x :| x in ids {
      assert ids == {x};
      assert PointsTo(s, provider, subject, at, s.bindings[x].principal);
    } else {
      assert ids == {};
    }
    forall p | PointsTo(s, provider, subject, at, p) ensures exists x :: x in ids && s.bindings[x].principal == p {
      var id :| id in s.bindings && BindsNow(s.bindings[id], provider, subject, at) && s.bindings[id].principal == p;
      assert id in ids;
    }
  }

  // ---------- Replaying an expiry ----------

  /** Once an expiry has been accepted, repeating it later is accepted exactly when no earlier
      expiry has shortened the same row in between; accepted, it changes nothing. */
  lemma ReplayedExpiry(s: State, kind: Kind, id: string, actor: string, reason: string, at: Time, ops: seq<Op>)
    requires Accepted(s, Expire(kind, id, actor, reason, at))
    ensures var op := Expire(kind, id, actor, reason, at);
            var s1 := Next(s, op);
            var s2 := Run(s1, ops);
            && (Accepted(s2, op) <==> WindowOf(s2, kind, id) == WindowOf(s1, kind, id))
            && Next(s2, op) == s2
  {
    var op := Expire(kind, id, actor, reason, at);
    var s1 := Next(s, op);
    var s2 := Run(s1, ops);
    RunShortens(s1, ops);
    assert WindowOf(s1, kind, id).Some? && WindowOf(s2, kind, id).Some?;
    assert s2.events[ExpiryKey(kind, id, at)] == s1.events[ExpiryKey(kind, id, at)];
    if Accepted(s2, op) {
      WithSameUntil(s2, kind, id);
    }
  }

  lemma WithSameUntil(s: State, kind: Kind, id: string)
    requires WindowOf(s, kind, id).Some? && WindowOf(s, kind, id).value.1.Some?
    ensures WithUntil(s, kind, id, WindowOf(s, kind, id).value.1.value) == s
  {
    match kind
    case BindingRow => assert s.bindings[id := s.bindings[id]] == s.bindings;
    case AssignmentRow => assert s.t.assignments[id := s.t.assignments[id]] == s.t.assignments;
    case DelegationRow => assert s.t.delegations[id := s.t.delegations[id]] == s.t.delegations;
  }

  /** An earlier expiry between the two makes the repetition of the first one fail. */
  lemma ReplayAfterEarlierExpiryFails()
    ensures var a := Assignment("alice", "approver", "*", 0, None);
            var s := State(Tables(map[], map["r" := a], map[]), map[], map[]);
            var late := Expire(AssignmentRow, "r", "ops", "left", 9);
            var early := Expire(AssignmentRow, "r", "ops", "left", 5);
            Accepted(s, late) && Accepted(Next(s, late), early) && !Accepted(Next(Next(s, late), early), late)
  {
    assert "left"[0] == 'l';
  }

  /** Expiring a readable delegation leaves it readable exactly when the expiry comes after its
      start, not at it. */
  lemma DelegationExpiryReadable(s: State, id: string, actor: string, reason: string, at: Time)
    requires Accepted(s, Expire(DelegationRow, id, actor, reason, at)) && WellFormed(s.t.delegations[id])
    ensures var s' := Next(s, Expire(DelegationRow, id, actor, reason, at));
            id in s'.t.delegations && (WellFormed(s'.t.delegations[id]) <==> s.t.delegations[id].validFrom < at)
  {
  }

  // ---------- The repository ----------

  class AuthorityStore {
    var principals: map<string, bool>
    var assignments: map<string, Assignment>
    var delegations: map<string, Delegation>
    var bindings: map<string, Binding>
    var events: map<EventKey, Event>

    ghost function Current(): State
      reads this
    {
      State(Tables(principals, assignments, delegations), bindings, events)
    }

    method PutPrincipal(principal: string, active: bool)
      modifies this`principals
      ensures Current() == Next(old(Current()), Op.PutPrincipal(principal, active))
    {
      principals := principals[principal := active];
    }

    method PutRoleAssignment(id: string, assignment: Assignment) returns (ok: bool)
      modifies this`assignments
      ensures ok == Accepted(old(Current()), PutAssignment(id, assignment))
      ensures Current() == Next(old(Current()), PutAssignment(id, assignment))
    {
      if id in assignments {
        assert assignments[id] == assignment ==> assignments[id := assignment] == assignments;
        return assignments[id] == assignment;
      }
      assignments := assignments[id := assignment];
      return true;
    }

    method PutDelegation(id: string, delegation: Delegation) returns (ok: bool)
      modifies this`delegations
      ensures ok == Accepted(old(Current()), Op.PutDelegation(id, delegation))
      ensures Current() == Next(old(Current()), Op.PutDelegation(id, delegation))
    {
      if !WellFormed(delegation) {
        return false;
      }
      if id in delegations {
        assert delegations[id] == delegation ==> delegations[id := delegation] == delegations;
        return delegations[id] == delegation;
      }
      delegations := delegations[id := delegation];
      return true;
    }

    /** Inserts only the first binding of an identity; a row that is already there is compared,
        whichever row the query returns first, and nothing is written. */
    method PutIdentityBinding(id: string, binding: Binding) returns (ok: bool)
      modifies this`bindings
      ensures Current() == Next(old(Current()), PutBinding(id, binding))
      ensures ok ==> exists x :: x in bindings && bindings[x] == binding
      ensures (forall x :: x in old(bindings) ==> !SameIdentity(old(bindings)[x], binding)) ==>
                 ok == (id !in old(bindings))
    {
      var pending := bindings.Keys;
      while pending != {}
        invariant pending <= bindings.Keys
        invariant forall x :: x in bindings && x !in pending ==> !SameIdentity(bindings[x], binding)
      {
        var x :| x in pending;
        if SameIdentity(bindings[x], binding) {
          return bindings[x] == binding;
        }
        pending := pending - {x};
      }
      if id in bindings {
        return false;
      }
      bindings := bindings[id := binding];
      assert bindings[id] == binding;
      return true;
    }

    method Record(key: EventKey, event: Event) returns (ok: bool)
      modifies this`events
      ensures ok == Recordable(old(events), key, event)
      ensures events == if ok then old(events)[key := event] else old(events)
    {
      if key in events {
        assert events[key] == event ==> events[key := event] == events;
        return events[key] == event;
      }
      events := events[key := event];
      return true;
    }

    method BindIdentity(id: string, binding: Binding, actor: string, reason: string, eventId: string) returns (ok: bool)
      modifies this`bindings, this`events
      ensures ok == Accepted(old(Current()), Bind(id, binding, actor, reason, eventId))
      ensures Current() == Next(old(Current()), Bind(id, binding, actor, reason, eventId))
    {
      if Blank(reason) || binding.principal !in principals || !principals[binding.principal] {
        return false;
      }
      var pending := bindings.Keys;
      while pending != {}
        invariant pending <= bindings.Keys
        invariant forall x :: x in bindings && x !in pending && SameIdentity(bindings[x], binding)
                    ==> !WindowsOverlap(bindings[x], binding)
      {
        var x :| x in pending;
        if SameIdentity(bindings[x], binding) && WindowsOverlap(bindings[x], binding) {
          return false;
        }
        pending := pending - {x};
      }
      if id in bindings || Assigned(eventId) in events {
        return false;
      }
      bindings := bindings[id := binding];
      ok := Record(Assigned(eventId), CreationEvent(id, binding, actor, reason));
    }

    /** Ends one validity window and records the resulting window; a refused recording rolls the
        row back. */
    method ExpireValidity(kind: Kind, id: string, actor: string, reason: string, at: Time) returns (ok: bool)
      modifies this`assignments, this`delegations, this`bindings, this`events
      ensures ok == Accepted(old(Current()), Expire(kind, id, actor, reason, at))
      ensures Current() == Next(old(Current()), Expire(kind, id, actor, reason, at))
    {
      if Blank(reason) {
        return false;
      }
      var before := State(Tables(principals, assignments, delegations), bindings, events);
      var window := WindowOf(before, kind, id);
      if window.None? || at < window.value.0 {
        return false;
      }
      var until := window.value.1;
      if until.None? || at < until.value {
        until := Some(at);
        SetUntil(kind, id, at);
      } else {
        WithSameUntil(before, kind, id);
      }
      ok := Record(ExpiryKey(kind, id, at), ExpiryEvent(kind, id, actor, reason, at, window.value.0, until.value));
      if !ok {
        assignments, delegations, bindings := before.t.assignments, before.t.delegations, before.bindings;
      }
    }

    method SetUntil(kind: Kind, id: string, until: Time)
      requires WindowOf(Current(), kind, id).Some?
      modifies this`assignments, this`delegations, this`bindings
      ensures Current() == WithUntil(old(Current()), kind, id, until)
    {
      match kind
      case BindingRow => bindings := bindings[id := bindings[id].(validUntil := Some(until))];
      case AssignmentRow => assignments := assignments[id := assignments[id].(validUntil := Some(until))];
      case DelegationRow => delegations := delegations[id := delegations[id].(validUntil := until)];
    }

    method DeactivatePrincipal(principal: string, actor: string, reason: string, at: Time) returns (ok: bool)
      modifies this`principals, this`events
      ensures ok == Accepted(old(Current()), Deactivate(principal, actor, reason, at))
      ensures Current() == Next(old(Current()), Deactivate(principal, actor, reason, at))
      ensures ok ==> principal in principals && !principals[principal]
    {
      if Blank(reason) || principal !in principals {
        return false;
      }
      var before := principals;
      if principals[principal] {
        principals := principals[principal := false];
      }
      assert principals == before[principal := false];
      ok := Record(DeactivationKey(principal, at), DeactivationEvent(principal, actor, reason, at));
      if !ok {
        principals := before;
      }
    }
  }
}
