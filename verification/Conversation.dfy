/** From at-least-once provider deliveries to a timeline that holds each message once.

    Every delivery brings along the admission tables as they are when it is processed, so what is
    proved of a run holds however candidates and promotions change in between. */
module Conversation {
  import opened Common
  import Admission

  datatype Message = Message(
    id: string, conversation: string, providerId: string, eventId: string,
    sender: string, displayed: Option<string>, participants: set<string>,
    sequence: int, occurredAt: int, digest: Option<string>,
    sources: seq<string>, interpretations: seq<string>, facts: seq<string>)

  datatype Row = Row(message: Message, candidate: Option<string>, update: Option<string>)

  datatype Thread = Thread(
    sender: string, participants: set<string>, lastSequence: int, lastMessage: string,
    boundCase: Option<string>, createdAt: int, updatedAt: int)

  datatype CaseUpdate = CaseUpdate(
    kase: string, conversation: string, interpretations: seq<string>, facts: seq<string>, sources: seq<string>)

  datatype Timeline = Timeline(threads: map<string, Thread>, rows: seq<Row>, updates: map<string, CaseUpdate>)

  /** `trusted`: provider, tenant and claimed sender agree and the sender resolves to an active
      principal. `first`: the admitted candidate the query lists first, if the message names none. */
  datatype Delivery = Delivery(
    message: Message, candidate: Option<(string, Admission.Candidate)>, trusted: bool,
    updateId: string, first: Option<string>, tables: Admission.Tables)

  datatype Outcome = Created(row: Row) | Existing(row: Row) | Rejected

  // ---------- Accepting one message ----------

  predicate SharesIdentity(a: Message, b: Message) {
    a.conversation == b.conversation && (a.providerId == b.providerId || a.eventId == b.eventId)
  }

  /** `_same_delivery`: everything but the local message id and the time of occurrence. */
  predicate SameDelivery(a: Message, b: Message) {
    a == b.(id := a.id, occurredAt := a.occurredAt)
  }

  /** The stored rows of the conversation with the message's provider id or event id. */
  function Lookup(rows: seq<Row>, m: Message): (found: seq<Row>)
    ensures forall r :: r in found <==> r in rows && SharesIdentity(r.message, m)
    ensures |found| <= |rows|
  {
    if rows == [] then []
    else
      var n := |rows| - 1;
      assert rows == rows[..n] + [rows[n]];
      Lookup(rows[..n], m) + if SharesIdentity(rows[n].message, m) then [rows[n]] else []
  }

  /** The message continues its thread: later in sequence, same sender, same participants. */
  predicate Continues(tl: Timeline, m: Message) {
    m.conversation in tl.threads ==>
      var t := tl.threads[m.conversation];
      t.lastSequence < m.sequence && t.sender == m.sender && t.participants == m.participants
  }

  predicate IsAdmitted(t: Admission.Tables, conversation: string, id: string) {
    id in t.candidates && t.candidates[id].conversation == conversation && t.candidates[id].status == Admission.Admitted
  }

  /** Of these candidates the newest admitted one of the conversation, if there is any. */
  ghost predicate FirstAmong(t: Admission.Tables, ids: set<string>, conversation: string, first: Option<string>) {
    match first
    case None => forall x :: x in ids ==> !IsAdmitted(t, conversation, x)
    case Some(id) =>
      && id in ids && IsAdmitted(t, conversation, id)
      && forall x :: x in ids && IsAdmitted(t, conversation, x) ==>
           t.candidates[x].createdAt <= t.candidates[id].createdAt
  }

  ghost predicate IsFirstAdmitted(t: Admission.Tables, conversation: string, first: Option<string>) {
    FirstAmong(t, t.candidates.Keys, conversation, first)
  }

  ghost predicate OnlyCase(cases: map<string, string>, request: string, kase: string) {
    kase in cases && cases[kase] == request && forall x :: x in cases && cases[x] == request ==> x == kase
  }

  ghost function CaseOf(cases: map<string, string>, request: string): (r: Option<string>)
    ensures r.Some? ==> OnlyCase(cases, request, r.value)
    ensures r.None? ==> !exists kase :: OnlyCase(cases, request, kase)
  {
    if kase :| OnlyCase(cases, request, kase) then Some(kase) else None
  }

  predicate CandidateValid(d: Delivery) {
    d.candidate.Some? ==>
      var (id, c) := d.candidate.value;
      && id in d.tables.candidates && d.tables.candidates[id] == c
      && c.conversation == d.message.conversation
      && c.status != Admission.Superseded
  }

  /** The candidate a message refers to and, once that candidate is admitted, its case. */
  ghost function AdmittedCase(d: Delivery): Result<(Option<string>, Option<string>)> {
    var admitted := if d.candidate.Some?
                    then if d.candidate.value.1.status == Admission.Admitted then Some(d.candidate.value.0) else None
                    else d.first;
    if admitted.None? then Ok((if d.candidate.Some? then Some(d.candidate.value.0) else None, None))
    else
      var p := Admission.PromotionOf(d.tables.promotions, admitted.value);
      if p.None? then Err("admitted candidate has no promotion lineage")
      else
        var kase := CaseOf(d.tables.cases, p.value.request);
        if kase.None? then Err("admitted candidate has no bound case") else Ok((admitted, kase))
  }

  function UpdateFor(m: Message, kase: string): CaseUpdate {
    CaseUpdate(kase, m.conversation, m.interpretations, m.facts, m.sources)
  }

  function Stored(tl: Timeline, m: Message, candidate: Option<string>, kase: Option<string>,
                  updateId: string): Timeline {
    var bound := if kase.Some? then kase
                 else if m.conversation in tl.threads then tl.threads[m.conversation].boundCase else None;
    var createdAt := if m.conversation in tl.threads then tl.threads[m.conversation].createdAt else m.occurredAt;
    Timeline(
      tl.threads[m.conversation := Thread(m.sender, m.participants, m.sequence, m.id, bound, createdAt, m.occurredAt)],
      tl.rows + [Row(m, candidate, if kase.Some? then Some(updateId) else None)],
      if kase.Some? then tl.updates[updateId := UpdateFor(m, kase.value)] else tl.updates)
  }

  predicate IdTaken(tl: Timeline, id: string) {
    exists i :: 0 <= i < |tl.rows| && tl.rows[i].message.id == id
  }

  ghost function Accept(tl: Timeline, d: Delivery): (Timeline, Outcome) {
    var m := d.message;
    var found := Lookup(tl.rows, m);
    if !d.trusted || |found| > 1 then (tl, Rejected)
    else if |found| == 1 then (tl, if SameDelivery(found[0].message, m) then Existing(found[0]) else Rejected)
    else if !Continues(tl, m) || !CandidateValid(d) || AdmittedCase(d).Err? then (tl, Rejected)
    else
      var (candidate, kase) := AdmittedCase(d).value;
      if kase.Some? && (m.sources == [] || m.interpretations == [] || d.updateId in tl.updates) then (tl, Rejected)
      else if IdTaken(tl, m.id) then (tl, Rejected)
      else
        var tl' := Stored(tl, m, candidate, kase, d.updateId);
        (tl', Created(tl'.rows[|tl.rows|]))
  }

  ghost function Run(tl: Timeline, ds: seq<Delivery>): Timeline {
    if ds == [] then tl else Accept(Run(tl, ds[..|ds| - 1]), ds[|ds| - 1]).0
  }

  const EMPTY := Timeline(map[], [], map[])

  // ---------- What every delivery keeps ----------

  predicate Precedes(a: Message, b: Message) {
    && a.id != b.id
    && (a.conversation == b.conversation ==>
          a.sequence < b.sequence && a.providerId != b.providerId && a.eventId != b.eventId)
  }

  /** Messages of a conversation come in strictly increasing sequence, each provider id and event id
      once; message ids are unique. */
  ghost predicate RowsOk(rows: seq<Row>) {
    forall i, j :: 0 <= i < j < |rows| ==> Precedes(rows[i].message, rows[j].message)
  }

  ghost predicate FitsThread(t: Thread, m: Message) {
    m.sender == t.sender && m.participants == t.participants && m.sequence <= t.lastSequence
  }

  ghost predicate EndsThread(tl: Timeline, conversation: string)
    requires conversation in tl.threads
  {
    exists i :: 0 <= i < |tl.rows| && tl.rows[i].message.conversation == conversation
      && tl.rows[i].message.sequence == tl.threads[conversation].lastSequence
      && tl.rows[i].message.id == tl.threads[conversation].lastMessage
  }

  /** A thread has the sender and participants of all its messages and ends with its last one. */
  ghost predicate ThreadsOk(tl: Timeline) {
    && (forall i :: 0 <= i < |tl.rows| ==>
          tl.rows[i].message.conversation in tl.threads
          && FitsThread(tl.threads[tl.rows[i].message.conversation], tl.rows[i].message))
    && (forall c :: c in tl.threads ==> EndsThread(tl, c))
  }

  ghost predicate HasMessage(rows: seq<Row>, update: string) {
    exists i :: 0 <= i < |rows| && rows[i].update == Some(update)
  }

  /** The update carries what the message refers to, of which there is something. */
  predicate Conveys(u: CaseUpdate, m: Message) {
    && u.conversation == m.conversation && u.interpretations == m.interpretations
    && u.facts == m.facts && u.sources == m.sources
    && m.sources != [] && m.interpretations != []
  }

  /** Case updates and the messages that caused them correspond one to one. */
  ghost predicate UpdatesOk(tl: Timeline) {
    && (forall i :: 0 <= i < |tl.rows| && tl.rows[i].update.Some? ==>
          tl.rows[i].update.value in tl.updates
          && Conveys(tl.updates[tl.rows[i].update.value], tl.rows[i].message))
    && (forall i, j :: 0 <= i < j < |tl.rows| && tl.rows[i].update.Some? ==> tl.rows[i].update != tl.rows[j].update)
    && (forall u :: u in tl.updates ==> HasMessage(tl.rows, u))
  }

  ghost predicate TimelineOk(tl: Timeline) {
    RowsOk(tl.rows) && ThreadsOk(tl) && UpdatesOk(tl)
  }

  lemma StartsOk()
    ensures TimelineOk(EMPTY) && ThreadsTell(EMPTY)
  {
  }

  lemma StoreKeepsRows(tl: Timeline, m: Message, row: Row)
    requires RowsOk(tl.rows) && ThreadsOk(tl) && Lookup(tl.rows, m) == [] && Continues(tl, m) && !IdTaken(tl, m.id)
    requires row.message == m
    ensures RowsOk(tl.rows + [row])
  {
    forall i | 0 <= i < |tl.rows| ensures Precedes(tl.rows[i].message, m) {
      StoredPrecedes(tl, m, i);
    }
  }

  lemma StoredPrecedes(tl: Timeline, m: Message, i: nat)
    requires ThreadsOk(tl) && Lookup(tl.rows, m) == [] && Continues(tl, m) && !IdTaken(tl, m.id) && i < |tl.rows|
    ensures Precedes(tl.rows[i].message, m)
  {
    assert tl.rows[i] in tl.rows;
    assert tl.rows[i] !in Lookup(tl.rows, m);
    assert FitsThread(tl.threads[tl.rows[i].message.conversation], tl.rows[i].message);
  }

  lemma StoreKeepsThreads(tl: Timeline, m: Message, candidate: Option<string>, kase: Option<string>, updateId: string)
    requires ThreadsOk(tl) && Continues(tl, m)
    ensures ThreadsOk(Stored(tl, m, candidate, kase, updateId))
  {
    var tl' := Stored(tl, m, candidate, kase, updateId);
    var n := |tl.rows|;
    assert tl'.rows[n].message == m;
    assert forall i :: 0 <= i < n ==> tl'.rows[i] == tl.rows[i];
    forall c | c in tl'.threads ensures EndsThread(tl', c) {
      if c != m.conversation {
        OtherThreadEnds(tl, tl', c);
      }
    }
  }

  lemma OtherThreadEnds(tl: Timeline, tl': Timeline, c: string)
    requires c in tl.threads && EndsThread(tl, c) && tl.rows <= tl'.rows
    requires c in tl'.threads && tl'.threads[c] == tl.threads[c]
    ensures EndsThread(tl', c)
  {
    var i :| 0 <= i < |tl.rows| && tl.rows[i].message.conversation == c
      && tl.rows[i].message.sequence == tl.threads[c].lastSequence
      && tl.rows[i].message.id == tl.threads[c].lastMessage;
    assert tl'.rows[i].message.conversation == c;
  }

  lemma StoreKeepsUpdates(tl: Timeline, m: Message, candidate: Option<string>, kase: Option<string>, updateId: string)
    requires UpdatesOk(tl) && (kase.Some? ==> updateId !in tl.updates && m.sources != [] && m.interpretations != [])
    ensures UpdatesOk(Stored(tl, m, candidate, kase, updateId))
  {
    var tl' := Stored(tl, m, candidate, kase, updateId);
    var n := |tl.rows|;
    assert tl'.rows[n].message == m;
    assert forall i :: 0 <= i < n ==> tl'.rows[i] == tl.rows[i];
    forall u | u in tl'.updates ensures HasMessage(tl'.rows, u) {
      if u in tl.updates {
        HasMessageStays(tl.rows, tl'.rows, u);
      } else {
        assert tl'.rows[n].update == Some(u);
      }
    }
  }

  lemma HasMessageStays(rows: seq<Row>, rows': seq<Row>, update: string)
    requires HasMessage(rows, update) && rows <= rows'
    ensures HasMessage(rows', update)
  {
    var i :| 0 <= i < |rows| && rows[i].update == Some(update);
    assert rows'[i].update == Some(update);
  }

  /** Rows are only ever appended, and only by a created message. */
  lemma AcceptKeeps(tl: Timeline, d: Delivery)
    requires TimelineOk(tl)
    ensures var (tl', outcome) := Accept(tl, d);
            && TimelineOk(tl')
            && (if outcome.Created? then tl'.rows == tl.rows + [outcome.row] && outcome.row.message == d.message
                else tl' == tl)
  {
    var (tl', outcome) := Accept(tl, d);
    if outcome.Created? {
      var (candidate, kase) := AdmittedCase(d).value;
      StoreKeepsRows(tl, d.message, outcome.row);
      StoreKeepsThreads(tl, d.message, candidate, kase, d.updateId);
      StoreKeepsUpdates(tl, d.message, candidate, kase, d.updateId);
    }
  }

  lemma {:induction false} RunKeeps(tl: Timeline, ds: seq<Delivery>)
    requires TimelineOk(tl)
    ensures TimelineOk(Run(tl, ds)) && tl.rows <= Run(tl, ds).rows
  {
    if ds != [] {
      var n := |ds| - 1;
      RunKeeps(tl, ds[..n]);
      AcceptKeeps(Run(tl, ds[..n]), ds[n]);
    }
  }

  lemma RunOneMore(tl: Timeline, ds: seq<Delivery>, j: nat)
    requires j < |ds|
    ensures Run(tl, ds[..j + 1]) == Accept(Run(tl, ds[..j]), ds[j]).0
  {
    assert ds[..j + 1][..j] == ds[..j];
  }

  lemma RunSnoc(tl: Timeline, ds: seq<Delivery>, d: Delivery)
    ensures Run(tl, ds + [d]) == Accept(Run(tl, ds), d).0
  {
    assert (ds + [d])[..|ds|] == ds;
  }

  lemma LastKept(tl: Timeline, ds: seq<Delivery>)
    requires TimelineOk(tl) && ds != []
    ensures Run(tl, ds[..|ds| - 1]).rows <= Run(tl, ds).rows
  {
    RunKeeps(tl, ds[..|ds| - 1]);
    AcceptKeeps(Run(tl, ds[..|ds| - 1]), ds[|ds| - 1]);
  }

  ghost predicate Grew(tl: Timeline, before: seq<Delivery>, after: seq<Delivery>) {
    Run(tl, before).rows <= Run(tl, after).rows
  }

  lemma GrewTransitive(tl: Timeline, a: seq<Delivery>, b: seq<Delivery>, c: seq<Delivery>)
    requires Grew(tl, a, b) && Grew(tl, b, c)
    ensures Grew(tl, a, c)
  {
    var x, y, z := Run(tl, a).rows, Run(tl, b).rows, Run(tl, c).rows;
    assert x <= y <= z;
  }

  lemma {:induction false} PrefixRunKept(tl: Timeline, ds: seq<Delivery>, j: nat)
    requires TimelineOk(tl) && j <= |ds|
    ensures Grew(tl, ds[..j], ds)
  {
    if j == |ds| {
      assert ds[..j] == ds;
    } else {
      var front := ds[..|ds| - 1];
      PrefixRunKept(tl, front, j);
      assert front[..j] == ds[..j];
      LastKept(tl, ds);
      GrewTransitive(tl, ds[..j], front, ds);
    }
  }

  // ---------- Exactly once ----------

  /** A delivery that shares an identity with a stored message changes nothing. */
  lemma KnownIdentityChangesNothing(tl: Timeline, d: Delivery, r: Row)
    requires r in tl.rows && SharesIdentity(r.message, d.message)
    ensures Accept(tl, d).0 == tl && !Accept(tl, d).1.Created?
  {
    assert r in Lookup(tl.rows, d.message);
  }

  lemma {:induction false} NothingFound(rows: seq<Row>, m: Message)
    requires forall x :: x in rows ==> !SharesIdentity(x.message, m)
    ensures Lookup(rows, m) == []
  {
    if rows != [] {
      NothingFound(rows[..|rows| - 1], m);
    }
  }

  lemma {:induction false} LookupUnique(rows: seq<Row>, m: Message, r: Row)
    requires RowsOk(rows) && r in rows && r.message.conversation == m.conversation
    requires r.message.providerId == m.providerId && r.message.eventId == m.eventId
    ensures Lookup(rows, m) == [r]
  {
    var n := |rows| - 1;
    assert rows == rows[..n] + [rows[n]];
    if rows[n] == r {
      forall x | x in rows[..n] ensures !SharesIdentity(x.message, m) {
        var i :| 0 <= i < n && rows[i] == x;
      }
      NothingFound(rows[..n], m);
    } else {
      LookupUnique(rows[..n], m, r);
      var i :| 0 <= i < n && rows[i] == r;
      assert !SharesIdentity(rows[n].message, m);
    }
  }

  /** A faithful redelivery is answered with the stored message. */
  lemma RedeliveryAnswered(tl: Timeline, d: Delivery, r: Row)
    requires TimelineOk(tl) && r in tl.rows && d.trusted && SameDelivery(r.message, d.message)
    ensures Accept(tl, d) == (tl, Existing(r))
  {
    LookupUnique(tl.rows, d.message, r);
  }

  /** The answer to a trusted delivery that shares its provider id or its event id with a stored
      message: the stored message it repeats in every respect but local id and time of occurrence, and
      a refusal if there is none. Nothing is written either way. */
  lemma KnownIdentityAnswer(tl: Timeline, d: Delivery, known: Row)
    requires TimelineOk(tl) && d.trusted && known in tl.rows && known.message.conversation == d.message.conversation
    requires known.message.providerId == d.message.providerId || known.message.eventId == d.message.eventId
    ensures Accept(tl, d).0 == tl && !Accept(tl, d).1.Created?
    ensures forall r :: Accept(tl, d).1 == Existing(r) <==>
              && r in tl.rows && r.message.conversation == d.message.conversation
              && r.message.providerId == d.message.providerId && r.message.eventId == d.message.eventId
              && r.message.sender == d.message.sender && r.message.displayed == d.message.displayed
              && r.message.participants == d.message.participants && r.message.sequence == d.message.sequence
              && r.message.digest == d.message.digest && r.message.sources == d.message.sources
              && r.message.interpretations == d.message.interpretations && r.message.facts == d.message.facts
  {
    KnownIdentityChangesNothing(tl, d, known);
    var found := Lookup(tl.rows, d.message);
    assert known in found;
    forall r | r in tl.rows && SameDelivery(r.message, d.message) ensures Accept(tl, d) == (tl, Existing(r)) {
      RedeliveryAnswered(tl, d, r);
    }
    if Accept(tl, d).1.Existing? {
      assert found[0] in found;
    }
  }

  /** Delivery `i` repeats an earlier delivery that was accepted when it came. */
  ghost predicate IsRepeat(tl: Timeline, ds: seq<Delivery>, i: nat)
    requires i < |ds|
  {
    exists j :: 0 <= j < i && Accept(Run(tl, ds[..j]), ds[j]).1.Created? && SharesIdentity(ds[j].message, ds[i].message)
  }

  /** The deliveries whose position is not marked. */
  ghost function Unmarked(ds: seq<Delivery>, marked: set<nat>): seq<Delivery> {
    if ds == [] then []
    else
      var n := |ds| - 1;
      if n in marked then Unmarked(ds[..n], marked) else Unmarked(ds[..n], marked) + [ds[n]]
  }

  lemma CreatedIsStored(tl: Timeline, ds: seq<Delivery>, j: nat) returns (r: Row)
    requires TimelineOk(tl) && j < |ds| && Accept(Run(tl, ds[..j]), ds[j]).1.Created?
    ensures r in Run(tl, ds[..j + 1]).rows && r.message == ds[j].message
  {
    RunKeeps(tl, ds[..j]);
    AcceptKeeps(Run(tl, ds[..j]), ds[j]);
    r := Accept(Run(tl, ds[..j]), ds[j]).1.row;
    RunOneMore(tl, ds, j);
    assert Run(tl, ds[..j + 1]).rows[|Run(tl, ds[..j]).rows|] == r;
  }

  lemma GrewHolds(tl: Timeline, before: seq<Delivery>, after: seq<Delivery>, r: Row)
    requires Grew(tl, before, after) && r in Run(tl, before).rows
    ensures r in Run(tl, after).rows
  {
    var x, y := Run(tl, before).rows, Run(tl, after).rows;
    var i :| 0 <= i < |x| && x[i] == r;
    assert y[i] == r;
  }

  /** A message created at `j` is still stored before `n`. */
  lemma StoredLater(tl: Timeline, ds: seq<Delivery>, j: nat, n: nat) returns (r: Row)
    requires TimelineOk(tl) && j < n <= |ds| && Accept(Run(tl, ds[..j]), ds[j]).1.Created?
    ensures r in Run(tl, ds[..n]).rows && r.message == ds[j].message
  {
    r := CreatedIsStored(tl, ds, j);
    PrefixRunKept(tl, ds[..n], j + 1);
    assert ds[..n][..j + 1] == ds[..j + 1];
    GrewHolds(tl, ds[..j + 1], ds[..n], r);
  }

  /** A repeat leaves the state as it found it. */
  lemma RepeatChangesNothing(tl: Timeline, ds: seq<Delivery>, n: nat)
    requires TimelineOk(tl) && n < |ds| && IsRepeat(tl, ds, n)
    ensures Accept(Run(tl, ds[..n]), ds[n]).0 == Run(tl, ds[..n])
  {
    var j :| 0 <= j < n && Accept(Run(tl, ds[..j]), ds[j]).1.Created? && SharesIdentity(ds[j].message, ds[n].message);
    var r := StoredLater(tl, ds, j, n);
    KnownIdentityChangesNothing(Run(tl, ds[..n]), ds[n], r);
  }

  lemma RepeatInFront(tl: Timeline, ds: seq<Delivery>, n: nat, i: nat)
    requires i < n <= |ds| && IsRepeat(tl, ds, i)
    ensures IsRepeat(tl, ds[..n], i)
  {
    var j :| 0 <= j < i && Accept(Run(tl, ds[..j]), ds[j]).1.Created? && SharesIdentity(ds[j].message, ds[i].message);
    assert ds[..n][..j] == ds[..j] && ds[..n][j] == ds[j] && ds[..n][i] == ds[i];
  }

  /** Any number of repeats, faithful or altered, anywhere after their originals, leave the final
      state exactly as if they had not come. */
  lemma {:induction false} RepeatsDoNotMatter(tl: Timeline, ds: seq<Delivery>, marked: set<nat>)
    requires TimelineOk(tl)
    requires forall i :: i in marked && i < |ds| ==> IsRepeat(tl, ds, i)
    ensures Run(tl, Unmarked(ds, marked)) == Run(tl, ds)
  {
    if ds != [] {
      var n := |ds| - 1;
      forall i | i in marked && i < n ensures IsRepeat(tl, ds[..n], i) {
        RepeatInFront(tl, ds, n, i);
      }
      RepeatsDoNotMatter(tl, ds[..n], marked);
      LastDoesNotMatter(tl, ds, marked);
    }
  }

  lemma LastDoesNotMatter(tl: Timeline, ds: seq<Delivery>, marked: set<nat>)
    requires TimelineOk(tl) && ds != []
    requires Run(tl, Unmarked(ds[..|ds| - 1], marked)) == Run(tl, ds[..|ds| - 1])
    requires |ds| - 1 in marked ==> IsRepeat(tl, ds, |ds| - 1)
    ensures Run(tl, Unmarked(ds, marked)) == Run(tl, ds)
  {
    var n := |ds| - 1;
    if n in marked {
      RepeatChangesNothing(tl, ds, n);
    } else {
      RunSnoc(tl, Unmarked(ds[..n], marked), ds[n]);
    }
  }

  // ---------- What a thread tells ----------

  predicate InThread(r: Row, conversation: string) {
    r.message.conversation == conversation
  }

  /** Row `i` is of the conversation and no row of it comes before. */
  predicate FirstOf(rows: seq<Row>, conversation: string, i: int) {
    0 <= i < |rows| && InThread(rows[i], conversation) && forall j :: 0 <= j < i ==> !InThread(rows[j], conversation)
  }

  predicate LastOf(rows: seq<Row>, conversation: string, i: int) {
    && 0 <= i < |rows| && InThread(rows[i], conversation)
    && forall j :: i < j < |rows| ==> !InThread(rows[j], conversation)
  }

  /** Row `i` is the last of the conversation that made a case update. */
  predicate LastUpdateOf(rows: seq<Row>, conversation: string, i: int) {
    && 0 <= i < |rows| && InThread(rows[i], conversation) && rows[i].update.Some?
    && forall j :: i < j < |rows| && InThread(rows[j], conversation) ==> rows[j].update.None?
  }

  ghost predicate BegunBy(tl: Timeline, c: string)
    requires c in tl.threads
  {
    exists i :: FirstOf(tl.rows, c, i) && tl.threads[c].createdAt == tl.rows[i].message.occurredAt
  }

  ghost predicate LastTouchedBy(tl: Timeline, c: string)
    requires c in tl.threads
  {
    exists i :: LastOf(tl.rows, c, i) && tl.threads[c].updatedAt == tl.rows[i].message.occurredAt
      && tl.threads[c].lastMessage == tl.rows[i].message.id
  }

  ghost predicate BoundBy(tl: Timeline, c: string)
    requires c in tl.threads
  {
    match tl.threads[c].boundCase
    case None => forall i :: 0 <= i < |tl.rows| && InThread(tl.rows[i], c) ==> tl.rows[i].update.None?
    case Some(kase) =>
      exists i :: LastUpdateOf(tl.rows, c, i) && tl.rows[i].update.value in tl.updates
        && tl.updates[tl.rows[i].update.value].kase == kase
  }

  /** A thread began with its first message, was last touched by its last one, and is bound to the case
      of the last update its messages made, to none if they made none. */
  ghost predicate ThreadsTell(tl: Timeline) {
    forall c :: c in tl.threads ==> BegunBy(tl, c) && LastTouchedBy(tl, c) && BoundBy(tl, c)
  }

  lemma FirstStays(rows: seq<Row>, rows': seq<Row>, c: string, i: int)
    requires FirstOf(rows, c, i) && rows <= rows'
    ensures FirstOf(rows', c, i) && rows'[i] == rows[i]
  {
    assert forall j :: 0 <= j < |rows| ==> rows'[j] == rows[j];
  }

  lemma LastStays(rows: seq<Row>, row: Row, c: string, i: int)
    requires LastOf(rows, c, i) && !InThread(row, c)
    ensures LastOf(rows + [row], c, i) && (rows + [row])[i] == rows[i]
  {
  }

  lemma LastUpdateStays(rows: seq<Row>, row: Row, c: string, i: int)
    requires LastUpdateOf(rows, c, i) && (InThread(row, c) ==> row.update.None?)
    ensures LastUpdateOf(rows + [row], c, i) && (rows + [row])[i] == rows[i]
  {
  }

  /** What the thread of another conversation, or an update that is not added to, tells stays told. */
  lemma BoundStays(tl: Timeline, tl': Timeline, row: Row, c: string)
    requires c in tl.threads && BoundBy(tl, c) && c in tl'.threads
    requires tl'.threads[c].boundCase == tl.threads[c].boundCase
    requires tl'.rows == tl.rows + [row] && (InThread(row, c) ==> row.update.None?)
    requires forall u :: u in tl.updates ==> u in tl'.updates && tl'.updates[u] == tl.updates[u]
    ensures BoundBy(tl', c)
  {
    if tl.threads[c].boundCase.Some? {
      var i :| LastUpdateOf(tl.rows, c, i) && tl.rows[i].update.value in tl.updates
        && tl.updates[tl.rows[i].update.value].kase == tl.threads[c].boundCase.value;
      LastUpdateStays(tl.rows, row, c, i);
    }
  }

  lemma BegunStays(tl: Timeline, tl': Timeline, c: string)
    requires c in tl.threads && BegunBy(tl, c) && c in tl'.threads && tl.rows <= tl'.rows
    requires tl'.threads[c].createdAt == tl.threads[c].createdAt
    ensures BegunBy(tl', c)
  {
    var i :| FirstOf(tl.rows, c, i) && tl.threads[c].createdAt == tl.rows[i].message.occurredAt;
    FirstStays(tl.rows, tl'.rows, c, i);
  }

  lemma OtherThreadTells(tl: Timeline, tl': Timeline, row: Row, c: string)
    requires ThreadsTell(tl) && c in tl.threads && c in tl'.threads && tl'.threads[c] == tl.threads[c]
    requires tl'.rows == tl.rows + [row] && !InThread(row, c)
    requires forall u :: u in tl.updates ==> u in tl'.updates && tl'.updates[u] == tl.updates[u]
    ensures BegunBy(tl', c) && LastTouchedBy(tl', c) && BoundBy(tl', c)
  {
    BegunStays(tl, tl', c);
    BoundStays(tl, tl', row, c);
    var l :| LastOf(tl.rows, c, l) && tl.threads[c].updatedAt == tl.rows[l].message.occurredAt
      && tl.threads[c].lastMessage == tl.rows[l].message.id;
    LastStays(tl.rows, row, c, l);
  }

  /** The thread of the message just stored. */
  lemma OwnThreadTells(tl: Timeline, m: Message, candidate: Option<string>, kase: Option<string>, updateId: string)
    requires ThreadsOk(tl) && ThreadsTell(tl)
    ensures var tl' := Stored(tl, m, candidate, kase, updateId); var c := m.conversation;
            BegunBy(tl', c) && LastTouchedBy(tl', c)
  {
    var tl', c, n := Stored(tl, m, candidate, kase, updateId), m.conversation, |tl.rows|;
    assert tl'.rows[n].message == m;
    assert LastOf(tl'.rows, c, n);
    if c in tl.threads {
      BegunStays(tl, tl', c);
    } else {
      NoRowsOutsideThreads(tl, c);
      assert FirstOf(tl'.rows, c, n);
    }
  }

  lemma NoRowsOutsideThreads(tl: Timeline, c: string)
    requires ThreadsOk(tl) && c !in tl.threads
    ensures forall i :: 0 <= i < |tl.rows| ==> !InThread(tl.rows[i], c)
  {
  }

  lemma OwnThreadBound(tl: Timeline, m: Message, candidate: Option<string>, kase: string, updateId: string)
    ensures BoundBy(Stored(tl, m, candidate, Some(kase), updateId), m.conversation)
  {
    var tl', c, n := Stored(tl, m, candidate, Some(kase), updateId), m.conversation, |tl.rows|;
    assert tl'.rows[n] == Row(m, candidate, Some(updateId));
    assert LastUpdateOf(tl'.rows, c, n);
  }

  lemma OwnThreadStaysBound(tl: Timeline, m: Message, candidate: Option<string>, updateId: string)
    requires ThreadsOk(tl) && ThreadsTell(tl)
    ensures BoundBy(Stored(tl, m, candidate, None, updateId), m.conversation)
  {
    var tl', c := Stored(tl, m, candidate, None, updateId), m.conversation;
    if c in tl.threads {
      BoundStays(tl, tl', Row(m, candidate, None), c);
    } else {
      NoRowsOutsideThreads(tl, c);
    }
  }

  lemma StoreTells(tl: Timeline, m: Message, candidate: Option<string>, kase: Option<string>, updateId: string)
    requires ThreadsOk(tl) && ThreadsTell(tl) && (kase.Some? ==> updateId !in tl.updates)
    ensures ThreadsTell(Stored(tl, m, candidate, kase, updateId))
  {
    var tl' := Stored(tl, m, candidate, kase, updateId);
    forall c | c in tl'.threads ensures BegunBy(tl', c) && LastTouchedBy(tl', c) && BoundBy(tl', c) {
      if c == m.conversation {
        OwnThreadTells(tl, m, candidate, kase, updateId);
        if kase.Some? {
          OwnThreadBound(tl, m, candidate, kase.value, updateId);
        } else {
          OwnThreadStaysBound(tl, m, candidate, updateId);
        }
      } else {
        OtherThreadTells(tl, tl', tl'.rows[|tl.rows|], c);
      }
    }
  }

  lemma AcceptTells(tl: Timeline, d: Delivery)
    requires ThreadsOk(tl) && ThreadsTell(tl)
    ensures ThreadsTell(Accept(tl, d).0)
  {
    if Accept(tl, d).1.Created? {
      StoreTells(tl, d.message, AdmittedCase(d).value.0, AdmittedCase(d).value.1, d.updateId);
    }
  }

  /** In every state any deliveries lead to. */
  lemma {:induction false} RunTells(tl: Timeline, ds: seq<Delivery>)
    requires TimelineOk(tl) && ThreadsTell(tl)
    ensures ThreadsTell(Run(tl, ds))
  {
    if ds != [] {
      var n := |ds| - 1;
      RunTells(tl, ds[..n]);
      RunKeeps(tl, ds[..n]);
      AcceptTells(Run(tl, ds[..n]), ds[n]);
    }
  }

  // ---------- What is accepted ----------

  /** The newest admitted candidate of the conversation, by the columns. */
  lemma FirstMeaning(t: Admission.Tables, conversation: string, first: Option<string>)
    ensures IsFirstAdmitted(t, conversation, first) <==>
            && (first.None? ==> forall x :: x in t.candidates && t.candidates[x].conversation == conversation ==>
                                  t.candidates[x].status != Admission.Admitted)
            && (first.Some? ==>
                  && first.value in t.candidates && t.candidates[first.value].conversation == conversation
                  && t.candidates[first.value].status == Admission.Admitted
                  && forall x ::
                       (&& x in t.candidates && t.candidates[x].conversation == conversation
                        && t.candidates[x].status == Admission.Admitted) ==>
                       t.candidates[x].createdAt <= t.candidates[first.value].createdAt)
  {
    forall x ensures IsAdmitted(t, conversation, x) <==>
                     x in t.candidates && t.candidates[x].conversation == conversation
                     && t.candidates[x].status == Admission.Admitted
    {
    }
  }

  /** The admitted candidate a message speaks for: the one it comes with, or the first of its
      conversation when it comes with none. */
  predicate SpeaksFor(d: Delivery, id: string) {
    if d.candidate.Some? then d.candidate.value.0 == id && d.candidate.value.1.status == Admission.Admitted
    else d.first == Some(id)
  }

  /** The candidate was promoted, and this is the one case of its request. */
  ghost predicate LeadsTo(t: Admission.Tables, id: string, kase: string) {
    && Admission.PromotionOf(t.promotions, id).Some? && kase in t.cases
    && t.cases[kase] == Admission.PromotionOf(t.promotions, id).value.request
    && forall x :: x in t.cases && t.cases[x] == t.cases[kase] ==> x == kase
  }

  /** The message comes next in its thread, from the same sender to the same participants, and is known
      by none of its three ids. */
  ghost predicate NewInThread(tl: Timeline, m: Message) {
    && (forall r :: r in tl.rows ==> r.message.id != m.id)
    && (forall r :: r in tl.rows && r.message.conversation == m.conversation ==>
          r.message.providerId != m.providerId && r.message.eventId != m.eventId)
    && (m.conversation in tl.threads ==>
          && tl.threads[m.conversation].lastSequence < m.sequence
          && tl.threads[m.conversation].sender == m.sender
          && tl.threads[m.conversation].participants == m.participants)
  }

  /** The candidate a message comes with is stored just so, in the same conversation, and not superseded. */
  predicate NamesCurrent(d: Delivery) {
    d.candidate.Some? ==>
      && d.candidate.value.0 in d.tables.candidates
      && d.tables.candidates[d.candidate.value.0] == d.candidate.value.1
      && d.candidate.value.1.conversation == d.message.conversation
      && d.candidate.value.1.status != Admission.Superseded
  }

  lemma LeadsMeaning(t: Admission.Tables, id: string)
    ensures var p := Admission.PromotionOf(t.promotions, id);
            && (p.None? ==> forall kase :: !LeadsTo(t, id, kase))
            && (p.Some? && CaseOf(t.cases, p.value.request).None? ==> forall kase :: !LeadsTo(t, id, kase))
            && (p.Some? && CaseOf(t.cases, p.value.request).Some? ==>
                  forall kase :: LeadsTo(t, id, kase) <==> kase == CaseOf(t.cases, p.value.request).value)
  {
    var p := Admission.PromotionOf(t.promotions, id);
    forall kase | p.Some? ensures LeadsTo(t, id, kase) <==> OnlyCase(t.cases, p.value.request, kase) {
    }
  }

  lemma AdmittedMeaning(d: Delivery)
    ensures AdmittedCase(d).Ok? <==> forall id :: SpeaksFor(d, id) ==> exists kase :: LeadsTo(d.tables, id, kase)
    ensures forall id, kase :: SpeaksFor(d, id) && LeadsTo(d.tables, id, kase) ==>
              AdmittedCase(d) == Ok((Some(id), Some(kase)))
    ensures (forall id :: !SpeaksFor(d, id)) ==>
              AdmittedCase(d) == Ok((if d.candidate.Some? then Some(d.candidate.value.0) else None, None))
  {
    forall id | SpeaksFor(d, id)
      ensures AdmittedCase(d).Ok? ==> exists kase :: LeadsTo(d.tables, id, kase)
      ensures forall kase :: LeadsTo(d.tables, id, kase) ==> AdmittedCase(d) == Ok((Some(id), Some(kase)))
    {
      LeadsMeaning(d.tables, id);
      if AdmittedCase(d).Ok? {
        assert LeadsTo(d.tables, id, AdmittedCase(d).value.1.value);
      }
    }
    if AdmittedCase(d).Err? {
      var id := if d.candidate.Some? then d.candidate.value.0 else d.first.value;
      assert SpeaksFor(d, id);
      LeadsMeaning(d.tables, id);
    }
  }

  lemma NewMeaning(tl: Timeline, m: Message)
    ensures NewInThread(tl, m) <==> Lookup(tl.rows, m) == [] && !IdTaken(tl, m.id) && Continues(tl, m)
  {
    if Lookup(tl.rows, m) == [] {
      forall r | r in tl.rows ensures !SharesIdentity(r.message, m) {
        assert r !in Lookup(tl.rows, m);
      }
    } else {
      var r := Lookup(tl.rows, m)[0];
      assert r in Lookup(tl.rows, m) && SharesIdentity(r.message, m);
    }
    forall r | r in tl.rows ensures !IdTaken(tl, m.id) ==> r.message.id != m.id {
      var i :| 0 <= i < |tl.rows| && tl.rows[i] == r;
    }
  }

  /** A message is stored exactly when its sender is trusted, it is new and next in its thread, it names a
      current candidate or none, and, if it speaks for an admitted one, that candidate's case is found,
      sources and interpretations come along and the update is new. */
  lemma CreatedIff(tl: Timeline, d: Delivery)
    ensures Accept(tl, d).1.Created? <==>
            && d.trusted && NewInThread(tl, d.message) && NamesCurrent(d)
            && forall id :: SpeaksFor(d, id) ==>
                 && (exists kase :: LeadsTo(d.tables, id, kase))
                 && d.message.sources != [] && d.message.interpretations != [] && d.updateId !in tl.updates
  {
    NewMeaning(tl, d.message);
    AdmittedMeaning(d);
    if id :| SpeaksFor(d, id) {
      if kase :| LeadsTo(d.tables, id, kase) {
        assert AdmittedCase(d) == Ok((Some(id), Some(kase)));
      }
    }
  }

  /** And what it is stored with: the candidate it speaks for or names, and an update of exactly that
      candidate's case. */
  lemma CreatedWith(tl: Timeline, d: Delivery)
    requires Accept(tl, d).1.Created?
    ensures var (tl', outcome) := Accept(tl, d);
            && (forall id :: SpeaksFor(d, id) ==>
                  && outcome.row.candidate == Some(id) && outcome.row.update == Some(d.updateId)
                  && d.updateId in tl'.updates && LeadsTo(d.tables, id, tl'.updates[d.updateId].kase)
                  && tl'.updates == tl.updates[d.updateId := tl'.updates[d.updateId]])
            && ((forall id :: !SpeaksFor(d, id)) ==>
                  && outcome.row.candidate == (if d.candidate.Some? then Some(d.candidate.value.0) else None)
                  && outcome.row.update == None && tl'.updates == tl.updates)
            && tl'.threads.Keys == tl.threads.Keys + {d.message.conversation}
            && (forall c :: c in tl.threads && c != d.message.conversation ==> tl'.threads[c] == tl.threads[c])
  {
    AdmittedMeaning(d);
    if id :| SpeaksFor(d, id) {
      var kase :| LeadsTo(d.tables, id, kase);
      assert AdmittedCase(d).value == (Some(id), Some(kase));
    }
  }

  // ---------- After admission ----------

  /** Once a candidate of the conversation is admitted, its case is always found, so a message that
      names no candidate is either turned down for want of references or bound to that case. */
  lemma AdmittedConversationBinds(d: Delivery, id: string)
    requires Admission.PromotionsOk(d.tables) && Admission.AdmittedPromoted(d.tables)
    requires d.candidate.None? && d.first == Some(id) && IsFirstAdmitted(d.tables, d.message.conversation, d.first)
    ensures Admission.PromotionOf(d.tables.promotions, id).Some?
    ensures var p := Admission.PromotionOf(d.tables.promotions, id).value;
            p.event in d.tables.ingress && AdmittedCase(d) == Ok((Some(id), Some(d.tables.ingress[p.event].kase)))
  {
    var p := Admission.PromotionOf(d.tables.promotions, id).value;
    assert OnlyCase(d.tables.cases, p.request, d.tables.ingress[p.event].kase);
  }

  /** The same in every reachable state of admission, whatever its clients interleaved. */
  lemma ReachableConversationBinds(t: Admission.Tables, steps: seq<Admission.Step>, delivery: Delivery, id: string)
    requires Admission.PromotionsOk(t) && Admission.AdmittedPromoted(t) && Admission.OfStored(t)
    requires delivery.candidate.None? && delivery.first == Some(id)
    ensures var d := delivery.(tables := Admission.Run(t, steps));
            !Admission.EverOffersAdmitted(t, steps) && IsFirstAdmitted(d.tables, d.message.conversation, d.first) ==>
              exists event :: event in d.tables.ingress &&
                AdmittedCase(d) == Ok((Some(id), Some(d.tables.ingress[event].kase)))
  {
    var d := delivery.(tables := Admission.Run(t, steps));
    Admission.RunExtends(t, steps);
    Admission.AdmittedPromotedIff(t, steps);
    if !Admission.EverOffersAdmitted(t, steps) && IsFirstAdmitted(d.tables, d.message.conversation, d.first) {
      AdmittedConversationBinds(d, id);
    }
  }

  // ---------- The service ----------

  /** `scalar_one_or_none` over the cases of a request; several would be an error like none. */
  method FindCase(cases: map<string, string>, request: string) returns (r: Option<string>)
    ensures r == CaseOf(cases, request)
  {
    var pending := cases.Keys;
    var found: set<string> := {};
    while pending != {}
      invariant pending <= cases.Keys
      invariant forall k :: k in found <==> k in cases && k !in pending && cases[k] == request
      decreases |pending|
    {
      var k :| k in pending;
      pending := pending - {k};
      if cases[k] == request {
        found := found + {k};
      }
    }
    if found == {} {
      return None;
    }
    var kase :| kase in found;
    if found - {kase} == {} {
      assert OnlyCase(cases, request, kase);
      return Some(kase);
    }
    var other :| other in found - {kase};
    return None;
  }

  /** The first ADMITTED candidate of the conversation, newest first. */
  method FirstAdmitted(t: Admission.Tables, conversation: string) returns (first: Option<string>)
    ensures IsFirstAdmitted(t, conversation, first)
  {
    var pending := t.candidates.Keys;
    first := None;
    while pending != {}
      invariant pending <= t.candidates.Keys
      invariant FirstAmong(t, t.candidates.Keys - pending, conversation, first)
      decreases |pending|
    {
      var id :| id in pending;
      pending := pending - {id};
      if IsAdmitted(t, conversation, id)
         && (first.None? || t.candidates[first.value].createdAt < t.candidates[id].createdAt) {
        first := Some(id);
      }
    }
    assert t.candidates.Keys - {} == t.candidates.Keys;
  }

  class ConversationService {
    var threads: map<string, Thread>
    var rows: seq<Row>
    var updates: map<string, CaseUpdate>

    function View(): Timeline
      reads this
    {
      Timeline(threads, rows, updates)
    }

    method FindMessages(m: Message) returns (found: seq<Row>)
      ensures found == Lookup(rows, m)
    {
      found := [];
      for i := 0 to |rows|
        invariant found == Lookup(rows[..i], m)
      {
        assert rows[..i + 1][..i] == rows[..i];
        if SharesIdentity(rows[i].message, m) {
          found := found + [rows[i]];
        }
      }
      assert rows[..|rows|] == rows;
    }

    /** `_admitted_case` for a message that came with `d.candidate`, or with none. */
    method FindAdmittedCase(d: Delivery) returns (first: Option<string>, r: Result<(Option<string>, Option<string>)>)
      ensures IsFirstAdmitted(d.tables, d.message.conversation, first)
      ensures AdmittedCase(d.(first := first)) == r
    {
      first := FirstAdmitted(d.tables, d.message.conversation);
      var admitted := first;
      if d.candidate.Some? {
        admitted := if d.candidate.value.1.status == Admission.Admitted then Some(d.candidate.value.0) else None;
      }
      if admitted.None? {
        return first, Ok((if d.candidate.Some? then Some(d.candidate.value.0) else None, None));
      }
      var p := Admission.PromotionOf(d.tables.promotions, admitted.value);
      if p.None? {
        return first, Err("admitted candidate has no promotion lineage");
      }
      var kase := FindCase(d.tables.cases, p.value.request);
      if kase.None? {
        return first, Err("admitted candidate has no bound case");
      }
      return first, Ok((admitted, kase));
    }

    method AcceptMessage(d: Delivery) returns (outcome: Outcome, first: Option<string>)
      modifies this
      ensures IsFirstAdmitted(d.tables, d.message.conversation, first)
      ensures (View(), outcome) == Accept(old(View()), d.(first := first))
    {
      var m := d.message;
      var admitted;
      first, admitted := FindAdmittedCase(d);
      if !d.trusted {
        return Rejected, first;
      }
      var found := FindMessages(m);
      if |found| > 1 {
        return Rejected, first;
      }
      if |found| == 1 {
        outcome := if SameDelivery(found[0].message, m) then Existing(found[0]) else Rejected;
        return;
      }
      if !Continues(View(), m) || !CandidateValid(d) || admitted.Err? || IdTaken(View(), m.id) {
        return Rejected, first;
      }
      var (candidate, kase) := admitted.value;
      if kase.Some? && (m.sources == [] || m.interpretations == [] || d.updateId in updates) {
        return Rejected, first;
      }
      outcome := Insert(m, candidate, kase, d.updateId);
    }

    method Insert(m: Message, candidate: Option<string>, kase: Option<string>, updateId: string)
      returns (outcome: Outcome)
      requires Continues(View(), m)
      modifies this
      ensures View() == Stored(old(View()), m, candidate, kase, updateId)
      ensures outcome == Created(rows[|old(rows)|])
    {
      var thread := if m.conversation in threads then threads[m.conversation]
                    else Thread(m.sender, m.participants, m.sequence, m.id, None, m.occurredAt, m.occurredAt);
      var update: Option<string> := None;
      if kase.Some? {
        updates := updates[updateId := UpdateFor(m, kase.value)];
        update := Some(updateId);
        thread := thread.(boundCase := kase);
      }
      rows := rows + [Row(m, candidate, update)];
      thread := thread.(lastSequence := m.sequence, lastMessage := m.id, updatedAt := m.occurredAt);
      threads := threads[m.conversation := thread];
      outcome := Created(Row(m, candidate, update));
    }
  }
}
