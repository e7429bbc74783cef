/** One meeting commitment, its case and its communications, under concurrent clients.

    A client operation reads first and then performs separate database transactions; between any
    two of them other clients may run, and a client may stop for good. A dispatch is such an
    operation too: it reads the event, checks the epoch, transports, and only then records. */
module Commitment {
  import opened Common

  type Time = int

  datatype CaseStatus = Open | AwaitingDecision | Authorized | Completed | Cancelled

  datatype CaseRow = CaseRow(status: CaseStatus, version: int, epoch: int)

  /** No operation sets `ReopenRequired`; it is a value of the stored column. */
  datatype CommitmentState = Active | Overdue | Fulfilled | Withdrawn | ReopenRequired

  /** `Withdrawn` is the record state `cancelled`; `discharged` stands for the discharge references. */
  datatype Record = Record(
    state: CommitmentState, version: int, epoch: int, dueAt: Time, wasOverdue: bool, discharged: bool)

  /** What an attestation is compared by; the attesting principal is always the committer. */
  datatype Attestation = Attestation(basis: string, attestedAt: Time)

  datatype Delivery = Prepared | TransportAccepted | DeliveryConfirmed | Retrying | PermanentFailed | OutcomeUnknown

  datatype DraftKind = Confirmation | Reminder

  datatype Communication = Communication(epoch: int, kind: DraftKind, delivery: Delivery, attempts: int)

  /** One transport of an event, and what came of it. */
  datatype Send = Send(id: string, epoch: int, answer: TransportResult)

  /** What a client has read and which write comes next. */
  datatype Pending =
    | CancelCase(c: Record, k: CaseRow)
    | CancelRecord(c: Record, epoch: int)
    | CancelList
    | CancelClose(listed: map<string, Communication>)
    | ReviseFacts(c: Record, k: CaseRow, due: Time)
    | ReviseDecide(c: Record, k: CaseRow, due: Time)
    | ReviseRecord(c: Record, epoch: int, due: Time)
    | ReviseNotify(c: Record)
    | AttestPut(c: Record, k: CaseRow, at: Time)
    | AttestRecord(c: Record, k: CaseRow, at: Time)
    | AttestCase(k: CaseRow)
    | DriveOverdue(c: Record)
    | DriveRemind(c: Record)
    | DischargeRecord(c: Record)
    | Checking(id: string, m: Communication)
    | Sending(id: string, m: Communication)
    | Recording(id: string, m: Communication)

  /** `history` is every record ever stored, in order; `sends` every transport attempt. */
  datatype State = State(
    kase: CaseRow, com: Record, comms: map<string, Communication>, attestations: map<int, Attestation>,
    clients: map<nat, Pending>, history: seq<Record>, sends: seq<Send>)

  /** What became of a send: the gateway answered, the exchange broke, or the kernel reported. */
  datatype TransportResult =
    | Response(status: int, confirmed: bool)
    | Broken
    | KernelFailed
    | KernelSucceeded(observed: bool)
    | KernelUnknown

  datatype Outcome = NotConfigured | Transported(result: TransportResult)

  datatype Step =
    | BeginCancel(client: nat)
    | BeginRevise(client: nat, due: Time)
    | BeginAttest(client: nat, at: Time)
    | BeginDrive(client: nat, at: Time)
    | BeginDischarge(client: nat)
    | Advance(client: nat, id: string, stamp: Attestation)
    | Stop(client: nat)
    | DispatchRead(client: nat, id: string)
    | DispatchPost(client: nat, outcome: Outcome)
    | CaseMoves(status: CaseStatus, bump: nat)

  predicate Terminal(status: CaseStatus) {
    status == Completed || status == Cancelled
  }

  predicate Waiting(d: Delivery) {
    d == Prepared || d == Retrying
  }

  function Hold(s: State, client: nat, p: Pending): State {
    s.(clients := s.clients[client := p])
  }

  function Release(s: State, client: nat): State {
    s.(clients := s.clients - {client})
  }

  /** `update_commitment`: only over the version that was read, and one version further. */
  function UpdateCommitment(s: State, r: Record): Option<State> {
    if s.com.version != r.version then None
    else
      var stored := r.(version := r.version + 1);
      Some(s.(com := stored, history := s.history + [stored]))
  }

  /** `update_case` and the unit of work: only over the version that was read. */
  function UpdateCase(s: State, expected: CaseRow, k: CaseRow): Option<State> {
    if s.kase.version != expected.version then None else Some(s.(kase := k))
  }

  /** What `ensure` asks of the case; otherwise it raises. */
  predicate CanEnsure(s: State, c: Record) {
    s.kase.epoch == c.epoch && s.kase.status == Authorized
  }

  /** `ensure`: a prepared event at the epoch of the commitment the caller holds. */
  function Ensure(s: State, c: Record, kind: DraftKind, id: string): State {
    if !CanEnsure(s, c) || id in s.comms then s
    else s.(comms := s.comms[id := Communication(c.epoch, kind, Prepared, 0)])
  }

  /** The delivery state recorded for a send; it never waits for another dispatch. */
  function DeliveryOf(result: TransportResult): (d: Delivery)
    ensures !Waiting(d)
  {
    match result
    case Response(status, confirmed) =>
      if status >= 400 then
        if status in {408, 425, 429, 500, 502, 503, 504} then OutcomeUnknown else PermanentFailed
      else if confirmed then DeliveryConfirmed
      else TransportAccepted
    case Broken => OutcomeUnknown
    case KernelFailed => PermanentFailed
    case KernelSucceeded(observed) => if observed then DeliveryConfirmed else OutcomeUnknown
    case KernelUnknown => OutcomeUnknown
  }

  /** The copy of an event a dispatch writes back after its transport attempt. */
  function Attempted(m: Communication, outcome: Outcome): Communication {
    match outcome
    case NotConfigured => m.(delivery := Retrying)
    case Transported(result) => m.(delivery := DeliveryOf(result), attempts := m.attempts + 1)
  }

  function Post(s: State, client: nat, id: string, m: Communication, outcome: Outcome): State {
    var sent := if outcome.Transported? then s.(sends := s.sends + [Send(id, m.epoch, outcome.result)]) else s;
    Hold(sent, client, Recording(id, Attempted(m, outcome)))
  }

  /** The whole of a dispatch that nothing interrupts. */
  function DispatchOne(s: State, id: string, outcome: Outcome): State {
    if id !in s.comms || s.comms[id].delivery != Prepared then s
    else
      var m := s.comms[id];
      if m.epoch != s.com.epoch then s.(comms := s.comms[id := m.(delivery := PermanentFailed)])
      else
        s.(comms := s.comms[id := Attempted(m, outcome)],
           sends := if outcome.Transported? then s.sends + [Send(id, m.epoch, outcome.result)] else s.sends)
  }

  /** Continue with the stored result of a write, or give up when the write was refused. */
  function Continue(s: State, client: nat, written: Option<State>, next: Option<Pending>): State {
    if written.None? || next.None? then Release(written.GetOr(s), client) else Hold(written.value, client, next.value)
  }

  /** The communications whose dispatch is still awaited. */
  function WaitingOnly(comms: map<string, Communication>): (r: map<string, Communication>)
    ensures forall x :: x in r <==> x in comms && Waiting(comms[x].delivery)
    ensures forall x :: x in r ==> r[x] == comms[x]
  {
    comms - (set x | x in comms && !Waiting(comms[x].delivery))
  }

  function AdvanceOne(s: State, client: nat, p: Pending, id: string, stamp: Attestation): State {
    match p
    case CancelCase(c, k) =>
      Continue(s, client, UpdateCase(s, k, CaseRow(Cancelled, k.version + 1, k.epoch + 1)),
               Some(CancelRecord(c, k.epoch + 1)))
    case CancelRecord(c, epoch) =>
      Continue(s, client, UpdateCommitment(s, c.(state := Withdrawn, epoch := epoch)), Some(CancelList))
    case CancelList =>
      Hold(s, client, CancelClose(WaitingOnly(s.comms)))
    case CancelClose(listed) =>
      if id !in listed then Release(s, client)
      else Hold(s.(comms := s.comms[id := listed[id].(delivery := PermanentFailed)]), client,
                CancelClose(listed - {id}))
    case ReviseFacts(c, k, due) =>
      var awaiting := CaseRow(AwaitingDecision, k.version + 3, k.epoch + 2);
      Continue(s, client, UpdateCase(s, k, awaiting), Some(ReviseDecide(c, awaiting, due)))
    case ReviseDecide(c, k, due) =>
      Continue(s, client, UpdateCase(s, k, CaseRow(Authorized, k.version + 1, k.epoch)),
               Some(ReviseRecord(c, k.epoch, due)))
    case ReviseRecord(c, epoch, due) =>
      var revised := c.(state := Active, epoch := epoch, dueAt := due);
      Continue(s, client, UpdateCommitment(s, revised), Some(ReviseNotify(revised.(version := c.version + 1))))
    case ReviseNotify(c) => Release(Ensure(s, c, Confirmation, id), client)
    case AttestPut(c, k, at) =>
      if c.version in s.attestations && s.attestations[c.version] != stamp then Release(s, client)
      else Hold(s.(attestations := s.attestations[c.version := stamp]), client, AttestRecord(c, k, at))
    case AttestRecord(c, k, at) =>
      var fulfilled := c.(state := Fulfilled, wasOverdue := c.wasOverdue || at > c.dueAt);
      Continue(s, client, UpdateCommitment(s, fulfilled), if Terminal(k.status) then None else Some(AttestCase(k)))
    case AttestCase(k) => Continue(s, client, UpdateCase(s, k, CaseRow(Completed, k.version + 1, k.epoch)), None)
    case DriveOverdue(c) =>
      var overdue := c.(state := Overdue, wasOverdue := true);
      Continue(s, client, UpdateCommitment(s, overdue), Some(DriveRemind(overdue.(version := c.version + 1))))
    case DriveRemind(c) => Release(if c.state == Overdue then Ensure(s, c, Reminder, id) else s, client)
    case DischargeRecord(c) => Continue(s, client, UpdateCommitment(s, c.(discharged := true)), None)
    case Checking(x, m) =>
      Hold(s, client, if m.epoch == s.com.epoch then Sending(x, m) else Recording(x, m.(delivery := PermanentFailed)))
    case Sending(_, _) => s
    case Recording(x, m) => Release(if x in s.comms then s.(comms := s.comms[x := m]) else s, client)
  }

  /** One atomic step. A refused operation leaves everything as it was. */
  function Next(s: State, step: Step): State {
    match step
    case BeginCancel(client) =>
      if s.com.epoch != s.kase.epoch || !Unsettled(s.com) || Terminal(s.kase.status) then s
      else Hold(s, client, CancelCase(s.com, s.kase))
    case BeginRevise(client, due) =>
      if !Unsettled(s.com) || s.com.epoch != s.kase.epoch || Terminal(s.kase.status) then s
      else Hold(s, client, ReviseFacts(s.com, s.kase, due))
    case BeginAttest(client, at) =>
      if s.com.epoch != s.kase.epoch || s.com.state == Fulfilled then s
      else Hold(s, client, AttestPut(s.com, s.kase, at))
    case BeginDrive(client, at) =>
      if s.com.epoch != s.kase.epoch then s
      else if s.com.state == Active && at >= s.com.dueAt then Hold(s, client, DriveOverdue(s.com))
      else Hold(s, client, DriveRemind(s.com))
    case BeginDischarge(client) =>
      if s.com.state != Fulfilled then s else Hold(s, client, DischargeRecord(s.com))
    case Advance(client, id, stamp) =>
      if client !in s.clients then s else AdvanceOne(s, client, s.clients[client], id, stamp)
    case Stop(client) => Release(s, client)
    case DispatchRead(client, id) =>
      if id !in s.comms || s.comms[id].delivery != Prepared then s else Hold(s, client, Checking(id, s.comms[id]))
    case DispatchPost(client, outcome) =>
      if client !in s.clients || !s.clients[client].Sending? then s
      else Post(s, client, s.clients[client].id, s.clients[client].m, outcome)
    case CaseMoves(status, bump) =>
      if Terminal(s.kase.status) then s
      else s.(kase := CaseRow(status, s.kase.version + 1, s.kase.epoch + bump))
  }

  function Run(s: State, steps: seq<Step>): State
    decreases |steps|
  {
    if steps == [] then s else Run(Next(s, steps[0]), steps[1..])
  }

  // ---------- What every step keeps ----------

  /** What separates a stored record from the one before it. */
  predicate Follows(a: Record, b: Record) {
    && b.version == a.version + 1
    && a.epoch <= b.epoch
    && (a.state == Fulfilled ==> b.state == Fulfilled)
    && (a.state == Withdrawn ==> b.state == Withdrawn || b.state == Fulfilled)
    && (a.wasOverdue ==> b.wasOverdue)
    && (b.state == Overdue ==> b.wasOverdue)
  }

  ghost predicate HistoryOk(s: State) {
    && |s.history| > 0
    && s.history[|s.history| - 1] == s.com
    && (s.com.state == Overdue ==> s.com.wasOverdue)
    && forall i {:trigger s.history[i]} :: 0 <= i < |s.history| - 1 ==> Follows(s.history[i], s.history[i + 1])
  }

  ghost predicate WasSent(s: State, id: string) {
    exists i :: 0 <= i < |s.sends| && s.sends[i].id == id
  }

  /** Every transport was of a stored event, at that event's epoch. */
  ghost predicate SendsOk(s: State) {
    forall i :: 0 <= i < |s.sends| ==> s.sends[i].id in s.comms && s.sends[i].epoch == s.comms[s.sends[i].id].epoch
  }

  /** A counted attempt was a transport, and an event still waiting has none counted. */
  ghost predicate CountedOk(s: State, id: string, m: Communication) {
    && 0 <= m.attempts <= 1
    && (m.attempts == 1 ==> WasSent(s, id))
    && (Waiting(m.delivery) ==> m.attempts == 0)
  }

  ghost predicate CommunicationsOk(s: State) {
    forall id :: id in s.comms ==> s.comms[id].epoch <= s.com.epoch && CountedOk(s, id, s.comms[id])
  }

  /** A record or case row read earlier: either still the stored one or of an older version. */
  predicate Seen(s: State, c: Record) {
    c.version <= s.com.version && (c.version == s.com.version ==> c == s.com) && c.epoch <= s.com.epoch
  }

  predicate CaseSeen(s: State, k: CaseRow) {
    k.version <= s.kase.version && (k.version == s.kase.version ==> k == s.kase) && k.epoch <= s.kase.epoch
  }

  /** A copy of a stored event, as far as its epoch goes. */
  ghost predicate CopyOf(s: State, id: string, m: Communication) {
    id in s.comms && m.epoch == s.comms[id].epoch && CountedOk(s, id, m)
  }

  predicate Unsettled(c: Record) {
    c.state != Fulfilled && c.state != Withdrawn
  }

  ghost predicate PendingOk(s: State, p: Pending) {
    match p
    case CancelCase(c, k) => Seen(s, c) && CaseSeen(s, k) && c.epoch == k.epoch && Unsettled(c)
    case CancelRecord(c, epoch) => Seen(s, c) && Unsettled(c) && c.epoch <= epoch <= s.kase.epoch
    case CancelList => true
    case CancelClose(listed) => forall id :: id in listed ==> CopyOf(s, id, listed[id])
    case ReviseFacts(c, k, _) => Seen(s, c) && CaseSeen(s, k) && c.epoch == k.epoch && Unsettled(c)
    case ReviseDecide(c, k, _) => Seen(s, c) && CaseSeen(s, k) && c.epoch <= k.epoch && Unsettled(c)
    case ReviseRecord(c, epoch, _) => Seen(s, c) && c.epoch <= epoch <= s.kase.epoch && Unsettled(c)
    case ReviseNotify(c) => Seen(s, c)
    case AttestPut(c, k, _) => Seen(s, c) && CaseSeen(s, k)
    case AttestRecord(c, k, _) => Seen(s, c) && CaseSeen(s, k)
    case AttestCase(k) => CaseSeen(s, k)
    case DriveOverdue(c) => Seen(s, c) && c.state == Active
    case DriveRemind(c) => Seen(s, c)
    case DischargeRecord(c) => Seen(s, c) && c.state == Fulfilled
    case Checking(id, m) => CopyOf(s, id, m) && m.delivery == Prepared
    case Sending(id, m) => CopyOf(s, id, m) && m.delivery == Prepared
    case Recording(id, m) => CopyOf(s, id, m) && m.delivery != Prepared
  }

  ghost predicate ClientsOk(s: State) {
    forall client :: client in s.clients ==> PendingOk(s, s.clients[client])
  }

  ghost predicate Inv(s: State) {
    && HistoryOk(s)
    && s.com.epoch <= s.kase.epoch
    && SendsOk(s)
    && CommunicationsOk(s)
    && ClientsOk(s)
  }

  /** What a step may do to the shared rows, as far as a waiting client can tell. */
  ghost predicate Evolves(s: State, s': State) {
    && (s'.kase == s.kase || (s'.kase.version > s.kase.version && s'.kase.epoch >= s.kase.epoch))
    && (s'.com == s.com || (s'.com.version > s.com.version && s'.com.epoch >= s.com.epoch))
    && (forall id :: id in s.comms ==> id in s'.comms && s'.comms[id].epoch == s.comms[id].epoch)
    && s.sends <= s'.sends
  }

  lemma WasSentStays(s: State, s': State, id: string)
    requires s.sends <= s'.sends && WasSent(s, id)
    ensures WasSent(s', id)
  {
    var i :| 0 <= i < |s.sends| && s.sends[i].id == id;
    assert s'.sends[i].id == id;
  }

  lemma CopyStays(s: State, s': State, id: string, m: Communication)
    requires CopyOf(s, id, m) && Evolves(s, s')
    ensures CopyOf(s', id, m)
  {
    if m.attempts == 1 {
      WasSentStays(s, s', id);
    }
  }

  lemma EvolutionKeepsPending(s: State, s': State, p: Pending)
    requires PendingOk(s, p) && Evolves(s, s')
    ensures PendingOk(s', p)
  {
    match p
    case CancelClose(listed) =>
      forall id | id in listed ensures CopyOf(s', id, listed[id]) {
        CopyStays(s, s', id, listed[id]);
      }
    case Checking(id, m) => CopyStays(s, s', id, m);
    case Sending(id, m) => CopyStays(s, s', id, m);
    case Recording(id, m) => CopyStays(s, s', id, m);
    case _ =>
  }

  /** Everything but the clients. */
  ghost predicate RowsOk(s: State) {
    HistoryOk(s) && s.com.epoch <= s.kase.epoch && SendsOk(s) && CommunicationsOk(s)
  }

  /** A change of rows that waiting clients can live with keeps the invariant. */
  lemma EvolutionKeepsInv(s: State, s': State)
    requires Inv(s) && Evolves(s, s') && s'.clients == s.clients && RowsOk(s')
    ensures Inv(s')
  {
    forall client | client in s'.clients ensures PendingOk(s', s'.clients[client]) {
      EvolutionKeepsPending(s, s', s.clients[client]);
    }
  }

  lemma SameSends(s: State, s': State)
    requires s'.sends == s.sends
    ensures forall id :: WasSent(s', id) <==> WasSent(s, id)
  {
  }

  lemma UpdateCommitmentKeeps(s: State, c: Record, r: Record)
    requires Inv(s) && Seen(s, c) && r.version == c.version
    requires c == s.com ==> Follows(c, r.(version := r.version + 1)) && r.epoch <= s.kase.epoch
    ensures var w := UpdateCommitment(s, r);
            w.Some? ==> Inv(w.value) && Evolves(s, w.value) && c == s.com
                        && w.value == s.(com := r.(version := r.version + 1), history := w.value.history)
  {
    var w := UpdateCommitment(s, r);
    if w.Some? {
      var s' := w.value;
      assert forall i :: 0 <= i < |s.history| ==> s'.history[i] == s.history[i];
      SameSends(s, s');
      EvolutionKeepsInv(s, s');
    }
  }

  lemma UpdateCaseKeeps(s: State, expected: CaseRow, k: CaseRow)
    requires Inv(s) && CaseSeen(s, expected)
    requires k.version > expected.version && k.epoch >= expected.epoch
    ensures var w := UpdateCase(s, expected, k);
            w.Some? ==> Inv(w.value) && Evolves(s, w.value) && expected == s.kase && w.value == s.(kase := k)
  {
    var w := UpdateCase(s, expected, k);
    if w.Some? {
      SameSends(s, w.value);
      EvolutionKeepsInv(s, w.value);
    }
  }

  lemma HoldKeeps(s: State, client: nat, p: Pending)
    requires Inv(s) && PendingOk(s, p)
    ensures Inv(Hold(s, client, p))
  {
    var s' := Hold(s, client, p);
    SameSends(s, s');
    forall x | x in s'.clients ensures PendingOk(s', s'.clients[x]) {
      EvolutionKeepsPending(s, s', s'.clients[x]);
    }
  }

  lemma ReleaseKeeps(s: State, client: nat)
    requires Inv(s)
    ensures Inv(Release(s, client))
  {
    var s' := Release(s, client);
    SameSends(s, s');
    forall x | x in s'.clients ensures PendingOk(s', s'.clients[x]) {
      EvolutionKeepsPending(s, s', s.clients[x]);
    }
  }

  lemma EnsureKeeps(s: State, c: Record, kind: DraftKind, id: string)
    requires Inv(s) && Seen(s, c)
    ensures Inv(Ensure(s, c, kind, id)) && Evolves(s, Ensure(s, c, kind, id))
  {
    var s' := Ensure(s, c, kind, id);
    if s' != s {
      SameSends(s, s');
      EvolutionKeepsInv(s, s');
    }
  }

  /** Writing back a copy of a communication. */
  lemma RewriteKeeps(s: State, id: string, m: Communication)
    requires Inv(s) && CopyOf(s, id, m)
    ensures Inv(s.(comms := s.comms[id := m])) && Evolves(s, s.(comms := s.comms[id := m]))
  {
    var s' := s.(comms := s.comms[id := m]);
    SameSends(s, s');
    EvolutionKeepsInv(s, s');
  }

  /** One more transport of a stored event, at its epoch. */
  lemma TransportKeeps(s: State, id: string, epoch: int, answer: TransportResult)
    requires Inv(s) && id in s.comms && epoch == s.comms[id].epoch
    ensures var s' := s.(sends := s.sends + [Send(id, epoch, answer)]); Inv(s') && Evolves(s, s') && WasSent(s', id)
  {
    var s' := s.(sends := s.sends + [Send(id, epoch, answer)]);
    assert s'.sends[|s.sends|].id == id;
    assert forall i :: 0 <= i < |s.sends| ==> s'.sends[i] == s.sends[i];
    forall x | x in s.comms ensures CountedOk(s', x, s.comms[x]) {
      if s.comms[x].attempts == 1 {
        WasSentStays(s, s', x);
      }
    }
    EvolutionKeepsInv(s, s');
  }

  lemma PostKeeps(s: State, client: nat, id: string, m: Communication, outcome: Outcome)
    requires Inv(s) && PendingOk(s, Sending(id, m))
    ensures Inv(Post(s, client, id, m, outcome))
  {
    if outcome.Transported? {
      TransportKeeps(s, id, m.epoch, outcome.result);
      HoldKeeps(s.(sends := s.sends + [Send(id, m.epoch, outcome.result)]), client,
                Recording(id, Attempted(m, outcome)));
    } else {
      HoldKeeps(s, client, Recording(id, Attempted(m, outcome)));
    }
  }

  lemma CloseKeeps(s: State, client: nat, listed: map<string, Communication>, id: string)
    requires Inv(s) && PendingOk(s, CancelClose(listed)) && id in listed
    ensures Inv(Hold(s.(comms := s.comms[id := listed[id].(delivery := PermanentFailed)]),
                     client, CancelClose(listed - {id})))
  {
    var s' := s.(comms := s.comms[id := listed[id].(delivery := PermanentFailed)]);
    RewriteKeeps(s, id, listed[id].(delivery := PermanentFailed));
    EvolutionKeepsPending(s, s', CancelClose(listed));
    HoldKeeps(s', client, CancelClose(listed - {id}));
  }

  /** A case write followed by the next pending write. */
  lemma CaseWriteKeeps(s: State, client: nat, expected: CaseRow, k: CaseRow, next: Option<Pending>)
    requires Inv(s) && CaseSeen(s, expected)
    requires k.version > expected.version && k.epoch >= expected.epoch
    requires expected == s.kase && next.Some? ==> PendingOk(s.(kase := k), next.value)
    ensures Inv(Continue(s, client, UpdateCase(s, expected, k), next))
  {
    var written := UpdateCase(s, expected, k);
    UpdateCaseKeeps(s, expected, k);
    if written.None? || next.None? {
      ReleaseKeeps(written.GetOr(s), client);
    } else {
      HoldKeeps(written.value, client, next.value);
    }
  }

  /** A record write followed by the next pending write. */
  lemma RecordWriteKeeps(s: State, client: nat, c: Record, r: Record, next: Option<Pending>)
    requires Inv(s) && Seen(s, c) && r.version == c.version
    requires c == s.com ==> Follows(c, r.(version := r.version + 1)) && r.epoch <= s.kase.epoch
    requires c == s.com && next.Some? ==>
               var stored := r.(version := r.version + 1);
               PendingOk(s.(com := stored, history := s.history + [stored]), next.value)
    ensures Inv(Continue(s, client, UpdateCommitment(s, r), next))
  {
    var written := UpdateCommitment(s, r);
    UpdateCommitmentKeeps(s, c, r);
    if written.None? || next.None? {
      ReleaseKeeps(written.GetOr(s), client);
    } else {
      HoldKeeps(written.value, client, next.value);
    }
  }

  lemma AdvanceCancelCaseKeeps(s: State, client: nat, p: Pending, id: string, stamp: Attestation)
    requires Inv(s) && PendingOk(s, p) && p.CancelCase?
    ensures Inv(AdvanceOne(s, client, p, id, stamp))
  {
    var k' := CaseRow(Cancelled, p.k.version + 1, p.k.epoch + 1);
    var next := CancelRecord(p.c, p.k.epoch + 1);
    assert p.k == s.kase ==> PendingOk(s.(kase := k'), next);
    CaseWriteKeeps(s, client, p.k, k', Some(next));
    assert AdvanceOne(s, client, p, id, stamp) == Continue(s, client, UpdateCase(s, p.k, k'), Some(next));
  }

  lemma AdvanceReviseFactsKeeps(s: State, client: nat, p: Pending, id: string, stamp: Attestation)
    requires Inv(s) && PendingOk(s, p) && p.ReviseFacts?
    ensures Inv(AdvanceOne(s, client, p, id, stamp))
  {
    var k' := CaseRow(AwaitingDecision, p.k.version + 3, p.k.epoch + 2);
    var next := ReviseDecide(p.c, k', p.due);
    assert p.k == s.kase ==> PendingOk(s.(kase := k'), next);
    CaseWriteKeeps(s, client, p.k, k', Some(next));
    assert AdvanceOne(s, client, p, id, stamp) == Continue(s, client, UpdateCase(s, p.k, k'), Some(next));
  }

  lemma AdvanceReviseDecideKeeps(s: State, client: nat, p: Pending, id: string, stamp: Attestation)
    requires Inv(s) && PendingOk(s, p) && p.ReviseDecide?
    ensures Inv(AdvanceOne(s, client, p, id, stamp))
  {
    var k' := CaseRow(Authorized, p.k.version + 1, p.k.epoch);
    CaseWriteKeeps(s, client, p.k, k', Some(ReviseRecord(p.c, p.k.epoch, p.due)));
  }

  lemma AdvanceAttestCaseKeeps(s: State, client: nat, p: Pending, id: string, stamp: Attestation)
    requires Inv(s) && PendingOk(s, p) && p.AttestCase?
    ensures Inv(AdvanceOne(s, client, p, id, stamp))
  {
    CaseWriteKeeps(s, client, p.k, CaseRow(Completed, p.k.version + 1, p.k.epoch), None);
  }

  lemma AdvanceCancelRecordKeeps(s: State, client: nat, p: Pending, id: string, stamp: Attestation)
    requires Inv(s) && PendingOk(s, p) && p.CancelRecord?
    ensures Inv(AdvanceOne(s, client, p, id, stamp))
  {
    RecordWriteKeeps(s, client, p.c, p.c.(state := Withdrawn, epoch := p.epoch), Some(CancelList));
  }

  lemma AdvanceReviseRecordKeeps(s: State, client: nat, p: Pending, id: string, stamp: Attestation)
    requires Inv(s) && PendingOk(s, p) && p.ReviseRecord?
    ensures Inv(AdvanceOne(s, client, p, id, stamp))
  {
    var r := p.c.(state := Active, epoch := p.epoch, dueAt := p.due);
    RecordWriteKeeps(s, client, p.c, r, Some(ReviseNotify(r.(version := p.c.version + 1))));
  }

  lemma AdvanceRecordKeeps(s: State, client: nat, p: Pending, id: string, stamp: Attestation)
    requires Inv(s) && PendingOk(s, p) && (p.AttestRecord? || p.DriveOverdue? || p.DischargeRecord?)
    ensures Inv(AdvanceOne(s, client, p, id, stamp))
  {
    match p
    case AttestRecord(c, k, at) =>
      var r := c.(state := Fulfilled, wasOverdue := c.wasOverdue || at > c.dueAt);
      RecordWriteKeeps(s, client, c, r, if Terminal(k.status) then None else Some(AttestCase(k)));
    case DriveOverdue(c) =>
      var r := c.(state := Overdue, wasOverdue := true);
      RecordWriteKeeps(s, client, c, r, Some(DriveRemind(r.(version := c.version + 1))));
    case DischargeRecord(c) =>
      RecordWriteKeeps(s, client, c, c.(discharged := true), None);
  }

  lemma AdvanceOtherKeeps(s: State, client: nat, p: Pending, id: string, stamp: Attestation)
    requires Inv(s) && PendingOk(s, p)
    requires p.CancelList? || p.CancelClose? || p.ReviseNotify? || p.AttestPut? || p.DriveRemind?
    ensures Inv(AdvanceOne(s, client, p, id, stamp))
  {
    match p
    case CancelList =>
      HoldKeeps(s, client, CancelClose(WaitingOnly(s.comms)));
    case CancelClose(listed) =>
      if id in listed {
        CloseKeeps(s, client, listed, id);
      } else {
        ReleaseKeeps(s, client);
      }
    case ReviseNotify(c) =>
      EnsureKeeps(s, c, Confirmation, id);
      ReleaseKeeps(Ensure(s, c, Confirmation, id), client);
    case AttestPut(c, k, at) =>
      if c.version in s.attestations && s.attestations[c.version] != stamp {
        ReleaseKeeps(s, client);
      } else {
        AttestPutKeeps(s, c.version, stamp);
        HoldKeeps(s.(attestations := s.attestations[c.version := stamp]), client, AttestRecord(c, k, at));
      }
    case DriveRemind(c) =>
      EnsureKeeps(s, c, Reminder, id);
      ReleaseKeeps(if c.state == Overdue then Ensure(s, c, Reminder, id) else s, client);
  }

  lemma AdvanceDispatchKeeps(s: State, client: nat, p: Pending, id: string, stamp: Attestation)
    requires Inv(s) && PendingOk(s, p) && (p.Checking? || p.Sending? || p.Recording?)
    ensures Inv(AdvanceOne(s, client, p, id, stamp))
  {
    match p
    case Checking(x, m) =>
      var next := if m.epoch == s.com.epoch then Sending(x, m) else Recording(x, m.(delivery := PermanentFailed));
      HoldKeeps(s, client, next);
    case Sending(_, _) =>
    case Recording(x, m) =>
      RewriteKeeps(s, x, m);
      ReleaseKeeps(s.(comms := s.comms[x := m]), client);
  }

  lemma AttestPutKeeps(s: State, version: int, stamp: Attestation)
    requires Inv(s)
    ensures Inv(s.(attestations := s.attestations[version := stamp]))
  {
    var s' := s.(attestations := s.attestations[version := stamp]);
    forall x | x in s.clients ensures PendingOk(s', s.clients[x]) {
      EvolutionKeepsPending(s, s', s.clients[x]);
    }
    SameSends(s, s');
  }

  lemma BeginKeeps(s: State, step: Step)
    requires Inv(s)
    requires step.BeginCancel? || step.BeginRevise? || step.BeginAttest? || step.BeginDrive? || step.BeginDischarge?
    ensures Inv(Next(s, step))
  {
    match step
    case BeginCancel(client) =>
      if Next(s, step) != s { HoldKeeps(s, client, CancelCase(s.com, s.kase)); }
    case BeginRevise(client, due) =>
      if Next(s, step) != s { HoldKeeps(s, client, ReviseFacts(s.com, s.kase, due)); }
    case BeginAttest(client, at) =>
      if Next(s, step) != s { HoldKeeps(s, client, AttestPut(s.com, s.kase, at)); }
    case BeginDrive(client, at) =>
      if s.com.epoch == s.kase.epoch {
        if s.com.state == Active && at >= s.com.dueAt {
          HoldKeeps(s, client, DriveOverdue(s.com));
        } else {
          HoldKeeps(s, client, DriveRemind(s.com));
        }
      }
    case BeginDischarge(client) =>
      if Next(s, step) != s { HoldKeeps(s, client, DischargeRecord(s.com)); }
  }

  lemma AdvanceKeeps(s: State, client: nat, p: Pending, id: string, stamp: Attestation)
    requires Inv(s) && PendingOk(s, p)
    ensures Inv(AdvanceOne(s, client, p, id, stamp))
  {
    if p.CancelCase? {
      AdvanceCancelCaseKeeps(s, client, p, id, stamp);
    } else if p.ReviseFacts? {
      AdvanceReviseFactsKeeps(s, client, p, id, stamp);
    } else if p.ReviseDecide? {
      AdvanceReviseDecideKeeps(s, client, p, id, stamp);
    } else if p.AttestCase? {
      AdvanceAttestCaseKeeps(s, client, p, id, stamp);
    } else if p.CancelRecord? {
      AdvanceCancelRecordKeeps(s, client, p, id, stamp);
    } else if p.ReviseRecord? {
      AdvanceReviseRecordKeeps(s, client, p, id, stamp);
    } else if p.AttestRecord? || p.DriveOverdue? || p.DischargeRecord? {
      AdvanceRecordKeeps(s, client, p, id, stamp);
    } else if p.Checking? || p.Sending? || p.Recording? {
      AdvanceDispatchKeeps(s, client, p, id, stamp);
    } else {
      AdvanceOtherKeeps(s, client, p, id, stamp);
    }
  }

  lemma NextKeepsInv(s: State, step: Step)
    requires Inv(s)
    ensures Inv(Next(s, step))
  {
    if step.Advance? || step.Stop? {
      ClientStepKeeps(s, step);
    } else if step.DispatchRead? || step.DispatchPost? {
      DispatchKeeps(s, step);
    } else if step.CaseMoves? {
      CaseMovesKeeps(s, step);
    } else {
      BeginKeeps(s, step);
    }
  }

  lemma ClientStepKeeps(s: State, step: Step)
    requires Inv(s) && (step.Advance? || step.Stop?)
    ensures Inv(Next(s, step))
  {
    if step.Stop? {
      ReleaseKeeps(s, step.client);
    } else if step.client in s.clients {
      AdvanceKeeps(s, step.client, s.clients[step.client], step.id, step.stamp);
    }
  }

  lemma CaseMovesKeeps(s: State, step: Step)
    requires Inv(s) && step.CaseMoves?
    ensures Inv(Next(s, step))
  {
    if !Terminal(s.kase.status) {
      UpdateCaseKeeps(s, s.kase, CaseRow(step.status, s.kase.version + 1, s.kase.epoch + step.bump));
    }
  }

  lemma DispatchKeeps(s: State, step: Step)
    requires Inv(s) && (step.DispatchRead? || step.DispatchPost?)
    ensures Inv(Next(s, step))
  {
    match step
    case DispatchRead(client, id) =>
      if Next(s, step) != s { HoldKeeps(s, client, Checking(id, s.comms[id])); }
    case DispatchPost(client, outcome) =>
      if client in s.clients && s.clients[client].Sending? {
        PostKeeps(s, client, s.clients[client].id, s.clients[client].m, outcome);
      }
  }

  // ---------- Whole runs ----------

  lemma {:induction false} RunKeepsInv(s: State, steps: seq<Step>)
    requires Inv(s)
    ensures Inv(Run(s, steps))
    decreases |steps|
  {
    if steps != [] {
      NextKeepsInv(s, steps[0]);
      RunKeepsInv(Next(s, steps[0]), steps[1..]);
    }
  }

  lemma {:induction false} RunConcat(s: State, a: seq<Step>, b: seq<Step>)
    ensures Run(s, a + b) == Run(Run(s, a), b)
    decreases |a|
  {
    if a == [] {
      assert a + b == b;
    } else {
      assert (a + b)[1..] == a[1..] + b;
      RunConcat(Next(s, a[0]), a[1..], b);
    }
  }

  /** The record a pending write was computed from. */
  function Basis(p: Pending): Option<Record> {
    match p
    case CancelRecord(c, _) => Some(c)
    case ReviseRecord(c, _, _) => Some(c)
    case AttestRecord(c, _, _) => Some(c)
    case DriveOverdue(c) => Some(c)
    case DischargeRecord(c) => Some(c)
    case _ => None
  }

  predicate Unwritten(s: State, s': State) {
    s'.com == s.com && s'.history == s.history
  }

  predicate WrittenFrom(s: State, s': State, basis: Option<Record>) {
    basis == Some(s.com) && Follows(s.com, s'.com) && s'.history == s.history + [s'.com]
  }

  /** What one step of a client does to the record and the case. */
  ghost predicate Writes(s: State, s': State, basis: Option<Record>) {
    (Unwritten(s, s') || WrittenFrom(s, s', basis)) && s.kase.epoch <= s'.kase.epoch && s'.sends == s.sends
  }

  lemma RecordWrite(s: State, client: nat, c: Record, r: Record, next: Option<Pending>)
    requires Seen(s, c) && r.version == c.version
    requires c == s.com ==> Follows(c, r.(version := r.version + 1))
    ensures Writes(s, Continue(s, client, UpdateCommitment(s, r), next), Some(c))
  {
  }

  lemma AdvanceWritesRecord(s: State, client: nat, p: Pending, id: string, stamp: Attestation)
    requires PendingOk(s, p) && (s.com.state == Overdue ==> s.com.wasOverdue) && Basis(p).Some?
    ensures Writes(s, AdvanceOne(s, client, p, id, stamp), Basis(p))
  {
    match p
    case CancelRecord(c, epoch) =>
      RecordWrite(s, client, c, c.(state := Withdrawn, epoch := epoch), Some(CancelList));
    case ReviseRecord(c, epoch, due) =>
      var r := c.(state := Active, epoch := epoch, dueAt := due);
      RecordWrite(s, client, c, r, Some(ReviseNotify(r.(version := c.version + 1))));
    case AttestRecord(c, k, at) =>
      var r := c.(state := Fulfilled, wasOverdue := c.wasOverdue || at > c.dueAt);
      RecordWrite(s, client, c, r, if Terminal(k.status) then None else Some(AttestCase(k)));
    case DriveOverdue(c) =>
      var r := c.(state := Overdue, wasOverdue := true);
      RecordWrite(s, client, c, r, Some(DriveRemind(r.(version := c.version + 1))));
    case DischargeRecord(c) =>
      RecordWrite(s, client, c, c.(discharged := true), None);
  }

  lemma AdvanceWritesNoRecord(s: State, client: nat, p: Pending, id: string, stamp: Attestation)
    requires PendingOk(s, p) && Basis(p).None?
    ensures Writes(s, AdvanceOne(s, client, p, id, stamp), None)
  {
  }

  lemma AdvanceWrites(s: State, client: nat, p: Pending, id: string, stamp: Attestation)
    requires PendingOk(s, p) && (s.com.state == Overdue ==> s.com.wasOverdue)
    ensures Writes(s, AdvanceOne(s, client, p, id, stamp), Basis(p))
  {
    if Basis(p).Some? {
      AdvanceWritesRecord(s, client, p, id, stamp);
    } else {
      AdvanceWritesNoRecord(s, client, p, id, stamp);
    }
  }

  /** A stored record changes only by a pending write that was computed from exactly the record it
      replaces, and the change is one new version at the end of the history. */
  lemma AcceptedWriteSawLatest(s: State, step: Step)
    requires Inv(s)
    ensures Next(s, step).com != s.com ==>
              && step.Advance? && step.client in s.clients
              && WrittenFrom(s, Next(s, step), Basis(s.clients[step.client]))
  {
    if step.Advance? && step.client in s.clients {
      var p := s.clients[step.client];
      assert PendingOk(s, p);
      AdvanceWrites(s, step.client, p, step.id, step.stamp);
    }
  }

  /** Each version occurs once, in order. */
  lemma {:induction false} HistoryVersions(s: State, i: nat)
    requires HistoryOk(s) && i < |s.history|
    ensures s.history[i].version == s.history[0].version + i
  {
    if i > 0 {
      HistoryVersions(s, i - 1);
      assert Follows(s.history[i - 1], s.history[i - 1 + 1]);
    }
  }

  lemma StepProgress(s: State, step: Step)
    requires Inv(s)
    ensures var s' := Next(s, step);
            && (Unwritten(s, s') || (Follows(s.com, s'.com) && s'.history == s.history + [s'.com]))
            && s.kase.epoch <= s'.kase.epoch
            && s.sends <= s'.sends
  {
    if step.Advance? && step.client in s.clients {
      assert PendingOk(s, s.clients[step.client]);
      AdvanceWrites(s, step.client, s.clients[step.client], step.id, step.stamp);
    }
  }

  /** Over every interleaving, with clients stopping anywhere: the commitment's epoch stays at or
      below the case's and never goes back, fulfilled is final, withdrawn is left only towards
      fulfilled, having been overdue is never forgotten, and no record or transport is ever lost. */
  lemma {:induction false} RunProgress(s: State, steps: seq<Step>)
    requires Inv(s)
    ensures var s' := Run(s, steps);
            && s.com.epoch <= s'.com.epoch <= s'.kase.epoch && s.kase.epoch <= s'.kase.epoch
            && (s.com.state == Fulfilled ==> s'.com.state == Fulfilled)
            && (s.com.state == Withdrawn ==> s'.com.state == Withdrawn || s'.com.state == Fulfilled)
            && (s.com.wasOverdue ==> s'.com.wasOverdue)
            && (s'.com.state == Overdue ==> s'.com.wasOverdue)
            && s.history <= s'.history && s.sends <= s'.sends
    decreases |steps|
  {
    if steps != [] {
      NextKeepsInv(s, steps[0]);
      StepProgress(s, steps[0]);
      RunProgress(Next(s, steps[0]), steps[1..]);
    }
  }

  /** While the epochs differ, no operation on the commitment starts. */
  lemma MismatchRefuses(s: State, step: Step)
    requires s.com.epoch != s.kase.epoch
    requires step.BeginCancel? || step.BeginRevise? || step.BeginAttest? || step.BeginDrive?
    ensures Next(s, step) == s
  {
  }

  // ---------- Stopping half-way ----------

  /** A client's next step that needs no input of its own. */
  function Go(client: nat): Step {
    Advance(client, "", Attestation("", 0))
  }

  predicate LeavesRecordAlone(p: Pending) {
    p.DischargeRecord? || p.Checking? || p.Sending? || p.Recording?
  }

  /** The epochs differ and nothing but discharges and dispatches is in flight. */
  ghost predicate Stuck(s: State) {
    && s.com.epoch < s.kase.epoch
    && forall client :: client in s.clients ==> LeavesRecordAlone(s.clients[client])
  }

  /** A commitment left behind by its case is out of reach for good: in every run its state, epoch
      and due time stay as they are and no communication is added. */
  lemma {:induction false} StuckForever(s: State, steps: seq<Step>)
    requires Inv(s) && Stuck(s)
    ensures var s' := Run(s, steps);
            && Stuck(s')
            && s'.com == s.com.(version := s'.com.version, discharged := s'.com.discharged)
            && s'.comms.Keys == s.comms.Keys
    decreases |steps|
  {
    if steps != [] {
      NextKeepsInv(s, steps[0]);
      StuckStep(s, steps[0]);
      StuckForever(Next(s, steps[0]), steps[1..]);
    }
  }

  lemma StuckStep(s: State, step: Step)
    requires Inv(s) && Stuck(s)
    ensures var s' := Next(s, step);
            && Stuck(s')
            && s'.com == s.com.(version := s'.com.version, discharged := s'.com.discharged)
            && s'.comms.Keys == s.comms.Keys
  {
    if step.Advance? && step.client in s.clients {
      assert PendingOk(s, s.clients[step.client]);
    }
  }

  /** A cancellation that stops after its first write leaves the commitment stuck at the old epoch,
      yet a prepared message of that epoch can still be transported. */
  lemma CancelStoppedEarly(s: State, id: string)
    requires s.clients == map[]
    requires s.com.epoch == s.kase.epoch && s.com.state == Active && !Terminal(s.kase.status)
    requires id in s.comms && s.comms[id].delivery == Prepared && s.comms[id].epoch == s.com.epoch
    ensures var begun := Next(s, BeginCancel(0));
            var written := Next(begun, Go(0));
            var s' := Next(written, Stop(0));
            && Stuck(s') && s'.com == s.com && s'.kase.status == Cancelled
            && DispatchOne(s', id, Transported(Response(200, false))).sends
                 == s.sends + [Send(id, s.com.epoch, Response(200, false))]
  {
  }

  /** One uninterrupted attestation of a cancelled commitment. */
  lemma CancelledCanBeFulfilled(s: State, at: Time, stamp: Attestation)
    requires Inv(s) && s.com.state == Withdrawn && s.com.epoch == s.kase.epoch
    ensures var begun := Next(s, BeginAttest(0, at));
            var put := Next(begun, Advance(0, "", stamp));
            var written := Next(put, Advance(0, "", stamp));
            written.com.state == Fulfilled
            <==> (s.com.version in s.attestations ==> s.attestations[s.com.version] == stamp)
  {
  }

  lemma ThreeSteps(s: State, a: Step, b: Step, c: Step)
    ensures Run(s, [a, b, c]) == Next(Next(Next(s, a), b), c)
  {
    assert [a, b, c][1..] == [b, c] && [b, c][1..] == [c] && [c][1..] == [];
    assert Run(s, [a, b, c]) == Run(Next(s, a), [b, c]);
    assert Run(Next(s, a), [b, c]) == Run(Next(Next(s, a), b), [c]);
  }

  /** An attestation recorded for the current version blocks every attempt that differs from it, so
      an attest that stopped after recording cannot be repeated with another time stamp. */
  lemma RecordedAttestationBlocks(s: State, client: nat, at: Time, stamp: Attestation)
    requires Inv(s) && s.com.epoch == s.kase.epoch && s.com.state != Fulfilled
    ensures var s' := Next(Next(s, BeginAttest(client, at)), Advance(client, "", stamp));
            client in s'.clients <==> (s.com.version in s.attestations ==> s.attestations[s.com.version] == stamp)
  {
  }

  /** A freshly admitted commitment satisfies the invariant. */
  lemma FreshCommitment(kase: CaseRow, com: Record)
    requires com.state == Active && com.epoch == kase.epoch
    ensures Inv(State(kase, com, map[], map[], map[], [com], []))
  {
  }
}
