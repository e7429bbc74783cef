/** What the delivery state of an event says about its transports, whoever dispatched it and whatever
    else was going on. */
module DeliveryRecords {
  import opened Common
  import opened Commitment

  /** The answer a delivery state stands for. Timeouts and overload leave the outcome unknown, since
      the gateway may have delivered; other refusals are final. */
  predicate Bears(answer: TransportResult, d: Delivery) {
    match d
    case DeliveryConfirmed =>
      answer == KernelSucceeded(true) || (answer.Response? && answer.status < 400 && answer.confirmed)
    case TransportAccepted => answer.Response? && answer.status < 400 && !answer.confirmed
    case PermanentFailed =>
      answer == KernelFailed
      || (answer.Response? && answer.status >= 400 && answer.status !in [408, 425, 429, 500, 502, 503, 504])
    case OutcomeUnknown =>
      answer in [Broken, KernelUnknown, KernelSucceeded(false)]
      || (answer.Response? && answer.status in [408, 425, 429, 500, 502, 503, 504])
    case Prepared => false
    case Retrying => false
  }

  /** One dispatch of a prepared event of the current epoch: the recorded state is exactly the one the
      answer bears, one attempt is counted and one transport made; without a transport, neither. */
  lemma DispatchRecords(s: State, id: string, outcome: Outcome)
    requires id in s.comms && s.comms[id].delivery == Prepared && s.comms[id].epoch == s.com.epoch
    ensures var s' := DispatchOne(s, id, outcome);
            && s'.comms.Keys == s.comms.Keys
            && (forall x :: x in s.comms && x != id ==> s'.comms[x] == s.comms[x])
            && s'.comms[id].epoch == s.com.epoch && s'.comms[id].kind == s.comms[id].kind
            && (outcome.NotConfigured? ==>
                  s'.comms[id].delivery == Retrying && s'.comms[id].attempts == s.comms[id].attempts
                  && s'.sends == s.sends)
            && (outcome.Transported? ==>
                  && (forall d :: s'.comms[id].delivery == d <==> Bears(outcome.result, d))
                  && s'.comms[id].attempts == s.comms[id].attempts + 1
                  && s'.sends == s.sends + [Send(id, s.com.epoch, outcome.result)])
  {
  }

  /** A dispatch of any other event transports nothing; a prepared one of another epoch is given up. */
  lemma OtherDispatchRecords(s: State, id: string, outcome: Outcome)
    requires id in s.comms ==> s.comms[id].delivery != Prepared || s.comms[id].epoch != s.com.epoch
    ensures var s' := DispatchOne(s, id, outcome);
            && s'.sends == s.sends
            && (if id in s.comms && s.comms[id].delivery == Prepared
                then s'.comms == s.comms[id := s.comms[id].(delivery := PermanentFailed)]
                else s'.comms == s.comms)
  {
  }

  // ---------- Over every run ----------

  ghost predicate Answered(s: State, id: string, m: Communication) {
    exists i :: 0 <= i < |s.sends| && s.sends[i].id == id && s.sends[i].epoch == m.epoch
      && Bears(s.sends[i].answer, m.delivery)
  }

  /** A copy of an event with no attempt counted waits or was given up; with one, some transport of the
      event had the answer its state stands for. */
  ghost predicate Justified(s: State, id: string, m: Communication) {
    || (m.attempts == 0 && m.delivery in [Prepared, Retrying, PermanentFailed])
    || (m.attempts == 1 && Answered(s, id, m))
  }

  ghost predicate ClientJustified(s: State, p: Pending) {
    match p
    case CancelClose(listed) => forall id :: id in listed ==> listed[id].attempts == 0
    case Checking(_, m) => m.attempts == 0
    case Sending(_, m) => m.attempts == 0
    case Recording(id, m) => Justified(s, id, m)
    case _ => true
  }

  ghost predicate AllJustified(s: State) {
    && (forall id :: id in s.comms ==> Justified(s, id, s.comms[id]))
    && (forall client :: client in s.clients ==> ClientJustified(s, s.clients[client]))
  }

  lemma JustifiedStays(s: State, s': State, id: string, m: Communication)
    requires s.sends <= s'.sends && Justified(s, id, m)
    ensures Justified(s', id, m)
  {
    if m.attempts == 1 {
      var i :| 0 <= i < |s.sends| && s.sends[i].id == id && s.sends[i].epoch == m.epoch
        && Bears(s.sends[i].answer, m.delivery);
      assert s'.sends[i] == s.sends[i];
    }
  }

  /** A state that keeps the transports and whose new rows and clients are justified. */
  lemma ChangeJustified(s: State, s': State)
    requires AllJustified(s) && s.sends <= s'.sends
    requires forall id :: id in s'.comms ==>
               || (id in s.comms && s'.comms[id] == s.comms[id])
               || Justified(s', id, s'.comms[id])
    requires forall client :: client in s'.clients ==>
               || (client in s.clients && s'.clients[client] == s.clients[client])
               || ClientJustified(s', s'.clients[client])
    ensures AllJustified(s')
  {
    forall id | id in s'.comms ensures Justified(s', id, s'.comms[id]) {
      if id in s.comms && s'.comms[id] == s.comms[id] {
        JustifiedStays(s, s', id, s.comms[id]);
      }
    }
    forall client | client in s'.clients ensures ClientJustified(s', s'.clients[client]) {
      if client in s.clients && s'.clients[client] == s.clients[client] && s.clients[client].Recording? {
        JustifiedStays(s, s', s.clients[client].id, s.clients[client].m);
      }
    }
  }

  lemma PostJustified(s: State, client: nat, outcome: Outcome)
    requires AllJustified(s) && client in s.clients && s.clients[client].Sending?
    ensures AllJustified(Next(s, DispatchPost(client, outcome)))
  {
    var s' := Next(s, DispatchPost(client, outcome));
    var p := s.clients[client];
    assert ClientJustified(s, p);
    if outcome.Transported? {
      assert s'.sends[|s.sends|] == Send(p.id, p.m.epoch, outcome.result);
      assert Answered(s', p.id, s'.clients[client].m);
    }
    ChangeJustified(s, s');
  }

  lemma CancelJustified(s: State, client: nat, p: Pending, id: string, stamp: Attestation)
    requires Inv(s) && AllJustified(s) && ClientJustified(s, p) && (p.CancelList? || p.CancelClose?)
    ensures AllJustified(AdvanceOne(s, client, p, id, stamp))
  {
    ChangeJustified(s, AdvanceOne(s, client, p, id, stamp));
  }

  lemma DispatchJustified(s: State, client: nat, p: Pending, id: string, stamp: Attestation)
    requires AllJustified(s) && ClientJustified(s, p) && (p.Checking? || p.Sending? || p.Recording?)
    ensures AllJustified(AdvanceOne(s, client, p, id, stamp))
  {
    ChangeJustified(s, AdvanceOne(s, client, p, id, stamp));
  }

  predicate HoldsNoCopy(p: Pending) {
    !p.CancelClose? && !p.Checking? && !p.Sending? && !p.Recording?
  }

  lemma ContinueJustified(s: State, client: nat, written: Option<State>, next: Option<Pending>)
    requires AllJustified(s) && (next.Some? ==> HoldsNoCopy(next.value))
    requires written.Some? ==>
               written.value.comms == s.comms && written.value.sends == s.sends && written.value.clients == s.clients
    ensures AllJustified(Continue(s, client, written, next))
  {
    ChangeJustified(s, Continue(s, client, written, next));
  }

  lemma NotifyJustified(s: State, client: nat, p: Pending, id: string, stamp: Attestation)
    requires AllJustified(s) && (p.ReviseNotify? || p.DriveRemind? || p.AttestPut?)
    ensures AllJustified(AdvanceOne(s, client, p, id, stamp))
  {
    ChangeJustified(s, AdvanceOne(s, client, p, id, stamp));
  }

  lemma CaseWriteJustified(s: State, client: nat, p: Pending, id: string, stamp: Attestation)
    requires AllJustified(s) && (p.CancelCase? || p.ReviseFacts? || p.ReviseDecide? || p.AttestCase?)
    ensures AllJustified(AdvanceOne(s, client, p, id, stamp))
  {
    match p
    case CancelCase(c, k) =>
      ContinueJustified(s, client, UpdateCase(s, k, CaseRow(Cancelled, k.version + 1, k.epoch + 1)),
                        Some(CancelRecord(c, k.epoch + 1)));
    case ReviseFacts(c, k, due) =>
      var awaiting := CaseRow(AwaitingDecision, k.version + 3, k.epoch + 2);
      ContinueJustified(s, client, UpdateCase(s, k, awaiting), Some(ReviseDecide(c, awaiting, due)));
    case ReviseDecide(c, k, due) =>
      ContinueJustified(s, client, UpdateCase(s, k, CaseRow(Authorized, k.version + 1, k.epoch)),
                        Some(ReviseRecord(c, k.epoch, due)));
    case AttestCase(k) =>
      ContinueJustified(s, client, UpdateCase(s, k, CaseRow(Completed, k.version + 1, k.epoch)), None);
  }

  lemma RecordWriteJustified(s: State, client: nat, p: Pending, id: string, stamp: Attestation)
    requires AllJustified(s)
    requires p.CancelRecord? || p.ReviseRecord? || p.AttestRecord? || p.DriveOverdue? || p.DischargeRecord?
    ensures AllJustified(AdvanceOne(s, client, p, id, stamp))
  {
    match p
    case CancelRecord(c, epoch) =>
      ContinueJustified(s, client, UpdateCommitment(s, c.(state := Withdrawn, epoch := epoch)), Some(CancelList));
    case ReviseRecord(c, epoch, due) =>
      var revised := c.(state := Active, epoch := epoch, dueAt := due);
      ContinueJustified(s, client, UpdateCommitment(s, revised),
                        Some(ReviseNotify(revised.(version := c.version + 1))));
    case AttestRecord(c, k, at) =>
      var fulfilled := c.(state := Fulfilled, wasOverdue := c.wasOverdue || at > c.dueAt);
      ContinueJustified(s, client, UpdateCommitment(s, fulfilled),
                        if Terminal(k.status) then None else Some(AttestCase(k)));
    case DriveOverdue(c) =>
      var overdue := c.(state := Overdue, wasOverdue := true);
      ContinueJustified(s, client, UpdateCommitment(s, overdue),
                        Some(DriveRemind(overdue.(version := c.version + 1))));
    case DischargeRecord(c) =>
      ContinueJustified(s, client, UpdateCommitment(s, c.(discharged := true)), None);
  }

  lemma AdvanceJustified(s: State, client: nat, p: Pending, id: string, stamp: Attestation)
    requires Inv(s) && AllJustified(s) && ClientJustified(s, p)
    ensures AllJustified(AdvanceOne(s, client, p, id, stamp))
  {
    if p.CancelList? || p.CancelClose? {
      CancelJustified(s, client, p, id, stamp);
    } else if p.Checking? || p.Sending? || p.Recording? {
      DispatchJustified(s, client, p, id, stamp);
    } else if p.ReviseNotify? || p.DriveRemind? || p.AttestPut? {
      NotifyJustified(s, client, p, id, stamp);
    } else if p.CancelCase? || p.ReviseFacts? || p.ReviseDecide? || p.AttestCase? {
      CaseWriteJustified(s, client, p, id, stamp);
    } else {
      RecordWriteJustified(s, client, p, id, stamp);
    }
  }

  lemma BeginJustified(s: State, step: Step)
    requires Inv(s) && AllJustified(s) && !step.Advance? && !step.DispatchPost?
    ensures AllJustified(Next(s, step))
  {
    ChangeJustified(s, Next(s, step));
  }

  lemma NextJustified(s: State, step: Step)
    requires Inv(s) && AllJustified(s)
    ensures AllJustified(Next(s, step))
  {
    if step.Advance? {
      if step.client in s.clients {
        AdvanceJustified(s, step.client, s.clients[step.client], step.id, step.stamp);
      }
    } else if step.DispatchPost? {
      if step.client in s.clients && s.clients[step.client].Sending? {
        PostJustified(s, step.client, step.outcome);
      }
    } else {
      BeginJustified(s, step);
    }
  }

  lemma {:induction false} RunJustified(s: State, steps: seq<Step>)
    requires Inv(s) && AllJustified(s)
    ensures AllJustified(Run(s, steps))
    decreases |steps|
  {
    if steps != [] {
      NextJustified(s, steps[0]);
      NextKeepsInv(s, steps[0]);
      RunJustified(Next(s, steps[0]), steps[1..]);
    }
  }

  /** After every run from a fresh commitment, with any number of clients interleaved or stopped: an
      event stands as delivered only if the gateway or the kernel confirmed a transport of it, and as
      accepted or unknown only if a transport of it was answered so. */
  lemma NothingConfirmedUnsent(kase: CaseRow, com: Record, steps: seq<Step>, id: string)
    requires com.state == Active && com.epoch == kase.epoch
    ensures var s := Run(State(kase, com, map[], map[], map[], [com], []), steps);
            id in s.comms && s.comms[id].delivery in [DeliveryConfirmed, TransportAccepted, OutcomeUnknown] ==>
              s.comms[id].attempts == 1 && Answered(s, id, s.comms[id])
  {
    FreshCommitment(kase, com);
    RunJustified(State(kase, com, map[], map[], map[], [com], []), steps);
  }
}
