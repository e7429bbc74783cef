/** What becomes of a cancelled commitment, over every run of the interleaved machine. */
module Cancellation {
  import opened Common
  import opened Commitment
  import opened Transport

  /** A cancellation's second write goes with the case its first one left; no other case write on its
      way was computed from a terminal case. */
  predicate FitsCase(s: State, p: Pending) {
    match p
    case CancelRecord(_, epoch) => s.kase.status == Cancelled && epoch == s.kase.epoch
    case CancelCase(_, k) => !Terminal(k.status)
    case ReviseFacts(_, k, _) => !Terminal(k.status)
    case ReviseDecide(_, k, _) => !Terminal(k.status)
    case AttestCase(k) => !Terminal(k.status)
    case _ => true
  }

  ghost predicate ClientsFit(s: State) {
    forall client :: client in s.clients ==> FitsCase(s, s.clients[client])
  }

  /** A cancelled commitment stands beside its cancelled case, at the same epoch. */
  ghost predicate Aligned(s: State) {
    ClientsFit(s) && (s.com.state == Withdrawn ==> s.kase.status == Cancelled && s.com.epoch == s.kase.epoch)
  }

  /** Nothing moves a cancelled or completed case. */
  lemma ClosedCaseStays(s: State, step: Step)
    requires Inv(s) && ClientsFit(s) && (s.kase.status == Cancelled || s.kase.status == Completed)
    ensures Next(s, step).kase == s.kase
  {
    if step.Advance? && step.client in s.clients {
      assert PendingOk(s, s.clients[step.client]) && FitsCase(s, s.clients[step.client]);
    }
  }

  lemma AdvancedFits(s: State, client: nat, p: Pending, id: string, stamp: Attestation)
    requires PendingOk(s, p) && FitsCase(s, p) && client in s.clients && s.clients[client] == p
    ensures var s' := AdvanceOne(s, client, p, id, stamp); client in s'.clients ==> FitsCase(s', s'.clients[client])
  {
    if p.CancelCase? {
      var s' := AdvanceOne(s, client, p, id, stamp);
      assert client in s'.clients ==> s'.clients[client] == CancelRecord(p.c, p.k.epoch + 1);
    } else if p.ReviseFacts? || p.ReviseDecide? {
    } else if Basis(p).Some? {
      AdvancedRecordFits(s, client, p, id, stamp);
    }
  }

  lemma AdvancedRecordFits(s: State, client: nat, p: Pending, id: string, stamp: Attestation)
    requires Basis(p).Some? && client in s.clients && s.clients[client] == p
    ensures var s' := AdvanceOne(s, client, p, id, stamp); client in s'.clients ==> FitsCase(s', s'.clients[client])
  {
  }

  lemma BegunFits(s: State, step: Step)
    requires ClientsFit(s) && !step.CaseMoves? && !step.Advance? && step.client in Next(s, step).clients
    ensures FitsCase(Next(s, step), Next(s, step).clients[step.client])
  {
  }

  lemma StepperFits(s: State, step: Step)
    requires Inv(s) && ClientsFit(s) && !step.CaseMoves? && step.client in Next(s, step).clients
    ensures FitsCase(Next(s, step), Next(s, step).clients[step.client])
  {
    if !step.Advance? {
      BegunFits(s, step);
    } else if step.client in s.clients {
      assert PendingOk(s, s.clients[step.client]);
      AdvancedFits(s, step.client, s.clients[step.client], step.id, step.stamp);
    }
  }

  lemma NextKeepsFit(s: State, step: Step)
    requires Inv(s) && ClientsFit(s)
    ensures ClientsFit(Next(s, step))
  {
    forall client | client in Next(s, step).clients ensures FitsCase(Next(s, step), Next(s, step).clients[client]) {
      if ClientOf(step) == Some(client) {
        StepperFits(s, step);
      } else {
        OtherClientsStay(s, step, client);
        if s.kase.status == Cancelled {
          ClosedCaseStays(s, step);
        }
      }
    }
  }

  /** A record becomes withdrawn only by the second write of a cancellation. */
  lemma AdvanceWithdraws(s: State, client: nat, p: Pending, id: string, stamp: Attestation)
    requires PendingOk(s, p) && s.com.state != Withdrawn && AdvanceOne(s, client, p, id, stamp).com.state == Withdrawn
    ensures p.CancelRecord?
    ensures var s' := AdvanceOne(s, client, p, id, stamp); s'.com.epoch == p.epoch && s'.kase == s.kase
  {
    if Basis(p).None? {
      AdvanceWritesNoRecord(s, client, p, id, stamp);
    }
  }

  lemma WithdrawnBy(s: State, step: Step)
    requires Inv(s) && ClientsFit(s) && s.com.state != Withdrawn
    ensures Next(s, step).com.state == Withdrawn ==>
              && Next(s, step).kase == s.kase && s.kase.status == Cancelled
              && Next(s, step).com.epoch == s.kase.epoch
  {
    AcceptedWriteSawLatest(s, step);
    if Next(s, step).com.state == Withdrawn {
      var p := s.clients[step.client];
      assert PendingOk(s, p) && FitsCase(s, p);
      AdvanceWithdraws(s, step.client, p, step.id, step.stamp);
    }
  }

  lemma NextKeepsAligned(s: State, step: Step)
    requires Inv(s) && Aligned(s)
    ensures Aligned(Next(s, step))
  {
    NextKeepsFit(s, step);
    StepProgress(s, step);
    if Next(s, step).com.state == Withdrawn {
      if s.com.state == Withdrawn {
        ClosedCaseStays(s, step);
        NextKeepsInv(s, step);
      } else {
        WithdrawnBy(s, step);
      }
    }
  }

  lemma {:induction false} RunKeepsAligned(s: State, steps: seq<Step>)
    requires Inv(s) && Aligned(s)
    ensures Aligned(Run(s, steps))
    decreases |steps|
  {
    if steps != [] {
      NextKeepsInv(s, steps[0]);
      NextKeepsAligned(s, steps[0]);
      RunKeepsAligned(Next(s, steps[0]), steps[1..]);
    }
  }

  /** So in every run, whatever is in flight, a case that is cancelled or completed stays exactly as it is. */
  lemma {:induction false} ClosedCaseForever(s: State, steps: seq<Step>)
    requires Inv(s) && ClientsFit(s) && (s.kase.status == Cancelled || s.kase.status == Completed)
    ensures Run(s, steps).kase == s.kase
    decreases |steps|
  {
    if steps != [] {
      NextKeepsInv(s, steps[0]);
      NextKeepsFit(s, steps[0]);
      ClosedCaseStays(s, steps[0]);
      ClosedCaseForever(Next(s, steps[0]), steps[1..]);
    }
  }

  /** An open case takes whatever status other services give it, one version further. */
  lemma OpenCaseMoves(s: State, status: CaseStatus, bump: nat)
    requires s.kase.status != Cancelled && s.kase.status != Completed
    ensures Next(s, CaseMoves(status, bump)) == s.(kase := CaseRow(status, s.kase.version + 1, s.kase.epoch + bump))
  {
  }

  // ---------- A fulfilled commitment ----------

  /** An attestation on its way was begun on a commitment not yet fulfilled. */
  predicate AttestsOpen(p: Pending) {
    (p.AttestPut? || p.AttestRecord?) ==> p.c.state != Fulfilled
  }

  ghost predicate AllAttestOpen(s: State) {
    forall client :: client in s.clients ==> AttestsOpen(s.clients[client])
  }

  lemma NextAttestsOpen(s: State, step: Step)
    requires AllAttestOpen(s)
    ensures AllAttestOpen(Next(s, step))
  {
    forall client | client in Next(s, step).clients ensures AttestsOpen(Next(s, step).clients[client]) {
      if ClientOf(step) != Some(client) {
        OtherClientsStay(s, step, client);
      } else if step.Advance? && client in s.clients {
        AdvanceAttestsOpen(s, client, s.clients[client], step.id, step.stamp);
      }
    }
  }

  lemma AdvanceAttestsOpen(s: State, client: nat, p: Pending, id: string, stamp: Attestation)
    requires AttestsOpen(p) && client in s.clients && s.clients[client] == p
    ensures var s' := AdvanceOne(s, client, p, id, stamp); client in s'.clients ==> AttestsOpen(s'.clients[client])
  {
  }

  /** What may still be written over a fulfilled record. */
  ghost predicate OnlyDischarged(r: Record, r': Record) {
    r' == r.(version := r'.version, discharged := r'.discharged) && r.version <= r'.version
    && (r.discharged ==> r'.discharged)
  }

  lemma FulfilledStep(s: State, step: Step)
    requires Inv(s) && AllAttestOpen(s) && s.com.state == Fulfilled
    ensures OnlyDischarged(s.com, Next(s, step).com)
  {
    if Next(s, step).com != s.com {
      AcceptedWriteSawLatest(s, step);
      var p := s.clients[step.client];
      assert PendingOk(s, p) && AttestsOpen(p);
      FulfilledAdvance(s, step.client, p, step.id, step.stamp);
    }
  }

  lemma FulfilledAdvance(s: State, client: nat, p: Pending, id: string, stamp: Attestation)
    requires PendingOk(s, p) && AttestsOpen(p) && s.com.state == Fulfilled
    ensures OnlyDischarged(s.com, AdvanceOne(s, client, p, id, stamp).com)
  {
    if Basis(p).None? {
      AdvanceWritesNoRecord(s, client, p, id, stamp);
    }
  }

  lemma {:induction false} FulfilledForever(s: State, steps: seq<Step>)
    requires Inv(s) && AllAttestOpen(s) && s.com.state == Fulfilled
    ensures OnlyDischarged(s.com, Run(s, steps).com)
    decreases |steps|
  {
    if steps != [] {
      NextKeepsInv(s, steps[0]);
      NextAttestsOpen(s, steps[0]);
      FulfilledStep(s, steps[0]);
      FulfilledForever(Next(s, steps[0]), steps[1..]);
    }
  }

  lemma {:induction false} RunAttestsOpen(s: State, steps: seq<Step>)
    requires AllAttestOpen(s)
    ensures AllAttestOpen(Run(s, steps))
    decreases |steps|
  {
    if steps != [] {
      NextAttestsOpen(s, steps[0]);
      RunAttestsOpen(Next(s, steps[0]), steps[1..]);
    }
  }

  /** From a fresh commitment, however it was reached: once fulfilled, a commitment keeps its state, epoch,
      due time and whether it was overdue through every further run. Only its discharge is still noted. */
  lemma FulfilledStands(kase: CaseRow, com: Record, steps: seq<Step>, more: seq<Step>)
    requires com.state == Active && com.epoch == kase.epoch
    ensures var s := Run(State(kase, com, map[], map[], map[], [com], []), steps);
            s.com.state == Fulfilled ==> OnlyDischarged(s.com, Run(s, more).com)
  {
    var s := State(kase, com, map[], map[], map[], [com], []);
    FreshCommitment(kase, com);
    RunKeepsInv(s, steps);
    RunAttestsOpen(s, steps);
    if Run(s, steps).com.state == Fulfilled {
      FulfilledForever(Run(s, steps), more);
    }
  }

  ghost predicate CanBeFulfilled(s: State) {
    exists more :: Run(s, more).com.state == Fulfilled
  }

  /** Whatever else is in flight, an attestation that agrees with a recorded one goes through. */
  lemma AlignedCanBeFulfilled(s: State)
    requires Inv(s) && s.com.state == Withdrawn && s.com.epoch == s.kase.epoch
    ensures CanBeFulfilled(s)
  {
    var stamp := if s.com.version in s.attestations then s.attestations[s.com.version] else Attestation("", 0);
    CancelledCanBeFulfilled(s, 0, stamp);
    ThreeSteps(s, BeginAttest(0, 0), Advance(0, "", stamp), Advance(0, "", stamp));
  }

  /** After every run from a fresh commitment, with any clients in flight: a cancelled commitment stands
      beside its cancelled case at the same epoch, and some continuation fulfils it. So cancellation is
      never final; by `RunProgress` it is left for nothing else. */
  lemma CancelledNeverFinal(kase: CaseRow, com: Record, steps: seq<Step>)
    requires com.state == Active && com.epoch == kase.epoch
    ensures var s := Run(State(kase, com, map[], map[], map[], [com], []), steps);
            s.com.state == Withdrawn ==>
              s.kase.status == Cancelled && s.com.epoch == s.kase.epoch && CanBeFulfilled(s)
  {
    var s := State(kase, com, map[], map[], map[], [com], []);
    FreshCommitment(kase, com);
    RunKeepsInv(s, steps);
    RunKeepsAligned(s, steps);
    if Run(s, steps).com.state == Withdrawn {
      AlignedCanBeFulfilled(Run(s, steps));
    }
  }
}
