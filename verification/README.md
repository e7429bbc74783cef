# Administrative orchestrator: a verified model

The orchestrator turns conversations into administrative cases, has them approved by people who
hold the right roles, carries them out through external systems and closes them on evidence. This
project models the parts of it that must stay right when requests repeat, arrive out of order,
overlap or stop half-way, and proves what they promise.

| file | what it models |
|---|---|
| `Common.dfy`, `Sorting.dfy` | options, results, string order, stable sorting by tuple keys |
| `Authority.dfy`, `Approval.dfy` | who holds a role when, and the backtracking search for an approval |
| `Governance.dfy` | freezing the rows an approval rests on, and checking them again |
| `AuthorityLifecycle.dfy`, `AuthorityHistory.dfy`, `AuthorityAudit.dfy` | binding, expiry and deactivation as a state machine, what they mean for past approvals and frozen bases, and what the recorded events tell |
| `Commitment.dfy`, `Transport.dfy`, `DeliveryRecords.dfy`, `Cancellation.dfy`, `CommitmentService.dfy` | one commitment, its case and its messages under concurrent clients, how often and for which epoch a message is sent, what its delivery state says about its transports, what becomes of a cancelled commitment, and the service's operations as runs of that machine |
| `Admission.dfy`, `PromotionOutcome.dfy`, `Conversation.dfy` | candidates, supersession and promotion under interleaving, what a promotion answers, and the exactly-once message timeline |
| `Ledger.dfy`, `Completion.dfy` | the evidence ledger, and the decision that all obligations are met |
| `Matching.dfy` | three-way match and invoice qualification |
| `FactOverlay.dfy` | authoritative facts laid over claims, and their revalidation |
| `ObligationOrder.dfy` | derived obligation order and its restoration by a migration |

How things are represented:

- A table is a map from primary key to row. Loops over rows take them in arbitrary order, so every
  result holds for any order the database returns.
- A transaction is one atomic step; a raised exception is an `Err` or a refusal that changes nothing.
  Operations made of several transactions (cancel, revise, attest, drive, discharge, dispatch,
  promote) are split there, and other clients may run, or the client may stop, in between. The
  preparation of a communication is the exception: its several inserts are one step.
- Clocks, generated ids, digests, text folding, HR reads and the outcome of each send are parameters.
  Ids derived by hashing are treated as functions of what they are derived from.
- Decimals are exact reals, instants are integers.
- Classes carry the state the repositories update in place. Each method is tied to a step or result
  function by its contract; the properties of whole runs are lemmas about those functions.

Where a natural expectation is not met by the code, the model keeps the code's behaviour, gives a
concrete counterexample and proves exactly when the expectation does hold. These are: exactness of
the window overlap test, replayed expiries, expiry of a delegation at its start, finality of a
cancelled commitment (in no reachable state), transport at most once and for the current epoch only,
SUPERSEDED as a final status, ADMITTED only by promotion, promotion on the candidate's own
assessment, reused realization ids, invoice totals, and revalidation of a merged record.

## Model

| member | source | states |
|---|---|---|
| `Authority.AnyGrant` | src/administrative_orchestrator/authority.py:361-416 | Finds a grant exactly when the principal holds the role directly, in scope and in its window, in whatever order the rows come. |
| `Authority.DirectRoles` | src/administrative_orchestrator/authority.py:361-416 | The returned roles are exactly those held directly. |
| `Authority.RolesFor` | src/administrative_orchestrator/authority.py:361-416 | Fails exactly when some delegation row of the principal, current or not, cannot be read back; otherwise the roles held directly or by one delegation step from somebody who holds them directly, no others. |
| `Authority.HoldsMeaning` | src/administrative_orchestrator/authority.py:361-416 | Who holds a role, by the columns alone: an assignment of the role covering scope and instant, or such a delegation from the principal of such an assignment. |
| `Authority.RoleNeedsDirectHolder` | src/administrative_orchestrator/authority.py:361-416 | Delegation creates no role: whoever holds a role, somebody holds it directly. |
| `Approval.SearchDecides` | src/administrative_orchestrator/authority.py:686-711 | The backtracking search succeeds if and only if some assignment of decisions to roles exists (with distinct principals where required), and what it returns is one. |
| `Approval.SelectionEarliest` | src/administrative_orchestrator/authority.py:686-711 | The selection is the earliest possible: no valid choice that agrees with it on the first roles takes an earlier decision for the next one. |
| `Approval.RoleSelector.Visit` | src/administrative_orchestrator/authority.py:686-711 | The recursive closure, which appends to and pops from one list, leaves that list as the search result on success and exactly as it found it on failure. |
| `Approval.CollectCandidates` | src/administrative_orchestrator/authority.py:613-640 | Candidates per role are exactly the eligible decisions in their original order; fails exactly on an unreadable deciding principal. |
| `Approval.AssessApprovalSatisfaction` | src/administrative_orchestrator/authority.py:613-683 | Fails exactly on an approving decision whose principal's roles cannot be read; satisfied exactly when an approval by the given decisions exists, and then selects one; whole result as analysed in `AssessmentMeaning`. |
| `Approval.AssessmentMeaning` | src/administrative_orchestrator/authority.py:613-683 | Satisfied if and only if there is, for each role in order, an approving decision on this case, epoch and policy in that role by somebody who held it when deciding, with distinct principals where required; the selection is such a choice; missing roles are exactly those nobody endorsed. |
| `Approval.AssessmentFails` | src/administrative_orchestrator/authority.py:626-640 | Fails exactly on an approving decision on this case, epoch and policy, for a required role, whose principal's delegations cannot be read. |
| `Approval.BlockedByDistinctness` | src/administrative_orchestrator/authority.py:642-659 | Unsatisfied without a missing role happens exactly when every role has a candidate, distinct principals are required and no distinct choice exists. |
| `Approval.AssessmentMonotone` | src/administrative_orchestrator/authority.py:613-683 | More decisions, in any order, never undo a satisfied assessment nor add a missing role; order alone changes no verdict. |
| `Approval.OneUnreadablePrincipalBlocksAll` | src/administrative_orchestrator/authority.py:613-683 | One further relevant decision by a principal with an unreadable delegation row makes the assessment fail, and nothing else does. |
| `Governance.HoldsIffSupported` | src/administrative_orchestrator/governance.py:515-585 | A role is held exactly when some list of row references supports it: role reading and basis selection agree. |
| `Governance.BasisUnique` | src/administrative_orchestrator/governance.py:515-585 | At most one basis exists for a principal, role, scope and instant, so row order cannot change it. |
| `Governance.SelectQualificationBasis` | src/administrative_orchestrator/governance.py:515-585 | Selects the least supporting references: direct before delegated, then by id; finds one exactly for an active principal that holds the role. |
| `Governance.CreateForApproval` | src/administrative_orchestrator/governance.py:122-160 | Succeeds exactly when the approval is current, each decision is stored with a role, the policy is stored and each deciding principal is active and qualified; the frozen basis is then fully determined. |
| `Governance.QualifyDecisions` | src/administrative_orchestrator/governance.py:318-422 | One qualification per decision, all or nothing. |
| `Governance.BasisIgnoresDecisionOrder` | src/administrative_orchestrator/governance.py:318-422 | The frozen qualifications do not depend on the order in which the approval lists its decisions. |
| `Governance.CaseReasons` | src/administrative_orchestrator/governance.py:198-220 | Reports exactly the case, fact and dependency reasons that apply. |
| `Governance.QualificationReasons` | src/administrative_orchestrator/governance.py:246-263 | Reports exactly the qualifications that are gone or rest on other rows now. |
| `Governance.Revalidate` | src/administrative_orchestrator/governance.py:192-265 | Valid if and only if no reason applies, and the reasons reported are exactly those that apply. |
| `Governance.ValidMeaning` | src/administrative_orchestrator/governance.py:192-265 | Valid if and only if, field by field: same case and epoch; the very snapshot and facts, or the same value for each fact depended on; same policy, in effect and defined as it was; same transactions; each principal qualified by the very rows frozen. |
| `Governance.FrozenBasisValidity` | src/administrative_orchestrator/governance.py:192-422 | Freezing followed by revalidation, across both functions: a basis stays valid for its own case exactly as long as each deciding principal would be given the very same row references. |
| `Governance.BasisRowsCurrent` | src/administrative_orchestrator/governance.py:515-597 | Every row a basis names is current at the instant it is for. |
| `Governance.EndedRowInvalidates` | src/administrative_orchestrator/governance.py:192-265 | A basis that names a row whose window is over is refused. |
| `AuthorityLifecycle.OverlapMeaning` | src/administrative_orchestrator/authority_lifecycle.py:322-330 | The overlap test misses no shared instant, and tells the truth if and only if it says no or neither window is empty. |
| `AuthorityLifecycle.RevokedAtStartStillBlocks` | src/administrative_orchestrator/authority_lifecycle.py:322-330 | Counterexample to exactness: a binding revoked at its start shares no instant with a window it still blocks. |
| `AuthorityLifecycle.RunShortens` | src/administrative_orchestrator/authority_lifecycle.py:49-330 | Over every run of every operation no row is removed or rewritten and no event changes; only the end of a window may move earlier. |
| `AuthorityLifecycle.RunSeparates` | src/administrative_orchestrator/authority_lifecycle.py:159-211 | Over every run of every operation, bindings of one provider and subject never share an instant. |
| `AuthorityLifecycle.CurrentBindings` | src/administrative_orchestrator/authority.py:218-248 | Exactly the bindings of the subject that are current. |
| `AuthorityLifecycle.ResolveIdentity` | src/administrative_orchestrator/authority.py:218-248 | Returns p if and only if exactly one binding is current and it points to the active p. |
| `AuthorityLifecycle.ResolutionExact` | src/administrative_orchestrator/authority.py:218-248 | After any run from no bindings resolution returns p if and only if some current binding points to p and p is active; at most one binding is current, so the multiple-match case cannot occur. |
| `AuthorityLifecycle.ReplayedExpiry` | src/administrative_orchestrator/authority_lifecycle.py:237-287 | Repeating an accepted expiry after any run is accepted exactly when nothing shortened the row further in between, and changes nothing either way. |
| `AuthorityLifecycle.ReplayAfterEarlierExpiryFails` | src/administrative_orchestrator/authority_lifecycle.py:237-287 | Counterexample: an earlier expiry in between makes the repetition fail. |
| `AuthorityLifecycle.DelegationExpiryReadable` | src/administrative_orchestrator/authority_lifecycle.py:132-157 | An expired delegation can be read back exactly when the expiry is later than its start. |
| `AuthorityLifecycle.AuthorityStore.PutIdentityBinding` | src/administrative_orchestrator/authority.py:183-216 | Acceptance and new state of one put, as one step of the machine. |
| `AuthorityLifecycle.AuthorityStore.BindIdentity` | src/administrative_orchestrator/authority_lifecycle.py:159-211 | Acceptance and new state, including the roll-back of a refused event. |
| `AuthorityLifecycle.AuthorityStore.ExpireValidity` | src/administrative_orchestrator/authority_lifecycle.py:237-287 | Acceptance and new state of an expiry of any of the three kinds of row; a refused recording rolls the row back. |
| `AuthorityLifecycle.AuthorityStore.Record` | src/administrative_orchestrator/authority_lifecycle.py:289-320 | An event is stored once; a differing repetition is refused. |
| `AuthorityLifecycle.AuthorityStore.DeactivatePrincipal` | src/administrative_orchestrator/authority_lifecycle.py:49-79 | Acceptance and new state of a deactivation; accepted, the principal is inactive. |
| `AuthorityHistory.HoldsAfterEnding` | src/administrative_orchestrator/authority_lifecycle.py:81-157 | After expiries from a cutoff on, nobody gains a role at any instant and nobody loses one before the cutoff. |
| `AuthorityHistory.RunEndsAfter` | src/administrative_orchestrator/authority_lifecycle.py:81-157 | Every run of such expiries relates the tables in that way. |
| `AuthorityHistory.RunReadableIff` | src/administrative_orchestrator/authority_lifecycle.py:132-157 | After any run of any operations a principal's delegations can be read back if and only if they could be before and no accepted operation of the run ended one of them at its very start. |
| `AuthorityHistory.PastApprovalsStandIff` | src/administrative_orchestrator/authority.py:613-683 | The whole assessment of decisions made before the cutoff is the same after any run of later expiries if and only if it failed already or no deciding principal had a delegation ended at its start. |
| `AuthorityHistory.ExpiredRowRefusedForever` | src/administrative_orchestrator/governance.py:192-265 | From an expiry on, every basis that names the row is refused, after any further run of any operations. |
| `AuthorityHistory.StartExpiryBreaksAssessment` | src/administrative_orchestrator/authority_lifecycle.py:132-157 | Concrete instance: expiring a delegation at its start breaks an unrelated earlier approval. |
| `AuthorityAudit.DeactivatedShutOut` | src/administrative_orchestrator/authority_lifecycle.py:49-79 | After a deactivation and any run that does not put the principal back as active: no identity resolves to it at any instant, and none can be bound to it. |
| `AuthorityAudit.DeactivatedRefused` | src/administrative_orchestrator/governance.py:246-263 | And every frozen basis with a qualification of that principal is refused. |
| `AuthorityAudit.AssignmentTakesEffect` | src/administrative_orchestrator/authority.py:250-268 | An assignment is refused exactly when its id stands for another row, and gives its role throughout scope and window. |
| `AuthorityAudit.DelegationTakesEffect` | src/administrative_orchestrator/authority.py:270-290 | A delegation is refused exactly for an empty window or a taken id, and passes on what its source holds directly. |
| `AuthorityAudit.BindAcceptedIff` | src/administrative_orchestrator/authority_lifecycle.py:159-211 | Where no window is empty: bound exactly when a reason is given, the principal is active, the ids are new and no instant of the window is taken for that provider and subject. |
| `AuthorityAudit.BindTakesEffect` | src/administrative_orchestrator/authority.py:218-248 | A new binding resolves its identity throughout its window, to its principal and exactly when that is active. |
| `AuthorityAudit.AmbiguousResolvesToNobody` | src/administrative_orchestrator/authority.py:218-248 | While two bindings of an identity are current it resolves to nobody. |
| `AuthorityAudit.PutBindingAcceptedIff` | src/administrative_orchestrator/authority.py:183-216 | A put writes exactly the first binding of a provider and subject, under a new id. |
| `AuthorityAudit.PrincipalChanges` | src/administrative_orchestrator/authority_lifecycle.py:49-79 | When a deactivation is accepted, and what a put makes of a principal. |
| `AuthorityAudit.RunRecordsEnds` | src/administrative_orchestrator/authority_lifecycle.py:237-287 | Over every run: whatever row ends up with another end, an event with a reason records the window it ended up with. |
| `AuthorityAudit.RunTells` | src/administrative_orchestrator/authority_lifecycle.py:49-320 | Over every run: each recorded event tells who did what to which row, why and when, as one of the operations did. |
| `AuthorityAudit.RunTracesBindings` | src/administrative_orchestrator/authority_lifecycle.py:159-211 | Over every run a binding comes into being by a put or by a bind that left its creation event. |
| `AuthorityAudit.RunDeactivates` | src/administrative_orchestrator/authority_lifecycle.py:49-79 | A principal becomes inactive only by being put so or by a deactivation that left its event. |
| `Commitment.FreshCommitment` | src/administrative_orchestrator/commitment_repository.py:255-276 | A freshly stored commitment satisfies the invariant. |
| `Commitment.RunKeepsInv` | src/administrative_orchestrator/commitment_repository.py:298-309 | The invariant (history, epochs, sends, communications and what every waiting client may still rely on) holds after every interleaving of any number of clients, with stops anywhere. |
| `Commitment.AcceptedWriteSawLatest` | src/administrative_orchestrator/commitment_repository.py:298-309 | No lost update: a stored record only changes by a write computed from exactly the record it replaces. |
| `Commitment.HistoryVersions` | src/administrative_orchestrator/commitment_repository.py:298-309 | Accepted versions are consecutive, each once. |
| `Commitment.RunProgress` | src/administrative_orchestrator/commitment_lifecycle.py:28-75 | Over every interleaving: commitment epoch never decreases and never exceeds the case epoch, FULFILLED is final, CANCELLED is left only towards FULFILLED, OVERDUE implies was-overdue, which is never cleared, and history and transports only grow. |
| `Transport.AtMostOnceIff` | src/administrative_orchestrator/commitment_communication.py:285-398 | An event is transported at most once in every run if and only if no new dispatch would transport it and at most one transport has been made or is on its way. |
| `Transport.NeverAgainIff` | src/administrative_orchestrator/commitment_communication.py:285-398 | An event is never transported again in any run if and only if no new dispatch would do so and none is on its way. |
| `Transport.NeverStaleIff` | src/administrative_orchestrator/commitment_communication.py:293-306 | No run transports for an epoch older than the commitment has now if and only if no dispatch in flight has already passed its check for an older one. |
| `Transport.CancelOvertakesDispatch` | src/administrative_orchestrator/commitment_communication.py:298-345 | From any state with a transportable event: a cancellation between check and transport lets the message go out for the epoch the commitment has just left. |
| `Transport.CarefulRunsSendOnce` | src/administrative_orchestrator/commitment_communication.py:285-398 | Whatever the interleaving, a run that never starts a dispatch of an event beside another and never drops one between its transport and its record transports each event at most once. |
| `Transport.AbandonedDispatchSendsTwice` | src/administrative_orchestrator/commitment_communication.py:344-398 | A dispatch that stops after its transport leaves every row as if nothing had been sent, and the next dispatch sends again. |
| `Transport.UninterruptedSendsOnce` | src/administrative_orchestrator/commitment_due.py:51-58 | Dispatches that nothing interrupts keep every event at one transport. |
| `Transport.EventStays` | src/administrative_orchestrator/commitment_repository.py:432-440 | Although writes to an event have no version guard, none gives it another epoch or makes it prepared again. |
| `Commitment.MismatchRefuses` | src/administrative_orchestrator/commitment_due.py:21-33 | While the epochs differ, cancel, revise, attest and drive all refuse without writing. |
| `Commitment.StuckForever` | src/administrative_orchestrator/commitment_cancellation.py:30-89 | A commitment its cancelled case has left behind keeps state, epoch and due time in every run, and no communication is added. |
| `Commitment.CancelStoppedEarly` | src/administrative_orchestrator/commitment_cancellation.py:55-74 | A cancellation that stops after its first write leaves exactly that situation, while a prepared message of the old epoch is still transported. |
| `Cancellation.CancelledNeverFinal` | src/administrative_orchestrator/commitment_lifecycle.py:32-69 | After every run from a fresh commitment, whatever is in flight: a cancelled commitment stands beside its cancelled case at the same epoch, and some continuation fulfils it. CANCELLED is never final. |
| `Cancellation.RunKeepsAligned` | src/administrative_orchestrator/commitment_cancellation.py:46-74 | Over every interleaving CANCELLED goes with a cancelled case at the same epoch, because nothing moves a cancelled case and a pending second write of a cancellation carries that case's epoch. |
| `Cancellation.ClosedCaseForever` | src/administrative_orchestrator/commitment_cancellation.py:46-74 | In every run, whatever is in flight, a cancelled or completed case stays exactly as it is. |
| `Cancellation.FulfilledStands` | src/administrative_orchestrator/commitment_lifecycle.py:32-75 | From a fresh commitment, however reached: once fulfilled it keeps state, epoch, due time and lateness through every further run; only its discharge is noted. |
| `Commitment.CancelledCanBeFulfilled` | src/administrative_orchestrator/commitment_lifecycle.py:32-69 | One uninterrupted attestation of a cancelled commitment fulfils it exactly when no differing attestation was recorded for the version. |
| `Commitment.RecordedAttestationBlocks` | src/administrative_orchestrator/commitment_repository.py:311-336 | An attestation recorded for the version lets exactly the same basis and time stamp through. |
| `Transport.OverlappingDispatchesSendTwice` | src/administrative_orchestrator/commitment_repository.py:432-440 | From any state with a transportable event: a second dispatch that reads before the first has recorded transports it again, and the row ends up with one attempt. |
| `Commitment.DeliveryOf` | src/administrative_orchestrator/commitment_communication.py:344-450 | Whatever a send returns, the recorded delivery state never waits for another dispatch. |
| `DeliveryRecords.DispatchRecords` | src/administrative_orchestrator/commitment_communication.py:308-398 | One dispatch records exactly the state the answer stands for: confirmed, accepted, failed for good, or unknown for the seven codes that leave it open, a broken exchange and an unobserved success; one attempt and one transport, and neither without a configured gateway. |
| `DeliveryRecords.OtherDispatchRecords` | src/administrative_orchestrator/commitment_communication.py:288-306 | A dispatch of an event that is not prepared does nothing; one of another epoch gives the event up untransported. |
| `DeliveryRecords.RunJustified` | src/administrative_orchestrator/commitment_communication.py:285-398 | Over every interleaving, for stored events and for every copy a client is about to write: one counted attempt goes with a transport of that event and epoch that was answered so; without one the event waits or was given up. |
| `DeliveryRecords.NothingConfirmedUnsent` | src/administrative_orchestrator/commitment_communication.py:344-398 | After every run from a fresh commitment an event stands as delivered, accepted or unknown only if one of its transports was answered so. |
| `CommitmentService.CancelIsRun` | src/administrative_orchestrator/commitment_cancellation.py:30-89 | An uninterrupted cancellation is a run of the interleaved machine with the stated result, closing every waiting communication. |
| `CommitmentService.CancelInFull` | src/administrative_orchestrator/commitment_cancellation.py:30-89 | When a cancellation is possible, and its result field by field: next epoch for both, and exactly the prepared and retrying messages given up. |
| `CommitmentService.ReviseIsRun` | src/administrative_orchestrator/commitment_revision.py:32-102 | So is a revision, however far it gets before it is refused. |
| `CommitmentService.ReviseInFull` | src/administrative_orchestrator/commitment_revision.py:32-102 | The result of a revision field by field, approved or not, with and without its confirmation. |
| `CommitmentService.AttestIsRun` | src/administrative_orchestrator/commitment_lifecycle.py:28-75 | So is an uninterrupted attestation. |
| `CommitmentService.AttestInFull` | src/administrative_orchestrator/commitment_lifecycle.py:28-75 | When an attestation is taken, and its result field by field; late exactly after the due time, the case completed unless closed. |
| `CommitmentService.DriveIsRun` | src/administrative_orchestrator/commitment_due.py:21-40 | So is the part of a drive before dispatching, with and without its reminder. |
| `CommitmentService.DriveInFull` | src/administrative_orchestrator/commitment_due.py:21-40 | A drive marks the commitment overdue from its due time on, asks for a reminder exactly when overdue and none was ever prepared, and is refused exactly when that reminder is. |
| `CommitmentService.DrivesRemindOnce` | src/administrative_orchestrator/commitment_due.py:35-40 | No drive adds a second reminder. |
| `CommitmentService.EnsureInFull` | src/administrative_orchestrator/commitment_communication.py:74-283 | A message is prepared exactly for the epoch of an authorized case, under an id that stands for nothing or for that same event untried. |
| `CommitmentService.DispatchIsRun` | src/administrative_orchestrator/commitment_communication.py:285-398 | So is a dispatch: read, check, transport and record in a row. |
| `CommitmentService.DischargeIsRun` | src/administrative_orchestrator/commitment_service.py:452-460 | So is a discharge. |
| `CommitmentService.ReachesKeepsInv` | src/administrative_orchestrator/commitment_cancellation.py:18-89 | Whatever is proved of all runs holds of every service operation. |
| `CommitmentService.Service.StoreRecord` | src/administrative_orchestrator/commitment_repository.py:298-309 | A record is stored, with the next version, exactly over the version that was read. |
| `CommitmentService.Service.EnsureCommunication` | src/administrative_orchestrator/commitment_communication.py:74-283 | Succeeds exactly when the case is authorized at the commitment's epoch, the lineage is in place and the event's id is free or holds that very event; then the event is stored, prepared, at that epoch. |
| `CommitmentService.Service.DispatchCommunication` | src/administrative_orchestrator/commitment_communication.py:285-397 | The new state of one dispatch; a transported event is recorded in a state its answer bears, and by `DispatchRecords` in no other. |
| `CommitmentService.Service.CancelCommitment` | src/administrative_orchestrator/commitment_cancellation.py:30-89 | Result and whole new state in every case, refusals included, reached by a run. |
| `CommitmentService.Service.CloseWaiting` | src/administrative_orchestrator/commitment_cancellation.py:75-89 | Exactly the waiting communications become permanently failed. |
| `CommitmentService.Service.ReviseDueAt` | src/administrative_orchestrator/commitment_revision.py:32-102 | Succeeds exactly when changeable, with facts, approved and with its confirmation accepted; the whole new state for each way to be refused, reached by a run. |
| `CommitmentService.Service.AttestFulfillment` | src/administrative_orchestrator/commitment_lifecycle.py:28-75 | Succeeds exactly when the entitled committer attests and the commitment is attestable or already fulfilled, with the whole new state, reached by a run. |
| `CommitmentService.Service.DischargeResponsibility` | src/administrative_orchestrator/commitment_service.py:385-460 | Succeeds exactly for a fulfilled commitment with a provisioned responsibility; writes only when not discharged before. |
| `CommitmentService.Service.DispatchPrepared` | src/administrative_orchestrator/commitment_due.py:51-58 | Dispatches exactly the prepared communications of the current epoch, each once, leaves all others as they are, and transports exactly those, in that order; no event is transported twice. |
| `CommitmentService.Service.Drive` | src/administrative_orchestrator/commitment_due.py:21-63 | Succeeds exactly when the epochs agree and a needed reminder is accepted; a refused reminder leaves the mark and dispatches nothing; the whole new state, reached by a run that transports no event twice. |
| `Admission.RunExtends` | src/administrative_orchestrator/admission.py:178-383 | Under any interleaving promotions share no candidate, request or source event, each one's receipt leads to its own request and only case, and nothing recorded is lost. |
| `Admission.PromotionAnswersForever` | src/administrative_orchestrator/admission.py:351-383 | After any run a committed promotion answers a repeat with the same assessment, event and requester by the same request and case, and any other by a conflict. |
| `Admission.RunKeepsInv` | src/administrative_orchestrator/conversation.py:444-501 | Under any interleaving each candidate supersedes only an earlier one of its own conversation, has at most one successor and is no longer ACTIVE once it has one. |
| `Admission.ChainsAcyclic` | src/administrative_orchestrator/conversation.py:444-501 | Supersession chains of any length never close and never leave their conversation. |
| `Admission.SequentialRunKeepsSuperseded` | src/administrative_orchestrator/admission.py:221-316 | Over every sequential run of appends, supersessions and whole promotions, a candidate with a successor is and stays SUPERSEDED. |
| `Admission.SupersededRunIff` | src/administrative_orchestrator/admission.py:221-316 | Under any interleaving every candidate with a successor is SUPERSEDED if and only if no promotion was ever committed for a candidate superseded since its check. |
| `Admission.CommitAfterSupersession` | src/administrative_orchestrator/admission.py:314-316 | The one step that can break it: a commit, exactly when its candidate was superseded after the check. |
| `Admission.InterleavedPromoteBreaksIt` | src/administrative_orchestrator/admission.py:224-316 | Counterexample: supersession between check and commit ends with the superseded candidate ADMITTED. |
| `Admission.ReplayedSupersession` | src/administrative_orchestrator/conversation.py:444-494 | Replaying a supersession after any run changes nothing, and succeeds exactly while both candidates still have the status it gave them. |
| `Admission.AdmittedPromotedIff` | src/administrative_orchestrator/admission.py:302-316 | Under any interleaving every ADMITTED candidate has its promotion if and only if none was ever appended as ADMITTED, which appending does not check. |
| `Admission.AppendedAdmittedIsOrphan` | src/administrative_orchestrator/intake/repository.py:735-760 | Counterexample: a candidate appended as ADMITTED has no promotion. |
| `Admission.RunKeepsAssessments` | src/administrative_orchestrator/admission.py:117-234 | Under any interleaving no candidate has two final assessments, and every promotion, done or under way, rests on a stored final ADMIT that no model suggested. |
| `Admission.RunKeepsReceipts` | src/administrative_orchestrator/admission.py:235-248 | Under any interleaving every promotion, done or under way, rests on a stored verified receipt for its event, from a named system and tenant, whose artifact is among the candidate's sources, and has a requester. |
| `Admission.OwnAssessmentsRunIff` | src/administrative_orchestrator/admission.py:227-233 | Under any interleaving every promotion rests on its own candidate's assessment if and only if none was ever committed on another's. |
| `Admission.CommitOwnAssessment` | src/administrative_orchestrator/admission.py:227-233 | A commit rests on its own candidate's assessment exactly when the caller passed that one. |
| `Admission.ForeignAssessmentPromotes` | src/administrative_orchestrator/admission.py:227-233 | Counterexample: the final assessment of another candidate promotes. |
| `Admission.IntakeStore.AppendCandidate` | src/administrative_orchestrator/conversation.py:496-501 | Result and new state of an append, with and without a predecessor. |
| `Admission.IntakeStore.SupersedeCandidate` | src/administrative_orchestrator/conversation.py:444-494 | Succeeds exactly when supersedable or already so superseded; new state. |
| `Admission.IntakeStore.CheckPromotion` | src/administrative_orchestrator/admission.py:178-248 | Result and effect of everything before the transaction, blank identifiers included; nothing gets through without a verified receipt. Conditions in full in `PendingIff` and `ExistingIff`. |
| `Admission.IntakeStore.CommitPromotion` | src/administrative_orchestrator/admission.py:269-349 | Result and effect of the committing transaction and its conflict handling. |
| `PromotionOutcome.PendingIff` | src/administrative_orchestrator/admission.py:190-248 | The check lets a promotion through exactly under these conditions, column by column. |
| `PromotionOutcome.ExistingIff` | src/administrative_orchestrator/admission.py:351-383 | It answers with an earlier promotion exactly when there is one for the same candidate, assessment, event and requester. |
| `PromotionOutcome.BeginInFull` | src/administrative_orchestrator/admission.py:178-248 | Only what is let through is under way afterwards, with the assessment, event and requester asked for. |
| `PromotionOutcome.CommitInFull` | src/administrative_orchestrator/admission.py:269-349 | The transaction creates exactly when candidate, event and ids are free, and what it leaves; it answers with a concurrent promotion exactly when that agrees; otherwise it writes nothing. |
| `PromotionOutcome.StoppedCommitsNothing` | src/administrative_orchestrator/admission.py:269-349 | An attempt that stopped before its transaction leaves nothing. |
| `PromotionOutcome.IntakeRecords` | src/administrative_orchestrator/intake/repository.py:801-822 | An assessment is recorded exactly under a new id and, if final, once per candidate and not by a model; a receipt once per source event. |
| `PromotionOutcome.SupersessionInFull` | src/administrative_orchestrator/conversation.py:444-494 | A replacement is taken, or answered again, exactly under these conditions; what it leaves. |
| `PromotionOutcome.CaseOpens` | src/administrative_orchestrator/ingress.py:42-64 | A case opened outside of admission takes its request, id and source event, or nothing at all. |
| `PromotionOutcome.UsedEventBlocks` | src/administrative_orchestrator/admission.py:279-281 | An event that has led to a case never promotes another candidate, under any interleaving. |
| `Conversation.AcceptKeeps` | src/administrative_orchestrator/conversation.py:292-432 | One delivery appends exactly its own message or changes nothing, and keeps the timeline invariant: strictly increasing sequences, unique ids, constant sender and participants, one message per case update. |
| `Conversation.RunKeeps` | src/administrative_orchestrator/conversation.py:292-432 | The same after any sequence of deliveries; the timeline only grows. |
| `Conversation.RedeliveryAnswered` | src/administrative_orchestrator/conversation.py:587-601 | A faithful redelivery is answered with the very message stored, without a write. |
| `Conversation.KnownIdentityAnswer` | src/administrative_orchestrator/conversation.py:323-356 | A trusted delivery that shares its provider id or event id with a stored message is answered with the stored message that equals it in both ids, sender, displayed sender, participants, sequence, digest, sources, interpretations and facts, and is refused exactly when there is none; nothing is written. |
| `Conversation.KnownIdentityChangesNothing` | src/administrative_orchestrator/conversation.py:323-356 | A delivery with a known provider or event id never writes, faithful or not. |
| `Conversation.RepeatsDoNotMatter` | src/administrative_orchestrator/conversation.py:292-432 | Exactly once: from any number of repeats anywhere after their originals, the final state is the one without them. |
| `Conversation.CreatedIff` | src/administrative_orchestrator/conversation.py:292-432 | A message is stored exactly when trusted, unknown by its three ids, next in its thread with the same sender and participants, naming a current candidate or none, and, if it speaks for an admitted one, with that one's case, references and a new update. |
| `Conversation.CreatedWith` | src/administrative_orchestrator/conversation.py:358-432 | What it is stored with: the candidate it speaks for or names, an update of exactly that candidate's case, and no other thread touched. |
| `Conversation.RunTells` | src/administrative_orchestrator/conversation.py:358-432 | In every reachable state a thread began with its first message, was last touched by its last one and is bound to the case of the last update its messages made. |
| `Conversation.FirstMeaning` | src/administrative_orchestrator/conversation.py:554-567 | The first admitted candidate by the columns: of the conversation, ADMITTED, and none newer. |
| `Conversation.AdmittedConversationBinds` | src/administrative_orchestrator/conversation.py:546-585 | Once a candidate is admitted its promotion and only case are found, so the two lineage errors cannot occur. |
| `Conversation.ReachableConversationBinds` | src/administrative_orchestrator/conversation.py:546-585 | The same in every state admission can reach, under any interleaving there, as long as no candidate was appended as ADMITTED. |
| `Conversation.FirstAdmitted` | src/administrative_orchestrator/conversation.py:554-567 | The newest admitted candidate of the conversation, or none if there is none. |
| `Conversation.FindCase` | src/administrative_orchestrator/conversation.py:575-579 | The one case of a request; none and several are both failures. |
| `Conversation.ConversationService.FindMessages` | src/administrative_orchestrator/conversation.py:323-334 | Exactly the stored messages that share an identity. |
| `Conversation.ConversationService.FindAdmittedCase` | src/administrative_orchestrator/conversation.py:546-585 | Candidate and case, or the lineage error, as specified. |
| `Conversation.ConversationService.AcceptMessage` | src/administrative_orchestrator/conversation.py:292-432 | Outcome and whole new timeline in every case; `KnownIdentityAnswer` and `CreatedIff` say which outcome when. |
| `Ledger.RunKeepsLinked` | src/administrative_orchestrator/execution_repository.py:108-331 | In every reachable state each outcome's effect and realization exist, belong together and share its case, version and epoch; nothing is lost or rewritten but an effect's status. |
| `Ledger.RunKeepsAudited` | src/administrative_orchestrator/execution_repository.py:108-331 | Every stored row has exactly one creation event in the audit log, under its own case, in every reachable state. |
| `Ledger.RepeatedEffectIff` | src/administrative_orchestrator/execution_repository.py:108-125 | After any run a stored effect is answered exactly to repetitions equal in case, epoch, authorization, target, operation, subject, reversibility and authority class; they write nothing. |
| `Ledger.RepeatedRealizationIff` | src/administrative_orchestrator/execution_repository.py:210-247 | After any run a realization is answered to the very same row of the same case only. |
| `Ledger.RepeatedOutcomeIff` | src/administrative_orchestrator/execution_repository.py:279-331 | After any run an outcome is answered to the very same row only. |
| `Ledger.StatusTakesEffect` | src/administrative_orchestrator/execution_repository.py:178-208 | Status, provider reference and time after a status change, and that repeating it writes nothing. |
| `Ledger.OutcomeAcceptedIff` | src/administrative_orchestrator/execution_repository.py:279-331 | An outcome is taken exactly when effect and realization are stored and belong together, in its case, version and epoch, under an id of its own. |
| `Ledger.ListingsClosed` | src/administrative_orchestrator/execution_repository.py:159-354 | The outcomes listed for a case and epoch resolve inside the effects and realizations listed for that pair. |
| `Ledger.Listing` | src/administrative_orchestrator/execution_repository.py:159-176 | Exactly the selected rows, each once, in key order, whatever order the table gives. |
| `Ledger.ExecutionRepository.AddEffect` | src/administrative_orchestrator/execution_repository.py:108-148 | Accepted exactly for a new id or the same identity; returns what is stored; whole new state. |
| `Ledger.ExecutionRepository.SetEffectStatus` | src/administrative_orchestrator/execution_repository.py:178-208 | Fails exactly for an unknown effect; a repeated status writes nothing; whole new state. |
| `Ledger.ExecutionRepository.AddRealization` | src/administrative_orchestrator/execution_repository.py:210-247 | Accepted exactly for a stored effect of the case and a new or equal realization; whole new state. |
| `Ledger.ExecutionRepository.AddOutcome` | src/administrative_orchestrator/execution_repository.py:279-331 | Accepted exactly when effect, realization, case, version and epoch fit and the outcome is new or equal; whole new state. |
| `Ledger.ExecutionRepository.ListEffects` | src/administrative_orchestrator/execution_repository.py:159-176 | The effects of the case and epoch by target, operation and id. |
| `Ledger.ExecutionRepository.ListRealizations` | src/administrative_orchestrator/execution_repository.py:254-277 | The realizations whose effect is of the case and, if given, the epoch, by time and id. |
| `Ledger.ExecutionRepository.ListOutcomes` | src/administrative_orchestrator/execution_repository.py:338-354 | The outcomes of the case and, if given, the epoch, by time and id. |
| `Completion.AssessObligations` | src/administrative_orchestrator/completion.py:120-216 | Satisfied if and only if each required obligation has its own proof; the five lists are exactly the unproved obligations by reason, in insertion order; satisfied if and only if there is no reason. |
| `Completion.SatisfiedMeaning` | src/administrative_orchestrator/completion.py:120-216 | Satisfied if and only if, row by row, the last required obligation under each id has a fulfillment of this case and epoch, or a linked effect with its target, operation, subject and authority class and an outcome of its kind on a VERIFIED realization of that effect; where ids repeat the last row counts. |
| `Completion.Judge` | src/administrative_orchestrator/completion.py:153-190 | The verdict on one obligation, each of the six with its exact meaning. |
| `Completion.VerdictExists` | src/administrative_orchestrator/completion.py:153-190 | Some verdict applies to every obligation and evidence. |
| `Completion.VerdictUnique` | src/administrative_orchestrator/completion.py:153-190 | No two verdicts apply at once. |
| `Completion.GroupOutcomes` | src/administrative_orchestrator/completion.py:131-133 | The dict of lists holds exactly the outcomes of each effect, in order. |
| `Completion.CurrentFulfillments` | src/administrative_orchestrator/completion.py:138-143 | Only fulfillments of the same case and epoch count. |
| `Completion.SatisfiedMonotone` | src/administrative_orchestrator/completion.py:120-216 | Evidence that retains all rows keeps a satisfied completion satisfied. |
| `Completion.FreshEvidenceKeepsSatisfied` | src/administrative_orchestrator/completion.py:120-216 | Adding any evidence under fresh ids keeps it satisfied. |
| `Completion.ReusedRealizationsIff` | src/administrative_orchestrator/completion.py:134-136 | Added rows that reuse realization ids keep a completion satisfied if and only if each required external obligation has a confirming outcome whose realization id they leave alone, or one confirmed anew by an added row. |
| `Completion.ReusedIdBreaksProof` | src/administrative_orchestrator/completion.py:134-136 | Concrete instance: one more row for the realization of a satisfied obligation, with another disposition, takes the proof away. |
| `Completion.ModesIndependent` | src/administrative_orchestrator/completion.py:153-162 | Neither way of proving an obligation reads the evidence of the other. |
| `Completion.SatisfiedForever` | src/administrative_orchestrator/completion.py:120-216 | Ledger and completion together: a satisfied completion stays satisfied after any further ledger calls, with links, obligations and fulfillments fixed. |
| `Completion.SatisfiedRestsOnLedger` | src/administrative_orchestrator/completion.py:163-190 | A satisfied external obligation rests on a ledger outcome of this case and epoch, through a VERIFIED realization of the linked, matching effect. |
| `Matching.MatchThreeWay` | src/administrative_orchestrator/financial.py:479-540 | The verdict is that of the first failing check; QUALIFIED if and only if header, lines and receipt agree. |
| `Matching.MatchHeader` | src/administrative_orchestrator/financial.py:485-506 | The same for the header checks in their order. |
| `Matching.MatchOrderLines` | src/administrative_orchestrator/financial.py:508-526 | The same for the purchase order lines. |
| `Matching.MatchReceiptLines` | src/administrative_orchestrator/financial.py:527-539 | The same for the receipt lines. |
| `Matching.QualifiedMeansAgreed` | src/administrative_orchestrator/financial.py:479-540 | The ordered checks all pass exactly when the documents agree. |
| `Matching.QualifiedInFull` | src/administrative_orchestrator/financial.py:479-540 | QUALIFIED column by column: totals, currencies, numbers and references, and every line ordered at that quantity, price and currency and received in full. |
| `Matching.IncompleteIff` | src/administrative_orchestrator/financial.py:479-540 | Incomplete exactly when something is missing before anything disagrees; otherwise, if not qualified, a mismatch; nothing else. |
| `Matching.QualifiedSums` | src/administrative_orchestrator/financial.py:508-540 | QUALIFIED with lines: the invoice lines add up to what the order lines add up to, and total receipts cover total invoiced quantity. |
| `Matching.TotalAddsUpIff` | src/administrative_orchestrator/financial.py:499-526 | The invoice total equals its line sum exactly when the order's own total equals its line sum. |
| `Matching.QualifiedTotalMayNotAddUp` | src/administrative_orchestrator/financial.py:499-526 | Concrete documents: QUALIFIED with an invoice total of 5 over lines that add up to 2. |
| `Matching.QualifyVendor` | src/administrative_orchestrator/financial.py:427-452 | QUALIFIED exactly when one record matches and no other; returns that record. |
| `Matching.VendorInFull` | src/administrative_orchestrator/financial.py:427-452 | The vendor is the one record with the tax id, if the invoice has one, and otherwise the one with the name, case aside. |
| `Matching.DuplicateInFull` | src/administrative_orchestrator/financial.py:455-476 | A duplicate is a known invoice of the vendor under the same number, or a known document digest. |
| `Matching.ResubmissionIsDuplicate` | src/administrative_orchestrator/financial.py:455-476 | Once known by vendor and number or by its document, an invoice stays a duplicate whatever becomes known besides. |
| `Matching.QualifyInvoice` | src/administrative_orchestrator/financial.py:552-639 | QUALIFIED if and only if three assessments are returned and all are QUALIFIED, if and only if nothing blocks, if and only if one vendor matches, nothing is a duplicate and the documents agree. |
| `FactOverlay.MergeAuthoritativeFacts` | src/administrative_orchestrator/fact_acquisition.py:49-100 | Succeeds exactly for a snapshot, a present record and consistent untouched assertions; result as specified, with every assertion equal to its fact. |
| `FactOverlay.InheritAssertions` | src/administrative_orchestrator/fact_acquisition.py:220-235 | A snapshot without assertions gets one per fact. |
| `FactOverlay.MergeMeaning` | src/administrative_orchestrator/fact_acquisition.py:49-100 | Key by key: what the record reports of an overlaid key becomes the fact, with an authoritative assertion from its source; all other facts and assertions stay. |
| `FactOverlay.MergeKeepsConsistent` | src/administrative_orchestrator/domain.py:201-208 | From a valid snapshot the result is valid. |
| `FactOverlay.MergeIdempotent` | src/administrative_orchestrator/fact_acquisition.py:49-100 | Merging the same record again changes nothing. |
| `FactOverlay.FactsAfterMerges` | src/administrative_orchestrator/fact_acquisition.py:65-74 | After any sequence of merges a fact is the value of the last record that had one; missing and None values never erase it. |
| `FactOverlay.ValidateWithDependencies` | src/administrative_orchestrator/fact_acquisition.py:168-217 | Valid if and only if there are dependencies, the record is recent and present and none differs; each of the six kinds of reason is reported exactly when it applies. |
| `FactOverlay.CompareKeys` | src/administrative_orchestrator/fact_acquisition.py:206-217 | Exactly one reason per differing key, the first of the three that applies. |
| `FactOverlay.ReasonMeaning` | src/administrative_orchestrator/fact_acquisition.py:206-217 | The reason for a key names the first difference: source, then record, then value. |
| `FactOverlay.OverlaysChecked` | src/administrative_orchestrator/fact_acquisition.py:102-166 | The keys checked are exactly those the two overlays may write, but for the departing principal. |
| `FactOverlay.HoldsMeaning` | src/administrative_orchestrator/fact_acquisition.py:168-217 | Valid if and only if HR was read recently and reports the subject present, some checked authoritative key is not about to change, and each such key has the same source, record and value in HR now. |
| `FactOverlay.HoldingMergesUnchanged` | src/administrative_orchestrator/fact_acquisition.py:49-217 | Validation and merge together: what still holds is left as it is by merging what HR returns. |
| `FactOverlay.MergedHoldsIff` | src/administrative_orchestrator/fact_acquisition.py:168-217 | A merged snapshot validates against its own record if and only if a checked key is supplied or inherited as authoritative, and the record agrees with every checked assertion that is inherited. |
| `FactOverlay.ClaimsMergedHoldIff` | src/administrative_orchestrator/fact_acquisition.py:168-217 | Starting from claims only: exactly when the record supplies a checked key that is not about to change. |
| `FactOverlay.DepartingPrincipalAloneDoesNotHold` | src/administrative_orchestrator/fact_acquisition.py:112-121 | A present record can fail to validate: the departing principal is overlaid but never checked. |
| `ObligationOrder.DeriveFinancialObligations` | src/administrative_orchestrator/financial_obligations.py:17-110 | Succeeds exactly for a supported case with facts, current policy and effects all inside the contract; obligations in derivation order. |
| `ObligationOrder.DerivableInFull` | src/administrative_orchestrator/financial_obligations.py:23-70 | Derivable exactly with facts, current policy and some effect, all to the ERP and within what the kind of case is for. |
| `ObligationOrder.Upgrade` | alembic/versions/0032_obligation_sequence.py:42-72 | Numbers exactly the stored rows, by position in legacy order within their requirement. |
| `ObligationOrder.GroupRows` | alembic/versions/0032_obligation_sequence.py:60-62 | Each requirement's rows, in row order. |
| `ObligationOrder.NumbersAreOrdinals` | alembic/versions/0032_obligation_sequence.py:64-72 | The numbers of a requirement are exactly 0 to n - 1, each once. |
| `ObligationOrder.RowOrderIrrelevant` | alembic/versions/0032_obligation_sequence.py:49-65 | The order in which the database returns rows makes no difference. |
| `ObligationOrder.MigrationRestoresOrder` | alembic/versions/0032_obligation_sequence.py:31-72 | Whatever else is stored and in whatever order: derived obligations get back the positions they were derived in. |
| `ObligationOrder.DraftBeforeConfirm` | src/administrative_orchestrator/financial_obligations.py:48-62 | A draft always precedes its confirmation. |

## Left out

- HTTP, authentication, connectors, signatures and the effect kernel: input and output only.
- The database engine: foreign keys to tables not modelled, column lengths and isolation levels below
  one atomic transaction.
- `_assess_legacy` and the compatibility wrappers of completion: a simpler form of the modelled loop.
- Policy evaluation, the policy plane and decision recording: their effect on a case is a version and
  epoch change in the commitment machine and an input to revalidation.
- `put_candidate`, speaker resolution and commitment admission: a commitment enters as already stored.
- Message texts, drafts and the obligation payload of a communication: only kind, epoch, delivery
  state and attempts are kept.
- Expense and procurement policies: threshold and category tests that return one of three dispositions.
- `expected_postcondition` of an obligation and the freezing of its payload.
- NaN and infinite decimals, and numeric equality across JSON types such as true and 1.
- CaseReasons: reasons are a list in the source's order, but only their membership is stated.
- QualificationReasons: as above, membership and not order.
- Revalidate: as above; reasons are values, not the message texts.
- CompareKeys: as above; dictionaries of assertions are maps, so the order of reasons is open.
- EnsureCommunication: its several inserts are one step, and the approval, governance basis and
  obligation it looks up are one input.
- CreateForApproval: also fails in the code for dependency keys that are expected to change, for a
  differing basis already stored and for an ambiguous transaction basis; these are not modelled.
- ReviseDueAt: the reviewer check and the approval assessment are inputs.
- AttestFulfillment: that the active committer attests with a basis is an input.
- DischargeResponsibility: the calls into the kernel are inputs.
- FreshEvidenceKeepsSatisfied: with `ReusedRealizationsIff`, covers reused realization ids; reused
  effect ids and second links for an obligation are not characterised.
- QualifyVendor: `strip` and `casefold` are parameters.
- Listing: the ties left open by the key are none, because the id is its last part.
- DispatchPrepared: the order of dispatches within one drive is arbitrary.
