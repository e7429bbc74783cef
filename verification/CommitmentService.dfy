/** The commitment operations as the service runs them when nothing interferes. Each one is a run
    of the interleaved machine, so everything proved of all runs holds of it. */
module CommitmentService {
  import opened Common
  import opened Commitment
  import opened Transport
  import opened DeliveryRecords

  // ---------- Results of uninterrupted operations ----------

  function Store(s: State, r: Record): State {
    var stored := r.(version := r.version + 1);
    s.(com := stored, history := s.history + [stored])
  }

  function Closed(m: Communication): Communication {
    if Waiting(m.delivery) then m.(delivery := PermanentFailed) else m
  }

  /** What `cancel_commitment` and `revise_due_at` both ask for. */
  predicate Changeable(s: State) {
    s.com.epoch == s.kase.epoch && Unsettled(s.com) && !Terminal(s.kase.status)
  }

  ghost function ClosedAll(comms: map<string, Communication>): (r: map<string, Communication>)
    ensures r.Keys == comms.Keys && forall id :: id in comms ==> r[id] == Closed(comms[id])
  {
    Tabulate(comms.Keys, id requires id in comms => Closed(comms[id]))
  }

  ghost function CancelResult(s: State): State
    requires Changeable(s)
  {
    var k := CaseRow(Cancelled, s.kase.version + 1, s.kase.epoch + 1);
    Store(s, s.com.(state := Withdrawn, epoch := k.epoch)).(kase := k, comms := ClosedAll(s.comms))
  }

  /** A cancellation cancels the case, moves both to the next epoch, and leaves no message prepared or to be
      retried; messages already sent keep what is known of them. */
  lemma CancelInFull(s: State)
    ensures Changeable(s) ==>
            var s' := CancelResult(s);
            && s'.kase == CaseRow(Cancelled, s.kase.version + 1, s.kase.epoch + 1)
            && s'.com == s.com.(state := Withdrawn, version := s.com.version + 1, epoch := s.com.epoch + 1)
            && s'.comms.Keys == s.comms.Keys
            && (forall id :: id in s.comms ==>
                  s'.comms[id] == if s.comms[id].delivery in [Prepared, Retrying]
                                  then s.comms[id].(delivery := PermanentFailed) else s.comms[id])
            && s'.sends == s.sends && s'.attestations == s.attestations
    ensures Changeable(s) <==>
            && s.com.epoch == s.kase.epoch && s.com.state !in [Fulfilled, Withdrawn]
            && s.kase.status !in [Completed, Cancelled]
  {
  }

  /** The case after the first write of a revision. */
  function Awaiting(s: State): State {
    s.(kase := CaseRow(AwaitingDecision, s.kase.version + 3, s.kase.epoch + 2))
  }

  /** The second and the third. */
  function Decided(s: State, due: Time): State {
    var k := CaseRow(Authorized, s.kase.version + 1, s.kase.epoch);
    Store(s, s.com.(state := Active, epoch := k.epoch, dueAt := due)).(kase := k)
  }

  function Revised(s: State, due: Time): State {
    Decided(Awaiting(s), due)
  }

  /** How far a revision gets: `approved` is the reviewer's approval under the new policy, `ready` the
      lineage a communication needs. */
  function ReviseResult(s: State, due: Time, id: string, approved: bool, ready: bool): State
    requires Changeable(s)
  {
    if !approved then Awaiting(s)
    else if !ready then Revised(s, due)
    else Ensure(Revised(s, due), Revised(s, due).com, Confirmation, id)
  }

  predicate Attestable(s: State, stamp: Attestation) {
    && s.com.epoch == s.kase.epoch && s.com.state != Fulfilled
    && (s.com.version in s.attestations ==> s.attestations[s.com.version] == stamp)
  }

  function AttestResult(s: State, at: Time, stamp: Attestation): State
    requires Attestable(s, stamp)
  {
    var k := if Terminal(s.kase.status) then s.kase else CaseRow(Completed, s.kase.version + 1, s.kase.epoch);
    Store(s, s.com.(state := Fulfilled, wasOverdue := s.com.wasOverdue || at > s.com.dueAt))
      .(kase := k, attestations := s.attestations[s.com.version := stamp])
  }

  /** A revision moves the case to its next decision two epochs on, and, once approved, the commitment along
      with it, active again and due at the new time; the confirmation comes last. */
  lemma ReviseInFull(s: State, due: Time, id: string, approved: bool, ready: bool)
    requires Changeable(s)
    ensures var s' := ReviseResult(s, due, id, approved, ready);
            && s'.attestations == s.attestations && s'.sends == s.sends
            && s'.kase.epoch == s.kase.epoch + 2
            && (!approved ==>
                  && s'.kase.status == AwaitingDecision && s'.kase.version == s.kase.version + 3
                  && s'.com == s.com && s'.comms == s.comms)
            && (approved ==>
                  && s'.kase.status == Authorized && s'.kase.version == s.kase.version + 4
                  && s'.com == s.com.(state := Active, version := s.com.version + 1, epoch := s.com.epoch + 2,
                                      dueAt := due))
            && (approved && ready && id !in s.comms ==>
                  s'.comms == s.comms[id := Communication(s.com.epoch + 2, Confirmation, Prepared, 0)])
            && (approved && (!ready || id in s.comms) ==> s'.comms == s.comms)
  {
  }

  /** An attestation is taken for the current epoch of a commitment not yet fulfilled, unless another one is
      recorded for the version. It fulfils the commitment, late if it comes after the due time, and
      completes the case unless that is closed. */
  lemma AttestInFull(s: State, at: Time, stamp: Attestation)
    ensures Attestable(s, stamp) <==>
            && s.com.epoch == s.kase.epoch && s.com.state != Fulfilled
            && (s.com.version !in s.attestations || s.attestations[s.com.version] == stamp)
    ensures Attestable(s, stamp) ==>
            var s' := AttestResult(s, at, stamp);
            && s'.com == s.com.(state := Fulfilled, version := s.com.version + 1,
                                wasOverdue := s.com.wasOverdue || s.com.dueAt < at)
            && s'.kase == (if s.kase.status in [Completed, Cancelled] then s.kase
                           else CaseRow(Completed, s.kase.version + 1, s.kase.epoch))
            && s'.attestations == s.attestations[s.com.version := stamp]
            && s'.comms == s.comms && s'.sends == s.sends
  {
  }

  predicate HasReminder(s: State) {
    exists id :: id in s.comms && s.comms[id].kind == Reminder
  }

  function Marked(s: State, at: Time): State {
    if s.com.state == Active && at >= s.com.dueAt then Store(s, s.com.(state := Overdue, wasOverdue := true)) else s
  }

  predicate NeedsReminder(s: State) {
    s.com.state == Overdue && !HasReminder(s)
  }

  /** What `ensure` asks for: the right case, and under the event's id nothing but that same event. */
  predicate EnsureAccepts(s: State, c: Record, kind: DraftKind, id: string) {
    CanEnsure(s, c) && (id in s.comms ==> s.comms[id] == Communication(c.epoch, kind, Prepared, 0))
  }

  /** A drive gets past its reminder: none is needed, or `ensure` accepts it. */
  predicate Drivable(s: State, at: Time, id: string, ready: bool) {
    NeedsReminder(Marked(s, at)) ==> ready && EnsureAccepts(Marked(s, at), Marked(s, at).com, Reminder, id)
  }

  /** A communication is prepared exactly for the epoch of its authorized case, and only where its id stands
      for nothing or for that same event, prepared and untried. */
  lemma EnsureInFull(s: State, c: Record, kind: DraftKind, id: string)
    ensures EnsureAccepts(s, c, kind, id) <==>
            && s.kase.epoch == c.epoch && s.kase.status == Authorized
            && (id in s.comms ==> s.comms[id].epoch == c.epoch && s.comms[id].kind == kind
                                  && s.comms[id].delivery == Prepared && s.comms[id].attempts == 0)
    ensures EnsureAccepts(s, c, kind, id) ==>
              Ensure(s, c, kind, id) == s.(comms := s.comms[id := Communication(c.epoch, kind, Prepared, 0)])
    ensures s.kase.epoch != c.epoch || s.kase.status != Authorized ==> Ensure(s, c, kind, id) == s
  {
    if EnsureAccepts(s, c, kind, id) && id in s.comms {
      assert s.comms[id := s.comms[id]] == s.comms;
    }
  }

  /** The transports of these events, in this order. */
  function TransportsOf(ids: seq<string>, epoch: int, outcomes: string -> Outcome): seq<Send> {
    if ids == [] then []
    else
      var n := |ids| - 1;
      TransportsOf(ids[..n], epoch, outcomes)
      + if outcomes(ids[n]).Transported? then [Send(ids[n], epoch, outcomes(ids[n]).result)] else []
  }

  lemma TransportsNext(ids: seq<string>, x: string, epoch: int, outcomes: string -> Outcome)
    ensures TransportsOf(ids + [x], epoch, outcomes)
         == TransportsOf(ids, epoch, outcomes)
            + if outcomes(x).Transported? then [Send(x, epoch, outcomes(x).result)] else []
  {
    assert (ids + [x])[..|ids|] == ids;
  }

  /** The record and reminder part of `drive`. */
  function DriveResult(s: State, at: Time, id: string): State {
    var s1 := Marked(s, at);
    if NeedsReminder(s1) then Ensure(s1, s1.com, Reminder, id) else s1
  }

  /** A drive marks the commitment overdue from its due time on, asks for a reminder exactly when the
      commitment is overdue and none was ever prepared, and is refused exactly when that reminder is. */
  lemma DriveInFull(s: State, at: Time, id: string, ready: bool)
    requires s.com.epoch == s.kase.epoch
    ensures var due := s.com.state == Active && at >= s.com.dueAt;
            var asks := (due || s.com.state == Overdue) && forall x :: x in s.comms ==> s.comms[x].kind != Reminder;
            var s' := DriveResult(s, at, id);
            && (Drivable(s, at, id, ready) <==>
                  (asks ==> ready && s.kase.status == Authorized && id !in s.comms))
            && s'.com.state == (if due then Overdue else s.com.state)
            && s'.com.wasOverdue == (due || s.com.wasOverdue)
            && s'.com.version == (if due then s.com.version + 1 else s.com.version)
            && (asks && Drivable(s, at, id, ready) ==>
                  s'.comms == s.comms[id := Communication(s.com.epoch, Reminder, Prepared, 0)])
            && (!asks ==> s'.comms == s.comms)
  {
    EnsureInFull(Marked(s, at), Marked(s, at).com, Reminder, id);
  }

  /** However often a commitment is driven, it is reminded of once. */
  lemma DrivesRemindOnce(s: State, at: Time, id: string)
    requires forall x, y :: x in s.comms && y in s.comms && s.comms[x].kind == Reminder && s.comms[y].kind == Reminder
               ==> x == y
    ensures var s' := DriveResult(s, at, id);
            forall x, y ::
              x in s'.comms && y in s'.comms && s'.comms[x].kind == Reminder && s'.comms[y].kind == Reminder ==> x == y
  {
  }

  predicate DueForDispatch(s: State, id: string) {
    id in s.comms && s.comms[id].delivery == Prepared && s.comms[id].epoch == s.com.epoch
  }

  /** The communication after its dispatch. */
  function Sent(s: State, id: string, outcome: Outcome): Communication
    requires id in s.comms
  {
    DispatchOne(s, id, outcome).comms[id]
  }

  /** A dispatch looks at nothing but its own communication and the commitment's epoch. */
  lemma DispatchIsLocal(s0: State, s: State, id: string, outcome: Outcome)
    requires id in s0.comms && id in s.comms && s.comms[id] == s0.comms[id] && s.com.epoch == s0.com.epoch
    ensures DispatchOne(s, id, outcome).comms == s.comms[id := Sent(s0, id, outcome)]
  {
    assert s.comms[id := s.comms[id]] == s.comms;
  }

  // ---------- They are runs ----------

  ghost predicate Reaches(s: State, s': State) {
    exists steps :: Run(s, steps) == s'
  }

  lemma {:induction false} RunSnoc(s: State, steps: seq<Step>, step: Step)
    ensures Run(s, steps + [step]) == Next(Run(s, steps), step)
    decreases |steps|
  {
    if steps == [] {
      assert [] + [step] == [step];
      assert Run(Next(s, step), [step][1..]) == Next(s, step);
    } else {
      assert (steps + [step])[1..] == steps[1..] + [step];
      RunSnoc(Next(s, steps[0]), steps[1..], step);
    }
  }

  lemma ReachesSelf(s: State)
    ensures Reaches(s, s)
  {
    assert Run(s, []) == s;
  }

  lemma ReachesNext(s: State, s': State, step: Step)
    requires Reaches(s, s')
    ensures Reaches(s, Next(s', step))
  {
    var steps :| Run(s, steps) == s';
    RunSnoc(s, steps, step);
  }

  lemma ReachesTransitive(a: State, b: State, c: State)
    requires Reaches(a, b) && Reaches(b, c)
    ensures Reaches(a, c)
  {
    var first :| Run(a, first) == b;
    var second :| Run(b, second) == c;
    RunConcat(a, first, second);
  }

  /** Any invariant state a service operation starts from, it ends in one. */
  lemma ReachesKeepsInv(s: State, s': State)
    requires Inv(s) && Reaches(s, s')
    ensures Inv(s')
  {
    var steps :| Run(s, steps) == s';
    RunKeepsInv(s, steps);
  }

  /** What every service operation promises: it is a run, and it transports no event twice. */
  ghost predicate WithinService(s: State, s': State) {
    Reaches(s, s') && KeepsAccounts(s, s')
  }

  /** The state with one client waiting. */
  function Alone(s: State, p: Pending): State {
    s.(clients := map[0 := p])
  }

  lemma ReachesHold(s0: State, s: State, step: Step, s': State, p: Pending)
    requires Reaches(s0, s) && Next(s, step) == Hold(s', 0, p) && s'.clients.Keys <= {0}
    ensures Reaches(s0, Alone(s', p))
  {
    ReachesNext(s0, s, step);
    assert Hold(s', 0, p).clients == map[0 := p];
  }

  lemma ReachesRelease(s0: State, s: State, step: Step, s': State)
    requires Reaches(s0, s) && Next(s, step) == Release(s', 0) && s'.clients.Keys <= {0}
    ensures Reaches(s0, s'.(clients := map[]))
  {
    ReachesNext(s0, s, step);
    assert Release(s', 0).clients == map[];
  }

  /** The listed copies written back as failed. */
  ghost function CloseListed(comms: map<string, Communication>, listed: map<string, Communication>)
    : (r: map<string, Communication>)
    ensures r.Keys == comms.Keys + listed.Keys
    ensures forall id :: id in r ==>
              r[id] == if id in listed then listed[id].(delivery := PermanentFailed) else comms[id]
  {
    comms + Tabulate(listed.Keys, id requires id in listed => listed[id].(delivery := PermanentFailed))
  }

  lemma ClosesOne(s0: State, s: State, listed: map<string, Communication>, id: string)
    requires Reaches(s0, Alone(s, CancelClose(listed))) && id in listed
    ensures var s' := s.(comms := s.comms[id := listed[id].(delivery := PermanentFailed)]);
            Reaches(s0, Alone(s', CancelClose(listed - {id})))
  {
    var held := Alone(s, CancelClose(listed));
    var comms := s.comms[id := listed[id].(delivery := PermanentFailed)];
    ReachesHold(s0, held, Advance(0, id, Attestation("", 0)), held.(comms := comms), CancelClose(listed - {id}));
  }

  lemma ClosesNone(s0: State, s: State)
    requires Reaches(s0, Alone(s, CancelClose(map[]))) && s.clients == map[]
    ensures Reaches(s0, s)
  {
    var held := Alone(s, CancelClose(map[]));
    ReachesRelease(s0, held, Go(0), held);
  }

  lemma CloseNothing(comms: map<string, Communication>)
    ensures CloseListed(comms, map[]) == comms
  {
  }

  lemma {:induction false} ClosingIsRun(s0: State, s: State, listed: map<string, Communication>)
    requires Reaches(s0, Alone(s, CancelClose(listed))) && s.clients == map[]
    ensures Reaches(s0, s.(comms := CloseListed(s.comms, listed)))
    decreases |listed|
  {
    if listed == map[] {
      ClosesNone(s0, s);
      CloseNothing(s.comms);
    } else {
      var id :| id in listed;
      var s' := s.(comms := s.comms[id := listed[id].(delivery := PermanentFailed)]);
      ClosesOne(s0, s, listed, id);
      SmallerMap(listed, id);
      ClosingIsRun(s0, s', listed - {id});
      CloseOneFirst(s.comms, listed, id);
    }
  }

  lemma CloseOneFirst(comms: map<string, Communication>, listed: map<string, Communication>, id: string)
    requires id in listed
    ensures CloseListed(comms, listed) == CloseListed(comms[id := listed[id].(delivery := PermanentFailed)],
                                                      listed - {id})
  {
  }

  lemma SmallerMap(m: map<string, Communication>, id: string)
    requires id in m
    ensures |m - {id}| < |m|
  {
    assert (m - {id}).Keys == m.Keys - {id};
    assert |m - {id}| == |(m - {id}).Keys| && |m| == |m.Keys|;
  }

  lemma CancelIsRun(s: State)
    requires Changeable(s) && s.clients == map[]
    ensures Reaches(s, CancelResult(s))
  {
    ReachesSelf(s);
    ReachesHold(s, s, BeginCancel(0), s, CancelCase(s.com, s.kase));
    CancelWritesCase(s, s);
    var k := CaseRow(Cancelled, s.kase.version + 1, s.kase.epoch + 1);
    CancelWritesRecord(s, s.(kase := k), s.com, k.epoch);
    CancelCloses(s, Store(s, s.com.(state := Withdrawn, epoch := k.epoch)).(kase := k));
  }

  lemma CancelCloses(s0: State, s: State)
    requires Reaches(s0, Alone(s, CancelList)) && s.clients == map[]
    ensures Reaches(s0, s.(comms := ClosedAll(s.comms)))
  {
    var listed := WaitingOnly(s.comms);
    ReachesHold(s0, Alone(s, CancelList), Go(0), Alone(s, CancelList), CancelClose(listed));
    ClosingIsRun(s0, s, listed);
    assert CloseListed(s.comms, listed) == ClosedAll(s.comms);
  }

  lemma CancelWritesCase(s0: State, s: State)
    requires Reaches(s0, Alone(s, CancelCase(s.com, s.kase)))
    ensures var k := CaseRow(Cancelled, s.kase.version + 1, s.kase.epoch + 1);
            Reaches(s0, Alone(s.(kase := k), CancelRecord(s.com, k.epoch)))
  {
    var held := Alone(s, CancelCase(s.com, s.kase));
    var k := CaseRow(Cancelled, s.kase.version + 1, s.kase.epoch + 1);
    ReachesHold(s0, held, Go(0), held.(kase := k), CancelRecord(s.com, k.epoch));
  }

  lemma CancelWritesRecord(s0: State, s: State, c: Record, epoch: int)
    requires Reaches(s0, Alone(s, CancelRecord(c, epoch))) && c.version == s.com.version
    ensures Reaches(s0, Alone(Store(s, c.(state := Withdrawn, epoch := epoch)), CancelList))
  {
    var held := Alone(s, CancelRecord(c, epoch));
    ReachesHold(s0, held, Go(0), Store(held, c.(state := Withdrawn, epoch := epoch)), CancelList);
  }

  /** A revision is a run however far it gets. */
  lemma ReviseIsRun(s: State, due: Time, id: string, approved: bool, ready: bool)
    requires Changeable(s) && s.clients == map[]
    ensures Reaches(s, ReviseResult(s, due, id, approved, ready))
  {
    ReachesSelf(s);
    ReachesHold(s, s, BeginRevise(0, due), s, ReviseFacts(s.com, s.kase, due));
    ReviseWritesFacts(s, s, due);
    var k1 := Awaiting(s).kase;
    if approved {
      ReviseApproved(s, due, id, ready);
    } else {
      var held := Alone(Awaiting(s), ReviseDecide(s.com, k1, due));
      ReachesRelease(s, held, Stop(0), held);
    }
  }

  lemma ReviseApproved(s: State, due: Time, id: string, ready: bool)
    requires Changeable(s) && s.clients == map[]
    requires Reaches(s, Alone(Awaiting(s), ReviseDecide(s.com, Awaiting(s).kase, due)))
    ensures Reaches(s, ReviseResult(s, due, id, true, ready))
  {
    var k1 := Awaiting(s).kase;
    ReviseWritesDecision(s, Awaiting(s), s.com, due);
    var k2 := CaseRow(Authorized, k1.version + 1, k1.epoch);
    ReviseWritesRecord(s, s.(kase := k2), s.com, k1.epoch, due);
    var revised := Revised(s, due);
    var held := Alone(revised, ReviseNotify(revised.com));
    if ready {
      ReachesRelease(s, held, Advance(0, id, Attestation("", 0)), Ensure(held, revised.com, Confirmation, id));
    } else {
      ReachesRelease(s, held, Stop(0), held);
    }
  }

  lemma ReviseWritesFacts(s0: State, s: State, due: Time)
    requires Reaches(s0, Alone(s, ReviseFacts(s.com, s.kase, due)))
    ensures var k := CaseRow(AwaitingDecision, s.kase.version + 3, s.kase.epoch + 2);
            Reaches(s0, Alone(s.(kase := k), ReviseDecide(s.com, k, due)))
  {
    var held := Alone(s, ReviseFacts(s.com, s.kase, due));
    var k := CaseRow(AwaitingDecision, s.kase.version + 3, s.kase.epoch + 2);
    ReachesHold(s0, held, Go(0), held.(kase := k), ReviseDecide(s.com, k, due));
  }

  lemma ReviseWritesDecision(s0: State, s: State, c: Record, due: Time)
    requires Reaches(s0, Alone(s, ReviseDecide(c, s.kase, due)))
    ensures var k := CaseRow(Authorized, s.kase.version + 1, s.kase.epoch);
            Reaches(s0, Alone(s.(kase := k), ReviseRecord(c, s.kase.epoch, due)))
  {
    var held := Alone(s, ReviseDecide(c, s.kase, due));
    var k := CaseRow(Authorized, s.kase.version + 1, s.kase.epoch);
    ReachesHold(s0, held, Go(0), held.(kase := k), ReviseRecord(c, s.kase.epoch, due));
  }

  lemma ReviseWritesRecord(s0: State, s: State, c: Record, epoch: int, due: Time)
    requires Reaches(s0, Alone(s, ReviseRecord(c, epoch, due))) && c.version == s.com.version
    ensures var revised := Store(s, c.(state := Active, epoch := epoch, dueAt := due));
            Reaches(s0, Alone(revised, ReviseNotify(revised.com)))
  {
    var held := Alone(s, ReviseRecord(c, epoch, due));
    var revised := Store(held, c.(state := Active, epoch := epoch, dueAt := due));
    ReachesHold(s0, held, Go(0), revised, ReviseNotify(revised.com));
  }

  lemma AttestIsRun(s: State, at: Time, stamp: Attestation)
    requires Attestable(s, stamp) && s.clients == map[]
    ensures Reaches(s, AttestResult(s, at, stamp))
  {
    ReachesSelf(s);
    ReachesHold(s, s, BeginAttest(0, at), s, AttestPut(s.com, s.kase, at));
    var begun := Alone(s, AttestPut(s.com, s.kase, at));
    var put := s.(attestations := s.attestations[s.com.version := stamp]);
    ReachesHold(s, begun, Advance(0, "", stamp), begun.(attestations := put.attestations),
                AttestRecord(s.com, s.kase, at));
    AttestWritesRecord(s, put, s.kase, at);
  }

  lemma AttestWritesRecord(s0: State, s: State, k: CaseRow, at: Time)
    requires Reaches(s0, Alone(s, AttestRecord(s.com, k, at))) && s.kase == k && s.clients == map[]
    ensures var k' := if Terminal(k.status) then k else CaseRow(Completed, k.version + 1, k.epoch);
            var r := s.com.(state := Fulfilled, wasOverdue := s.com.wasOverdue || at > s.com.dueAt);
            Reaches(s0, Store(s, r).(kase := k'))
  {
    var held := Alone(s, AttestRecord(s.com, k, at));
    var stored := Store(held, s.com.(state := Fulfilled, wasOverdue := s.com.wasOverdue || at > s.com.dueAt));
    if Terminal(k.status) {
      ReachesRelease(s0, held, Go(0), stored);
    } else {
      ReachesHold(s0, held, Go(0), stored, AttestCase(k));
      var completing := Alone(stored, AttestCase(k));
      ReachesRelease(s0, completing, Go(0), completing.(kase := CaseRow(Completed, k.version + 1, k.epoch)));
    }
  }

  lemma DriveIsRun(s: State, at: Time, id: string)
    requires s.com.epoch == s.kase.epoch && s.clients == map[]
    ensures Reaches(s, DriveResult(s, at, id)) && Reaches(s, Marked(s, at))
  {
    ReachesSelf(s);
    if s.com.state == Active && at >= s.com.dueAt {
      ReachesHold(s, s, BeginDrive(0, at), s, DriveOverdue(s.com));
      var begun := Alone(s, DriveOverdue(s.com));
      var stored := Store(begun, s.com.(state := Overdue, wasOverdue := true));
      ReachesHold(s, begun, Go(0), stored, DriveRemind(stored.com));
    } else {
      ReachesHold(s, s, BeginDrive(0, at), s, DriveRemind(s.com));
    }
    RemindIsRun(s, Marked(s, at), id);
  }

  lemma RemindIsRun(s0: State, s: State, id: string)
    requires Reaches(s0, Alone(s, DriveRemind(s.com))) && s.clients == map[]
    ensures Reaches(s0, if NeedsReminder(s) then Ensure(s, s.com, Reminder, id) else s) && Reaches(s0, s)
  {
    var held := Alone(s, DriveRemind(s.com));
    ReachesRelease(s0, held, Stop(0), held);
    if NeedsReminder(s) {
      ReachesRelease(s0, held, Advance(0, id, Attestation("", 0)), Ensure(held, s.com, Reminder, id));
    }
  }

  lemma DischargeIsRun(s: State)
    requires s.com.state == Fulfilled && s.clients == map[]
    ensures Reaches(s, Store(s, s.com.(discharged := true)))
  {
    ReachesSelf(s);
    ReachesHold(s, s, BeginDischarge(0), s, DischargeRecord(s.com));
    var held := Alone(s, DischargeRecord(s.com));
    ReachesRelease(s, held, Go(0), Store(held, s.com.(discharged := true)));
  }

  /** An uninterrupted dispatch is its four steps in a row. */
  lemma DispatchIsRun(s0: State, s: State, id: string, outcome: Outcome)
    requires Reaches(s0, s) && s.clients == map[]
    ensures Reaches(s0, DispatchOne(s, id, outcome))
  {
    if id in s.comms && s.comms[id].delivery == Prepared {
      var m := s.comms[id];
      ReachesHold(s0, s, DispatchRead(0, id), s, Checking(id, m));
      if m.epoch == s.com.epoch {
        DispatchSends(s0, s, id, outcome);
      } else {
        var failed := m.(delivery := PermanentFailed);
        var held := Alone(s, Checking(id, m));
        ReachesHold(s0, held, Go(0), held, Recording(id, failed));
        RecordsBack(s0, s, id, failed);
      }
    }
  }

  lemma DispatchSends(s0: State, s: State, id: string, outcome: Outcome)
    requires id in s.comms && s.comms[id].delivery == Prepared && s.comms[id].epoch == s.com.epoch && s.clients == map[]
    requires Reaches(s0, Alone(s, Checking(id, s.comms[id])))
    ensures Reaches(s0, DispatchOne(s, id, outcome))
  {
    var m := s.comms[id];
    var held := Alone(s, Checking(id, m));
    ReachesHold(s0, held, Go(0), held, Sending(id, m));
    var sending := Alone(s, Sending(id, m));
    var sent := if outcome.Transported? then s.(sends := s.sends + [Send(id, m.epoch, outcome.result)]) else s;
    ReachesHold(s0, sending, DispatchPost(0, outcome), sending.(sends := sent.sends),
                Recording(id, Attempted(m, outcome)));
    RecordsBack(s0, sent, id, Attempted(m, outcome));
  }

  lemma RecordsBack(s0: State, s: State, id: string, m: Communication)
    requires Reaches(s0, Alone(s, Recording(id, m))) && id in s.comms && s.clients == map[]
    ensures Reaches(s0, s.(comms := s.comms[id := m]))
  {
    var held := Alone(s, Recording(id, m));
    ReachesRelease(s0, held, Go(0), held.(comms := s.comms[id := m]));
  }

  /** One more dispatch of an operation that started at `s0` and has not touched this event yet. */
  lemma DispatchWithin(s0: State, s: State, x: string, outcome: Outcome)
    requires WithinService(s0, s) && s.clients == map[] && DueForDispatch(s0, x)
    requires x in s.comms && s.comms[x] == s0.comms[x] && s.com.epoch == s0.com.epoch
    ensures var s' := DispatchOne(s, x, outcome);
            && WithinService(s0, s')
            && s'.comms == s.comms[x := Sent(s0, x, outcome)]
            && s'.sends == s.sends + if outcome.Transported? then [Send(x, s0.com.epoch, outcome.result)] else []
  {
    DispatchIsRun(s0, s, x, outcome);
    DispatchIsLocal(s0, s, x, outcome);
    DispatchKeepsAccounts(s, x, outcome);
    KeepsAccountsTransitive(s0, s, DispatchOne(s, x, outcome));
  }

  /** Half-way through the dispatches of a drive: `pending` is still to come. */
  ghost predicate Dispatching(s0: State, s: State, pending: set<string>, dispatched: seq<string>,
                              outcomes: string -> Outcome)
  {
    && WithinService(s0, s)
    && s == s0.(comms := s.comms, sends := s0.sends + TransportsOf(dispatched, s0.com.epoch, outcomes))
    && s.comms.Keys == s0.comms.Keys
    && (forall x :: DueForDispatch(s0, x) <==> x in pending || x in dispatched)
    && (forall x :: x in dispatched ==> x !in pending)
    && (forall i, j :: 0 <= i < j < |dispatched| ==> dispatched[i] != dispatched[j])
    && (forall x :: x in s.comms ==> s.comms[x] == if x in dispatched then Sent(s0, x, outcomes(x)) else s0.comms[x])
  }

  lemma DispatchingNext(s0: State, s: State, pending: set<string>, dispatched: seq<string>,
                        outcomes: string -> Outcome, x: string)
    requires Dispatching(s0, s, pending, dispatched, outcomes) && x in pending && s.clients == map[]
    ensures Dispatching(s0, DispatchOne(s, x, outcomes(x)), pending - {x}, dispatched + [x], outcomes)
  {
    assert DueForDispatch(s0, x);
    DispatchWithin(s0, s, x, outcomes(x));
    TransportsNext(dispatched, x, s0.com.epoch, outcomes);
  }

  // ---------- The service ----------

  class Service {
    var kase: CaseRow
    var com: Record
    var comms: map<string, Communication>
    var attestations: map<int, Attestation>
    ghost var history: seq<Record>
    ghost var sends: seq<Send>

    ghost function View(): State
      reads this
    {
      State(kase, com, comms, attestations, map[], history, sends)
    }

    /** `update_commitment`. */
    method StoreRecord(r: Record) returns (ok: bool)
      modifies this`com, this`history
      ensures ok == UpdateCommitment(old(View()), r).Some?
      ensures View() == UpdateCommitment(old(View()), r).GetOr(old(View()))
    {
      if com.version != r.version {
        return false;
      }
      com := r.(version := r.version + 1);
      history := history + [com];
      return true;
    }

    /** `update_case` with its expected version. */
    method StoreCase(k: CaseRow, expected: CaseRow) returns (ok: bool)
      modifies this`kase
      ensures ok == UpdateCase(old(View()), expected, k).Some?
      ensures View() == UpdateCase(old(View()), expected, k).GetOr(old(View()))
    {
      ok := kase.version == expected.version;
      if ok {
        kase := k;
      }
    }

    /** `ensure`, reduced to its guards and the event it inserts; `ready` stands for the approval,
        governance basis and obligation it looks up, and it raises without them. */
    method EnsureCommunication(c: Record, kind: DraftKind, id: string, ready: bool) returns (ok: bool)
      modifies this`comms
      ensures ok <==> ready && EnsureAccepts(old(View()), c, kind, id)
      ensures View() == if ok then Ensure(old(View()), c, kind, id) else old(View())
      ensures KeepsAccounts(old(View()), View())
    {
      QuietKeepsAccounts(View(), View());
      ok := ready && kase.epoch == c.epoch && kase.status == Authorized;
      var event := Communication(c.epoch, kind, Prepared, 0);
      if ok && id in comms {
        ok := comms[id] == event;
      } else if ok {
        comms := comms[id := event];
        QuietKeepsAccounts(old(View()), View());
      }
    }

    method DispatchCommunication(id: string, outcome: Outcome)
      modifies this`comms, this`sends
      ensures View() == DispatchOne(old(View()), id, outcome)
      ensures old(DueForDispatch(View(), id)) && outcome.Transported? ==>
                id in comms && Bears(outcome.result, comms[id].delivery)
    {
      if id !in comms || comms[id].delivery != Prepared {
        return;
      }
      var m := comms[id];
      if m.epoch != com.epoch {
        comms := comms[id := m.(delivery := PermanentFailed)];
        return;
      }
      match outcome {
        case NotConfigured => comms := comms[id := m.(delivery := Retrying)];
        case Transported(result) =>
          sends := sends + [Send(id, m.epoch, result)];
          comms := comms[id := m.(delivery := DeliveryOf(result), attempts := m.attempts + 1)];
      }
    }

    /** Case first, then commitment, then every communication that is still waiting. */
    method CancelCommitment() returns (ok: bool)
      modifies this
      ensures ok <==> old(Changeable(View()) || (com.epoch == kase.epoch && com.state == Withdrawn))
      ensures View() == if old(Changeable(View())) then CancelResult(old(View())) else old(View())
      ensures WithinService(old(View()), View())
    {
      ReachesSelf(View());
      QuietKeepsAccounts(View(), View());
      if com.epoch != kase.epoch {
        return false;
      }
      if com.state == Withdrawn {
        return true;
      }
      if com.state == Fulfilled || Terminal(kase.status) {
        return false;
      }
      CancelIsRun(View());
      var read := com;
      var stored := StoreCase(CaseRow(Cancelled, kase.version + 1, kase.epoch + 1), kase);
      stored := StoreRecord(read.(state := Withdrawn, epoch := kase.epoch));
      CloseWaiting();
      QuietKeepsAccounts(old(View()), View());
      return true;
    }

    method CloseWaiting()
      modifies this`comms
      ensures comms == ClosedAll(old(comms))
    {
      var pending := comms.Keys;
      while pending != {}
        invariant pending <= comms.Keys == old(comms).Keys
        invariant forall id :: id in comms ==>
                    comms[id] == if id in pending then old(comms)[id] else Closed(old(comms)[id])
      {
        var id :| id in pending;
        if Waiting(comms[id].delivery) {
          comms := comms[id := comms[id].(delivery := PermanentFailed)];
        }
        pending := pending - {id};
      }
    }

    /** New facts and policy, then the decision, then the commitment, then its confirmation. Without a
        fact snapshot nothing is written; what was written before a later refusal stays. */
    method ReviseDueAt(due: Time, id: string, hasFacts: bool, approved: bool, ready: bool) returns (ok: bool)
      modifies this
      ensures ok <==> old(Changeable(View())) && hasFacts && approved && ready
                      && EnsureAccepts(Revised(old(View()), due), Revised(old(View()), due).com, Confirmation, id)
      ensures View() == if old(Changeable(View())) && hasFacts
                        then ReviseResult(old(View()), due, id, approved, ready) else old(View())
      ensures WithinService(old(View()), View())
    {
      ReachesSelf(View());
      QuietKeepsAccounts(View(), View());
      if com.state == Fulfilled || com.state == Withdrawn || com.epoch != kase.epoch || Terminal(kase.status) {
        return false;
      }
      if !hasFacts {
        return false;
      }
      ReviseIsRun(View(), due, id, approved, ready);
      var stored := StoreCase(CaseRow(AwaitingDecision, kase.version + 3, kase.epoch + 2), kase);
      QuietKeepsAccounts(old(View()), View());
      if !approved {
        return false;
      }
      ghost var awaiting := View();
      ok := FinishRevision(due, id, ready);
      KeepsAccountsTransitive(old(View()), awaiting, View());
    }

    /** The decision, the commitment and its confirmation. */
    method FinishRevision(due: Time, id: string, ready: bool) returns (ok: bool)
      modifies this
      ensures ok <==> ready && EnsureAccepts(Decided(old(View()), due), Decided(old(View()), due).com, Confirmation, id)
      ensures View() == if ready then Ensure(Decided(old(View()), due), Decided(old(View()), due).com, Confirmation, id)
                        else Decided(old(View()), due)
      ensures KeepsAccounts(old(View()), View())
    {
      var stored := StoreCase(CaseRow(Authorized, kase.version + 1, kase.epoch), kase);
      stored := StoreRecord(com.(state := Active, epoch := kase.epoch, dueAt := due));
      ghost var decided := View();
      QuietKeepsAccounts(old(View()), decided);
      ok := EnsureCommunication(com, Confirmation, id, ready);
      KeepsAccountsTransitive(old(View()), decided, View());
    }

    /** `entitled`: the active committer attests, with a basis. */
    method AttestFulfillment(at: Time, stamp: Attestation, entitled: bool) returns (ok: bool)
      modifies this
      ensures ok <==> entitled && old(Attestable(View(), stamp) || (com.epoch == kase.epoch && com.state == Fulfilled))
      ensures View() == if entitled && old(Attestable(View(), stamp))
                        then AttestResult(old(View()), at, stamp) else old(View())
      ensures WithinService(old(View()), View())
    {
      ReachesSelf(View());
      QuietKeepsAccounts(View(), View());
      if com.epoch != kase.epoch || !entitled {
        return false;
      }
      if com.state == Fulfilled {
        return true;
      }
      if com.version in attestations && attestations[com.version] != stamp {
        return false;
      }
      AttestIsRun(View(), at, stamp);
      var read, readCase := com, kase;
      attestations := attestations[read.version := stamp];
      ok := StoreRecord(read.(state := Fulfilled, wasOverdue := read.wasOverdue || at > read.dueAt));
      if !Terminal(readCase.status) {
        var stored := StoreCase(CaseRow(Completed, readCase.version + 1, readCase.epoch), readCase);
      }
      QuietKeepsAccounts(old(View()), View());
    }

    /** `provisioned`: the kernel holds the responsibility; `discharged`: it already reports it so. */
    method DischargeResponsibility(provisioned: bool, discharged: bool) returns (ok: bool)
      modifies this
      ensures ok <==> old(com.state) == Fulfilled && provisioned
      ensures View() == if ok && !discharged then Store(old(View()), old(com).(discharged := true)) else old(View())
      ensures WithinService(old(View()), View())
    {
      ReachesSelf(View());
      QuietKeepsAccounts(View(), View());
      if com.state != Fulfilled || !provisioned {
        return false;
      }
      if discharged {
        return true;
      }
      DischargeIsRun(View());
      ok := StoreRecord(com.(discharged := true));
      QuietKeepsAccounts(old(View()), View());
    }

    /** Dispatches each communication of the current epoch that is prepared, once. */
    method DispatchPrepared(outcomes: string -> Outcome) returns (dispatched: seq<string>)
      modifies this`comms, this`sends
      ensures forall x :: x in dispatched <==> DueForDispatch(old(View()), x)
      ensures forall i, j :: 0 <= i < j < |dispatched| ==> dispatched[i] != dispatched[j]
      ensures comms.Keys == old(comms).Keys
      ensures forall x :: x in comms ==>
                comms[x] == (if x in dispatched then Sent(old(View()), x, outcomes(x)) else old(comms)[x])
      ensures sends == old(sends) + TransportsOf(dispatched, com.epoch, outcomes)
      ensures WithinService(old(View()), View())
    {
      ReachesSelf(View());
      dispatched := [];
      var pending := set x | x in comms && comms[x].delivery == Prepared && comms[x].epoch == com.epoch;
      while pending != {}
        invariant pending <= comms.Keys
        invariant Dispatching(old(View()), View(), pending, dispatched, outcomes)
      {
        var x :| x in pending;
        DispatchingNext(old(View()), View(), pending, dispatched, outcomes, x);
        DispatchCommunication(x, outcomes(x));
        dispatched := dispatched + [x];
        pending := pending - {x};
      }
    }

    /** Marks an overdue commitment, adds its first reminder, and then dispatches. A refused reminder
        ends the drive before any dispatch; the mark stays. */
    method Drive(at: Time, id: string, ready: bool, effectsEnabled: bool, outcomes: string -> Outcome)
      returns (ok: bool, dispatched: seq<string>)
      modifies this
      ensures ok <==> old(com.epoch == kase.epoch) && Drivable(old(View()), at, id, ready)
      ensures !ok ==> dispatched == []
                      && View() == if old(com.epoch == kase.epoch) then Marked(old(View()), at) else old(View())
      ensures ok ==> forall x :: x in dispatched <==>
                       effectsEnabled && DueForDispatch(DriveResult(old(View()), at, id), x)
      ensures ok ==> comms.Keys == DriveResult(old(View()), at, id).comms.Keys
      ensures ok ==> forall x :: x in comms ==>
                comms[x] == (if x in dispatched then Sent(DriveResult(old(View()), at, id), x, outcomes(x))
                             else DriveResult(old(View()), at, id).comms[x])
      ensures ok ==> View() == DriveResult(old(View()), at, id).(
                                 comms := comms, sends := old(sends) + TransportsOf(dispatched, com.epoch, outcomes))
      ensures WithinService(old(View()), View())
    {
      ReachesSelf(View());
      QuietKeepsAccounts(View(), View());
      dispatched := [];
      if com.epoch != kase.epoch {
        return false, [];
      }
      ok := MarkAndRemind(at, id, ready);
      if ok && effectsEnabled {
        ghost var driven := View();
        dispatched := DispatchPrepared(outcomes);
        ReachesTransitive(old(View()), driven, View());
        KeepsAccountsTransitive(old(View()), driven, View());
      }
    }

    /** The part of a drive before its dispatches. */
    method MarkAndRemind(at: Time, id: string, ready: bool) returns (ok: bool)
      requires com.epoch == kase.epoch
      modifies this
      ensures ok <==> Drivable(old(View()), at, id, ready)
      ensures View() == if ok then DriveResult(old(View()), at, id) else Marked(old(View()), at)
      ensures WithinService(old(View()), View())
    {
      DriveIsRun(View(), at, id);
      if com.state == Active && at >= com.dueAt {
        var stored := StoreRecord(com.(state := Overdue, wasOverdue := true));
      }
      ghost var marked := View();
      QuietKeepsAccounts(old(View()), marked);
      ok := true;
      if com.state == Overdue && !exists x :: x in comms && comms[x].kind == Reminder {
        ok := EnsureCommunication(com, Reminder, id, ready);
        KeepsAccountsTransitive(old(View()), marked, View());
      }
    }
  }
}
