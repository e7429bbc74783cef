/** How often an event is transported, and for which epoch, when a dispatch is not one transaction:
    it reads the event, checks the epoch, transports and records in separate steps, writes back
    without a version guard, and may stop in between. */
module Transport {
  import opened Common
  import opened Commitment

  function Count(sends: seq<Send>, id: string): nat {
    if sends == [] then 0
    else Count(sends[..|sends| - 1], id) + if sends[|sends| - 1].id == id then 1 else 0
  }

  lemma CountNext(sends: seq<Send>, send: Send, id: string)
    ensures Count(sends + [send], id) == Count(sends, id) + if send.id == id then 1 else 0
  {
    assert (sends + [send])[..|sends|] == sends;
  }

  // ---------- Who may still transport an event ----------

  /** A dispatch that starts now would transport the event. */
  predicate Pickable(s: State, id: string) {
    id in s.comms && s.comms[id].delivery == Prepared && s.comms[id].epoch == s.com.epoch
  }

  predicate Dispatches(p: Pending, id: string) {
    (p.Checking? || p.Sending? || p.Recording?) && p.id == id
  }

  /** The client is on its way to transport the event. */
  predicate Live(s: State, id: string, client: nat) {
    && client in s.clients
    && Dispatches(s.clients[client], id)
    && (s.clients[client].Sending? || (s.clients[client].Checking? && s.clients[client].m.epoch == s.com.epoch))
  }

  ghost function LiveClients(s: State, id: string): set<nat> {
    set client | client in s.clients && Live(s, id, client)
  }

  /** Transports of the event so far and those already on their way. */
  ghost function Budget(s: State, id: string): nat {
    Count(s.sends, id) + |LiveClients(s, id)|
  }

  function ClientOf(step: Step): Option<nat> {
    if step.CaseMoves? then None else Some(step.client)
  }

  /** The waiting clients of `s'` are those of `s`, but for one. */
  predicate OnlyClient(s: State, s': State, client: nat) {
    s'.clients - {client} == s.clients - {client}
  }

  lemma AdvanceOnly(s: State, client: nat, p: Pending, id: string, stamp: Attestation)
    ensures OnlyClient(s, AdvanceOne(s, client, p, id, stamp), client)
  {
    match p
    case CancelList =>
    case CancelClose(listed) =>
    case AttestPut(c, k, at) =>
    case ReviseNotify(c) =>
    case DriveRemind(c) =>
    case Checking(x, m) =>
    case Sending(x, m) =>
    case Recording(x, m) =>
    case _ => ContinuesOnly(s, client, p, id, stamp);
  }

  lemma ContinuesOnly(s: State, client: nat, p: Pending, id: string, stamp: Attestation)
    requires Basis(p).Some? || p.CancelCase? || p.ReviseFacts? || p.ReviseDecide? || p.AttestCase?
    ensures OnlyClient(s, AdvanceOne(s, client, p, id, stamp), client)
  {
  }

  lemma StepOnly(s: State, step: Step)
    requires !step.CaseMoves?
    ensures OnlyClient(s, Next(s, step), step.client)
  {
    if step.Advance? {
      if step.client in s.clients {
        AdvanceOnly(s, step.client, s.clients[step.client], step.id, step.stamp);
      }
    }
  }

  lemma OtherClientsStay(s: State, step: Step, client: nat)
    requires ClientOf(step) != Some(client)
    ensures client in Next(s, step).clients <==> client in s.clients
    ensures client in s.clients ==> Next(s, step).clients[client] == s.clients[client]
  {
    if !step.CaseMoves? {
      StepOnly(s, step);
      var rest, rest' := s.clients - {step.client}, Next(s, step).clients - {step.client};
      assert client in rest <==> client in s.clients;
      assert client in rest' <==> client in Next(s, step).clients;
      assert client in rest ==> rest[client] == rest'[client];
    }
  }

  /** An event keeps its epoch, and once it is not prepared any more it never is again. */
  lemma EventStays(s: State, step: Step, id: string)
    requires Inv(s) && id in s.comms
    ensures var s' := Next(s, step);
            && id in s'.comms && s'.comms[id].epoch == s.comms[id].epoch
            && (s.comms[id].delivery != Prepared ==> s'.comms[id].delivery != Prepared)
  {
    if step.Advance? && step.client in s.clients {
      assert PendingOk(s, s.clients[step.client]);
    }
  }

  lemma NotPickableStays(s: State, step: Step, id: string)
    requires Inv(s) && id in s.comms && !Pickable(s, id)
    ensures id in Next(s, step).comms && !Pickable(Next(s, step), id)
  {
    EventStays(s, step, id);
    StepProgress(s, step);
    assert s.comms[id].epoch <= s.com.epoch;
  }

  lemma OtherWasLive(s: State, step: Step, id: string, client: nat)
    requires Inv(s) && Live(Next(s, step), id, client) && ClientOf(step) != Some(client)
    ensures Live(s, id, client)
  {
    StepProgress(s, step);
    OtherClientsStay(s, step, client);
    assert PendingOk(s, s.clients[client]);
  }

  lemma AdvancedWasLive(s: State, step: Step, id: string)
    requires step.Advance? && Live(Next(s, step), id, step.client)
    ensures Live(s, id, step.client)
  {
  }

  /** Nobody becomes live but by picking up the event. */
  lemma LiveWasLive(s: State, step: Step, id: string, client: nat)
    requires Inv(s) && id in s.comms && !Pickable(s, id) && Live(Next(s, step), id, client)
    ensures Live(s, id, client) && (step.DispatchPost? && s.clients[client].Sending? ==> step.client != client)
  {
    if ClientOf(step) != Some(client) {
      OtherWasLive(s, step, id, client);
    } else if step.Advance? {
      AdvancedWasLive(s, step, id);
    }
  }

  lemma SubsetSmaller<T>(a: set<T>, b: set<T>)
    requires a <= b
    ensures |a| <= |b|
  {
    assert b == a + (b - a);
  }

  lemma OnlyPostsSend(s: State, step: Step)
    requires Inv(s) && !step.DispatchPost?
    ensures Next(s, step).sends == s.sends
  {
    if step.Advance? && step.client in s.clients {
      assert PendingOk(s, s.clients[step.client]);
      AdvanceWrites(s, step.client, s.clients[step.client], step.id, step.stamp);
    }
  }

  /** A post moves one transport from those on their way to those made, or takes one off. */
  lemma PostKeepsBudget(s: State, step: Step, id: string)
    requires Inv(s) && id in s.comms && !Pickable(s, id) && step.DispatchPost?
    requires step.client in s.clients && s.clients[step.client].Sending?
    ensures Budget(Next(s, step), id) <= Budget(s, id)
  {
    var live, live' := LiveClients(s, id), LiveClients(Next(s, step), id);
    forall client | client in live' ensures client in live - {step.client} {
      LiveWasLive(s, step, id, client);
    }
    var p := s.clients[step.client];
    if step.outcome.Transported? {
      CountNext(s.sends, Send(p.id, p.m.epoch, step.outcome.result), id);
    }
    SubsetSmaller(live', live - {step.client});
    if p.id == id {
      assert step.client in live;
    }
  }

  lemma StepKeepsBudget(s: State, step: Step, id: string)
    requires Inv(s) && id in s.comms && !Pickable(s, id)
    ensures Budget(Next(s, step), id) <= Budget(s, id)
  {
    if step.DispatchPost? && step.client in s.clients && s.clients[step.client].Sending? {
      PostKeepsBudget(s, step, id);
    } else {
      if !step.DispatchPost? {
        OnlyPostsSend(s, step);
      }
      forall client | client in LiveClients(Next(s, step), id) ensures client in LiveClients(s, id) {
        LiveWasLive(s, step, id, client);
      }
      SubsetSmaller(LiveClients(Next(s, step), id), LiveClients(s, id));
    }
  }

  lemma {:induction false} RunKeepsBudget(s: State, steps: seq<Step>, id: string)
    requires Inv(s) && id in s.comms && !Pickable(s, id)
    ensures Count(Run(s, steps).sends, id) <= Budget(s, id)
    decreases |steps|
  {
    if steps != [] {
      NextKeepsInv(s, steps[0]);
      NotPickableStays(s, steps[0], id);
      StepKeepsBudget(s, steps[0], id);
      RunKeepsBudget(Next(s, steps[0]), steps[1..], id);
    }
  }

  // ---------- All of them can ----------

  const SENT := Transported(Response(200, true))

  lemma TwoSteps(s: State, a: Step, b: Step)
    ensures Run(s, [a, b]) == Next(Next(s, a), b)
  {
    assert [a, b][1..] == [b] && [b][1..] == [];
    assert Run(s, [a, b]) == Run(Next(s, a), [b]);
  }

  lemma LiveArms(s: State, id: string, client: nat)
    requires Live(s, id, client)
    ensures Next(s, Go(client)) == Hold(s, client, Sending(id, s.clients[client].m))
  {
    if s.clients[client].Sending? {
      assert s.clients[client := s.clients[client]] == s.clients;
    }
  }

  lemma ArmedPosts(s: State, client: nat, id: string, m: Communication)
    ensures Next(Hold(s, client, Sending(id, m)), DispatchPost(client, SENT))
         == Hold(s.(sends := s.sends + [Send(id, m.epoch, SENT.result)]), client, Recording(id, Attempted(m, SENT)))
  {
    assert s.clients[client := Sending(id, m)][client := Recording(id, Attempted(m, SENT))]
        == s.clients[client := Recording(id, Attempted(m, SENT))];
  }

  lemma LiveAfterRecording(s: State, s': State, client: nat, id: string, m: Communication)
    requires s' == Hold(s.(sends := s'.sends), client, Recording(id, m))
    ensures LiveClients(s', id) == LiveClients(s, id) - {client}
  {
    forall x ensures x in LiveClients(s', id) <==> x in LiveClients(s, id) - {client} {
      assert x in LiveClients(s', id) <==> Live(s', id, x);
      assert x in LiveClients(s, id) <==> Live(s, id, x);
    }
  }

  /** A live client gets its transport through without disturbing anybody. */
  lemma LivePosts(s: State, id: string, client: nat) returns (steps: seq<Step>)
    requires Live(s, id, client)
    ensures var s' := Run(s, steps);
            && Count(s'.sends, id) == Count(s.sends, id) + 1
            && LiveClients(s', id) == LiveClients(s, id) - {client}
  {
    var m := s.clients[client].m;
    steps := [Go(client), DispatchPost(client, SENT)];
    TwoSteps(s, Go(client), DispatchPost(client, SENT));
    LiveArms(s, id, client);
    ArmedPosts(s, client, id, m);
    CountNext(s.sends, Send(id, m.epoch, SENT.result), id);
    LiveAfterRecording(s, Run(s, steps), client, id, Attempted(m, SENT));
  }

  lemma {:induction false} AllLivePost(s: State, id: string) returns (steps: seq<Step>)
    ensures Count(Run(s, steps).sends, id) == Budget(s, id)
    decreases |LiveClients(s, id)|
  {
    if LiveClients(s, id) == {} {
      steps := [];
    } else {
      var client :| client in LiveClients(s, id);
      var first := LivePosts(s, id, client);
      assert |LiveClients(s, id) - {client}| == |LiveClients(s, id)| - 1;
      var rest := AllLivePost(Run(s, first), id);
      steps := first + rest;
      RunConcat(s, first, rest);
    }
  }

  /** A pickable event can be picked up twice. */
  lemma PickTwice(s: State, id: string)
    requires Pickable(s, id)
    ensures Budget(Run(s, [DispatchRead(0, id), DispatchRead(1, id)]), id) >= 2
  {
    TwoSteps(s, DispatchRead(0, id), DispatchRead(1, id));
    var s' := Next(Next(s, DispatchRead(0, id)), DispatchRead(1, id));
    assert Live(s', id, 0) && Live(s', id, 1);
    assert {0, 1} <= LiveClients(s', id);
    SubsetSmaller({0, 1}, LiveClients(s', id));
  }

  // ---------- At most once ----------

  ghost predicate AtMostOnce(s: State, id: string) {
    forall steps :: Count(Run(s, steps).sends, id) <= 1
  }

  /** An event is transported at most once in every run exactly when no new dispatch would transport
      it and at most one transport of it has been made or is on its way. */
  lemma AtMostOnceIff(s: State, id: string)
    requires Inv(s) && id in s.comms
    ensures AtMostOnce(s, id) <==> !Pickable(s, id) && Budget(s, id) <= 1
  {
    if Pickable(s, id) {
      var picks := [DispatchRead(0, id), DispatchRead(1, id)];
      PickTwice(s, id);
      var posts := AllLivePost(Run(s, picks), id);
      RunConcat(s, picks, posts);
      assert Count(Run(s, picks + posts).sends, id) >= 2;
    } else if Budget(s, id) > 1 {
      var posts := AllLivePost(s, id);
      assert Count(Run(s, posts).sends, id) > 1;
    } else {
      forall steps ensures Count(Run(s, steps).sends, id) <= 1 {
        RunKeepsBudget(s, steps, id);
      }
    }
  }

  ghost predicate NeverAgain(s: State, id: string) {
    forall steps :: Count(Run(s, steps).sends, id) == Count(s.sends, id)
  }

  /** An event is never transported again exactly when no new dispatch would do so and none is on its
      way; that its row counts an attempt is neither needed nor enough. */
  lemma NeverAgainIff(s: State, id: string)
    requires Inv(s) && id in s.comms
    ensures NeverAgain(s, id) <==> !Pickable(s, id) && LiveClients(s, id) == {}
  {
    if Pickable(s, id) {
      var pick := [DispatchRead(0, id)];
      assert Run(s, pick) == Next(s, DispatchRead(0, id)) by {
        assert pick[1..] == [];
      }
      assert Live(Run(s, pick), id, 0);
      assert 0 in LiveClients(Run(s, pick), id);
      var posts := AllLivePost(Run(s, pick), id);
      RunConcat(s, pick, posts);
      assert Count(Run(s, pick + posts).sends, id) > Count(s.sends, id);
    } else if LiveClients(s, id) != {} {
      var posts := AllLivePost(s, id);
      assert Count(Run(s, posts).sends, id) > Count(s.sends, id);
    } else {
      forall steps ensures Count(Run(s, steps).sends, id) == Count(s.sends, id) {
        RunKeepsBudget(s, steps, id);
        RunProgress(s, steps);
        CountGrows(s.sends, Run(s, steps).sends, id);
      }
    }
  }

  lemma {:induction false} CountGrows(a: seq<Send>, b: seq<Send>, id: string)
    requires a <= b
    ensures Count(a, id) <= Count(b, id)
    decreases |b|
  {
    if a != b {
      assert a <= b[..|b| - 1];
      CountGrows(a, b[..|b| - 1], id);
    }
  }

  // ---------- The two ways to transport twice ----------

  /** A dispatch up to its transport. */
  function UpToTransport(s: State, client: nat, id: string): State {
    Next(Next(Next(s, DispatchRead(client, id)), Go(client)), DispatchPost(client, SENT))
  }

  function WithSend(s: State, id: string): State {
    s.(sends := s.sends + [Send(id, s.com.epoch, SENT.result)])
  }

  lemma PickedPosts(s: State, client: nat, id: string)
    requires Pickable(s, id)
    ensures UpToTransport(s, client, id) == Hold(WithSend(s, id), client, Recording(id, Attempted(s.comms[id], SENT)))
  {
    var picked := Next(s, DispatchRead(client, id));
    assert picked == Hold(s, client, Checking(id, s.comms[id]));
    LiveArms(picked, id, client);
    assert Hold(picked, client, Sending(id, s.comms[id])) == Hold(s, client, Sending(id, s.comms[id]));
    ArmedPosts(s, client, id, s.comms[id]);
  }

  lemma RecordingWrites(s: State, client: nat, id: string, m: Communication)
    requires client in s.clients && s.clients[client] == Recording(id, m) && id in s.comms
    ensures var s' := Next(s, Go(client)); s' == s.(comms := s.comms[id := m], clients := s'.clients)
    ensures OnlyClient(s, Next(s, Go(client)), client)
  {
    StepOnly(s, Go(client));
  }

  /** A second dispatch that reads before the first one has recorded transports the event again, and
      its own record then counts a single attempt. */
  lemma OverlappingDispatchesSendTwice(s: State, id: string)
    requires Pickable(s, id)
    ensures var both := UpToTransport(UpToTransport(s, 0, id), 1, id);
            && both.sends
                 == s.sends + [Send(id, s.com.epoch, SENT.result), Send(id, s.com.epoch, SENT.result)]
            && Next(Next(both, Go(0)), Go(1)).comms == s.comms[id := Attempted(s.comms[id], SENT)]
  {
    var m := Attempted(s.comms[id], SENT);
    PickedPosts(s, 0, id);
    var first := UpToTransport(s, 0, id);
    PickedPosts(first, 1, id);
    var both := UpToTransport(first, 1, id);
    RecordingWrites(both, 0, id, m);
    var recorded := Next(both, Go(0));
    OtherClientsStay(both, Go(0), 1);
    RecordingWrites(recorded, 1, id, m);
    assert s.comms[id := m][id := m] == s.comms[id := m];
  }

  /** So does one that starts after the first has stopped between its transport and its record; the
      rows are then as if nothing had been transported at all. */
  lemma AbandonedDispatchSendsTwice(s: State, id: string)
    requires Pickable(s, id)
    ensures var stopped := Next(UpToTransport(s, 0, id), Stop(0));
            && stopped == s.(sends := stopped.sends, clients := stopped.clients)
            && UpToTransport(stopped, 0, id).sends
                 == s.sends + [Send(id, s.com.epoch, SENT.result), Send(id, s.com.epoch, SENT.result)]
  {
    PickedPosts(s, 0, id);
    PickedPosts(Next(UpToTransport(s, 0, id), Stop(0)), 0, id);
  }

  // ---------- Runs without them ----------

  predicate Unrecorded(p: Pending) {
    p.Recording? && p.m.attempts == 1
  }

  /** No dispatch of an event starts beside another one, and none is dropped between its transport and
      its record. */
  ghost predicate CarefulStep(s: State, step: Step) {
    && (step.DispatchRead? ==> forall client :: client in s.clients ==> !Dispatches(s.clients[client], step.id))
    && (!step.CaseMoves? && !step.Advance? && step.client in s.clients ==> !Unrecorded(s.clients[step.client]))
  }

  ghost predicate Careful(s: State, steps: seq<Step>)
    decreases |steps|
  {
    steps != [] ==> CarefulStep(s, steps[0]) && Careful(Next(s, steps[0]), steps[1..])
  }

  /** At most one client dispatches the event. */
  ghost predicate Solo(s: State, id: string) {
    forall a, b :: a in s.clients && b in s.clients && Dispatches(s.clients[a], id) && Dispatches(s.clients[b], id)
             ==> a == b
  }

  ghost predicate BeingRecorded(s: State, id: string) {
    exists a :: a in s.clients && Dispatches(s.clients[a], id) && Unrecorded(s.clients[a])
  }

  /** Nobody may still transport the event, and that it was transported is on record or about to be. */
  ghost predicate Settled(s: State, id: string) {
    && id in s.comms
    && (forall a :: a in s.clients && Dispatches(s.clients[a], id) ==> s.clients[a].Recording?)
    && (s.comms[id].delivery != Prepared || BeingRecorded(s, id))
  }

  ghost predicate Accounted(s: State, id: string) {
    Solo(s, id) && Count(s.sends, id) <= 1 && (Count(s.sends, id) == 1 ==> Settled(s, id))
  }

  /** The stepping client does not take up the event. */
  lemma SoloStays(s: State, step: Step, id: string)
    requires Solo(s, id)
    requires !step.CaseMoves? && step.client in Next(s, step).clients
             && Dispatches(Next(s, step).clients[step.client], id)
             ==> forall a :: a in s.clients && Dispatches(s.clients[a], id) ==> a == step.client
    ensures Solo(Next(s, step), id)
  {
    var s' := Next(s, step);
    forall a, b | a in s'.clients && b in s'.clients && Dispatches(s'.clients[a], id) && Dispatches(s'.clients[b], id)
      ensures a == b
    {
      if ClientOf(step) != Some(a) {
        OtherClientsStay(s, step, a);
      }
      if ClientOf(step) != Some(b) {
        OtherClientsStay(s, step, b);
      }
    }
  }

  lemma AdvanceDispatches(s: State, client: nat, p: Pending, id: string, x: string, stamp: Attestation)
    requires PendingOk(s, p)
    ensures var s' := AdvanceOne(s, client, p, x, stamp);
            client in s'.clients && client in s.clients && s.clients[client] == p && Dispatches(s'.clients[client], id)
            ==> Dispatches(p, id) && (p.Recording? ==> s'.clients[client].Recording?)
  {
  }

  /** A step that is not a read keeps dispatches apart. */
  lemma CarefulKeepsSolo(s: State, step: Step, id: string)
    requires Inv(s) && Solo(s, id) && CarefulStep(s, step)
    ensures Solo(Next(s, step), id)
  {
    if step.Advance? && step.client in s.clients {
      assert PendingOk(s, s.clients[step.client]);
      AdvanceDispatches(s, step.client, s.clients[step.client], id, step.id, step.stamp);
    }
    SoloStays(s, step, id);
  }

  lemma SettledDispatchers(s: State, step: Step, id: string, a: nat)
    requires Inv(s) && CarefulStep(s, step) && Settled(s, id)
    requires a in Next(s, step).clients && Dispatches(Next(s, step).clients[a], id)
    ensures Next(s, step).clients[a].Recording?
  {
    if ClientOf(step) != Some(a) {
      OtherClientsStay(s, step, a);
    } else if step.Advance? {
      assert PendingOk(s, s.clients[a]);
      AdvanceDispatches(s, a, s.clients[a], id, step.id, step.stamp);
    }
  }

  lemma StillRecorded(s: State, step: Step, id: string)
    requires Inv(s) && CarefulStep(s, step) && Settled(s, id) && s.comms[id].delivery == Prepared
    ensures id in Next(s, step).comms
    ensures Next(s, step).comms[id].delivery != Prepared || BeingRecorded(Next(s, step), id)
  {
    EventStays(s, step, id);
    var a :| a in s.clients && Dispatches(s.clients[a], id) && Unrecorded(s.clients[a]);
    if ClientOf(step) != Some(a) {
      OtherClientsStay(s, step, a);
    } else if step.Advance? {
      assert PendingOk(s, s.clients[a]);
    }
  }

  lemma SettledStays(s: State, step: Step, id: string)
    requires Inv(s) && CarefulStep(s, step) && Settled(s, id)
    ensures Settled(Next(s, step), id) && Count(Next(s, step).sends, id) == Count(s.sends, id)
  {
    EventStays(s, step, id);
    forall a | a in Next(s, step).clients && Dispatches(Next(s, step).clients[a], id)
      ensures Next(s, step).clients[a].Recording?
    {
      SettledDispatchers(s, step, id, a);
    }
    if s.comms[id].delivery == Prepared {
      StillRecorded(s, step, id);
    }
    if !step.DispatchPost? {
      OnlyPostsSend(s, step);
    } else if step.client in s.clients && s.clients[step.client].Sending? && step.outcome.Transported? {
      var p := s.clients[step.client];
      CountNext(s.sends, Send(p.id, p.m.epoch, step.outcome.result), id);
    }
  }

  /** The first transport of the event. */
  lemma FirstPostSettles(s: State, step: Step, id: string)
    requires Inv(s) && Solo(s, id) && step.DispatchPost? && step.outcome.Transported?
    requires step.client in s.clients && s.clients[step.client].Sending? && s.clients[step.client].id == id
    ensures Settled(Next(s, step), id) && Count(Next(s, step).sends, id) == Count(s.sends, id) + 1
  {
    var s', p := Next(s, step), s.clients[step.client];
    assert PendingOk(s, p);
    CountNext(s.sends, Send(id, p.m.epoch, step.outcome.result), id);
    assert Dispatches(s'.clients[step.client], id) && Unrecorded(s'.clients[step.client]);
    forall a | a in s'.clients && Dispatches(s'.clients[a], id) ensures s'.clients[a].Recording? {
      if a != step.client {
        OtherClientsStay(s, step, a);
      }
    }
  }

  lemma CarefulKeepsAccounted(s: State, step: Step, id: string)
    requires Inv(s) && CarefulStep(s, step) && Accounted(s, id)
    ensures Accounted(Next(s, step), id)
  {
    CarefulKeepsSolo(s, step, id);
    if Count(s.sends, id) == 1 {
      SettledStays(s, step, id);
    } else if !step.DispatchPost? {
      OnlyPostsSend(s, step);
    } else if step.client in s.clients && s.clients[step.client].Sending? && step.outcome.Transported? {
      var p := s.clients[step.client];
      if p.id == id {
        FirstPostSettles(s, step, id);
      } else {
        CountNext(s.sends, Send(p.id, p.m.epoch, step.outcome.result), id);
      }
    }
  }

  /** In every run that never does either, however it interleaves, no event is transported twice. */
  lemma {:induction false} CarefulRunsSendOnce(s: State, steps: seq<Step>, id: string)
    requires Inv(s) && Careful(s, steps) && Accounted(s, id)
    ensures Accounted(Run(s, steps), id) && Count(Run(s, steps).sends, id) <= 1
    decreases |steps|
  {
    if steps != [] {
      NextKeepsInv(s, steps[0]);
      CarefulKeepsAccounted(s, steps[0], id);
      CarefulRunsSendOnce(Next(s, steps[0]), steps[1..], id);
    }
  }

  /** Dispatches that nothing interrupts are careful of themselves. */
  lemma UninterruptedSendsOnce(s: State, x: string, outcome: Outcome, id: string)
    requires s.clients == map[] && Accounted(s, id)
    ensures Accounted(DispatchOne(s, x, outcome), id)
  {
    if x in s.comms && s.comms[x].delivery == Prepared && s.comms[x].epoch == s.com.epoch && outcome.Transported? {
      CountNext(s.sends, Send(x, s.comms[x].epoch, outcome.result), id);
    }
  }

  /** From `s` to `s'` no event stops being accounted for, so none has been transported twice. */
  ghost predicate KeepsAccounts(s: State, s': State) {
    forall id :: Accounted(s, id) ==> Accounted(s', id)
  }

  lemma KeepsAccountsTransitive(a: State, b: State, c: State)
    requires KeepsAccounts(a, b) && KeepsAccounts(b, c)
    ensures KeepsAccounts(a, c)
  {
  }

  /** With nothing in flight, what neither transports nor makes an event prepared again keeps accounts. */
  lemma QuietKeepsAccounts(s: State, s': State)
    requires s.clients == map[] && s'.clients == map[] && s'.sends == s.sends
    requires forall id :: id in s.comms && s.comms[id].delivery != Prepared ==>
               id in s'.comms && s'.comms[id].delivery != Prepared
    ensures KeepsAccounts(s, s')
  {
    forall id | Accounted(s, id) ensures Accounted(s', id) {
      assert Count(s.sends, id) == 1 ==> Settled(s, id);
    }
  }

  lemma DispatchKeepsAccounts(s: State, x: string, outcome: Outcome)
    requires s.clients == map[]
    ensures KeepsAccounts(s, DispatchOne(s, x, outcome))
  {
    forall id | Accounted(s, id) ensures Accounted(DispatchOne(s, x, outcome), id) {
      UninterruptedSendsOnce(s, x, outcome, id);
    }
  }

  // ---------- Stale epochs ----------

  /** Every transport after `s` is for an epoch the commitment had at `s` or later. */
  ghost predicate NoOlder(s: State, s': State, epoch: int) {
    forall i :: |s.sends| <= i < |s'.sends| ==> s'.sends[i].epoch >= epoch
  }

  ghost predicate NeverStale(s: State) {
    forall steps :: NoOlder(s, Run(s, steps), s.com.epoch)
  }

  /** No dispatch that has passed its epoch check is for an older epoch. */
  ghost predicate ChecksCurrent(s: State, epoch: int) {
    forall client :: client in s.clients && s.clients[client].Sending? ==> s.clients[client].m.epoch >= epoch
  }

  lemma CheckedStaysCurrent(s: State, step: Step, epoch: int)
    requires Inv(s) && epoch <= s.com.epoch && ChecksCurrent(s, epoch)
    ensures ChecksCurrent(Next(s, step), epoch)
  {
    forall client | client in Next(s, step).clients && Next(s, step).clients[client].Sending?
      ensures Next(s, step).clients[client].m.epoch >= epoch
    {
      if ClientOf(step) != Some(client) {
        OtherClientsStay(s, step, client);
      } else {
        SendingWasChecked(s, step);
      }
    }
  }

  /** A client comes to send what it held already, or by a check that has just passed. */
  lemma SendingWasChecked(s: State, step: Step)
    requires !step.CaseMoves? && step.client in Next(s, step).clients && Next(s, step).clients[step.client].Sending?
    ensures var p := Next(s, step).clients[step.client];
            p.m.epoch == s.com.epoch || (step.client in s.clients && s.clients[step.client] == p)
  {
  }

  lemma {:induction false} CurrentChecksSend(s: State, steps: seq<Step>, epoch: int)
    requires Inv(s) && epoch <= s.com.epoch && ChecksCurrent(s, epoch)
    ensures NoOlder(s, Run(s, steps), epoch)
    decreases |steps|
  {
    if steps != [] {
      var next := Next(s, steps[0]);
      NextKeepsInv(s, steps[0]);
      StepProgress(s, steps[0]);
      CheckedStaysCurrent(s, steps[0], epoch);
      CurrentChecksSend(next, steps[1..], epoch);
      RunProgress(next, steps[1..]);
      StepSendsCurrent(s, steps[0], epoch);
    }
  }

  lemma StepSendsCurrent(s: State, step: Step, epoch: int)
    requires Inv(s) && ChecksCurrent(s, epoch)
    ensures NoOlder(s, Next(s, step), epoch)
  {
    if !step.DispatchPost? {
      OnlyPostsSend(s, step);
    }
  }

  /** Nothing is ever transported for an epoch older than the commitment has now exactly when no
      dispatch in flight has already passed its check for an older one. */
  lemma NeverStaleIff(s: State)
    requires Inv(s)
    ensures NeverStale(s) <==> ChecksCurrent(s, s.com.epoch)
  {
    if ChecksCurrent(s, s.com.epoch) {
      forall steps ensures NoOlder(s, Run(s, steps), s.com.epoch) {
        CurrentChecksSend(s, steps, s.com.epoch);
      }
    } else {
      var client :| client in s.clients && s.clients[client].Sending? && s.clients[client].m.epoch < s.com.epoch;
      var step := DispatchPost(client, SENT);
      assert Run(s, [step]) == Next(s, step) by {
        assert [step][1..] == [];
      }
      var s' := Run(s, [step]);
      assert s'.sends[|s.sends|].epoch < s.com.epoch;
      assert !NoOlder(s, s', s.com.epoch);
    }
  }

  /** A cancellation between the check and the transport of a dispatch: the message goes out for the
      epoch the commitment has just left. */
  lemma CancelOvertakesDispatch(s: State, id: string)
    requires Pickable(s, id) && s.clients == map[]
    requires s.com.epoch == s.kase.epoch && Unsettled(s.com) && !Terminal(s.kase.status)
    ensures var checked := Next(Next(s, DispatchRead(0, id)), Go(0));
            var cancelled := Next(Next(Next(checked, BeginCancel(1)), Go(1)), Go(1));
            var s' := Next(cancelled, DispatchPost(0, SENT));
            && s'.com.state == Withdrawn && s'.com.epoch == s.com.epoch + 1
            && s'.sends == s.sends + [Send(id, s.com.epoch, SENT.result)]
  {
  }
}
