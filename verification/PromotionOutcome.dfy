/** What the intake operations answer and what they leave behind, by the columns of the rows. */
module PromotionOutcome {
  import opened Common
  import opened Admission

  /** The candidate has this promotion, made on the assessment and event, for the requester. */
  ghost predicate Answers(t: Tables, id: string, assessment: string, event: string, requester: string, link: Link) {
    exists p :: p in t.promotions && p.candidate == id && p.assessment == assessment && p.event == event
      && p.request == link.request && p.request in t.requests && t.requests[p.request] == requester
      && event in t.ingress && t.ingress[event] == link
  }

  lemma LoadedInFull(t: Tables, id: string, assessment: string, event: string, requester: string)
    requires PromotionsOk(t) && PromotionOf(t.promotions, id).Some?
    ensures forall link ::
              LoadExisting(t, PromotionOf(t.promotions, id).value, assessment, event, requester) == Ok(link)
              <==> Answers(t, id, assessment, event, requester, link)
  {
    var p := PromotionOf(t.promotions, id).value;
    var n :| 0 <= n < |t.promotions| && t.promotions[n] == p;
    assert t.promotions[n].event in t.ingress;
    forall q | q in t.promotions && q.candidate == id ensures q == p {
      var m :| 0 <= m < |t.promotions| && t.promotions[m] == q;
    }
  }

  /** The check before the transaction lets a promotion through exactly when nothing is blank, the
      candidate has no promotion, is stored as given and active, the assessment is a stored final ADMIT
      not made by a model, and the source event has a verified receipt whose artifact, if any, is one of
      the candidate's sources. */
  lemma PendingIff(t: Tables, id: string, c: Candidate, assessment: string, source: Source, requester: string)
    ensures CheckOutcome(t, id, c, assessment, source, requester) == Pending <==>
            && source.system != "" && source.tenant != "" && source.event != "" && requester != ""
            && (forall p :: p in t.promotions ==> p.candidate != id)
            && id in t.candidates && t.candidates[id] == c && c.status == Active
            && assessment in t.assessments && t.assessments[assessment].final && t.assessments[assessment].admit
            && !t.assessments[assessment].fromModel
            && source in t.receipts && t.receipts[source].verified
            && (t.receipts[source].artifact.Some? ==> t.receipts[source].artifact.value in c.sources)
  {
    forall p | p in t.promotions && p.candidate == id ensures PromotionOf(t.promotions, id).Some? {
      var i :| 0 <= i < |t.promotions| && t.promotions[i] == p;
    }
  }

  /** It answers with a promotion made before exactly when nothing is blank and the candidate has one for
      the same assessment, event and requester, and creates none itself. */
  lemma ExistingIff(t: Tables, id: string, c: Candidate, assessment: string, source: Source, requester: string,
                    link: Link)
    requires PromotionsOk(t)
    ensures CheckOutcome(t, id, c, assessment, source, requester) == Existing(link) <==>
            && source.system != "" && source.tenant != "" && source.event != "" && requester != ""
            && Answers(t, id, assessment, source.event, requester, link)
    ensures !CheckOutcome(t, id, c, assessment, source, requester).Created?
  {
    if PromotionOf(t.promotions, id).Some? {
      LoadedInFull(t, id, assessment, source.event, requester);
    } else {
      forall p | p in t.promotions ensures p.candidate != id {
        var i :| 0 <= i < |t.promotions| && t.promotions[i] == p;
      }
    }
  }

  /** Only what is let through is under way afterwards, as asked for. */
  lemma BeginInFull(t: Tables, client: nat, id: string, c: Candidate, assessment: string, source: Source,
                    requester: string)
    ensures var t' := Next(t, Begin(client, id, c, assessment, source, requester));
            t' == if CheckOutcome(t, id, c, assessment, source, requester) == Pending
                  then t.(attempts := t.attempts[client := Attempt(id, assessment, source.event, requester)]) else t
  {
  }

  /** The transaction creates request, case, receipt and promotion exactly when the candidate has no
      promotion, the event no case, and both ids are new; it answers with a promotion made meanwhile for
      the same assessment, event and requester, and writes nothing then or when it refuses. */
  lemma CommitInFull(t: Tables, client: nat, request: string, kase: string)
    requires PromotionsOk(t) && client in t.attempts
    ensures var a := t.attempts[client]; var t' := Next(t, Commit(client, request, kase));
            var outcome := CommitOutcome(t, a, request, kase);
            && (outcome.Created? <==>
                  && (forall p :: p in t.promotions ==> p.candidate != a.candidate)
                  && a.event !in t.ingress && request !in t.requests && kase !in t.cases)
            && (outcome.Created? ==>
                  && outcome.link == Link(request, kase)
                  && t'.promotions == t.promotions + [Promotion(a.candidate, a.assessment, request, a.event)]
                  && t'.requests == t.requests[request := a.requester] && t'.cases == t.cases[kase := request]
                  && t'.ingress == t.ingress[a.event := Link(request, kase)]
                  && t'.candidates.Keys == t.candidates.Keys
                  && (a.candidate in t.candidates ==> t'.candidates[a.candidate].status == Admitted))
            && (forall link :: outcome == Existing(link) <==>
                  Answers(t, a.candidate, a.assessment, a.event, a.requester, link))
            && (!outcome.Created? ==> t' == t.(attempts := t'.attempts))
            && client !in t'.attempts
  {
    var a := t.attempts[client];
    forall p | p in t.promotions ensures p.candidate == a.candidate ==> PromotionOf(t.promotions, a.candidate).Some? {
      var i :| 0 <= i < |t.promotions| && t.promotions[i] == p;
    }
    if PromotionOf(t.promotions, a.candidate).Some? {
      LoadedInFull(t, a.candidate, a.assessment, a.event, a.requester);
    }
  }

  /** An attempt that stopped commits nothing any more. */
  lemma StoppedCommitsNothing(t: Tables, client: nat, request: string, kase: string)
    ensures var t' := Next(t, Stop(client)); Next(t', Commit(client, request, kase)) == t'
    ensures Next(t, Stop(client)) == t.(attempts := t.attempts - {client})
  {
  }

  // ---------- What is recorded on the way in ----------

  /** An assessment is recorded unless its id is taken, and a final one unless a model made it or the
      candidate has one already; a receipt is recorded unless the event has one. What was recorded first
      stays. */
  lemma IntakeRecords(t: Tables, id: string, a: Assessment, source: Source, receipt: Receipt)
    ensures Next(t, Assess(id, a)).assessments ==
            if id !in t.assessments
               && (a.final ==> !a.fromModel && forall x :: x in t.assessments && t.assessments[x].final ==>
                                                 t.assessments[x].candidate != a.candidate)
            then t.assessments[id := a] else t.assessments
    ensures Next(t, Receive(source, receipt)).receipts ==
            if source in t.receipts then t.receipts else t.receipts[source := receipt]
  {
  }

  /** A replacement is taken exactly when it is active, names its predecessor and shares its conversation,
      the predecessor is active and the id new; the very same replacement is answered again while the
      predecessor is superseded. */
  lemma SupersessionInFull(t: Tables, previous: string, id: string, c: Candidate)
    ensures Supersedable(t, previous, id, c) || SupersessionReplayed(t, previous, id, c) <==>
            && c.supersedes == Some(previous) && c.status == Active && previous in t.candidates
            && t.candidates[previous].conversation == c.conversation
            && (if id in t.candidates then t.candidates[id] == c && t.candidates[previous].status == Superseded
                else t.candidates[previous].status == Active)
    ensures var t' := Next(t, Supersede(previous, id, c));
            if Supersedable(t, previous, id, c)
            then t'.candidates == t.candidates[previous := t.candidates[previous].(status := Superseded)][id := c]
                 && t'.order == t.order + [id]
            else t' == t
  {
  }

  predicate CanOpen(t: Tables, request: string, kase: string, event: Option<string>) {
    request !in t.requests && kase !in t.cases && (event.Some? ==> event.value !in t.ingress)
  }

  /** A case opened outside of admission takes its request, its id and its source event. */
  lemma CaseOpens(t: Tables, request: string, requester: string, kase: string, event: Option<string>)
    ensures var t' := Next(t, CreateCase(request, requester, kase, event));
            if !CanOpen(t, request, kase, event) then t' == t
            else
              && t'.requests == t.requests[request := requester] && t'.cases == t.cases[kase := request]
              && (event.Some? ==> t'.ingress == t.ingress[event.value := Link(request, kase)])
              && (event.None? ==> t'.ingress == t.ingress)
  {
  }

  /** All promotions from position `n` on come from other events. */
  ghost predicate FromOthers(ps: seq<Promotion>, n: nat, event: string) {
    forall i :: n <= i < |ps| ==> ps[i].event != event
  }

  /** From then on no candidate is ever promoted from that event, under any interleaving. */
  lemma {:induction false} UsedEventBlocks(t: Tables, steps: seq<Step>, event: string)
    requires event in t.ingress
    ensures FromOthers(Run(t, steps).promotions, |t.promotions|, event)
    decreases |steps|
  {
    if steps != [] {
      EventStaysUsed(t, steps[0], event);
      OneMorePromotion(t, steps[0]);
      PromotionsStay(Next(t, steps[0]), steps[1..]);
      UsedEventBlocks(Next(t, steps[0]), steps[1..], event);
      JoinFromOthers(t.promotions, Next(t, steps[0]).promotions, Run(t, steps).promotions, event);
    }
  }

  lemma EventStaysUsed(t: Tables, step: Step, event: string)
    requires event in t.ingress
    ensures event in Next(t, step).ingress && FromOthers(Next(t, step).promotions, |t.promotions|, event)
  {
    NextKeeps(t, step);
    OneMorePromotion(t, step);
  }

  lemma JoinFromOthers(ps: seq<Promotion>, ps': seq<Promotion>, ps'': seq<Promotion>, event: string)
    requires ps' <= ps'' && FromOthers(ps', |ps|, event) && FromOthers(ps'', |ps'|, event)
    ensures FromOthers(ps'', |ps|, event)
  {
    forall i | |ps| <= i < |ps''| ensures ps''[i].event != event {
      if i < |ps'| {
        assert ps''[i] == ps'[i];
      }
    }
  }

  lemma OneMorePromotion(t: Tables, step: Step)
    ensures var t' := Next(t, step);
            || t'.promotions == t.promotions
            || (|t'.promotions| == |t.promotions| + 1 && t'.promotions[|t.promotions|].event !in t.ingress)
  {
    if !step.Commit? {
      SamePromotions(t, step);
    }
  }

  lemma {:induction false} PromotionsStay(t: Tables, steps: seq<Step>)
    ensures t.promotions <= Run(t, steps).promotions
    decreases |steps|
  {
    if steps != [] {
      NextKeeps(t, steps[0]);
      PromotionsStay(Next(t, steps[0]), steps[1..]);
    }
  }
}
