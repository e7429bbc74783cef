/** Candidate requests, their supersession chains, and their promotion to requests and cases.

    `promote` checks the candidate outside the transaction that commits the promotion, so the two
    are separate steps here and other clients may run between them. */
module Admission {
  import opened Common

  datatype Status = Active | Superseded | Admitted | Rejected

  datatype Candidate = Candidate(
    conversation: string, content: string, sources: set<string>, createdAt: int,
    supersedes: Option<string>, status: Status)

  datatype Assessment = Assessment(candidate: string, admit: bool, final: bool, fromModel: bool)

  datatype Source = Source(system: string, tenant: string, event: string)

  datatype Receipt = Receipt(verified: bool, artifact: Option<string>)

  datatype Promotion = Promotion(candidate: string, assessment: string, request: string, event: string)

  datatype Link = Link(request: string, kase: string)

  /** A promotion that passed its checks and has yet to commit. */
  datatype Attempt = Attempt(candidate: string, assessment: string, event: string, requester: string)

  datatype Tables = Tables(
    candidates: map<string, Candidate>,
    order: seq<string>,
    assessments: map<string, Assessment>,
    receipts: map<Source, Receipt>,
    promotions: seq<Promotion>,
    requests: map<string, string>,
    cases: map<string, string>,
    ingress: map<string, Link>,
    attempts: map<nat, Attempt>)

  datatype Step =
    | Append(id: string, candidate: Candidate)
    | Supersede(previous: string, id: string, candidate: Candidate)
    | Assess(id: string, assessment: Assessment)
    | Receive(source: Source, receipt: Receipt)
    | CreateCase(request: string, requester: string, kase: string, event: Option<string>)
    | Begin(client: nat, id: string, candidate: Candidate, assessmentId: string, source: Source, requester: string)
    | Commit(client: nat, request: string, kase: string)
    | Stop(client: nat)

  // ---------- Transitions ----------

  /** The promotion of a candidate, if there is one. */
  function PromotionOf(ps: seq<Promotion>, id: string): (r: Option<Promotion>)
    ensures r.Some? <==> exists i :: 0 <= i < |ps| && ps[i].candidate == id
    ensures r.Some? ==> r.value in ps && r.value.candidate == id
  {
    if ps == [] then None
    else if ps[0].candidate == id then Some(ps[0])
    else
      assert forall i :: 0 <= i < |ps| - 1 ==> ps[1..][i] == ps[i + 1];
      PromotionOf(ps[1..], id)
  }

  /** `_load_existing`: the request and case of an earlier promotion, for the same assessment, source
      event and requester. */
  function LoadExisting(t: Tables, p: Promotion, assessment: string, event: string, requester: string): Result<Link> {
    if p.assessment != assessment then Err("candidate was already promoted with another assessment")
    else if p.event != event then Err("candidate was already promoted from another source event")
    else if p.event !in t.ingress || p.request !in t.requests then Err("promotion lineage points to missing records")
    else if t.ingress[p.event].kase !in t.cases then Err("promotion lineage points to a missing case")
    else if t.requests[p.request] != requester then Err("redelivery requester differs from the promoted request")
    else Ok(Link(p.request, t.ingress[p.event].kase))
  }

  /** The checks of `promote` on a candidate that has no promotion yet. */
  predicate Eligible(t: Tables, id: string, c: Candidate, assessment: string, source: Source) {
    && id in t.candidates && t.candidates[id] == c && c.status == Active
    && assessment in t.assessments
    && t.assessments[assessment].final && t.assessments[assessment].admit && !t.assessments[assessment].fromModel
    && source in t.receipts && t.receipts[source].verified
    && (t.receipts[source].artifact.Some? ==> t.receipts[source].artifact.value in c.sources)
  }

  predicate Named(source: Source, requester: string) {
    source.system != "" && source.tenant != "" && source.event != "" && requester != ""
  }

  /** The committing transaction finds nothing in its way. */
  predicate Committable(t: Tables, a: Attempt, request: string, kase: string) {
    && PromotionOf(t.promotions, a.candidate).None?
    && a.event !in t.ingress
    && request !in t.requests && kase !in t.cases
  }

  function Committed(t: Tables, a: Attempt, request: string, kase: string): Tables {
    t.(requests := t.requests[request := a.requester],
       cases := t.cases[kase := request],
       ingress := t.ingress[a.event := Link(request, kase)],
       promotions := t.promotions + [Promotion(a.candidate, a.assessment, request, a.event)],
       candidates := if a.candidate in t.candidates
                     then t.candidates[a.candidate := t.candidates[a.candidate].(status := Admitted)]
                     else t.candidates)
  }

  predicate Supersedable(t: Tables, previous: string, id: string, c: Candidate) {
    && c.supersedes == Some(previous) && c.status == Active
    && previous in t.candidates && t.candidates[previous].conversation == c.conversation
    && id !in t.candidates && t.candidates[previous].status == Active
  }

  function Insert(t: Tables, id: string, c: Candidate): Tables {
    t.(candidates := t.candidates[id := c], order := t.order + [id])
  }

  /** One atomic step; a refused operation changes nothing. */
  function Next(t: Tables, step: Step): Tables {
    match step
    case Append(id, c) => if c.supersedes.Some? || id in t.candidates then t else Insert(t, id, c)
    case Supersede(previous, id, c) =>
      if !Supersedable(t, previous, id, c) then t
      else Insert(t.(candidates := t.candidates[previous := t.candidates[previous].(status := Superseded)]), id, c)
    case Assess(id, a) =>
      if id in t.assessments || (a.final && (a.fromModel || HasFinal(t, a.candidate))) then t
      else t.(assessments := t.assessments[id := a])
    case Receive(source, receipt) =>
      if source in t.receipts then t else t.(receipts := t.receipts[source := receipt])
    case CreateCase(request, requester, kase, event) =>
      if request in t.requests || kase in t.cases || (event.Some? && event.value in t.ingress) then t
      else
        t.(requests := t.requests[request := requester], cases := t.cases[kase := request],
           ingress := if event.Some? then t.ingress[event.value := Link(request, kase)] else t.ingress)
    case Begin(client, id, c, assessment, source, requester) =>
      if Named(source, requester) && PromotionOf(t.promotions, id).None? && Eligible(t, id, c, assessment, source)
      then t.(attempts := t.attempts[client := Attempt(id, assessment, source.event, requester)])
      else t
    case Commit(client, request, kase) =>
      if client !in t.attempts then t
      else
        var a := t.attempts[client];
        var t' := if Committable(t, a, request, kase) then Committed(t, a, request, kase) else t;
        t'.(attempts := t'.attempts - {client})
    case Stop(client) => t.(attempts := t.attempts - {client})
  }

  predicate HasFinal(t: Tables, candidate: string) {
    exists id :: id in t.assessments && t.assessments[id].final && t.assessments[id].candidate == candidate
  }

  function Run(t: Tables, steps: seq<Step>): Tables
    decreases |steps|
  {
    if steps == [] then t else Run(Next(t, steps[0]), steps[1..])
  }

  const EMPTY := Tables(map[], [], map[], map[], [], map[], map[], map[], map[])

  // ---------- Promotions ----------

  ghost predicate PromotionsDistinct(ps: seq<Promotion>) {
    forall i, j :: 0 <= i < j < |ps| ==>
      ps[i].candidate != ps[j].candidate && ps[i].request != ps[j].request && ps[i].event != ps[j].event
  }

  /** Every receipt leads to a stored request and to the case opened for it. */
  ghost predicate IngressOk(t: Tables) {
    forall event :: event in t.ingress ==>
      && t.ingress[event].request in t.requests
      && t.ingress[event].kase in t.cases
      && t.cases[t.ingress[event].kase] == t.ingress[event].request
  }

  ghost predicate CasesOk(t: Tables) {
    && (forall x, y :: x in t.cases && y in t.cases && t.cases[x] == t.cases[y] ==> x == y)
    && (forall x :: x in t.cases ==> t.cases[x] in t.requests)
  }

  /** Promotions share no candidate, request or source event; each one's receipt leads to its own
      request and to the one case opened for it. */
  ghost predicate PromotionsOk(t: Tables) {
    && PromotionsDistinct(t.promotions)
    && (forall i :: 0 <= i < |t.promotions| ==>
          && t.promotions[i].event in t.ingress
          && t.ingress[t.promotions[i].event].request == t.promotions[i].request)
    && IngressOk(t)
    && CasesOk(t)
  }

  lemma CommitKeepsDistinct(t: Tables, a: Attempt, request: string, kase: string)
    requires PromotionsOk(t) && Committable(t, a, request, kase)
    ensures PromotionsDistinct(Committed(t, a, request, kase).promotions)
  {
    var ps, p := t.promotions, Promotion(a.candidate, a.assessment, request, a.event);
    forall i | 0 <= i < |ps|
      ensures ps[i].candidate != p.candidate && ps[i].request != p.request && ps[i].event != p.event
    {
      assert ps[i].event in t.ingress;
    }
  }

  lemma CommitKeepsCases(t: Tables, a: Attempt, request: string, kase: string)
    requires IngressOk(t) && CasesOk(t) && Committable(t, a, request, kase)
    ensures IngressOk(Committed(t, a, request, kase)) && CasesOk(Committed(t, a, request, kase))
  {
  }

  lemma CommitKeepsPromotions(t: Tables, a: Attempt, request: string, kase: string)
    requires PromotionsOk(t) && Committable(t, a, request, kase)
    ensures PromotionsOk(Committed(t, a, request, kase))
  {
    CommitKeepsDistinct(t, a, request, kase);
    CommitKeepsCases(t, a, request, kase);
    var t', n := Committed(t, a, request, kase), |t.promotions|;
    assert forall i :: 0 <= i < n ==> t'.promotions[i] == t.promotions[i];
    assert t'.promotions[n] == Promotion(a.candidate, a.assessment, request, a.event);
  }

  /** Everything recorded for a promotion stays recorded. */
  ghost predicate LineageKept(t: Tables, t': Tables) {
    && t.promotions <= t'.promotions
    && (forall r :: r in t.requests ==> r in t'.requests && t'.requests[r] == t.requests[r])
    && (forall k :: k in t.cases ==> k in t'.cases && t'.cases[k] == t.cases[k])
    && (forall e :: e in t.ingress ==> e in t'.ingress && t'.ingress[e] == t.ingress[e])
  }

  /** Candidates stay, in order, and only ever change status. */
  ghost predicate CandidatesKept(t: Tables, t': Tables) {
    && t.order <= t'.order
    && forall id :: id in t.candidates ==>
         id in t'.candidates && t'.candidates[id] == t.candidates[id].(status := t'.candidates[id].status)
  }

  lemma CommitKeepsRest(t: Tables, a: Attempt, request: string, kase: string)
    requires Committable(t, a, request, kase)
    ensures LineageKept(t, Committed(t, a, request, kase)) && CandidatesKept(t, Committed(t, a, request, kase))
  {
  }

  lemma OffersKeepLineage(t: Tables, step: Step)
    requires step.Append? || step.Supersede?
    ensures var t' := Next(t, step); t' == t.(candidates := t'.candidates, order := t'.order)
  {
  }

  lemma AppendKeepsCandidates(t: Tables, step: Step)
    requires step.Append?
    ensures CandidatesKept(t, Next(t, step))
  {
  }

  lemma SupersedeKeepsCandidates(t: Tables, step: Step)
    requires step.Supersede?
    ensures CandidatesKept(t, Next(t, step))
  {
  }

  lemma CommitStepKeeps(t: Tables, step: Step)
    requires step.Commit?
    ensures LineageKept(t, Next(t, step)) && CandidatesKept(t, Next(t, step))
  {
    if step.client in t.attempts && Committable(t, t.attempts[step.client], step.request, step.kase) {
      CommitKeepsRest(t, t.attempts[step.client], step.request, step.kase);
    }
  }

  lemma CreateKeeps(t: Tables, step: Step)
    requires step.CreateCase?
    ensures LineageKept(t, Next(t, step)) && CandidatesKept(t, Next(t, step))
  {
  }

  /** Steps that touch neither candidates nor lineage. */
  lemma QuietStep(t: Tables, step: Step)
    requires step.Assess? || step.Receive? || step.Begin? || step.Stop?
    ensures var t' := Next(t, step); t' == t.(assessments := t'.assessments, receipts := t'.receipts,
                                              attempts := t'.attempts)
  {
  }

  lemma CreateKeepsPromotions(t: Tables, step: Step)
    requires PromotionsOk(t) && step.CreateCase?
    ensures PromotionsOk(Next(t, step))
  {
  }

  lemma NextKeepsPromotions(t: Tables, step: Step)
    requires PromotionsOk(t)
    ensures PromotionsOk(Next(t, step))
  {
    if step.CreateCase? {
      CreateKeepsPromotions(t, step);
    } else if step.Commit? {
      if step.client in t.attempts && Committable(t, t.attempts[step.client], step.request, step.kase) {
        CommitKeepsPromotions(t, t.attempts[step.client], step.request, step.kase);
      }
    } else if step.Append? || step.Supersede? {
      OffersKeepLineage(t, step);
    } else {
      QuietStep(t, step);
    }
  }

  lemma NextKeeps(t: Tables, step: Step)
    ensures LineageKept(t, Next(t, step)) && CandidatesKept(t, Next(t, step))
  {
    if step.Append? {
      OffersKeepLineage(t, step);
      AppendKeepsCandidates(t, step);
    } else if step.Supersede? {
      OffersKeepLineage(t, step);
      SupersedeKeepsCandidates(t, step);
    } else if step.CreateCase? {
      CreateKeeps(t, step);
    } else if step.Commit? {
      CommitStepKeeps(t, step);
    } else {
      QuietStep(t, step);
    }
  }

  lemma {:induction false} RunExtends(t: Tables, steps: seq<Step>)
    requires PromotionsOk(t)
    ensures LineageKept(t, Run(t, steps)) && CandidatesKept(t, Run(t, steps)) && PromotionsOk(Run(t, steps))
    decreases |steps|
  {
    if steps != [] {
      NextKeepsPromotions(t, steps[0]);
      NextKeeps(t, steps[0]);
      RunExtends(Next(t, steps[0]), steps[1..]);
    }
  }

  /** Under every interleaving a committed promotion answers each later attempt for its candidate:
      the same request and case for the same assessment, event and requester, a conflict for any
      other. */
  lemma PromotionAnswersForever(t: Tables, a: Attempt, request: string, kase: string, steps: seq<Step>,
                                assessment: string, event: string, requester: string)
    requires PromotionsOk(t) && Committable(t, a, request, kase)
    ensures var t' := Run(Committed(t, a, request, kase), steps);
            var p := PromotionOf(t'.promotions, a.candidate);
            && p.Some?
            && (if assessment == a.assessment && event == a.event && requester == a.requester
                then LoadExisting(t', p.value, assessment, event, requester) == Ok(Link(request, kase))
                else LoadExisting(t', p.value, assessment, event, requester).Err?)
  {
    var t1 := Committed(t, a, request, kase);
    CommitKeepsPromotions(t, a, request, kase);
    RunExtends(t1, steps);
    PromotionStays(t, a, request, kase, Run(t1, steps));
  }

  /** With no candidate promoted twice, a promotion is found under its candidate. */
  lemma PromotionFound(ps: seq<Promotion>, n: nat)
    requires n < |ps| && forall i, j :: 0 <= i < j < |ps| ==> ps[i].candidate != ps[j].candidate
    ensures PromotionOf(ps, ps[n].candidate) == Some(ps[n])
  {
    var p := PromotionOf(ps, ps[n].candidate);
    assert ps[n].candidate == ps[n].candidate;
    var j :| 0 <= j < |ps| && ps[j] == p.value;
  }

  lemma PromotionStays(t: Tables, a: Attempt, request: string, kase: string, t': Tables)
    requires PromotionsOk(t') && LineageKept(Committed(t, a, request, kase), t')
    ensures PromotionOf(t'.promotions, a.candidate) == Some(Promotion(a.candidate, a.assessment, request, a.event))
    ensures a.event in t'.ingress && t'.ingress[a.event] == Link(request, kase)
    ensures request in t'.requests && t'.requests[request] == a.requester && kase in t'.cases
  {
    var t1, n := Committed(t, a, request, kase), |t.promotions|;
    assert t'.promotions[n] == t1.promotions[n];
    PromotionFound(t'.promotions, n);
  }

  // ---------- Supersession chains ----------

  ghost predicate HasSuccessor(t: Tables, id: string) {
    exists x :: x in t.candidates && t.candidates[x].supersedes == Some(id)
  }

  /** `order` lists each candidate once, and a candidate supersedes only an earlier one of its own
      conversation. */
  ghost predicate Lists(order: seq<string>, cs: map<string, Candidate>) {
    && (forall i, j :: 0 <= i < j < |order| ==> order[i] != order[j])
    && (forall i :: 0 <= i < |order| ==> order[i] in cs)
    && (forall id :: id in cs ==> id in order)
    && (forall j :: 0 <= j < |order| && cs[order[j]].supersedes.Some? ==> LinksBack(order, cs, j))
  }

  ghost predicate LinksBack(order: seq<string>, cs: map<string, Candidate>, j: nat)
    requires j < |order| && order[j] in cs && cs[order[j]].supersedes.Some?
  {
    exists i :: 0 <= i < j && order[i] == cs[order[j]].supersedes.value && order[i] in cs
      && cs[order[i]].conversation == cs[order[j]].conversation
  }

  ghost predicate OrderOk(t: Tables) {
    Lists(t.order, t.candidates)
  }

  /** No two candidates supersede the same one, and one that has been superseded is not active. */
  ghost predicate Successors(cs: map<string, Candidate>) {
    && (forall x, y ::
          x in cs && y in cs && cs[x].supersedes.Some? && cs[x].supersedes == cs[y].supersedes ==> x == y)
    && (forall x :: x in cs && cs[x].supersedes.Some? ==>
          cs[x].supersedes.value in cs && cs[cs[x].supersedes.value].status != Active)
  }

  ghost predicate SuccessorsOk(t: Tables) {
    Successors(t.candidates)
  }

  lemma InsertKeepsOrder(order: seq<string>, cs: map<string, Candidate>, id: string, c: Candidate)
    requires Lists(order, cs) && id !in cs
    requires c.supersedes.Some? ==> c.supersedes.value in cs && cs[c.supersedes.value].conversation == c.conversation
    ensures Lists(order + [id], cs[id := c])
  {
    var order', cs', n := order + [id], cs[id := c], |order|;
    assert forall i :: 0 <= i < n ==> order'[i] == order[i] && order[i] != id;
    forall j | 0 <= j < |order'| && cs'[order'[j]].supersedes.Some? ensures LinksBack(order', cs', j) {
      if j < n {
        assert LinksBack(order, cs, j);
        var i :| 0 <= i < j && order[i] == cs[order[j]].supersedes.value && order[i] in cs
          && cs[order[i]].conversation == cs[order[j]].conversation;
        assert order'[i] == cs'[order'[j]].supersedes.value;
      } else {
        assert c.supersedes.value in order;
        var i :| 0 <= i < n && order[i] == c.supersedes.value;
        assert order'[i] == cs'[order'[j]].supersedes.value;
      }
    }
  }

  /** Changing statuses leaves the chains alone. */
  lemma StatusKeepsOrder(order: seq<string>, cs: map<string, Candidate>, id: string, status: Status)
    requires Lists(order, cs) && id in cs
    ensures Lists(order, cs[id := cs[id].(status := status)])
  {
    var cs' := cs[id := cs[id].(status := status)];
    forall j | 0 <= j < |order| && cs'[order[j]].supersedes.Some? ensures LinksBack(order, cs', j) {
      assert LinksBack(order, cs, j);
    }
  }

  lemma NextKeepsOrder(t: Tables, step: Step)
    requires OrderOk(t)
    ensures OrderOk(Next(t, step))
  {
    if step.Commit? {
      CommitKeepsOrder(t, step);
    } else if step.Append? || step.Supersede? {
      OfferKeepsOrder(t, step);
    } else if !step.CreateCase? {
      QuietStep(t, step);
    }
  }

  lemma OfferKeepsOrder(t: Tables, step: Step)
    requires OrderOk(t) && (step.Append? || step.Supersede?)
    ensures OrderOk(Next(t, step))
  {
    match step
    case Append(id, c) =>
      if c.supersedes.None? && id !in t.candidates {
        InsertKeepsOrder(t.order, t.candidates, id, c);
      }
    case Supersede(previous, id, c) =>
      if Supersedable(t, previous, id, c) {
        StatusKeepsOrder(t.order, t.candidates, previous, Superseded);
        var marked := t.candidates[previous := t.candidates[previous].(status := Superseded)];
        InsertKeepsOrder(t.order, marked, id, c);
      }
  }

  lemma CommitKeepsOrder(t: Tables, step: Step)
    requires OrderOk(t) && step.Commit?
    ensures OrderOk(Next(t, step))
  {
    if step.client in t.attempts && t.attempts[step.client].candidate in t.candidates {
      StatusKeepsOrder(t.order, t.candidates, t.attempts[step.client].candidate, Admitted);
    }
  }

  lemma StatusKeepsSuccessors(cs: map<string, Candidate>, id: string, status: Status)
    requires Successors(cs) && id in cs && status != Active
    ensures Successors(cs[id := cs[id].(status := status)])
  {
    var cs' := cs[id := cs[id].(status := status)];
    assert forall x :: x in cs ==> cs'[x].supersedes == cs[x].supersedes;
  }

  lemma InsertKeepsSuccessors(cs: map<string, Candidate>, id: string, c: Candidate)
    requires Successors(cs) && id !in cs
    requires c.supersedes.Some? ==>
               c.supersedes.value in cs && cs[c.supersedes.value].status != Active
               && forall x :: x in cs ==> cs[x].supersedes != c.supersedes
    ensures Successors(cs[id := c])
  {
  }

  lemma NextKeepsSuccessors(t: Tables, step: Step)
    requires SuccessorsOk(t)
    ensures SuccessorsOk(Next(t, step))
  {
    match step
    case Append(id, c) =>
      if c.supersedes.None? && id !in t.candidates {
        InsertKeepsSuccessors(t.candidates, id, c);
      }
    case Supersede(previous, id, c) =>
      if Supersedable(t, previous, id, c) {
        assert forall x :: x in t.candidates ==> t.candidates[x].supersedes != Some(previous);
        StatusKeepsSuccessors(t.candidates, previous, Superseded);
        InsertKeepsSuccessors(t.candidates[previous := t.candidates[previous].(status := Superseded)], id, c);
      }
    case Commit(client, request, kase) =>
      if client in t.attempts && t.attempts[client].candidate in t.candidates {
        StatusKeepsSuccessors(t.candidates, t.attempts[client].candidate, Admitted);
      }
    case CreateCase(_, _, _, _) =>
    case _ => QuietStep(t, step);
  }

  /** The chain invariants and the promotion invariants together. */
  ghost predicate Inv(t: Tables) {
    PromotionsOk(t) && OrderOk(t) && SuccessorsOk(t)
  }

  /** In every reachable state, under any interleaving. */
  lemma {:induction false} RunKeepsInv(t: Tables, steps: seq<Step>)
    requires Inv(t)
    ensures Inv(Run(t, steps))
    decreases |steps|
  {
    if steps != [] {
      NextKeepsPromotions(t, steps[0]);
      NextKeepsOrder(t, steps[0]);
      NextKeepsSuccessors(t, steps[0]);
      RunKeepsInv(Next(t, steps[0]), steps[1..]);
    }
  }

  /** Each element of the path supersedes the next one. */
  ghost predicate IsChain(t: Tables, path: seq<string>) {
    && (forall i :: 0 <= i < |path| ==> path[i] in t.candidates)
    && (forall i :: 0 <= i < |path| - 1 ==> t.candidates[path[i]].supersedes == Some(path[i + 1]))
  }

  lemma {:induction false} ChainGoesBack(t: Tables, path: seq<string>) returns (first: nat, last: nat)
    requires OrderOk(t) && IsChain(t, path) && path != []
    ensures first < |t.order| && t.order[first] == path[0]
    ensures last < |t.order| && t.order[last] == path[|path| - 1]
    ensures |path| > 1 ==> last < first
    ensures t.candidates[path[0]].conversation == t.candidates[path[|path| - 1]].conversation
    decreases |path|
  {
    assert path[0] in t.order;
    first :| 0 <= first < |t.order| && t.order[first] == path[0];
    if |path| == 1 {
      last := first;
    } else {
      assert t.candidates[path[0]].supersedes == Some(path[1]);
      assert LinksBack(t.order, t.candidates, first);
      var i :| 0 <= i < first && t.order[i] == t.candidates[t.order[first]].supersedes.value
          && t.order[i] in t.candidates
        && t.candidates[t.order[i]].conversation == t.candidates[t.order[first]].conversation;
      var next, l := ChainGoesBack(t, path[1..]);
      assert next == i;
      last := l;
    }
  }

  /** Supersession chains never close on themselves and never leave their conversation. */
  lemma ChainsAcyclic(t: Tables, path: seq<string>, i: nat, j: nat)
    requires OrderOk(t) && IsChain(t, path) && i < j < |path|
    ensures path[i] != path[j]
    ensures t.candidates[path[i]].conversation == t.candidates[path[j]].conversation
  {
    var part := path[i..j + 1];
    assert IsChain(t, part) by {
      forall k | 0 <= k < |part| - 1 ensures t.candidates[part[k]].supersedes == Some(part[k + 1]) {
        assert part[k] == path[i + k] && part[k + 1] == path[i + k + 1];
      }
    }
    var first, last := ChainGoesBack(t, part);
  }

  // ---------- Superseded for good ----------

  /** What the documentation intends: a candidate with a successor is SUPERSEDED. */
  ghost predicate SupersededFinal(t: Tables) {
    forall x :: x in t.candidates && t.candidates[x].supersedes.Some?
        && t.candidates[x].supersedes.value in t.candidates
      ==> t.candidates[t.candidates[x].supersedes.value].status == Superseded
  }

  /** Only a commit can break it, and a commit breaks it exactly when its candidate was superseded
      after the check. */
  lemma CommitAfterSupersession(t: Tables, a: Attempt, request: string, kase: string)
    requires SupersededFinal(t) && Committable(t, a, request, kase) && a.candidate in t.candidates
    ensures SupersededFinal(Committed(t, a, request, kase)) <==> !HasSuccessor(t, a.candidate)
  {
    var t' := Committed(t, a, request, kase);
    assert forall x :: x in t.candidates ==> t'.candidates[x].supersedes == t.candidates[x].supersedes;
    if HasSuccessor(t, a.candidate) {
      var x :| x in t.candidates && t.candidates[x].supersedes == Some(a.candidate);
      assert t'.candidates[t'.candidates[x].supersedes.value].status == Admitted;
    }
  }

  lemma OtherStepsKeepSuperseded(t: Tables, step: Step)
    requires SuccessorsOk(t) && SupersededFinal(t) && !step.Commit?
    ensures SupersededFinal(Next(t, step))
  {
    match step
    case Append(id, c) =>
    case Supersede(previous, id, c) =>
    case CreateCase(_, _, _, _) =>
    case _ => QuietStep(t, step);
  }

  /** The step commits the promotion of a candidate that has been superseded since its check. */
  ghost predicate CommitsSuperseded(t: Tables, step: Step) {
    && step.Commit? && step.client in t.attempts
    && Committable(t, t.attempts[step.client], step.request, step.kase)
    && t.attempts[step.client].candidate in t.candidates
    && HasSuccessor(t, t.attempts[step.client].candidate)
  }

  ghost predicate EverCommitsSuperseded(t: Tables, steps: seq<Step>)
    decreases |steps|
  {
    steps != [] && (CommitsSuperseded(t, steps[0]) || EverCommitsSuperseded(Next(t, steps[0]), steps[1..]))
  }

  lemma SupersededStep(t: Tables, step: Step)
    requires SuccessorsOk(t) && SupersededFinal(t) && !CommitsSuperseded(t, step)
    ensures SupersededFinal(Next(t, step))
  {
    if step.Commit? {
      if step.client in t.attempts && Committable(t, t.attempts[step.client], step.request, step.kase)
         && t.attempts[step.client].candidate in t.candidates {
        CommitAfterSupersession(t, t.attempts[step.client], step.request, step.kase);
      }
    } else {
      OtherStepsKeepSuperseded(t, step);
    }
  }

  /** An ADMITTED candidate with a successor. */
  ghost predicate AdmittedOver(t: Tables, id: string) {
    id in t.candidates && t.candidates[id].status == Admitted && HasSuccessor(t, id)
  }

  lemma AdmittedStays(t: Tables, step: Step, id: string)
    requires id in t.candidates && t.candidates[id].status == Admitted
    ensures id in Next(t, step).candidates && Next(t, step).candidates[id].status == Admitted
  {
  }

  lemma AdmittedOverStays(t: Tables, step: Step, id: string)
    requires AdmittedOver(t, id)
    ensures AdmittedOver(Next(t, step), id)
  {
    AdmittedStays(t, step, id);
    NextKeeps(t, step);
    var x :| x in t.candidates && t.candidates[x].supersedes == Some(id);
    assert Next(t, step).candidates[x].supersedes == Some(id);
  }

  lemma {:induction false} AdmittedOverForever(t: Tables, steps: seq<Step>, id: string)
    requires AdmittedOver(t, id)
    ensures AdmittedOver(Run(t, steps), id)
    decreases |steps|
  {
    if steps != [] {
      AdmittedOverStays(t, steps[0], id);
      AdmittedOverForever(Next(t, steps[0]), steps[1..], id);
    }
  }

  lemma CommitLeavesAdmittedOver(t: Tables, step: Step)
    requires CommitsSuperseded(t, step)
    ensures AdmittedOver(Next(t, step), t.attempts[step.client].candidate)
  {
    var id := t.attempts[step.client].candidate;
    var x :| x in t.candidates && t.candidates[x].supersedes == Some(id);
    assert Next(t, step).candidates[x].supersedes == Some(id);
  }

  lemma AdmittedOverNotFinal(t: Tables, id: string)
    requires AdmittedOver(t, id)
    ensures !SupersededFinal(t)
  {
    var x :| x in t.candidates && t.candidates[x].supersedes == Some(id);
    assert t.candidates[x].supersedes.value in t.candidates;
  }

  /** Under any interleaving every candidate with a successor is SUPERSEDED exactly when no promotion
      was ever committed for a candidate superseded since its check. */
  lemma {:induction false} SupersededRunIff(t: Tables, steps: seq<Step>)
    requires SuccessorsOk(t) && SupersededFinal(t)
    ensures SupersededFinal(Run(t, steps)) <==> !EverCommitsSuperseded(t, steps)
    decreases |steps|
  {
    if steps != [] {
      if CommitsSuperseded(t, steps[0]) {
        var id := t.attempts[steps[0].client].candidate;
        CommitLeavesAdmittedOver(t, steps[0]);
        AdmittedOverForever(Next(t, steps[0]), steps[1..], id);
        AdmittedOverNotFinal(Run(t, steps), id);
      } else {
        SupersededStep(t, steps[0]);
        NextKeepsSuccessors(t, steps[0]);
        SupersededRunIff(Next(t, steps[0]), steps[1..]);
      }
    }
  }

  /** `promote` without interference: check and commit back to back. */
  function Promote(t: Tables, id: string, c: Candidate, assessment: string, source: Source, requester: string,
                   request: string, kase: string): Tables
  {
    Next(Next(t, Begin(0, id, c, assessment, source, requester)), Commit(0, request, kase))
  }

  /** Run one after the other, promotions never touch a superseded candidate. */
  lemma SequentialPromoteKeepsSuperseded(t: Tables, id: string, c: Candidate, assessment: string, source: Source,
                                         requester: string, request: string, kase: string)
    requires SuccessorsOk(t) && SupersededFinal(t) && t.attempts == map[]
    ensures SupersededFinal(Promote(t, id, c, assessment, source, requester, request, kase))
    ensures Promote(t, id, c, assessment, source, requester, request, kase).attempts == map[]
  {
    var begun := Next(t, Begin(0, id, c, assessment, source, requester));
    OtherStepsKeepSuperseded(t, Begin(0, id, c, assessment, source, requester));
    if 0 in begun.attempts && Committable(begun, begun.attempts[0], request, kase) {
      CommitAfterSupersession(begun, begun.attempts[0], request, kase);
    }
  }

  datatype Op =
    | Single(step: Step)
    | Whole(id: string, candidate: Candidate, assessment: string, source: Source, requester: string,
            request: string, kase: string)

  function Apply(t: Tables, op: Op): Tables {
    match op
    case Single(step) => Next(t, step)
    case Whole(id, c, assessment, source, requester, request, kase) =>
      Promote(t, id, c, assessment, source, requester, request, kase)
  }

  function ApplyAll(t: Tables, ops: seq<Op>): Tables
    decreases |ops|
  {
    if ops == [] then t else ApplyAll(Apply(t, ops[0]), ops[1..])
  }

  lemma ApplyKeepsSuperseded(t: Tables, op: Op)
    requires SuccessorsOk(t) && SupersededFinal(t) && t.attempts == map[]
    requires op.Single? ==> !op.step.Begin? && !op.step.Commit?
    ensures SuccessorsOk(Apply(t, op)) && SupersededFinal(Apply(t, op)) && Apply(t, op).attempts == map[]
  {
    match op {
      case Single(step) =>
        NextKeepsSuccessors(t, step);
        OtherStepsKeepSuperseded(t, step);
        NoAttempts(t, step);
      case Whole(id, c, assessment, source, requester, request, kase) =>
        var begun := Next(t, Begin(0, id, c, assessment, source, requester));
        NextKeepsSuccessors(t, Begin(0, id, c, assessment, source, requester));
        NextKeepsSuccessors(begun, Commit(0, request, kase));
        SequentialPromoteKeepsSuperseded(t, id, c, assessment, source, requester, request, kase);
    }
  }

  lemma NoAttempts(t: Tables, step: Step)
    requires t.attempts == map[] && !step.Begin?
    ensures Next(t, step).attempts == map[]
  {
  }

  /** Over every sequential run a candidate with a successor is and stays SUPERSEDED. */
  lemma {:induction false} SequentialRunKeepsSuperseded(t: Tables, ops: seq<Op>)
    requires SuccessorsOk(t) && SupersededFinal(t) && t.attempts == map[]
    requires forall i :: 0 <= i < |ops| && ops[i].Single? ==> !ops[i].step.Begin? && !ops[i].step.Commit?
    ensures SupersededFinal(ApplyAll(t, ops))
    decreases |ops|
  {
    if ops != [] {
      ApplyKeepsSuperseded(t, ops[0]);
      SequentialRunKeepsSuperseded(Apply(t, ops[0]), ops[1..]);
    }
  }

  /** With a supersession between check and commit the superseded candidate ends up admitted. */
  lemma InterleavedPromoteBreaksIt()
    ensures var c := Candidate("conv", "text", {}, 1, None, Active);
            var next := Candidate("conv", "text", {}, 2, Some("a"), Active);
            var t := EMPTY.(candidates := map["a" := c], order := ["a"],
                              assessments := map["x" := Assessment("a", true, true, false)],
                              receipts := map[Source("s", "t", "e") := Receipt(true, None)]);
            var begun := Next(t, Begin(0, "a", c, "x", Source("s", "t", "e"), "r"));
            var superseded := Next(begun, Supersede("a", "b", next));
            var committed := Next(superseded, Commit(0, "q", "k"));
            SupersededFinal(superseded) && committed.candidates["b"].supersedes == Some("a")
            && committed.candidates["a"].status == Admitted
  {
  }

  /** Repeating a supersession succeeds without any change exactly while the replacement is stored as
      it was given. */
  predicate SupersessionReplayed(t: Tables, previous: string, id: string, c: Candidate) {
    && c.supersedes == Some(previous) && c.status == Active
    && previous in t.candidates && t.candidates[previous].conversation == c.conversation
    && id in t.candidates && t.candidates[id] == c && t.candidates[previous].status == Superseded
  }

  lemma ReplayedSupersession(t: Tables, previous: string, id: string, c: Candidate, steps: seq<Step>)
    requires Inv(t) && Supersedable(t, previous, id, c)
    ensures var t' := Run(Next(t, Supersede(previous, id, c)), steps);
            && Next(t', Supersede(previous, id, c)) == t'
            && previous in t'.candidates && id in t'.candidates
            && (SupersessionReplayed(t', previous, id, c)
                <==> t'.candidates[id].status == Active && t'.candidates[previous].status == Superseded)
  {
    var t1 := Next(t, Supersede(previous, id, c));
    NextKeepsPromotions(t, Supersede(previous, id, c));
    RunExtends(t1, steps);
  }

  // ---------- Admitted means promoted ----------

  /** Every admitted candidate has its promotion, so its case can be found. */
  ghost predicate AdmittedPromoted(t: Tables) {
    forall id :: id in t.candidates && t.candidates[id].status == Admitted ==> PromotionOf(t.promotions, id).Some?
  }

  lemma CommitKeepsAdmittedPromoted(t: Tables, a: Attempt, request: string, kase: string)
    requires AdmittedPromoted(t) && Committable(t, a, request, kase)
    ensures AdmittedPromoted(Committed(t, a, request, kase))
  {
    var t' := Committed(t, a, request, kase);
    assert t'.promotions[|t.promotions|].candidate == a.candidate;
    forall id | id in t'.candidates && t'.candidates[id].status == Admitted
      ensures PromotionOf(t'.promotions, id).Some?
    {
      if id != a.candidate {
        var i :| 0 <= i < |t.promotions| && t.promotions[i].candidate == id;
        assert t'.promotions[i].candidate == id;
      }
    }
  }

  /** A new candidate is stored as ADMITTED, which appending does not check. */
  predicate OffersAdmitted(t: Tables, step: Step) {
    step.Append? && step.candidate.status == Admitted && step.candidate.supersedes.None? && step.id !in t.candidates
  }

  predicate EverOffersAdmitted(t: Tables, steps: seq<Step>)
    decreases |steps|
  {
    steps != [] && (OffersAdmitted(t, steps[0]) || EverOffersAdmitted(Next(t, steps[0]), steps[1..]))
  }

  lemma NextKeepsAdmittedPromoted(t: Tables, step: Step)
    requires AdmittedPromoted(t) && !OffersAdmitted(t, step)
    ensures AdmittedPromoted(Next(t, step))
  {
    if step.Commit? {
      if step.client in t.attempts && Committable(t, t.attempts[step.client], step.request, step.kase) {
        CommitKeepsAdmittedPromoted(t, t.attempts[step.client], step.request, step.kase);
      }
    } else if step.Append? || step.Supersede? {
      OffersKeepLineage(t, step);
    } else if !step.CreateCase? {
      QuietStep(t, step);
    }
  }

  /** Promotions, and attempts on their way, are of stored candidates. */
  ghost predicate OfStored(t: Tables) {
    && (forall client :: client in t.attempts ==> t.attempts[client].candidate in t.candidates)
    && (forall i :: 0 <= i < |t.promotions| ==> t.promotions[i].candidate in t.candidates)
  }

  lemma CommitKeepsOfStored(t: Tables, step: Step)
    requires OfStored(t) && step.Commit?
    ensures OfStored(Next(t, step))
  {
    var t' := Next(t, step);
    forall i | 0 <= i < |t'.promotions| ensures t'.promotions[i].candidate in t'.candidates {
      if i < |t.promotions| {
        assert t'.promotions[i] == t.promotions[i];
      }
    }
  }

  lemma NextKeepsOfStored(t: Tables, step: Step)
    requires OfStored(t)
    ensures OfStored(Next(t, step))
  {
    if step.Commit? {
      CommitKeepsOfStored(t, step);
    } else if step.Append? || step.Supersede? {
      OffersKeepLineage(t, step);
    } else if !step.CreateCase? {
      QuietStep(t, step);
    }
  }

  /** An ADMITTED candidate without promotion that nobody is promoting. */
  ghost predicate Orphan(t: Tables, id: string) {
    && id in t.candidates && t.candidates[id].status == Admitted
    && PromotionOf(t.promotions, id).None?
    && forall client :: client in t.attempts ==> t.attempts[client].candidate != id
  }

  lemma CommitKeepsOrphan(t: Tables, step: Step, id: string)
    requires Orphan(t, id) && step.Commit?
    ensures Orphan(Next(t, step), id)
  {
    var t' := Next(t, step);
    forall i | 0 <= i < |t'.promotions| ensures t'.promotions[i].candidate != id {
      if i < |t.promotions| {
        assert t'.promotions[i] == t.promotions[i];
      }
    }
  }

  lemma NextKeepsOrphan(t: Tables, step: Step, id: string)
    requires Orphan(t, id)
    ensures Orphan(Next(t, step), id)
  {
    if step.Commit? {
      CommitKeepsOrphan(t, step, id);
    } else if step.Append? || step.Supersede? {
      OffersKeepLineage(t, step);
    } else if !step.CreateCase? {
      QuietStep(t, step);
    }
  }

  lemma {:induction false} OrphanForever(t: Tables, steps: seq<Step>, id: string)
    requires Orphan(t, id)
    ensures Orphan(Run(t, steps), id)
    decreases |steps|
  {
    if steps != [] {
      NextKeepsOrphan(t, steps[0], id);
      OrphanForever(Next(t, steps[0]), steps[1..], id);
    }
  }

  lemma OfferIsOrphan(t: Tables, step: Step)
    requires OfStored(t) && OffersAdmitted(t, step)
    ensures Orphan(Next(t, step), step.id)
  {
    OffersKeepLineage(t, step);
  }

  /** Under any interleaving every ADMITTED candidate has its promotion exactly when none was ever
      appended as ADMITTED. */
  lemma {:induction false} AdmittedPromotedIff(t: Tables, steps: seq<Step>)
    requires AdmittedPromoted(t) && OfStored(t)
    ensures AdmittedPromoted(Run(t, steps)) <==> !EverOffersAdmitted(t, steps)
    decreases |steps|
  {
    if steps != [] {
      if OffersAdmitted(t, steps[0]) {
        OfferIsOrphan(t, steps[0]);
        OrphanForever(Next(t, steps[0]), steps[1..], steps[0].id);
      } else {
        NextKeepsAdmittedPromoted(t, steps[0]);
        NextKeepsOfStored(t, steps[0]);
        AdmittedPromotedIff(Next(t, steps[0]), steps[1..]);
      }
    }
  }

  /** Concretely: the first append ever may store an ADMITTED candidate that was never promoted. */
  lemma AppendedAdmittedIsOrphan()
    ensures var t := Next(EMPTY, Append("a", Candidate("conv", "text", {}, 1, None, Admitted)));
            Orphan(t, "a") && !AdmittedPromoted(t)
  {
    OfferIsOrphan(EMPTY, Append("a", Candidate("conv", "text", {}, 1, None, Admitted)));
  }

  // ---------- What a promotion rests on ----------

  predicate Admitting(t: Tables, assessment: string) {
    && assessment in t.assessments
    && t.assessments[assessment].final && t.assessments[assessment].admit && !t.assessments[assessment].fromModel
  }

  /** Every promotion, and every attempt on its way, rests on a stored final ADMIT that no model
      suggested; no candidate has two final assessments. */
  ghost predicate AssessmentsOk(t: Tables) {
    && (forall i :: 0 <= i < |t.promotions| ==> Admitting(t, t.promotions[i].assessment))
    && (forall client :: client in t.attempts ==> Admitting(t, t.attempts[client].assessment))
    && (forall x, y :: x in t.assessments && y in t.assessments && t.assessments[x].final && t.assessments[y].final
          ==> t.assessments[x].candidate == t.assessments[y].candidate ==> x == y)
  }

  lemma CommitKeepsAssessments(t: Tables, a: Attempt, request: string, kase: string)
    requires AssessmentsOk(t) && Admitting(t, a.assessment)
    ensures AssessmentsOk(Committed(t, a, request, kase))
  {
    var t' := Committed(t, a, request, kase);
    assert forall x :: Admitting(t', x) <==> Admitting(t, x);
    forall i | 0 <= i < |t'.promotions| ensures Admitting(t', t'.promotions[i].assessment) {
      if i < |t.promotions| {
        assert t'.promotions[i] == t.promotions[i];
      }
    }
  }

  lemma AssessKeepsAssessments(t: Tables, id: string, a: Assessment)
    requires AssessmentsOk(t) && id !in t.assessments && !(a.final && (a.fromModel || HasFinal(t, a.candidate)))
    ensures AssessmentsOk(t.(assessments := t.assessments[id := a]))
  {
    var t' := t.(assessments := t.assessments[id := a]);
    assert forall x :: Admitting(t, x) ==> Admitting(t', x);
  }

  lemma AttemptsKeepAssessments(t: Tables, attempts: map<nat, Attempt>)
    requires AssessmentsOk(t) && forall client :: client in attempts ==> Admitting(t, attempts[client].assessment)
    ensures AssessmentsOk(t.(attempts := attempts))
  {
    assert forall x :: Admitting(t.(attempts := attempts), x) <==> Admitting(t, x);
  }

  lemma UnrelatedKeepsAssessments(t: Tables, t': Tables)
    requires AssessmentsOk(t)
    requires t'.assessments == t.assessments && t'.promotions == t.promotions && t'.attempts == t.attempts
    ensures AssessmentsOk(t')
  {
    assert forall x :: Admitting(t', x) <==> Admitting(t, x);
  }

  lemma CommitStepKeepsAssessments(t: Tables, step: Step)
    requires AssessmentsOk(t) && step.Commit?
    ensures AssessmentsOk(Next(t, step))
  {
    if step.client in t.attempts {
      var a, rest := t.attempts[step.client], t.attempts - {step.client};
      if Committable(t, a, step.request, step.kase) {
        CommitKeepsAssessments(t, a, step.request, step.kase);
        AttemptsKeepAssessments(Committed(t, a, step.request, step.kase), rest);
      } else {
        AttemptsKeepAssessments(t, rest);
      }
    }
  }

  lemma NextKeepsAssessments(t: Tables, step: Step)
    requires AssessmentsOk(t)
    ensures AssessmentsOk(Next(t, step))
  {
    match step
    case Assess(id, a) =>
      if Next(t, step) != t {
        AssessKeepsAssessments(t, id, a);
      }
    case Begin(client, id, c, assessment, source, requester) =>
      if Next(t, step) != t {
        AttemptsKeepAssessments(t, t.attempts[client := Attempt(id, assessment, source.event, requester)]);
      }
    case Commit(client, request, kase) => CommitStepKeepsAssessments(t, step);
    case Stop(client) => AttemptsKeepAssessments(t, t.attempts - {client});
    case _ => UnrelatedKeepsAssessments(t, Next(t, step));
  }

  lemma {:induction false} RunKeepsAssessments(t: Tables, steps: seq<Step>)
    requires AssessmentsOk(t)
    ensures AssessmentsOk(Run(t, steps))
    decreases |steps|
  {
    if steps != [] {
      NextKeepsAssessments(t, steps[0]);
      RunKeepsAssessments(Next(t, steps[0]), steps[1..]);
    }
  }

  /** A verified receipt is stored for the event, from a named system and tenant, and what it received
      is among the sources of the candidate. */
  ghost predicate Received(t: Tables, candidate: string, event: string) {
    exists source :: source in t.receipts && source.event == event && t.receipts[source].verified
      && source.system != "" && source.tenant != "" && event != ""
      && (t.receipts[source].artifact.Some? ==>
            candidate in t.candidates && t.receipts[source].artifact.value in t.candidates[candidate].sources)
  }

  /** Every promotion, and every attempt on its way, rests on a verified receipt that belongs to its
      candidate, and was asked for by somebody. */
  ghost predicate ReceiptsOk(t: Tables) {
    && (forall i :: 0 <= i < |t.promotions| ==> Received(t, t.promotions[i].candidate, t.promotions[i].event))
    && (forall client :: client in t.attempts ==>
          Received(t, t.attempts[client].candidate, t.attempts[client].event) && t.attempts[client].requester != "")
    && (forall i :: 0 <= i < |t.promotions| && t.promotions[i].request in t.requests ==>
          t.requests[t.promotions[i].request] != "")
  }

  lemma ReceiptsStay(t: Tables, step: Step)
    ensures forall source :: source in t.receipts ==>
              source in Next(t, step).receipts && Next(t, step).receipts[source] == t.receipts[source]
  {
  }

  lemma ReceivedKept(t: Tables, t': Tables, candidate: string, event: string)
    requires Received(t, candidate, event) && CandidatesKept(t, t')
    requires forall source :: source in t.receipts ==>
               source in t'.receipts && t'.receipts[source] == t.receipts[source]
    ensures Received(t', candidate, event)
  {
  }

  lemma ReceivedStays(t: Tables, step: Step, candidate: string, event: string)
    requires Received(t, candidate, event)
    ensures Received(Next(t, step), candidate, event)
  {
    NextKeeps(t, step);
    ReceiptsStay(t, step);
    ReceivedKept(t, Next(t, step), candidate, event);
  }

  lemma BeginReceives(t: Tables, step: Step)
    requires step.Begin? && Next(t, step) != t
    ensures step.client in Next(t, step).attempts
    ensures var a := Next(t, step).attempts[step.client];
            Received(t, a.candidate, a.event) && a.requester != ""
    ensures forall client :: client in Next(t, step).attempts && client != step.client ==>
              client in t.attempts && Next(t, step).attempts[client] == t.attempts[client]
  {
    assert step.source in t.receipts;
  }

  lemma CommitReceives(t: Tables, step: Step, i: nat)
    requires ReceiptsOk(t) && PromotionsOk(t) && step.Commit? && i < |Next(t, step).promotions|
    ensures var t' := Next(t, step); var p := t'.promotions[i];
            Received(t, p.candidate, p.event) && (p.request in t'.requests ==> t'.requests[p.request] != "")
  {
    var t' := Next(t, step);
    if i < |t.promotions| {
      CommitStepKeeps(t, step);
      assert t'.promotions[i] == t.promotions[i];
      assert t.promotions[i].event in t.ingress;
    }
  }

  lemma OldRequestStays(t: Tables, step: Step, i: nat)
    requires ReceiptsOk(t) && PromotionsOk(t) && i < |t.promotions| && !step.Commit?
    ensures Next(t, step).promotions == t.promotions
    ensures var p := t.promotions[i];
            p.request in Next(t, step).requests ==> Next(t, step).requests[p.request] != ""
  {
    SamePromotions(t, step);
    NextKeeps(t, step);
    assert t.promotions[i].event in t.ingress;
  }

  lemma NextKeepsReceipts(t: Tables, step: Step)
    requires ReceiptsOk(t) && PromotionsOk(t)
    ensures ReceiptsOk(Next(t, step))
  {
    var t' := Next(t, step);
    forall i | 0 <= i < |t'.promotions|
      ensures var p := t'.promotions[i];
              Received(t', p.candidate, p.event) && (p.request in t'.requests ==> t'.requests[p.request] != "")
    {
      if step.Commit? {
        CommitReceives(t, step, i);
      } else {
        SamePromotions(t, step);
        OldRequestStays(t, step, i);
      }
      ReceivedStays(t, step, t'.promotions[i].candidate, t'.promotions[i].event);
    }
    forall client | client in t'.attempts
      ensures Received(t', t'.attempts[client].candidate, t'.attempts[client].event)
              && t'.attempts[client].requester != ""
    {
      if step.Begin? && t' != t {
        BeginReceives(t, step);
      }
      ReceivedStays(t, step, t'.attempts[client].candidate, t'.attempts[client].event);
    }
  }

  /** Over every interleaving no promotion comes about without its verified receipt. */
  lemma {:induction false} RunKeepsReceipts(t: Tables, steps: seq<Step>)
    requires ReceiptsOk(t) && PromotionsOk(t)
    ensures ReceiptsOk(Run(t, steps))
    decreases |steps|
  {
    if steps != [] {
      NextKeepsReceipts(t, steps[0]);
      NextKeepsPromotions(t, steps[0]);
      RunKeepsReceipts(Next(t, steps[0]), steps[1..]);
    }
  }

  /** The assessments of all promotions are about the promoted candidates. */
  ghost predicate OwnAssessments(t: Tables) {
    forall i :: 0 <= i < |t.promotions| && t.promotions[i].assessment in t.assessments
      ==> t.assessments[t.promotions[i].assessment].candidate == t.promotions[i].candidate
  }

  /** `promote` does not compare the two: a commit keeps assessments with their own candidates
      exactly when the caller passed the candidate's own one. */
  lemma CommitOwnAssessment(t: Tables, a: Attempt, request: string, kase: string)
    requires OwnAssessments(t) && Committable(t, a, request, kase) && a.assessment in t.assessments
    ensures OwnAssessments(Committed(t, a, request, kase)) <==> t.assessments[a.assessment].candidate == a.candidate
  {
    var t' := Committed(t, a, request, kase);
    var n := |t.promotions|;
    assert t'.promotions[n] == Promotion(a.candidate, a.assessment, request, a.event);
    assert forall i :: 0 <= i < n ==> t'.promotions[i] == t.promotions[i];
  }

  /** The step commits a promotion on the assessment of another candidate. */
  predicate PromotesForeign(t: Tables, step: Step) {
    && step.Commit? && step.client in t.attempts
    && Committable(t, t.attempts[step.client], step.request, step.kase)
    && t.attempts[step.client].assessment in t.assessments
    && t.assessments[t.attempts[step.client].assessment].candidate != t.attempts[step.client].candidate
  }

  predicate EverPromotesForeign(t: Tables, steps: seq<Step>)
    decreases |steps|
  {
    steps != [] && (PromotesForeign(t, steps[0]) || EverPromotesForeign(Next(t, steps[0]), steps[1..]))
  }

  lemma AssessmentStays(t: Tables, step: Step, id: string)
    requires id in t.assessments
    ensures id in Next(t, step).assessments && Next(t, step).assessments[id] == t.assessments[id]
  {
  }

  /** A step changes nothing about whose assessment a promotion rests on, but by committing one. */
  lemma OwnAssessmentStep(t: Tables, step: Step)
    requires AssessmentsOk(t) && OwnAssessments(t)
    ensures OwnAssessments(Next(t, step)) <==> !PromotesForeign(t, step)
  {
    if step.Commit? && step.client in t.attempts && Committable(t, t.attempts[step.client], step.request, step.kase) {
      assert Admitting(t, t.attempts[step.client].assessment);
      CommitOwnAssessment(t, t.attempts[step.client], step.request, step.kase);
    } else {
      SamePromotions(t, step);
      forall i | 0 <= i < |t.promotions| && t.promotions[i].assessment in Next(t, step).assessments
        ensures Next(t, step).assessments[t.promotions[i].assessment].candidate == t.promotions[i].candidate
      {
        assert Admitting(t, t.promotions[i].assessment);
        AssessmentStays(t, step, t.promotions[i].assessment);
      }
    }
  }

  lemma SamePromotions(t: Tables, step: Step)
    requires step.Commit? && step.client in t.attempts ==>
               !Committable(t, t.attempts[step.client], step.request, step.kase)
    ensures Next(t, step).promotions == t.promotions
  {
  }

  /** Once broken it stays broken: promotions and assessments are never rewritten. */
  lemma ForeignStays(t: Tables, step: Step)
    requires AssessmentsOk(t) && !OwnAssessments(t)
    ensures !OwnAssessments(Next(t, step))
  {
    var i :| 0 <= i < |t.promotions| && t.promotions[i].assessment in t.assessments
      && t.assessments[t.promotions[i].assessment].candidate != t.promotions[i].candidate;
    NextKeeps(t, step);
    AssessmentStays(t, step, t.promotions[i].assessment);
    assert Next(t, step).promotions[i] == t.promotions[i];
  }

  lemma {:induction false} ForeignForever(t: Tables, steps: seq<Step>)
    requires AssessmentsOk(t) && !OwnAssessments(t)
    ensures !OwnAssessments(Run(t, steps))
    decreases |steps|
  {
    if steps != [] {
      ForeignStays(t, steps[0]);
      NextKeepsAssessments(t, steps[0]);
      ForeignForever(Next(t, steps[0]), steps[1..]);
    }
  }

  /** Under any interleaving every promotion rests on its own candidate's assessment exactly when none
      was ever committed on another's. */
  lemma {:induction false} OwnAssessmentsRunIff(t: Tables, steps: seq<Step>)
    requires AssessmentsOk(t) && OwnAssessments(t)
    ensures OwnAssessments(Run(t, steps)) <==> !EverPromotesForeign(t, steps)
    decreases |steps|
  {
    if steps != [] {
      OwnAssessmentStep(t, steps[0]);
      NextKeepsAssessments(t, steps[0]);
      if PromotesForeign(t, steps[0]) {
        ForeignForever(Next(t, steps[0]), steps[1..]);
      } else {
        OwnAssessmentsRunIff(Next(t, steps[0]), steps[1..]);
      }
    }
  }

  lemma ForeignAssessmentPromotes()
    ensures var c := Candidate("conv", "text", {}, 1, None, Active);
            var t := EMPTY.(candidates := map["a" := c], order := ["a"],
                              assessments := map["x" := Assessment("b", true, true, false)],
                              receipts := map[Source("s", "t", "e") := Receipt(true, None)]);
            var t' := Promote(t, "a", c, "x", Source("s", "t", "e"), "r", "q", "k");
            t'.promotions == [Promotion("a", "x", "q", "e")] && t'.assessments["x"].candidate == "b"
  {
  }

  lemma StartsOk()
    ensures Inv(EMPTY) && SupersededFinal(EMPTY) && AdmittedPromoted(EMPTY) && OfStored(EMPTY) && AssessmentsOk(EMPTY)
    ensures ReceiptsOk(EMPTY)
  {
  }

  // ---------- The intake store ----------

  datatype PromotionResult = Created(link: Link) | Existing(link: Link) | Pending | Refused

  /** The answer of `promote` before its transaction. */
  function CheckOutcome(t: Tables, id: string, c: Candidate, assessment: string, source: Source, requester: string)
    : PromotionResult
  {
    if !Named(source, requester) then Refused
    else if PromotionOf(t.promotions, id).Some? then
      ExistingOrRefused(LoadExisting(t, PromotionOf(t.promotions, id).value, assessment, source.event, requester))
    else if Eligible(t, id, c, assessment, source) then Pending
    else Refused
  }

  /** The answer of the committing transaction. */
  function CommitOutcome(t: Tables, a: Attempt, request: string, kase: string): PromotionResult {
    if PromotionOf(t.promotions, a.candidate).Some? then
      ExistingOrRefused(LoadExisting(t, PromotionOf(t.promotions, a.candidate).value, a.assessment, a.event,
                                     a.requester))
    else if Committable(t, a, request, kase) then Created(Link(request, kase))
    else Refused
  }

  function ExistingOrRefused(loaded: Result<Link>): PromotionResult {
    if loaded.Ok? then Existing(loaded.value) else Refused
  }

  class IntakeStore {
    var candidates: map<string, Candidate>
    var order: seq<string>
    var assessments: map<string, Assessment>
    var receipts: map<Source, Receipt>
    var promotions: seq<Promotion>
    var requests: map<string, string>
    var cases: map<string, string>
    var ingress: map<string, Link>
    var attempts: map<nat, Attempt>

    function View(): Tables
      reads this
    {
      Tables(candidates, order, assessments, receipts, promotions, requests, cases, ingress, attempts)
    }

    /** `append_candidate`: a candidate that names a predecessor goes through supersession. */
    method AppendCandidate(id: string, c: Candidate) returns (ok: bool)
      modifies this
      ensures c.supersedes.None? ==> View() == Next(old(View()), Append(id, c))
      ensures c.supersedes.None? ==>
                ok == (id in old(candidates) ==> old(candidates)[id] == c.(status := old(candidates)[id].status))
      ensures c.supersedes.Some? ==> View() == Next(old(View()), Supersede(c.supersedes.value, id, c))
      ensures c.supersedes.Some? ==>
                ok == old(Supersedable(View(), c.supersedes.value, id, c)
                          || SupersessionReplayed(View(), c.supersedes.value, id, c))
    {
      if c.supersedes.Some? {
        ok := SupersedeCandidate(c.supersedes.value, id, c);
        return;
      }
      if id in candidates {
        return candidates[id] == c.(status := candidates[id].status);
      }
      candidates := candidates[id := c];
      order := order + [id];
      return true;
    }

    method SupersedeCandidate(previous: string, id: string, c: Candidate) returns (ok: bool)
      modifies this
      ensures ok <==> old(Supersedable(View(), previous, id, c) || SupersessionReplayed(View(), previous, id, c))
      ensures View() == Next(old(View()), Supersede(previous, id, c))
    {
      if c.supersedes != Some(previous) || c.status != Active {
        return false;
      }
      if previous !in candidates || candidates[previous].conversation != c.conversation {
        return false;
      }
      if id in candidates {
        return candidates[id] == c && candidates[previous].status == Superseded;
      }
      if candidates[previous].status != Active {
        return false;
      }
      candidates := candidates[previous := candidates[previous].(status := Superseded)];
      candidates := candidates[id := c];
      order := order + [id];
      return true;
    }

    /** The part of `promote` before its transaction; all identifiers come stripped. */
    method CheckPromotion(client: nat, id: string, c: Candidate, assessment: string, source: Source, requester: string,
                          channel: string, caseKind: string, policy: string)
      returns (r: PromotionResult)
      modifies this
      ensures "" in [channel, caseKind, policy] ==> View() == old(View()) && r == Refused
      ensures "" !in [channel, caseKind, policy] ==>
                && View() == Next(old(View()), Begin(client, id, c, assessment, source, requester))
                && r == CheckOutcome(old(View()), id, c, assessment, source, requester)
      ensures r == Pending ==> source in receipts && receipts[source].verified && id in candidates
    {
      if !Named(source, requester) || "" in [channel, caseKind, policy] {
        return Refused;
      }
      var existing := PromotionOf(promotions, id);
      if existing.Some? {
        var loaded := LoadExisting(View(), existing.value, assessment, source.event, requester);
        return ExistingOrRefused(loaded);
      }
      if id !in candidates || candidates[id] != c || c.status != Active {
        return Refused;
      }
      if assessment !in assessments || !assessments[assessment].final || !assessments[assessment].admit
         || assessments[assessment].fromModel {
        return Refused;
      }
      if source !in receipts || !receipts[source].verified {
        return Refused;
      }
      if receipts[source].artifact.Some? && receipts[source].artifact.value !in c.sources {
        return Refused;
      }
      attempts := attempts[client := Attempt(id, assessment, source.event, requester)];
      return Pending;
    }

    /** The committing transaction of `promote` and its conflict handling. */
    method CommitPromotion(client: nat, request: string, kase: string) returns (r: PromotionResult)
      requires client in attempts
      modifies this
      ensures View() == Next(old(View()), Commit(client, request, kase))
      ensures r == CommitOutcome(old(View()), old(attempts[client]), request, kase)
    {
      var a := attempts[client];
      var existing := PromotionOf(promotions, a.candidate);
      if existing.Some? {
        var loaded := LoadExisting(View(), existing.value, a.assessment, a.event, a.requester);
        r := ExistingOrRefused(loaded);
      } else if a.event in ingress || request in requests || kase in cases {
        r := Refused;
      } else {
        InsertPromotion(a, request, kase);
        r := Created(Link(request, kase));
      }
      attempts := attempts - {client};
    }

    /** Request, case, receipt, promotion and candidate status, in one transaction. */
    method InsertPromotion(a: Attempt, request: string, kase: string)
      modifies this`requests, this`cases, this`ingress, this`promotions, this`candidates
      ensures View() == Committed(old(View()), a, request, kase)
    {
      requests := requests[request := a.requester];
      cases := cases[kase := request];
      ingress := ingress[a.event := Link(request, kase)];
      promotions := promotions + [Promotion(a.candidate, a.assessment, request, a.event)];
      if a.candidate in candidates {
        candidates := candidates[a.candidate := candidates[a.candidate].(status := Admitted)];
      }
    }
  }
}
