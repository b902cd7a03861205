/** From a draft that waits for its user to the card that offers it, and from that card to its recipients
    (src/eva_ai/notifications/repository.py, src/eva_ai/actions/executor.py): the stretch every version of a draft has
    in common. */
module ActionOffers {
  import opened Wrappers
  import opened CanonicalEmail
  import opened ActionTables
  import opened ActionTransitions
  import opened ActionInvariant
  import opened ActionDecisionSteps
  import opened ActionAnswers
  import opened ActionExecutor
  import opened ActionWorld
  import opened ActionRuns
  import opened ActionTheorems
  import opened ActionProgress
  import opened ActionMisrecords
  import GmailClient

  // ----- A call that Gmail answers ------------------------------------------------------------------------

  const ANSWERED: seq<GmailClient.Try> := [GmailClient.Answered]

  /** Gmail answers the first request, and the completion commits. */
  function Concludes(e: nat, draftId: string, now: Time): seq<Event> {
    [Outcome(e, CallGmail(draftId, ANSWERED)), Outcome(e, Complete(now, false))]
  }

  function Entry(w: World, s: Subject, draftId: string, checked: nat, after: GmailDraft): Mutation {
    Mutation(s.claim.action, s.claim.capability, s.message, after.content, draftId, Reply.Accepted, ANSWERED, checked, after.edits)
  }

  lemma AnsweredIsPossible(c: Capability, retryAttempts: nat)
    requires retryAttempts >= 1
    ensures Possible(c, ANSWERED, retryAttempts) && GmailClient.Applied(ANSWERED) == 1 && ReplyTo(ANSWERED).Accepted?
  {
    GmailClient.AllApplied(ANSWERED);
  }

  lemma AnsweredCall(cfg: Config, w: World, e: nat, draftId: string)
    requires e in w.execs && w.execs[e].Started? && Applicable(w, w.execs[e].subject, draftId) && cfg.retryAttempts >= 1
    ensures var s := w.execs[e].subject;
            var key := Target(s, draftId);
            var after := Applied(w, s, key);
            CallGmailStep(cfg, w, e, draftId, ANSWERED) ==
              w.(gmail := w.gmail[key := after], log := w.log + [Entry(w, s, draftId, w.execs[e].edits, after)],
                 execs := w.execs[e := Returned(s, draftId)])
  {
    AnsweredIsPossible(w.execs[e].subject.claim.capability, cfg.retryAttempts);
  }

  /** The call and its completion, if that goes through. */
  lemma CallConcludes(cfg: Config, w: World, e: nat, draftId: string, now: Time, t: Tables)
    requires e in w.execs && w.execs[e].Started? && Applicable(w, w.execs[e].subject, draftId) && cfg.retryAttempts >= 1
    requires Completion(cfg, w, w.execs[e].subject, draftId, now) == Committed(t, ())
    ensures var s := w.execs[e].subject;
            var key := Target(s, draftId);
            var after := Applied(w, s, key);
            Run(cfg, w, Concludes(e, draftId, now)) ==
              w.(t := t, tokens := w.tokens + 1, gmail := w.gmail[key := after],
                 log := w.log + [Entry(w, s, draftId, w.execs[e].edits, after)], execs := w.execs[e := Done])
  {
    var w1 := CallGmailStep(cfg, w, e, draftId, ANSWERED);
    AnsweredCall(cfg, w, e, draftId);
    CompletesSo(cfg, w, w1, e, draftId, now, t);
    RunsOne(cfg, w, Outcome(e, CallGmail(draftId, ANSWERED)), w1);
    RunsOne(cfg, w1, Outcome(e, Complete(now, false)), CompleteStep(cfg, w1, e, now, false));
    RunConcat(cfg, w, [Outcome(e, CallGmail(draftId, ANSWERED))], [Outcome(e, Complete(now, false))]);
  }

  lemma CompletesSo(cfg: Config, w: World, w1: World, e: nat, draftId: string, now: Time, t: Tables)
    requires e in w.execs && w.execs[e].Started? && w1.t == w.t && w1.tokens == w.tokens
    requires e in w1.execs && w1.execs[e] == Returned(w.execs[e].subject, draftId)
    requires Completion(cfg, w, w.execs[e].subject, draftId, now) == Committed(t, ())
    ensures CompleteStep(cfg, w1, e, now, false) == With(w1.(t := t, tokens := w1.tokens + 1), e, Done)
  {
    assert Completion(cfg, w1, w.execs[e].subject, draftId, now) == Completion(cfg, w, w.execs[e].subject, draftId, now);
  }

  // ----- An offer ------------------------------------------------------------------------------------------

  /** A version that waits for its user: what it says, where its draft is, who may send it and until when. */
  datatype Offer = Offer(
    id: ProposalId, message: Email, connector: string, situation: Option<string>, key: ProviderDraft, who: Principal, until: Time)

  /** Its draft is in Gmail with that very message, and its approval is pending. */
  predicate Awaits(w: World, o: Offer) {
    && o.id.Send? && o.id.root in w.t.drafts
    && w.t.drafts[o.id.root].provider == o.key && w.t.drafts[o.id.root].active == o.id
    && o.key in w.gmail && w.gmail[o.key].live && w.gmail[o.key].content == o.message
    && o.id in w.t.proposals && w.t.proposals[o.id].parameters == o.message
    && w.t.proposals[o.id].connector == o.connector && w.t.proposals[o.id].situation == o.situation
    && w.t.proposals[o.id].expiresAt == Some(o.until)
    && o.id in w.t.approvals && w.t.approvals[o.id].status.Pending?
    && w.t.approvals[o.id].principal == o.who && w.t.approvals[o.id].expiresAt == o.until
  }

  /** Connector and Telegram account are in order. */
  predicate InOrder(w: World, connector: string, who: Principal) {
    connector in w.t.connectors && ConnectorUsable(w.t.connectors[connector]) && w.telegram == Some(who)
  }

  lemma TokensAreNew(cfg: Config, w: World)
    requires Reachable(cfg, w) && Canonicalizer(cfg.canon)
    ensures !TokenUsed(w.t, w.tokens)
  {
    ReachableOk(cfg, w);
  }

  lemma TokensAreUnique(cfg: Config, w: World)
    requires Reachable(cfg, w) && Canonicalizer(cfg.canon)
    ensures UniqueTokens(w.t)
  {
    ReachableOk(cfg, w);
  }

  lemma PendingIsReady(cfg: Config, w: World, id: ProposalId)
    requires Reachable(cfg, w) && Canonicalizer(cfg.canon) && id in w.t.approvals && w.t.approvals[id].status.Pending?
    ensures id.Send? && id in w.t.proposals && w.t.proposals[id].status.WaitingApproval? && Unchanged(w.t, id) && id !in w.t.actions
    ensures cfg.canon(w.t.proposals[id].parameters) == Some(w.t.proposals[id].parameters)
  {
    ApprovalsAreForSends(cfg, w, id);
    FamilyHolds(cfg, w, id.root);
    PendingIsFreshHere(cfg.canon, w.t, id);
    PendingIsNewestAndIdle(w.t, id);
    assert SendTerms(cfg.canon, w.t, id.root, id.version);
  }

  // ----- From draft to card ----------------------------------------------------------------------------------

  function Shows(worker: nat, id: ProposalId, now: Time, card: nat): seq<Event> {
    [Delivery(worker, ClaimCard(id, now)), Delivery(worker, PrepareCard(now)), Delivery(worker, DeliverCard(card))]
  }

  lemma ClaimsCard(cfg: Config, w: World, worker: nat, id: ProposalId, now: Time)
    requires worker !in w.workers && id in w.t.notices && DueNotice(w.t.notices[id], now)
    ensures var w1 := ClaimCardStep(cfg, w, worker, id, now);
            && worker in w1.workers && w1.workers[worker].notice == id && HeldNotice(w1.t, w1.workers[worker])
            && w1 == w.(t := w.t.(notices := w1.t.notices), minted := w.minted + 1,
                        workers := w.workers[worker := w1.workers[worker]])
  {
    NoticesAreClaimed(w.t, id, now, cfg.leaseSeconds, w.minted);
  }

  lemma CardGoesThrough(canon: Email -> Option<Email>, t: Tables, c: NoticeClaim, token: nat, now: Time)
    requires HeldNotice(t, c) && c.notice in t.approvals && c.notice in t.proposals && Unchanged(t, c.notice)
    requires t.approvals[c.notice].status.Pending? && t.proposals[c.notice].status.WaitingApproval?
    requires now < t.approvals[c.notice].expiresAt
    requires canon(t.proposals[c.notice].parameters) == Some(t.proposals[c.notice].parameters) && !TokenUsed(t, token)
    ensures var x, a := PrepareApprovalCard(canon, t, c, token, now), t.approvals[c.notice];
            && x.Committed? && x.tables == t.(approvals := t.approvals[c.notice := a.(token := token)])
            && CardShows(x.value, t.proposals[c.notice].parameters, a.expiresAt)
  {
    CardIsAnswered(canon, t, c, token, now);
    assert MayShow(canon, t, c, token, now);
  }

  /** The newest card of an approval, delivered, with the token that is on file. */
  predicate OnCard(w: World, card: nat, id: ProposalId) {
    && card < |w.cards| && card in w.delivered && w.cards[card].approval == id
    && id in w.t.approvals && w.t.approvals[id].token == w.cards[card].token
  }

  lemma PreparesCard(cfg: Config, w: World, worker: nat, now: Time, id: ProposalId)
    requires Reachable(cfg, w) && Canonicalizer(cfg.canon) && worker in w.workers && w.workers[worker].notice == id
    requires HeldNotice(w.t, w.workers[worker]) && id in w.t.approvals && w.t.approvals[id].status.Pending?
    requires now < w.t.approvals[id].expiresAt
    ensures var w' := PrepareCardStep(cfg, w, worker, now);
            && |w'.cards| == |w.cards| + 1 && w'.cards[|w.cards|].approval == id && w'.cards[|w.cards|].token == w.tokens
            && id in w.t.proposals
            && CardShows(w'.cards[|w.cards|].card, w.t.proposals[id].parameters, w.t.approvals[id].expiresAt)
            && w' == w.(t := w.t.(approvals := w.t.approvals[id := w.t.approvals[id].(token := w.tokens)]),
                        tokens := w.tokens + 1, cards := w'.cards)
  {
    PendingIsReady(cfg, w, id);
    TokensAreNew(cfg, w);
    CardGoesThrough(cfg.canon, w.t, w.workers[worker], w.tokens, now);
  }

  /** What waits for approval is shown, in full. */
  lemma OfferIsShown(cfg: Config, w: World, worker: nat, o: Offer, now: Time)
    requires Reachable(cfg, w) && Canonicalizer(cfg.canon) && Awaits(w, o) && now < o.until
    requires worker !in w.workers && o.id in w.t.notices && DueNotice(w.t.notices[o.id], now)
    ensures var w' := Run(cfg, w, Shows(worker, o.id, now, |w.cards|));
            && Awaits(w', o) && OnCard(w', |w.cards|, o.id) && CardShows(w'.cards[|w.cards|].card, o.message, o.until)
            && w'.telegram == w.telegram && w'.t.connectors == w.t.connectors && w'.execs == w.execs
            && w'.t.proposals == w.t.proposals && w'.workers.Keys == w.workers.Keys + {worker}
  {
    var w1 := ClaimCardStep(cfg, w, worker, o.id, now);
    ClaimsCard(cfg, w, worker, o.id, now);
    RunsOne(cfg, w, Delivery(worker, ClaimCard(o.id, now)), w1);
    ReachableStays(cfg, w, [Delivery(worker, ClaimCard(o.id, now))]);
    var w2 := PrepareCardStep(cfg, w1, worker, now);
    PreparesCard(cfg, w1, worker, now, o.id);
    RunsThree(cfg, w, Delivery(worker, ClaimCard(o.id, now)), Delivery(worker, PrepareCard(now)),
              Delivery(worker, DeliverCard(|w.cards|)), w1, w2, w2.(delivered := w2.delivered + {|w.cards|}));
  }

  // ----- From card to email ----------------------------------------------------------------------------------

  lemma GrantGoesThrough(t: Tables, id: ProposalId, token: nat, who: Principal, now: Time)
    requires UniqueTokens(t) && Names(t, id, token, who) && t.approvals[id].status.Pending? && now < t.approvals[id].expiresAt
    requires Unchanged(t, id) && id !in t.actions
    ensures var x := GrantAndQueueSend(t, token, who, now);
            x.Committed? && x.value.Accepted? && SendRows(t, x.tables, id)
  {
    SendIsAnswered(t, id, token, who, now);
  }

  /** The message is approved, its send waits in the queue, and Gmail still holds it. */
  predicate Sendable(w: World, o: Offer) {
    && o.id.Send? && o.id.root in w.t.drafts
    && w.t.drafts[o.id.root].provider == o.key && w.t.drafts[o.id.root].active == o.id
    && o.key in w.gmail && w.gmail[o.key].live && w.gmail[o.key].content == o.message
    && o.id in w.t.proposals && w.t.proposals[o.id].parameters == o.message
    && w.t.proposals[o.id].connector == o.connector && w.t.proposals[o.id].expiresAt == Some(o.until)
    && o.id in w.t.actions && w.t.actions[o.id].status.Queued?
  }

  lemma GrantedIsSendable(w: World, w': World, o: Offer)
    requires Awaits(w, o) && SendRows(w.t, w'.t, o.id) && w'.gmail == w.gmail
    ensures Sendable(w', o)
  {
  }

  /** A Send press on the card is accepted. */
  lemma CardIsPressed(cfg: Config, w: World, card: nat, o: Offer, now: Time)
    requires Reachable(cfg, w) && Canonicalizer(cfg.canon) && Awaits(w, o) && now < o.until && OnCard(w, card, o.id)
    ensures var w' := Run(cfg, w, [Service(ActionWorld.Press(PressSend, card, o.who, now))]);
            && Sendable(w', o)
            && w'.telegram == w.telegram && w'.t.connectors == w.t.connectors && w'.execs == w.execs
  {
    var token := w.cards[card].token;
    PendingIsReady(cfg, w, o.id);
    TokensAreUnique(cfg, w);
    GrantGoesThrough(w.t, o.id, token, o.who, now);
    var w' := PressStep(cfg, w, PressSend, card, o.who, now);
    assert w' == w.(t := GrantAndQueueSend(w.t, token, o.who, now).tables, presses := w'.presses);
    GrantedIsSendable(w, w', o);
    RunsOne(cfg, w, Service(ActionWorld.Press(PressSend, card, o.who, now)), w');
  }

  lemma SendGoesThrough(t: Tables, c: Claim, draftId: string)
    requires Current(t, c) && c.action.Send? && c.capability.SendDraft? && c.action in t.proposals
    requires c.action.root in t.drafts && t.drafts[c.action.root].active == c.action
    requires t.drafts[c.action.root].provider.draftId == draftId
    requires c.action !in t.results
    ensures var x := CompleteManaged(t, c, draftId, DraftStatus.Sent);
            && x.Committed? && c.action in x.tables.actions && x.tables.actions[c.action].status.Succeeded?
            && c.action.root in x.tables.drafts && x.tables.drafts[c.action.root].status.Sent?
  {
    assert MayFinish(t, c, draftId, c.action.root);
    ManagedIsCompleted(t, c, draftId, DraftStatus.Sent);
  }

  /** Sent by Gmail as approved, and recorded so. */
  predicate Delivered(w: World, id: ProposalId, message: Email) {
    && id in w.t.actions && w.t.actions[id].status.Succeeded?
    && id.root in w.t.drafts && w.t.drafts[id.root].status.Sent?
    && exists i :: 0 <= i < |w.log| && w.log[i].action == id && w.log[i].capability.SendDraft?
                   && w.log[i].message == message == w.log[i].content && w.log[i].reply.Accepted?
  }

  lemma CallingSend(cfg: Config, w: World, w1: World, e: nat, o: Offer, now: Time)
    requires Reachable(cfg, w1) && Canonicalizer(cfg.canon) && cfg.retryAttempts >= 1
    requires Sendable(w, o) && Calling(cfg, w, w1, e, o.id, now)
    ensures Delivered(Run(cfg, w1, Concludes(e, o.key.draftId, now)), o.id, o.message)
  {
    var s := w1.execs[e].subject;
    HoldersAction(cfg, w1, e);
    ActionHolds(cfg, w1, o.id);
    SendGoesThrough(w1.t, s.claim, o.key.draftId);
    CallConcludes(cfg, w1, e, o.key.draftId, now, CompleteManaged(w1.t, s.claim, o.key.draftId, DraftStatus.Sent).tables);
    var w' := Run(cfg, w1, Concludes(e, o.key.draftId, now));
    assert w'.log[|w1.log|].action == o.id;
  }

  /** An approved email is sent. */
  lemma ApprovedIsSent(cfg: Config, w: World, e: nat, o: Offer, now: Time)
    requires Reachable(cfg, w) && Canonicalizer(cfg.canon) && cfg.retryAttempts >= 1 && now < o.until
    requires Sendable(w, o) && InOrder(w, o.connector, o.who) && e !in w.execs
    ensures Delivered(Run(cfg, w, Approaches(e, o.id, now) + Concludes(e, o.key.draftId, now)), o.id, o.message)
  {
    var w1 := Run(cfg, w, Approaches(e, o.id, now));
    QueuedActionReachesItsCall(cfg, w, e, o.id, now);
    ReachableStays(cfg, w, Approaches(e, o.id, now));
    CallingSend(cfg, w, w1, e, o, now);
    RunConcat(cfg, w, Approaches(e, o.id, now), Concludes(e, o.key.draftId, now));
  }

  /** The user's press, executor `e` and Gmail. */
  function ToGmail(card: nat, o: Offer, e: nat, now: Time): seq<Event> {
    [Service(ActionWorld.Press(PressSend, card, o.who, now))] + (Approaches(e, o.id, now) + Concludes(e, o.key.draftId, now))
  }

  /** Any message on a card that works can be sent. */
  lemma OfferCanBeSent(cfg: Config, w: World, card: nat, o: Offer, e: nat, now: Time)
    requires Reachable(cfg, w) && Canonicalizer(cfg.canon) && cfg.retryAttempts >= 1 && now < o.until && e !in w.execs
    requires Awaits(w, o) && OnCard(w, card, o.id) && InOrder(w, o.connector, o.who)
    ensures Delivered(Run(cfg, w, ToGmail(card, o, e, now)), o.id, o.message)
  {
    var press := [Service(ActionWorld.Press(PressSend, card, o.who, now))];
    CardIsPressed(cfg, w, card, o, now);
    ReachableStays(cfg, w, press);
    ApprovedIsSent(cfg, Run(cfg, w, press), e, o, now);
    RunConcat(cfg, w, press, Approaches(e, o.id, now) + Concludes(e, o.key.draftId, now));
  }

  lemma OfferedCardWorks(w: World, card: nat, o: Offer, now: Time)
    requires Awaits(w, o) && OnCard(w, card, o.id) && now < o.until && InOrder(w, o.connector, o.who)
    ensures CardWorks(w, card, o.who, now)
  {
  }
}
