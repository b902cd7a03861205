/** That a message on a card can be changed before it is sent: the user asks, replies in time, and is shown the
    replacement (src/eva_ai/actions/service.py, src/eva_ai/actions/repository.py). */
module ActionRevisions {
  import opened Wrappers
  import opened CanonicalEmail
  import opened ActionTables
  import opened ActionTransitions
  import opened ActionInvariant
  import opened ActionAnswers
  import opened ActionExecutor
  import opened ActionWorld
  import opened ActionWorldInvariant
  import opened ActionWorldCalls
  import opened ActionRuns
  import opened ActionTheorems
  import opened ActionProgress
  import opened ActionMisrecords
  import opened ActionNotices
  import opened ActionOffers
  import opened ActionEndToEnd

  // ----- The user asks ------------------------------------------------------------------------------------

  lemma PendingHasNoSession(cfg: Config, w: World, id: ProposalId)
    requires Reachable(cfg, w) && Canonicalizer(cfg.canon) && id in w.t.approvals && w.t.approvals[id].status.Pending?
    ensures id !in w.t.sessions
  {
    ApprovalsAreForSends(cfg, w, id);
    FamilyHolds(cfg, w, id.root);
    PendingIsNewestAndIdle(w.t, id);
  }

  lemma ChangeGoesThrough(t: Tables, id: ProposalId, token: nat, who: Principal, ttl: int, now: Time)
    requires UniqueTokens(t) && Names(t, id, token, who) && t.approvals[id].status.Pending? && now < t.approvals[id].expiresAt
    requires Unchanged(t, id) && id !in t.sessions && t.proposals[id].situation.Some? && ttl > 0
    ensures var x := OpenRevision(t, token, who, ttl, now);
            x.Committed? && x.value.Accepted? && ChangeRows(t, x.tables, id, who.account, now + ttl)
  {
    ChangeIsAnswered(t, id, token, who, ttl, now);
  }

  /** A Change press on a card that works opens a session. */
  lemma CardIsReopened(cfg: Config, w: World, card: nat, who: Principal, now: Time)
    requires Reachable(cfg, w) && Canonicalizer(cfg.canon) && CardWorks(w, card, who, now) && cfg.revisionTtl > 0
    requires w.t.proposals[w.cards[card].approval].situation.Some?
    ensures var w', id := PressStep(cfg, w, PressChange, card, who, now), w.cards[card].approval;
            w' == w.(t := w'.t) && ChangeRows(w.t, w'.t, id, who.account, now + cfg.revisionTtl)
  {
    var id := w.cards[card].approval;
    PendingIsReady(cfg, w, id);
    PendingHasNoSession(cfg, w, id);
    TokensAreUnique(cfg, w);
    ChangeGoesThrough(w.t, id, w.cards[card].token, who, cfg.revisionTtl, now);
  }

  // ----- The user replies ---------------------------------------------------------------------------------

  lemma OpenedIsRevisable(cfg: Config, w: World, id: ProposalId, account: string)
    requires Reachable(cfg, w) && Canonicalizer(cfg.canon) && Opened(w.t, id, account)
    ensures id.Send? && Carries(w.t, id) && OneActiveSession(w.t)
    ensures cfg.canon(w.t.proposals[id].parameters) == Some(w.t.proposals[id].parameters)
    ensures Update(id.root, id.version) !in w.t.proposals && Update(id.root, id.version) !in w.t.actions
  {
    ReachableOk(cfg, w);
    assert FamilyOk(cfg.canon, w.t, id.root);
    ActiveSessionIsNewestAndIdle(w.t, id);
    assert SendTerms(cfg.canon, w.t, id.root, id.version);
  }

  /** In time, the open session is loaded with the message it is about. */
  lemma SessionIsLoaded(cfg: Config, w: World, id: ProposalId, account: string, now: Time)
    requires Reachable(cfg, w) && Canonicalizer(cfg.canon) && Opened(w.t, id, account) && now < w.t.sessions[id].expiresAt
    ensures id in w.t.proposals
    ensures StartRevisionStep(cfg, w, account, now) == w.(contexts := w.contexts + {(id, w.t.proposals[id].parameters)})
  {
    OpenedIsRevisable(cfg, w, id, account);
    LoadIsAnswered(cfg.canon, w.t, id, account, now);
  }

  /** In time, an accepted reply queues the update. */
  lemma ReplyIsTaken(cfg: Config, w: World, id: ProposalId, account: string, x: Candidate, m: Email, now: Time)
    requires Reachable(cfg, w) && Canonicalizer(cfg.canon) && Opened(w.t, id, account) && now < w.t.sessions[id].expiresAt
    requires id in w.t.proposals && (id, w.t.proposals[id].parameters) in w.contexts
    requires ValidateReplacement(cfg.canon, w.t.proposals[id].parameters, x) == Some(m)
    ensures var w' := FinishRevisionStep(cfg, w, id, w.t.proposals[id].parameters, x, now);
            id.Send? && id.root in w.t.drafts && w' == w.(t := w'.t) && RevisionRows(w.t, w'.t, id, m)
  {
    OpenedIsRevisable(cfg, w, id, account);
    RevisionIsAnswered(w.t, id, m, now);
    assert MayRevise(w.t, id, now);
  }

  /** Who revises what into what and when: the press, the load and the reply, and then everything else at once. */
  datatype Revision = Revision(
    card: nat, who: Principal, candidate: Candidate, pressed: Time, loaded: Time, replied: Time, done: Time,
    executor: nat, worker: nat)

  /** The card the user starts from works, the replies come before the session is over, and the candidate is accepted
      as `m`. */
  predicate Timely(cfg: Config, w: World, r: Revision, m: Email) {
    && CardWorks(w, r.card, r.who, r.pressed) && w.telegram == Some(r.who)
    && cfg.revisionTtl > 0 && r.loaded < r.pressed + cfg.revisionTtl && r.replied < r.pressed + cfg.revisionTtl
    && var p := w.t.proposals[w.cards[r.card].approval];
       && p.situation.Some? && ValidateReplacement(cfg.canon, p.parameters, r.candidate) == Some(m)
  }

  function Replies(w: World, r: Revision): seq<Event>
    requires r.card < |w.cards| && w.cards[r.card].approval in w.t.proposals
  {
    var id := w.cards[r.card].approval;
    [Service(ActionWorld.Press(PressChange, r.card, r.who, r.pressed)), Service(StartRevision(r.who.account, r.loaded)),
     Service(FinishRevision(id, w.t.proposals[id].parameters, r.candidate, r.replied))]
  }

  /** The replacement waits in the queue as an update of the draft, and nothing else of the world has changed. */
  predicate UpdateQueued(w: World, w': World, id: ProposalId, m: Email)
    requires id.Send? && id in w.t.proposals && id.root in w.t.drafts
  {
    var update := Update(id.root, id.version);
    && update in w'.t.proposals && w'.t.proposals[update].parameters == m && w'.t.proposals[update].hash == Sha256(m)
    && w'.t.proposals[update].connector == w.t.proposals[id].connector
    && w'.t.proposals[update].situation == w.t.proposals[id].situation && w'.t.proposals[update].expiresAt.None?
    && update in w'.t.actions && w'.t.actions[update] == Waiting(Capability.UpdateDraft)
    && w'.t.drafts == w.t.drafts[id.root := w.t.drafts[id.root].(status := DraftStatus.Updating)]
    && w'.t.connectors == w.t.connectors && w'.t.notices == w.t.notices
    && w' == w.(t := w'.t, contexts := w'.contexts)
  }

  lemma RepliedIsQueued(w: World, w1: World, w3: World, id: ProposalId, m: Email, account: string, until: Time)
    requires id.Send? && id in w.t.approvals && id in w.t.proposals && id.root in w.t.drafts
    requires w1 == w.(t := w1.t) && ChangeRows(w.t, w1.t, id, account, until)
    requires w3 == w1.(t := w3.t, contexts := w3.contexts) && id in w1.t.sessions && id in w1.t.proposals && id.root in w1.t.drafts
    requires RevisionRows(w1.t, w3.t, id, m)
    ensures UpdateQueued(w, w3, id, m)
  {
  }

  lemma SessionIsOpen(cfg: Config, w: World, r: Revision, m: Email)
    requires Reachable(cfg, w) && Canonicalizer(cfg.canon) && Timely(cfg, w, r, m)
    ensures var id, w1 := w.cards[r.card].approval, PressStep(cfg, w, PressChange, r.card, r.who, r.pressed);
            && Reachable(cfg, w1) && id.Send? && id.root in w.t.drafts && id in w1.t.proposals && id.root in w1.t.drafts
            && w1 == w.(t := w1.t) && ChangeRows(w.t, w1.t, id, r.who.account, r.pressed + cfg.revisionTtl)
            && w1.t.proposals[id].parameters == w.t.proposals[id].parameters
            && Opened(w1.t, id, r.who.account) && w1.t.sessions[id].expiresAt == r.pressed + cfg.revisionTtl
  {
    var press := Service(ActionWorld.Press(PressChange, r.card, r.who, r.pressed));
    PendingIsReady(cfg, w, w.cards[r.card].approval);
    CardIsReopened(cfg, w, r.card, r.who, r.pressed);
    RunsOne(cfg, w, press, PressStep(cfg, w, PressChange, r.card, r.who, r.pressed));
    ReachableStays(cfg, w, [press]);
  }

  lemma SessionIsAnswered(cfg: Config, w1: World, id: ProposalId, r: Revision, m: Email)
    requires Reachable(cfg, w1) && Canonicalizer(cfg.canon) && id in w1.t.proposals
    requires Opened(w1.t, id, r.who.account) && r.loaded < w1.t.sessions[id].expiresAt && r.replied < w1.t.sessions[id].expiresAt
    requires ValidateReplacement(cfg.canon, w1.t.proposals[id].parameters, r.candidate) == Some(m)
    ensures var w2 := StartRevisionStep(cfg, w1, r.who.account, r.loaded);
            var w3 := FinishRevisionStep(cfg, w2, id, w1.t.proposals[id].parameters, r.candidate, r.replied);
            id.Send? && id.root in w1.t.drafts && w3 == w1.(t := w3.t, contexts := w3.contexts) && RevisionRows(w1.t, w3.t, id, m)
  {
    var load := Service(StartRevision(r.who.account, r.loaded));
    SessionIsLoaded(cfg, w1, id, r.who.account, r.loaded);
    var w2 := StartRevisionStep(cfg, w1, r.who.account, r.loaded);
    RunsOne(cfg, w1, load, w2);
    ReachableStays(cfg, w1, [load]);
    ReplyIsTaken(cfg, w2, id, r.who.account, r.candidate, m, r.replied);
  }

  /** The world after the press, the load and the reply. */
  ghost function Replied(cfg: Config, w: World, r: Revision): World
    requires r.card < |w.cards| && w.cards[r.card].approval in w.t.proposals
  {
    var id, w1 := w.cards[r.card].approval, PressStep(cfg, w, PressChange, r.card, r.who, r.pressed);
    FinishRevisionStep(cfg, StartRevisionStep(cfg, w1, r.who.account, r.loaded), id, w.t.proposals[id].parameters, r.candidate, r.replied)
  }

  lemma RepliesRun(cfg: Config, w: World, r: Revision)
    requires r.card < |w.cards| && w.cards[r.card].approval in w.t.proposals
    ensures Run(cfg, w, Replies(w, r)) == Replied(cfg, w, r)
  {
    var id, w1 := w.cards[r.card].approval, PressStep(cfg, w, PressChange, r.card, r.who, r.pressed);
    RunsThree(cfg, w, Service(ActionWorld.Press(PressChange, r.card, r.who, r.pressed)), Service(StartRevision(r.who.account, r.loaded)),
              Service(FinishRevision(id, w.t.proposals[id].parameters, r.candidate, r.replied)),
              w1, StartRevisionStep(cfg, w1, r.who.account, r.loaded), Replied(cfg, w, r));
  }

  lemma RepliedQueues(cfg: Config, w: World, r: Revision, m: Email)
    requires Reachable(cfg, w) && Canonicalizer(cfg.canon) && Timely(cfg, w, r, m)
    ensures w.cards[r.card].approval.Send? && UpdateQueued(w, Replied(cfg, w, r), w.cards[r.card].approval, m)
  {
    var id, w1 := w.cards[r.card].approval, PressStep(cfg, w, PressChange, r.card, r.who, r.pressed);
    SessionIsOpen(cfg, w, r, m);
    SessionIsAnswered(cfg, w1, id, r, m);
    RepliedIsQueued(w, w1, Replied(cfg, w, r), id, m, r.who.account, r.pressed + cfg.revisionTtl);
  }

  /** From any world with a card that works, a Change press and a reply in time queue the replacement. */
  lemma AnyCardsUpdateIsQueued(cfg: Config, w: World, r: Revision, m: Email)
    requires Reachable(cfg, w) && Canonicalizer(cfg.canon) && Timely(cfg, w, r, m)
    ensures var id, w' := w.cards[r.card].approval, Run(cfg, w, Replies(w, r));
            id.Send? && Reachable(cfg, w') && UpdateQueued(w, w', id, m)
  {
    RepliedQueues(cfg, w, r, m);
    RepliesRun(cfg, w, r);
    ReachableStays(cfg, w, Replies(w, r));
  }

  // ----- Gmail updates the draft --------------------------------------------------------------------------

  lemma UpdateGoesThrough(canon: Email -> Option<Email>, t: Tables, c: Claim, draftId: string, next: NextApproval, now: Time)
    requires MayUpdate(canon, t, c, draftId, next, now)
    requires canon(t.proposals[c.action].parameters) == Some(t.proposals[c.action].parameters)
    requires Send(t.proposals[c.action].supersedes.value.root, t.drafts[t.proposals[c.action].supersedes.value.root].version + 1) !in t.notices
    ensures var x, p := CompleteUpdate(canon, t, c, draftId, next, now), t.proposals[c.action];
            var root := p.supersedes.value.root;
            var send := Send(root, t.drafts[root].version + 1);
            && x.Committed? && Sends(t, x.tables, root, send, p, next)
  {
    UpdateIsCompleted(canon, t, c, draftId, next, now);
  }

  /** The next version of the draft at `root` is on file and waits for approval. */
  predicate Sends(t: Tables, t': Tables, root: string, send: ProposalId, p: Proposal, next: NextApproval)
    requires root in t.drafts
  {
    && root in t'.drafts && t'.drafts[root].provider == t.drafts[root].provider && t'.drafts[root].active == send
    && send in t'.proposals && t'.proposals[send].parameters == p.parameters && t'.proposals[send].connector == p.connector
    && t'.proposals[send].situation == p.situation && t'.proposals[send].expiresAt == Some(next.expiresAt)
    && send in t'.approvals && t'.approvals[send].status.Pending? && t'.approvals[send].principal == next.principal
    && t'.approvals[send].expiresAt == next.expiresAt
    && send in t'.notices && t'.notices[send] == NEVER_CLAIMED && t'.connectors == t.connectors
  }

  /** An executor about to call Gmail for the update `update` with `m`. */
  predicate AtUpdate(w: World, e: nat, update: ProposalId, m: Email, key: ProviderDraft, who: Principal) {
    && update.Update? && e in w.execs && w.execs[e].Started?
    && var s := w.execs[e].subject;
    && s.claim.action == update && Current(w.t, s.claim) && s.message == m && s.telegram == Some(who)
    && update in w.t.proposals && w.t.proposals[update].parameters == m
    && update.root in w.t.drafts && w.t.drafts[update.root].provider == key
    && key in w.gmail && w.gmail[key].live
  }

  function NextFor(cfg: Config, w: World, who: Principal, now: Time): NextApproval {
    NextApproval(who, w.tokens, now + cfg.approvalTtl)
  }

  lemma UpdatesOwnDraft(cfg: Config, w: World, e: nat, update: ProposalId, m: Email, key: ProviderDraft, who: Principal)
    requires Reachable(cfg, w) && Canonicalizer(cfg.canon) && AtUpdate(w, e, update, m, key, who)
    ensures var s, p := w.execs[e].subject, w.t.proposals[update];
            && s.claim.capability.UpdateDraft? && s.managed.Some? && s.managed.value.provider == key
            && w.t.actions[update].capability.UpdateDraft? && Held(w.t, s.claim)
            && p.supersedes == Some(Send(update.root, update.version)) && cfg.canon(m) == Some(m)
            && DraftOf(w.t, Send(update.root, update.version), update.root)
            && w.t.drafts[update.root].version == update.version
  {
    ReachableOk(cfg, w);
    assert FamilyOk(cfg.canon, w.t, update.root);
    HoldersAction(cfg, w, e);
    HolderIsTyped(cfg, w, w.execs[e].subject.claim);
    LiveActionIsNewest(w.t, update);
    assert UpdateTerms(cfg.canon, w.t, update.root, update.version);
  }

  lemma NextVersionIsFree(cfg: Config, w: World, root: string)
    requires Reachable(cfg, w) && Canonicalizer(cfg.canon) && root in w.t.drafts
    ensures Free(w.t, root, w.t.drafts[root].version + 1, w.tokens)
    ensures Send(root, w.t.drafts[root].version + 1) !in w.t.notices
  {
    var send := Send(root, w.t.drafts[root].version + 1);
    FamilyHolds(cfg, w, root);
    TokensAreNew(cfg, w);
    if send in w.t.notices {
      NoticesAreForApprovals(cfg, w, send);
    }
  }

  lemma UpdateCompletes(cfg: Config, w: World, e: nat, update: ProposalId, m: Email, key: ProviderDraft, who: Principal, now: Time)
    requires Reachable(cfg, w) && Canonicalizer(cfg.canon) && cfg.approvalTtl > 0 && AtUpdate(w, e, update, m, key, who)
    ensures var s, send := w.execs[e].subject, Send(update.root, update.version + 1);
            var x := Completion(cfg, w, s, key.draftId, now);
            x.Committed? && update.root in w.t.drafts
            && Sends(w.t, x.tables, update.root, send, w.t.proposals[update], NextFor(cfg, w, who, now))
  {
    var s, next := w.execs[e].subject, NextFor(cfg, w, who, now);
    UpdatesOwnDraft(cfg, w, e, update, m, key, who);
    NextVersionIsFree(cfg, w, update.root);
    assert MayUpdate(cfg.canon, w.t, s.claim, key.draftId, next, now);
    UpdateGoesThrough(cfg.canon, w.t, s.claim, key.draftId, next, now);
  }

  lemma SentIsOffered(w: World, w': World, root: string, send: ProposalId, p: Proposal, key: ProviderDraft, next: NextApproval)
    requires send.Send? && send.root == root && root in w.t.drafts && w.t.drafts[root].provider == key
    requires Sends(w.t, w'.t, root, send, p, next)
    requires key in w'.gmail && w'.gmail[key].live && w'.gmail[key].content == p.parameters
    ensures Awaits(w', Offer(send, p.parameters, p.connector, p.situation, key, next.principal, next.expiresAt))
  {
  }

  /** What a stage of the way leaves alone. */
  predicate Aside(w: World, w': World, e: nat) {
    && w'.telegram == w.telegram && w'.t.connectors == w.t.connectors && w'.execs.Keys == w.execs.Keys + {e}
    && w'.workers == w.workers && w'.cards == w.cards && w'.delivered == w.delivered
  }

  /** The version after `update` waits for its user with `m`, and its notice with it. */
  predicate OfferedNext(w: World, w': World, e: nat, update: ProposalId, m: Email, key: ProviderDraft, who: Principal, until: Time) {
    && update.Update? && update in w.t.proposals && Aside(w, w', e)
    && var send, p := Send(update.root, update.version + 1), w.t.proposals[update];
       && Awaits(w', Offer(send, m, p.connector, p.situation, key, who, until))
       && send in w'.t.notices && w'.t.notices[send] == NEVER_CLAIMED
  }

  lemma UpdateIsApplied(cfg: Config, w: World, e: nat, update: ProposalId, m: Email, key: ProviderDraft, who: Principal, now: Time, t: Tables)
    requires AtUpdate(w, e, update, m, key, who) && cfg.retryAttempts >= 1
    requires var s := w.execs[e].subject; s.claim.capability.UpdateDraft? && s.managed.Some? && s.managed.value.provider == key
    requires Completion(cfg, w, w.execs[e].subject, key.draftId, now) == Committed(t, ())
    ensures var w' := Run(cfg, w, Concludes(e, key.draftId, now));
            && w'.t == t && key in w'.gmail && w'.gmail[key].live && w'.gmail[key].content == m
            && Aside(w.(t := t), w', e)
  {
    CallConcludes(cfg, w, e, key.draftId, now, t);
  }

  lemma AppliedIsOffered(w: World, w': World, e: nat, update: ProposalId, m: Email, key: ProviderDraft, next: NextApproval)
    requires AtUpdate(w, e, update, m, key, next.principal)
    requires Sends(w.t, w'.t, update.root, Send(update.root, update.version + 1), w.t.proposals[update], next)
    requires key in w'.gmail && w'.gmail[key].live && w'.gmail[key].content == m && Aside(w.(t := w'.t), w', e)
    ensures OfferedNext(w, w', e, update, m, key, next.principal, next.expiresAt)
  {
    SentIsOffered(w, w', update.root, Send(update.root, update.version + 1), w.t.proposals[update], key, next);
  }

  lemma UpdateIsMade(cfg: Config, w: World, e: nat, update: ProposalId, m: Email, key: ProviderDraft, who: Principal, now: Time)
    requires Reachable(cfg, w) && Canonicalizer(cfg.canon) && cfg.approvalTtl > 0 && cfg.retryAttempts >= 1
    requires AtUpdate(w, e, update, m, key, who)
    ensures var w' := Run(cfg, w, Concludes(e, key.draftId, now));
            && Sends(w.t, w'.t, update.root, Send(update.root, update.version + 1), w.t.proposals[update], NextFor(cfg, w, who, now))
            && key in w'.gmail && w'.gmail[key].live && w'.gmail[key].content == m && Aside(w.(t := w'.t), w', e)
  {
    UpdatesOwnDraft(cfg, w, e, update, m, key, who);
    UpdateCompletes(cfg, w, e, update, m, key, who, now);
    UpdateIsApplied(cfg, w, e, update, m, key, who, now, Completion(cfg, w, w.execs[e].subject, key.draftId, now).tables);
  }

  lemma UpdateConcludes(cfg: Config, w: World, e: nat, update: ProposalId, m: Email, key: ProviderDraft, who: Principal, now: Time)
    requires Reachable(cfg, w) && Canonicalizer(cfg.canon) && cfg.approvalTtl > 0 && cfg.retryAttempts >= 1
    requires AtUpdate(w, e, update, m, key, who)
    ensures OfferedNext(w, Run(cfg, w, Concludes(e, key.draftId, now)), e, update, m, key, who, now + cfg.approvalTtl)
  {
    UpdateIsMade(cfg, w, e, update, m, key, who, now);
    AppliedIsOffered(w, Run(cfg, w, Concludes(e, key.draftId, now)), e, update, m, key, NextFor(cfg, w, who, now));
  }

  /** The update waits in the queue with `m`, and Gmail, connector and account are in order for it. */
  predicate ReadyToUpdate(w: World, update: ProposalId, m: Email, key: ProviderDraft, who: Principal) {
    && update.Update? && update in w.t.actions && w.t.actions[update].status.Queued?
    && update in w.t.proposals && w.t.proposals[update].parameters == m && w.t.proposals[update].expiresAt.None?
    && InOrder(w, w.t.proposals[update].connector, who)
    && update.root in w.t.drafts && w.t.drafts[update.root].provider == key && key in w.gmail && w.gmail[key].live
  }

  lemma QueuedIsReady(w: World, w1: World, r: Revision, id: ProposalId, m: Email)
    requires CardWorks(w, r.card, r.who, r.pressed) && id == w.cards[r.card].approval && id.Send? && w.telegram == Some(r.who)
    requires UpdateQueued(w, w1, id, m)
    ensures ReadyToUpdate(w1, Update(id.root, id.version), m, w.t.drafts[id.root].provider, r.who)
    ensures w1.t.proposals[Update(id.root, id.version)].connector == w.t.proposals[id].connector
    ensures w1.t.proposals[Update(id.root, id.version)].situation == w.t.proposals[id].situation
    ensures w1 == w.(t := w1.t, contexts := w1.contexts) && w1.t.connectors == w.t.connectors
  {
  }

  lemma QueuedIsCalling(cfg: Config, w: World, w1: World, e: nat, update: ProposalId, m: Email, key: ProviderDraft, who: Principal, now: Time)
    requires ReadyToUpdate(w, update, m, key, who) && Calling(cfg, w, w1, e, update, now)
    ensures AtUpdate(w1, e, update, m, key, who) && Aside(w, w1, e)
    ensures w1.t.proposals == w.t.proposals
  {
  }

  lemma NextThrough(w: World, w1: World, w': World, e: nat, update: ProposalId, m: Email, key: ProviderDraft, who: Principal, until: Time)
    requires OfferedNext(w1, w', e, update, m, key, who, until) && Aside(w, w1, e) && w1.t.proposals == w.t.proposals
    ensures OfferedNext(w, w', e, update, m, key, who, until)
  {
  }

  /** A queued update is made in Gmail, and the new version waits for its user. */
  lemma QueuedIsOffered(cfg: Config, w: World, e: nat, update: ProposalId, m: Email, key: ProviderDraft, who: Principal, now: Time)
    requires Reachable(cfg, w) && Canonicalizer(cfg.canon) && cfg.approvalTtl > 0 && cfg.retryAttempts >= 1 && e !in w.execs
    requires ReadyToUpdate(w, update, m, key, who)
    ensures OfferedNext(w, Run(cfg, w, Approaches(e, update, now) + Concludes(e, key.draftId, now)), e, update, m, key, who,
                        now + cfg.approvalTtl)
  {
    var w1 := Run(cfg, w, Approaches(e, update, now));
    QueuedActionReachesItsCall(cfg, w, e, update, now);
    ReachableStays(cfg, w, Approaches(e, update, now));
    QueuedIsCalling(cfg, w, w1, e, update, m, key, who, now);
    UpdateConcludes(cfg, w1, e, update, m, key, who, now);
    NextThrough(w, w1, Run(cfg, w1, Concludes(e, key.draftId, now)), e, update, m, key, who, now + cfg.approvalTtl);
    RunConcat(cfg, w, Approaches(e, update, now), Concludes(e, key.draftId, now));
  }

  // ----- The whole way ------------------------------------------------------------------------------------

  /** What the revision offers in the end. */
  function Revised(cfg: Config, w: World, r: Revision, m: Email): Offer
    requires CardWorks(w, r.card, r.who, r.pressed)
  {
    var id := w.cards[r.card].approval;
    Offer(NextVersion(id), m, w.t.proposals[id].connector, w.t.proposals[id].situation, w.t.drafts[id.root].provider,
          r.who, r.done + cfg.approvalTtl)
  }

  /** A send proposal's successor, and the update that leads there. Only send proposals have any. */
  function NextVersion(id: ProposalId): ProposalId {
    if id.Send? then Send(id.root, id.version + 1) else id
  }

  function UpdateOf(id: ProposalId): ProposalId {
    if id.Send? then Update(id.root, id.version) else id
  }

  function ToUpdate(w: World, r: Revision): seq<Event>
    requires CardWorks(w, r.card, r.who, r.pressed)
  {
    var id := w.cards[r.card].approval;
    Replies(w, r) + (Approaches(r.executor, UpdateOf(id), r.done) + Concludes(r.executor, w.t.drafts[id.root].provider.draftId, r.done))
  }

  function ToNewCard(w: World, r: Revision): seq<Event>
    requires CardWorks(w, r.card, r.who, r.pressed)
  {
    ToUpdate(w, r) + Shows(r.worker, NextVersion(w.cards[r.card].approval), r.done, |w.cards|)
  }

  lemma ToUpdateRuns(cfg: Config, w: World, r: Revision, id: ProposalId)
    requires CardWorks(w, r.card, r.who, r.pressed) && id == w.cards[r.card].approval && id.Send?
    ensures Run(cfg, w, ToUpdate(w, r)) ==
              Run(cfg, Run(cfg, w, Replies(w, r)), Approaches(r.executor, Update(id.root, id.version), r.done)
                                                   + Concludes(r.executor, w.t.drafts[id.root].provider.draftId, r.done))
  {
    RunConcat(cfg, w, Replies(w, r), Approaches(r.executor, UpdateOf(id), r.done)
                                     + Concludes(r.executor, w.t.drafts[id.root].provider.draftId, r.done));
  }

  lemma RepliedIsReady(cfg: Config, w: World, r: Revision, m: Email)
    requires Reachable(cfg, w) && Canonicalizer(cfg.canon) && Timely(cfg, w, r, m)
    ensures var id, w1 := w.cards[r.card].approval, Run(cfg, w, Replies(w, r));
            var update := UpdateOf(id);
            && id.Send? && Reachable(cfg, w1) && ReadyToUpdate(w1, update, m, w.t.drafts[id.root].provider, r.who)
            && w1.t.proposals[update].connector == w.t.proposals[id].connector
            && w1.t.proposals[update].situation == w.t.proposals[id].situation
            && w1 == w.(t := w1.t, contexts := w1.contexts) && w1.t.connectors == w.t.connectors
  {
    AnyCardsUpdateIsQueued(cfg, w, r, m);
    QueuedIsReady(w, Run(cfg, w, Replies(w, r)), r, w.cards[r.card].approval, m);
  }

  /** The new version waits for its user, and nothing else of what a card needs has changed. */
  predicate Renewed(cfg: Config, w: World, w': World, r: Revision, m: Email)
    requires CardWorks(w, r.card, r.who, r.pressed)
  {
    var o := Revised(cfg, w, r, m);
    && Awaits(w', o) && Aside(w, w', r.executor)
    && o.id in w'.t.notices && w'.t.notices[o.id] == NEVER_CLAIMED
  }

  lemma OfferedIsRenewed(cfg: Config, w: World, w1: World, w': World, r: Revision, id: ProposalId, m: Email)
    requires CardWorks(w, r.card, r.who, r.pressed) && id == w.cards[r.card].approval && id.Send?
    requires w1 == w.(t := w1.t, contexts := w1.contexts) && w1.t.connectors == w.t.connectors
    requires OfferedNext(w1, w', r.executor, Update(id.root, id.version), m, w.t.drafts[id.root].provider, r.who, r.done + cfg.approvalTtl)
    requires w1.t.proposals[Update(id.root, id.version)].connector == w.t.proposals[id].connector
    requires w1.t.proposals[Update(id.root, id.version)].situation == w.t.proposals[id].situation
    ensures Renewed(cfg, w, w', r, m)
  {
  }

  lemma ReadyIsRenewed(cfg: Config, w: World, w1: World, r: Revision, id: ProposalId, m: Email)
    requires Reachable(cfg, w1) && Canonicalizer(cfg.canon) && cfg.approvalTtl > 0 && cfg.retryAttempts >= 1
    requires CardWorks(w, r.card, r.who, r.pressed) && id == w.cards[r.card].approval && id.Send? && r.executor !in w.execs
    requires ReadyToUpdate(w1, Update(id.root, id.version), m, w.t.drafts[id.root].provider, r.who)
    requires w1.t.proposals[Update(id.root, id.version)].connector == w.t.proposals[id].connector
    requires w1.t.proposals[Update(id.root, id.version)].situation == w.t.proposals[id].situation
    requires w1 == w.(t := w1.t, contexts := w1.contexts) && w1.t.connectors == w.t.connectors
    ensures Renewed(cfg, w, Run(cfg, w1, Approaches(r.executor, Update(id.root, id.version), r.done)
                                         + Concludes(r.executor, w.t.drafts[id.root].provider.draftId, r.done)), r, m)
  {
    var update, draftId := Update(id.root, id.version), w.t.drafts[id.root].provider.draftId;
    QueuedIsOffered(cfg, w1, r.executor, update, m, w.t.drafts[id.root].provider, r.who, r.done);
    OfferedIsRenewed(cfg, w, w1, Run(cfg, w1, Approaches(r.executor, update, r.done) + Concludes(r.executor, draftId, r.done)), r, id, m);
  }

  lemma AnyCardCanBeUpdated(cfg: Config, w: World, r: Revision, m: Email)
    requires Reachable(cfg, w) && Canonicalizer(cfg.canon) && Timely(cfg, w, r, m) && cfg.approvalTtl > 0 && cfg.retryAttempts >= 1
    requires r.executor !in w.execs
    ensures Reachable(cfg, Run(cfg, w, ToUpdate(w, r))) && Renewed(cfg, w, Run(cfg, w, ToUpdate(w, r)), r, m)
  {
    var id := w.cards[r.card].approval;
    RepliedIsReady(cfg, w, r, m);
    ReadyIsRenewed(cfg, w, Run(cfg, w, Replies(w, r)), r, id, m);
    ToUpdateRuns(cfg, w, r, id);
    ReachableStays(cfg, w, ToUpdate(w, r));
  }

  /** From any world with a card that works, a Change press, its session loaded in time and an accepted reply in time
      lead to a new card that works and shows the replacement, with the draft in Gmail holding exactly that. Its
      version can be changed again in the same way. */
  lemma AnyCardCanBeRevised(cfg: Config, w: World, r: Revision, m: Email)
    requires Reachable(cfg, w) && Canonicalizer(cfg.canon) && Timely(cfg, w, r, m) && cfg.approvalTtl > 0 && cfg.retryAttempts >= 1
    requires r.executor !in w.execs && r.worker !in w.workers
    ensures var w', o := Run(cfg, w, ToNewCard(w, r)), Revised(cfg, w, r, m);
            && Reachable(cfg, w') && Awaits(w', o) && OnCard(w', |w.cards|, o.id)
            && CardShows(w'.cards[|w.cards|].card, m, o.until) && CardWorks(w', |w.cards|, r.who, r.done)
            && w'.t.proposals[o.id].situation.Some?
            && InOrder(w', o.connector, r.who) && w'.execs.Keys == w.execs.Keys + {r.executor}
  {
    var o, w1 := Revised(cfg, w, r, m), Run(cfg, w, ToUpdate(w, r));
    AnyCardCanBeUpdated(cfg, w, r, m);
    OfferIsShown(cfg, w1, r.worker, o, r.done);
    RunConcat(cfg, w, ToUpdate(w, r), Shows(r.worker, o.id, r.done, |w.cards|));
    ReachableStays(cfg, w, ToNewCard(w, r));
    OfferedCardWorks(Run(cfg, w, ToNewCard(w, r)), |w.cards|, o, r.done);
  }

  /** And once its Send button is pressed, the replacement is sent. */
  lemma AnyRevisionCanBeSent(cfg: Config, w: World, r: Revision, m: Email, f: nat)
    requires Reachable(cfg, w) && Canonicalizer(cfg.canon) && Timely(cfg, w, r, m) && cfg.approvalTtl > 0 && cfg.retryAttempts >= 1
    requires r.executor !in w.execs && r.worker !in w.workers && f !in w.execs && f != r.executor
    ensures var o := Revised(cfg, w, r, m);
            Delivered(Run(cfg, w, ToNewCard(w, r) + ToGmail(|w.cards|, o, f, r.done)), o.id, m)
  {
    var o := Revised(cfg, w, r, m);
    AnyCardCanBeRevised(cfg, w, r, m);
    OfferCanBeSent(cfg, Run(cfg, w, ToNewCard(w, r)), |w.cards|, o, f, r.done);
    RunConcat(cfg, w, ToNewCard(w, r), ToGmail(|w.cards|, o, f, r.done));
  }

  // ----- Worlds that exist --------------------------------------------------------------------------------

  /** A reply that repeats the message. */
  function Same(m: Email): Candidate {
    Candidate(m.mode, m.to, m.cc, m.bcc, m.subject, m.textBody, m.htmlBody, m.threadId, [])
  }

  lemma SameIsTimely(cfg: Config, w: World, card: nat, o: Offer, now: Time, executor: nat, worker: nat)
    requires Awaits(w, o) && OnCard(w, card, o.id) && now < o.until && InOrder(w, o.connector, o.who) && o.situation.Some?
    requires cfg.canon(o.message) == Some(o.message) && o.message.attachments == [] && cfg.revisionTtl > 0
    ensures Timely(cfg, w, Revision(card, o.who, Same(o.message), now, now, now, now, executor, worker), o.message)
  {
    var m := o.message;
    assert m == Email(m.mode, m.to, m.cc, m.bcc, m.subject, m.textBody, m.htmlBody, m.threadId, m.inReplyTo, m.references, []);
  }

  /** There is a reachable world in which a second version was sent. */
  lemma SomethingIsRevised(cfg: Config, d: NewEmail, now: Time)
    requires Canonicalizer(cfg.canon) && cfg.canon(d.message) == Some(d.message) && d.message.attachments == [] && d.situation.Some?
    requires cfg.approvalTtl > 0 && cfg.revisionTtl > 0 && cfg.retryAttempts >= 1
    ensures exists w :: Reachable(cfg, w) && Delivered(w, Send(d.root, 2), d.message)
  {
    var w0, o := Run(cfg, EMPTY, SetUp(d)), OfferOf(d, now + cfg.approvalTtl);
    SetUpIsPromising(cfg, d);
    AnyEmailCanBeShown(cfg, w0, d, 0, 0, now);
    var w, r := Run(cfg, w0, ToCard(w0, d, 0, 0, now)), Revision(|w0.cards|, d.who, Same(d.message), now, now, now, now, 1, 1);
    SameIsTimely(cfg, w, |w0.cards|, o, now, 1, 1);
    AnyRevisionCanBeSent(cfg, w, r, d.message, 2);
    ReachableStays(cfg, w, ToNewCard(w, r) + ToGmail(|w.cards|, Revised(cfg, w, r, d.message), 2, now));
  }

  /** So under the default settings a plain email can be revised and sent. */
  lemma DefaultsRevise(n: AddressNormalizer, address: string, root: string, now: Time)
    requires Idempotent(n) && n(address) == Some(address)
    ensures exists w :: Reachable(Defaults(n), w) && Delivered(w, Send(root, 2), PlainEmail(address))
  {
    ValidateIsCanonicalizer(n);
    PlainEmailIsCanonical(n, address);
    SomethingIsRevised(Defaults(n), Plain(root, address), now);
  }
}
