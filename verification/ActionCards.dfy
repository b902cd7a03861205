/** What users were shown and what they pressed, along every run: the partner of the tables' record of
    who approved what. */
module ActionCards {
  import opened Wrappers
  import opened CanonicalEmail
  import opened ActionTables
  import opened ActionTransitions
  import opened ActionDecisionSteps
  import opened ActionExecutor
  import opened ActionWorld
  import opened ActionWorldInvariant

  // ----- The invariant --------------------------------------------------------------------------------

  /** No card prepared after `i` is for the same approval. */
  predicate LastFor(cards: seq<PreparedCard>, i: nat)
    requires i < |cards|
  {
    forall j :: i < j < |cards| ==> cards[j].approval != cards[i].approval
  }

  /** A card shows the message its approval is about. */
  predicate CardOk(t: Tables, c: PreparedCard) {
    && c.approval in t.approvals && c.approval in t.proposals
    && CardShows(c.card, t.proposals[c.approval].parameters, t.approvals[c.approval].expiresAt)
  }

  /** Tokens are drawn once: a card whose token is on file is its approval's newest card. */
  ghost predicate TokensOk(t: Tables, cards: seq<PreparedCard>, tokens: nat) {
    && (forall id :: id in t.approvals ==> t.approvals[id].token < tokens)
    && (forall i :: 0 <= i < |cards| ==> cards[i].token < tokens)
    && (forall i, id :: 0 <= i < |cards| && id in t.approvals && t.approvals[id].token == cards[i].token ==>
          cards[i].approval == id && LastFor(cards, i))
  }

  /** An accepted Send press came from the bound user, on the newest card of its approval, before that expired. */
  ghost predicate PressOk(t: Tables, cards: seq<PreparedCard>, delivered: set<nat>, p: SendPress) {
    && p.card < |cards| && p.card in delivered && LastFor(cards, p.card)
    && cards[p.card].approval == p.approval
    && p.approval in t.approvals && t.approvals[p.approval].status.Granted?
    && t.approvals[p.approval].principal == p.who && p.at < t.approvals[p.approval].expiresAt
  }

  /** Every grant goes back to a press. */
  ghost predicate GrantsPressed(t: Tables, presses: seq<SendPress>) {
    forall id :: id in t.approvals && t.approvals[id].status.Granted? ==> exists i :: 0 <= i < |presses| && presses[i].approval == id
  }

  ghost predicate CardsOk(w: World) {
    && TokensOk(w.t, w.cards, w.tokens)
    && (forall i :: 0 <= i < |w.cards| ==> CardOk(w.t, w.cards[i]))
    && (forall i :: 0 <= i < |w.presses| ==> PressOk(w.t, w.cards, w.delivered, w.presses[i]))
    && GrantsPressed(w.t, w.presses)
  }

  // ----- What most transactions do to approvals -------------------------------------------------------

  predicate SameApproval(a: Approval, a': Approval) {
    a' == a.(status := a'.status) && (a.status.Granted? <==> a'.status.Granted?)
  }

  ghost predicate SameParameters(m: map<ProposalId, Proposal>, m': map<ProposalId, Proposal>) {
    forall id :: id in m ==> id in m' && m'[id].parameters == m[id].parameters
  }

  ghost predicate KeepsParameters(t: Tables, t': Tables) {
    SameParameters(t.proposals, t'.proposals)
  }

  ghost predicate ApprovalsMove(m: map<ProposalId, Approval>, m': map<ProposalId, Approval>, n: nat, n': nat) {
    && (forall id :: id in m ==> id in m' && SameApproval(m[id], m'[id]))
    && (forall id :: id in m' && id !in m ==> n <= m'[id].token < n' && m'[id].status.Pending?)
  }

  /** Nothing is granted, no token is replaced, and new approvals carry tokens from `n` up to `n'`. */
  ghost predicate Moves(t: Tables, t': Tables, n: nat, n': nat) {
    n <= n' && KeepsParameters(t, t') && ApprovalsMove(t.approvals, t'.approvals, n, n')
  }

  lemma StatusKeepsParameters(m: map<ProposalId, Proposal>, id: ProposalId, s: ProposalStatus)
    requires id in m
    ensures SameParameters(m, m[id := m[id].(status := s)])
  {
  }

  lemma StatusMoves(m: map<ProposalId, Approval>, id: ProposalId, s: ApprovalStatus, n: nat)
    requires id in m && !m[id].status.Granted? && !s.Granted?
    ensures ApprovalsMove(m, m[id := m[id].(status := s)], n, n)
  {
  }

  lemma CardsCarry(w: World, w': World)
    requires CardsOk(w) && Moves(w.t, w'.t, w.tokens, w'.tokens)
    requires w'.cards == w.cards && w'.presses == w.presses && w.delivered <= w'.delivered
    ensures CardsOk(w')
  {
    forall i | 0 <= i < |w'.cards|
      ensures CardOk(w'.t, w'.cards[i])
    {
      assert CardOk(w.t, w.cards[i]);
    }
    forall i | 0 <= i < |w'.presses|
      ensures PressOk(w'.t, w'.cards, w'.delivered, w'.presses[i])
    {
      assert PressOk(w.t, w.cards, w.delivered, w.presses[i]);
    }
  }

  lemma ContextsCarry(cfg: Config, w: World, w': World)
    requires ContextsOk(cfg, w) && KeepsParameters(w.t, w'.t) && w'.contexts == w.contexts
    ensures ContextsOk(cfg, w')
  {
  }

  // ----- Transactions that only move ------------------------------------------------------------------

  lemma DecideTables(t: Tables, id: ProposalId, a: ApprovalStatus, p: ProposalStatus)
    requires id in t.approvals
    ensures var t' := Decide(t, id, a, p);
            && t'.approvals == t.approvals[id := t.approvals[id].(status := a)]
            && t'.proposals == if id in t.proposals then t.proposals[id := t.proposals[id].(status := p)] else t.proposals
  {
  }

  lemma DecideMoves(t: Tables, id: ProposalId, a: ApprovalStatus, p: ProposalStatus, n: nat)
    requires id in t.approvals && !t.approvals[id].status.Granted? && !a.Granted?
    ensures Moves(t, Decide(t, id, a, p), n, n)
  {
    DecideTables(t, id, a, p);
    StatusMoves(t.approvals, id, a, n);
    if id in t.proposals {
      StatusKeepsParameters(t.proposals, id, p);
    }
  }

  lemma CloseTables(t: Tables, id: ProposalId, s: ActionStatus, p: ProposalStatus)
    requires id in t.actions
    ensures var t' := Close(t, id, s, p);
            && t'.approvals == t.approvals
            && (t'.proposals == t.proposals || (id in t.proposals && t'.proposals == t.proposals[id := t.proposals[id].(status := p)]))
  {
  }

  lemma CloseFailedTables(t: Tables, id: ProposalId, s: ActionStatus, d: DraftStatus)
    requires id in t.actions
    ensures var t1, t' := Close(t, id, s, ProposalStatus.Failed), CloseFailed(t, id, s, d);
            t'.approvals == t1.approvals && t'.proposals == t1.proposals
  {
  }

  /** A transaction that leaves proposals and approvals alone. */
  lemma SamePapersMove(t: Tables, t': Tables, n: nat, n': nat)
    requires t'.approvals == t.approvals && t'.proposals == t.proposals && n <= n'
    ensures Moves(t, t', n, n')
  {
  }

  lemma SamePapersStillMove(t: Tables, t1: Tables, t': Tables, n: nat, n': nat)
    requires Moves(t, t1, n, n') && t'.approvals == t1.approvals && t'.proposals == t1.proposals
    ensures Moves(t, t', n, n')
  {
  }

  lemma CloseMoves(t: Tables, id: ProposalId, s: ActionStatus, p: ProposalStatus, n: nat)
    requires id in t.actions
    ensures Moves(t, Close(t, id, s, p), n, n)
  {
    CloseTables(t, id, s, p);
    if id in t.proposals {
      StatusKeepsParameters(t.proposals, id, p);
    }
  }

  lemma CloseFailedMoves(t: Tables, id: ProposalId, s: ActionStatus, d: DraftStatus, n: nat)
    requires id in t.actions
    ensures Moves(t, CloseFailed(t, id, s, d), n, n)
  {
    CloseMoves(t, id, s, ProposalStatus.Failed, n);
    CloseFailedTables(t, id, s, d);
    SamePapersStillMove(t, Close(t, id, s, ProposalStatus.Failed), CloseFailed(t, id, s, d), n, n);
  }

  lemma IntakeMoves(t: Tables, p: NewProposal, n: nat)
    requires CreateAllowedAction(t, p).Committed?
    ensures Moves(t, CreateAllowedAction(t, p).tables, n, n)
  {
  }

  lemma ClaimMoves(t: Tables, id: ProposalId, now: Time, lease: int, minted: nat, n: nat)
    ensures Moves(t, ClaimAction(t, id, now, lease, minted).0, n, n)
  {
    var (t', r) := ClaimAction(t, id, now, lease, minted);
    if r.OutcomeUnknown? {
      CloseFailedMoves(t, id, ActionStatus.Unknown, DraftStatus.Unknown, n);
    } else {
      SamePapersMove(t, t', n, n);
    }
  }

  lemma RecoveryMoves(t: Tables, c: Claim, connector: string, preserved: bool, n: nat)
    ensures Moves(t, FailValidation(t, c), n, n)
    ensures Moves(t, MarkUnavailable(t, c, connector, preserved), n, n)
    ensures Moves(t, MarkUnknown(t, c), n, n)
  {
    if Current(t, c) {
      CloseFailedMoves(t, c.action, ActionStatus.Failed, DraftStatus.Ready, n);
      CloseFailedMoves(t, c.action, ActionStatus.Unknown, DraftStatus.Unknown, n);
    }
    SamePapersMove(t, t, n, n);
    SamePapersStillMove(t, FailValidation(t, c), MarkUnavailable(t, c, connector, preserved), n, n);
  }

  lemma RefusedSendMoves(t: Tables, token: nat, who: Principal, now: Time, n: nat)
    requires GrantAndQueueSend(t, token, who, now).Committed? && !GrantAndQueueSend(t, token, who, now).value.Accepted?
    ensures Moves(t, GrantAndQueueSend(t, token, who, now).tables, n, n)
  {
    var id := Addressed(t, token, who).value;
    if t.approvals[id].status.Pending? {
      DecideMoves(t, id, ApprovalStatus.Expired, ProposalStatus.Expired, n);
      DecideMoves(t, id, ApprovalStatus.Superseded, ProposalStatus.Superseded, n);
    }
  }

  lemma ChangeMoves(t: Tables, token: nat, who: Principal, ttl: int, now: Time, n: nat)
    requires OpenRevision(t, token, who, ttl, now).Committed?
    ensures Moves(t, OpenRevision(t, token, who, ttl, now).tables, n, n)
  {
    var id := Addressed(t, token, who).value;
    if t.approvals[id].status.Pending? {
      DecideMoves(t, id, ApprovalStatus.Expired, ProposalStatus.Expired, n);
      DecideMoves(t, id, ApprovalStatus.Superseded, ProposalStatus.Superseded, n);
    }
  }

  lemma DiscardsMoves(t: Tables, t': Tables, id: ProposalId, n: nat)
    requires Discardable(t, id) && Discards(t, t', id)
    ensures Moves(t, t', n, n)
  {
    StatusMoves(t.approvals, id, ApprovalStatus.Rejected, n);
  }

  lemma DiscardMoves(t: Tables, token: nat, who: Principal, now: Time, n: nat)
    requires DiscardAndQueueDelete(t, token, who, now).Committed?
    ensures Moves(t, DiscardAndQueueDelete(t, token, who, now).tables, n, n)
  {
    var id := Addressed(t, token, who).value;
    match DiscardAndQueueDelete(t, token, who, now).value
    case NotWaiting(_) => SamePapersMove(t, t, n, n);
    case TooLate => DecideMoves(t, id, ApprovalStatus.Expired, ProposalStatus.Expired, n);
    case Stale => DecideMoves(t, id, ApprovalStatus.Superseded, ProposalStatus.Superseded, n);
    case Accepted =>
      AcceptedDiscardDiscards(t, token, who, now);
      DiscardsMoves(t, DiscardAndQueueDelete(t, token, who, now).tables, id, n);
  }

  lemma SupersedeMoves(t: Tables, token: nat, who: Principal, n: nat)
    requires SupersedeSendApproval(t, token, who).Committed?
    ensures Moves(t, SupersedeSendApproval(t, token, who).tables, n, n)
  {
    var id := Addressed(t, token, who).value;
    if t.approvals[id].status.Pending? {
      DecideMoves(t, id, ApprovalStatus.Superseded, ProposalStatus.Superseded, n);
    }
  }

  lemma CompleteRevisionMoves(t: Tables, id: ProposalId, replacement: Email, now: Time, n: nat)
    requires CompleteRevision(t, id, replacement, now).Committed?
    ensures Moves(t, CompleteRevision(t, id, replacement, now).tables, n, n)
  {
  }

  lemma AddSendVersionMoves(t: Tables, t1: Tables, id: ProposalId, p: Proposal, next: NextApproval)
    requires Moves(t, t1, next.token, next.token) && AddSendVersion(t1, id, p, next).Some?
    ensures Moves(t, AddSendVersion(t1, id, p, next).value, next.token, next.token + 1)
  {
  }

  lemma CompleteCreateMoves(canon: Email -> Option<Email>, t: Tables, c: Claim, draftId: string, next: NextApproval, now: Time)
    requires CompleteCreate(canon, t, c, draftId, next, now).Committed?
    ensures Moves(t, CompleteCreate(canon, t, c, draftId, next, now).tables, next.token, next.token + 1)
  {
    var p, t1 := t.proposals[c.action], Close(t, c.action, ActionStatus.Succeeded, ProposalStatus.Completed);
    CloseMoves(t, c.action, ActionStatus.Succeeded, ProposalStatus.Completed, next.token);
    AddSendVersionMoves(t, t1, Send(c.action.root, 1), SendProposal(p, None, 1, canon(p.parameters).value, next.expiresAt), next);
  }

  lemma CompleteUpdateMoves(canon: Email -> Option<Email>, t: Tables, c: Claim, draftId: string, next: NextApproval, now: Time)
    requires CompleteUpdate(canon, t, c, draftId, next, now).Committed?
    ensures Moves(t, CompleteUpdate(canon, t, c, draftId, next, now).tables, next.token, next.token + 1)
  {
    var p, t1 := t.proposals[c.action], Close(t, c.action, ActionStatus.Succeeded, ProposalStatus.Completed);
    var root := FindDraft(t, p.supersedes.value).value;
    var version := t.drafts[root].version + 1;
    CloseMoves(t, c.action, ActionStatus.Succeeded, ProposalStatus.Completed, next.token);
    AddSendVersionMoves(t, t1, Send(root, version), SendProposal(p, p.supersedes, version, canon(p.parameters).value, next.expiresAt), next);
  }

  lemma CompleteManagedMoves(t: Tables, c: Claim, draftId: string, finished: DraftStatus, n: nat)
    requires CompleteManaged(t, c, draftId, finished).Committed?
    ensures Moves(t, CompleteManaged(t, c, draftId, finished).tables, n, n + 1)
  {
    CloseMoves(t, c.action, ActionStatus.Succeeded, ProposalStatus.Completed, n);
  }

  lemma CompletionMoves(cfg: Config, w: World, s: Subject, draftId: string, now: Time)
    requires Completion(cfg, w, s, draftId, now).Committed?
    ensures Moves(w.t, Completion(cfg, w, s, draftId, now).tables, w.tokens, w.tokens + 1)
  {
    match s.claim.capability
    case CreateDraft => CompleteCreateMoves(cfg.canon, w.t, s.claim, draftId, Next(cfg, w, s, now).value, now);
    case UpdateDraft => CompleteUpdateMoves(cfg.canon, w.t, s.claim, draftId, Next(cfg, w, s, now).value, now);
    case DeleteDraft => CompleteManagedMoves(w.t, s.claim, s.managed.value.provider.draftId, DraftStatus.Deleted, w.tokens);
    case SendDraft => CompleteManagedMoves(w.t, s.claim, s.managed.value.provider.draftId, DraftStatus.Sent, w.tokens);
  }

  // ----- The three steps that do more -----------------------------------------------------------------

  lemma PreparedShape(cfg: Config, w: World, worker: nat, now: Time)
    requires worker in w.workers && PrepareApprovalCard(cfg.canon, w.t, w.workers[worker], w.tokens, now).Committed?
    requires var id := w.workers[worker].notice;
             id in w.t.proposals ==> cfg.canon(w.t.proposals[id].parameters) == Some(w.t.proposals[id].parameters)
    ensures var id, w' := w.workers[worker].notice, PrepareCardStep(cfg, w, worker, now);
            && id in w.t.approvals && id in w.t.proposals && w.t.approvals[id].status.Pending?
            && |w'.cards| == |w.cards| + 1 && w'.cards == w.cards + [w'.cards[|w.cards|]]
            && w'.cards[|w.cards|].approval == id && w'.cards[|w.cards|].token == w.tokens
            && CardShows(w'.cards[|w.cards|].card, w.t.proposals[id].parameters, w.t.approvals[id].expiresAt)
            && w'.t.approvals == w.t.approvals[id := w.t.approvals[id].(token := w.tokens)] && w'.t.proposals == w.t.proposals
            && w'.tokens == w.tokens + 1 && w'.presses == w.presses && w'.delivered == w.delivered
  {
  }

  lemma NewCardOk(w: World, t': Tables, card: PreparedCard)
    requires forall i :: 0 <= i < |w.cards| ==> CardOk(w.t, w.cards[i])
    requires card.approval in w.t.approvals && card.approval in w.t.proposals && CardOk(w.t, card)
    requires t'.approvals == w.t.approvals[card.approval := w.t.approvals[card.approval].(token := w.tokens)]
    requires t'.proposals == w.t.proposals
    ensures forall i :: 0 <= i < |w.cards + [card]| ==> CardOk(t', (w.cards + [card])[i])
  {
    forall i | 0 <= i < |w.cards + [card]|
      ensures CardOk(t', (w.cards + [card])[i])
    {
      assert i < |w.cards| ==> CardOk(w.t, w.cards[i]);
    }
  }

  /** A new card takes a token nobody has seen, and its approval's older cards stop working. */
  lemma PrepareCardOk(cfg: Config, w: World, worker: nat, now: Time)
    requires CardsOk(w)
    requires worker in w.workers ==> var id := w.workers[worker].notice;
               id in w.t.proposals ==> cfg.canon(w.t.proposals[id].parameters) == Some(w.t.proposals[id].parameters)
    ensures CardsOk(PrepareCardStep(cfg, w, worker, now))
    ensures KeepsParameters(w.t, PrepareCardStep(cfg, w, worker, now).t)
  {
    if worker in w.workers && PrepareApprovalCard(cfg.canon, w.t, w.workers[worker], w.tokens, now).Committed? {
      var id, w' := w.workers[worker].notice, PrepareCardStep(cfg, w, worker, now);
      PreparedShape(cfg, w, worker, now);
      var card := w'.cards[|w.cards|];
      NewCardOk(w, w'.t, card);
      NewCardTokens(w, w'.t, card);
      NewCardPresses(w, w'.t, card);
    }
  }

  lemma NewCardTokens(w: World, t': Tables, card: PreparedCard)
    requires TokensOk(w.t, w.cards, w.tokens) && card.approval in w.t.approvals && card.token == w.tokens
    requires t'.approvals == w.t.approvals[card.approval := w.t.approvals[card.approval].(token := w.tokens)]
    ensures TokensOk(t', w.cards + [card], w.tokens + 1)
  {
    var cards := w.cards + [card];
    forall i, id | 0 <= i < |cards| && id in t'.approvals && t'.approvals[id].token == cards[i].token
      ensures cards[i].approval == id && LastFor(cards, i)
    {
      if i < |w.cards| {
        assert cards[i] == w.cards[i] && id != card.approval && w.t.approvals[id].token == w.cards[i].token;
        assert LastFor(w.cards, i);
      }
    }
  }

  lemma NewCardPresses(w: World, t': Tables, card: PreparedCard)
    requires CardsOk(w) && card.approval in w.t.approvals && w.t.approvals[card.approval].status.Pending?
    requires t'.approvals == w.t.approvals[card.approval := w.t.approvals[card.approval].(token := w.tokens)]
    ensures forall i :: 0 <= i < |w.presses| ==> PressOk(t', w.cards + [card], w.delivered, w.presses[i])
    ensures GrantsPressed(t', w.presses)
  {
    forall i | 0 <= i < |w.presses|
      ensures PressOk(t', w.cards + [card], w.delivered, w.presses[i])
    {
      assert PressOk(w.t, w.cards, w.delivered, w.presses[i]);
    }
  }

  lemma GrantTokens(t: Tables, t': Tables, cards: seq<PreparedCard>, tokens: nat, id: ProposalId)
    requires TokensOk(t, cards, tokens) && id in t.approvals
    requires t'.approvals == t.approvals[id := t.approvals[id].(status := ApprovalStatus.Granted)]
    ensures TokensOk(t', cards, tokens)
  {
    forall i, j | 0 <= i < |cards| && j in t'.approvals && t'.approvals[j].token == cards[i].token
      ensures cards[i].approval == j && LastFor(cards, i)
    {
      assert t.approvals[j].token == cards[i].token;
    }
  }

  lemma GrantPresses(t: Tables, t': Tables, presses: seq<SendPress>, press: SendPress)
    requires GrantsPressed(t, presses) && press.approval in t.approvals
    requires t'.approvals == t.approvals[press.approval := t.approvals[press.approval].(status := ApprovalStatus.Granted)]
    ensures GrantsPressed(t', presses + [press])
  {
    var presses' := presses + [press];
    assert presses'[|presses|] == press;
    forall j | j in t'.approvals && t'.approvals[j].status.Granted?
      ensures exists i :: 0 <= i < |presses'| && presses'[i].approval == j
    {
      if j != press.approval {
        assert t.approvals[j].status.Granted?;
        var i :| 0 <= i < |presses| && presses[i].approval == j;
        assert presses'[i].approval == j;
      }
    }
  }

  lemma GrantKeepsPress(t: Tables, t': Tables, cards: seq<PreparedCard>, delivered: set<nat>, id: ProposalId, p: SendPress)
    requires PressOk(t, cards, delivered, p) && id in t.approvals
    requires t'.approvals == t.approvals[id := t.approvals[id].(status := ApprovalStatus.Granted)]
    ensures PressOk(t', cards, delivered, p)
  {
  }

  lemma GrantKeepsCard(t: Tables, t': Tables, id: ProposalId, c: PreparedCard)
    requires CardOk(t, c) && id in t.approvals && KeepsParameters(t, t')
    requires t'.approvals == t.approvals[id := t.approvals[id].(status := ApprovalStatus.Granted)]
    ensures CardOk(t', c)
  {
  }

  /** A grant is recorded with the press that made it. */
  lemma AcceptedPressOk(w: World, w': World, card: nat, id: ProposalId, who: Principal, at: Time)
    requires CardsOk(w) && card < |w.cards| && card in w.delivered
    requires id in w.t.approvals && w.t.approvals[id].token == w.cards[card].token && w.t.approvals[id].principal == who
    requires at < w.t.approvals[id].expiresAt
    requires w'.t.approvals == w.t.approvals[id := w.t.approvals[id].(status := ApprovalStatus.Granted)]
    requires KeepsParameters(w.t, w'.t)
    requires w'.presses == w.presses + [SendPress(id, who, card, at)]
    requires w'.cards == w.cards && w'.delivered == w.delivered && w'.tokens == w.tokens
    ensures CardsOk(w')
  {
    GrantTokens(w.t, w'.t, w.cards, w.tokens, id);
    GrantPresses(w.t, w'.t, w.presses, SendPress(id, who, card, at));
    forall i | 0 <= i < |w'.cards|
      ensures CardOk(w'.t, w'.cards[i])
    {
      GrantKeepsCard(w.t, w'.t, id, w.cards[i]);
    }
    forall i | 0 <= i < |w'.presses|
      ensures PressOk(w'.t, w'.cards, w'.delivered, w'.presses[i])
    {
      if i < |w.presses| {
        GrantKeepsPress(w.t, w'.t, w.cards, w.delivered, id, w.presses[i]);
      }
    }
  }

  lemma AcceptedGrant(t: Tables, token: nat, who: Principal, now: Time)
    requires GrantAndQueueSend(t, token, who, now).Committed? && GrantAndQueueSend(t, token, who, now).value.Accepted?
    ensures FindApproval(t, token).Some? && FindApproval(t, token) == Addressed(t, token, who)
    ensures var id, t' := FindApproval(t, token).value, GrantAndQueueSend(t, token, who, now).tables;
            && id in t.approvals && t.approvals[id].token == token && t.approvals[id].principal == who
            && t.approvals[id].status.Pending? && now < t.approvals[id].expiresAt
            && t'.approvals == t.approvals[id := t.approvals[id].(status := ApprovalStatus.Granted)]
            && KeepsParameters(t, t')
  {
  }

  lemma PressSendCards(cfg: Config, w: World, card: nat, who: Principal, now: Time)
    requires CardsOk(w)
    ensures CardsOk(PressStep(cfg, w, PressSend, card, who, now))
    ensures KeepsParameters(w.t, PressStep(cfg, w, PressSend, card, who, now).t)
  {
    if card in w.delivered && card < |w.cards| && GrantAndQueueSend(w.t, w.cards[card].token, who, now).Committed? {
      var token, w' := w.cards[card].token, PressStep(cfg, w, PressSend, card, who, now);
      if GrantAndQueueSend(w.t, token, who, now).value.Accepted? {
        AcceptedGrant(w.t, token, who, now);
        AcceptedPressOk(w, w', card, FindApproval(w.t, token).value, who, now);
      } else {
        RefusedSendMoves(w.t, token, who, now, w.tokens);
        CardsCarry(w, w');
      }
    }
  }
}
