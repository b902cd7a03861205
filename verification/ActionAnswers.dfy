/** What each transaction of `ActionRepository` answers, and the rows it leaves, said of the tables alone: every
    condition and every new row is written out, so that nothing here leans on how the transactions of
    `ActionTransitions` are put together (src/eva_ai/actions/repository.py, src/eva_ai/notifications/repository.py). */
module ActionAnswers {
  import opened Wrappers
  import opened CanonicalEmail
  import opened ActionTables
  import opened ActionTransitions
  import opened ActionInvariant

  /** A method's result and the tables it leaves, as a transaction. */
  function AsTx<T>(r: Result<T, Error>, after: Tables): Tx<T> {
    match r
    case Success(v) => Committed(after, v)
    case Failure(e) => RolledBack(e)
  }

  const NEVER_CLAIMED: Notice := Notice(NoticeStatus.Pending, None, None, 0, None)

  function Waiting(c: Capability): Action {
    Action(c, ActionStatus.Queued, None, None, 0, None)
  }

  // ----- Intake ---------------------------------------------------------------------------------------

  /** A request the policy allows, for anything but a send, is stored and queued as version 1; a repeated source key
      answers with what is stored; and nothing else is. */
  predicate IntakeAnswered(t: Tables, p: NewProposal, x: Tx<ProposalId>) {
    var id := Create(p.root);
    if p.decision != PolicyDecision.Allow || p.capability == Capability.SendDraft then x == RolledBack(ValidationError)
    else if id in t.proposals && id in t.actions then x == Committed(t, id)
    else if id in t.proposals then x == RolledBack(ConflictError)
    else if p.connector !in t.connectors || id in t.actions then x == RolledBack(ScopeError)
    else
      && x.Committed? && x.value == id
      && x.tables == t.(
           proposals := t.proposals[id := Proposal(
             p.capability, p.supersedes, p.origin, p.message, Sha256(p.message), PolicyDecision.Allow,
             ProposalStatus.Queued, 1, p.connector, p.situation, p.expiresAt)],
           actions := t.actions[id := Waiting(p.capability)])
  }

  lemma IntakeIsAnswered(t: Tables, p: NewProposal)
    ensures IntakeAnswered(t, p, CreateAllowedAction(t, p))
  {
  }

  // ----- Presses --------------------------------------------------------------------------------------

  /** The token is that of `id`'s approval, and the press came from the account and chat it is bound to. */
  predicate Names(t: Tables, id: ProposalId, token: nat, who: Principal) {
    && id in t.approvals && id in t.proposals
    && t.approvals[id].token == token && t.approvals[id].principal == who
  }

  ghost predicate Unnamed(t: Tables, token: nat, who: Principal) {
    forall id :: !Names(t, id, token, who)
  }

  /** Approval and send proposal are settled, and nothing else changes. */
  predicate Settles(t: Tables, t': Tables, id: ProposalId, a: ApprovalStatus, p: ProposalStatus)
    requires id in t.approvals && id in t.proposals
  {
    t' == t.(approvals := t.approvals[id := t.approvals[id].(status := a)],
             proposals := t.proposals[id := t.proposals[id].(status := p)])
  }

  /** The draft still carries this very send proposal, and all three stored hashes agree. */
  predicate Unchanged(t: Tables, id: ProposalId)
    requires id in t.approvals && id in t.proposals
  {
    && id.Send? && id.root in t.drafts && t.drafts[id.root].active == id
    && t.drafts[id.root].hash == t.proposals[id].hash && t.approvals[id].hash == t.proposals[id].hash
  }

  /** How the three presses answer alike: what is not pending is left alone, what is pending and past its expiry
      expires, and what is in time but no longer unchanged is superseded. */
  predicate AnsweredAlike(t: Tables, id: ProposalId, now: Time, x: Tx<Decision>)
    requires id in t.approvals && id in t.proposals
  {
    var pending, late := t.approvals[id].status == ApprovalStatus.Pending, now >= t.approvals[id].expiresAt;
    && (x.Committed? && x.value.NotWaiting? <==> !pending)
    && (x.Committed? && x.value.TooLate? <==> pending && late)
    && (x.Committed? && x.value.NotWaiting? ==> x.tables == t)
    && (x.Committed? && x.value.TooLate? ==> Settles(t, x.tables, id, ApprovalStatus.Expired, ProposalStatus.Expired))
    && (x.Committed? && x.value.Stale? ==>
          pending && !late && !Unchanged(t, id) && Settles(t, x.tables, id, ApprovalStatus.Superseded, ProposalStatus.Superseded))
  }

  /** A Send press that is accepted: granted, approved, queued, and the draft being sent. */
  predicate SendRows(t: Tables, t': Tables, id: ProposalId)
    requires id in t.approvals && id in t.proposals && id.root in t.drafts
  {
    t' == t.(approvals := t.approvals[id := t.approvals[id].(status := ApprovalStatus.Granted)],
             proposals := t.proposals[id := t.proposals[id].(status := ProposalStatus.Approved)],
             actions := t.actions[id := Waiting(t.proposals[id].capability)],
             drafts := t.drafts[id.root := t.drafts[id.root].(status := DraftStatus.Sending)])
  }

  predicate SendAnswered(t: Tables, id: ProposalId, now: Time, x: Tx<Decision>)
    requires id in t.approvals && id in t.proposals
  {
    var inTime := t.approvals[id].status == ApprovalStatus.Pending && now < t.approvals[id].expiresAt;
    && AnsweredAlike(t, id, now, x)
    && (x.Committed? && x.value.NotWaiting? ==> x.value.action == if id in t.actions then Some(id) else None)
    && (x.Committed? && x.value.Stale? <==> inTime && !Unchanged(t, id))
    && (x.Committed? && x.value.Accepted? <==> inTime && Unchanged(t, id) && id !in t.actions)
    && (x.Committed? && x.value.Accepted? ==> SendRows(t, x.tables, id))
    && (x.RolledBack? ==> inTime && x == RolledBack(IntegrityError))
  }

  lemma OneAddressed(t: Tables, id: ProposalId, token: nat, who: Principal)
    requires UniqueTokens(t) && Names(t, id, token, who)
    ensures Addressed(t, token, who) == Some(id)
  {
    assert FindApproval(t, token) == Some(id);
  }

  lemma NoneAddressed(t: Tables, token: nat, who: Principal)
    requires Unnamed(t, token, who)
    ensures Addressed(t, token, who) == None
  {
    assert Addressed(t, token, who).Some? ==> Names(t, Addressed(t, token, who).value, token, who);
  }

  lemma AddressedSend(t: Tables, id: ProposalId, token: nat, who: Principal, now: Time)
    requires Addressed(t, token, who) == Some(id) && id in t.approvals && id in t.proposals
    ensures SendAnswered(t, id, now, GrantAndQueueSend(t, token, who, now))
  {
  }

  lemma SendIsAnswered(t: Tables, id: ProposalId, token: nat, who: Principal, now: Time)
    requires UniqueTokens(t) && Names(t, id, token, who)
    ensures SendAnswered(t, id, now, GrantAndQueueSend(t, token, who, now))
  {
    OneAddressed(t, id, token, who);
    AddressedSend(t, id, token, who, now);
  }

  /** A Send press, whoever it comes from. */
  ghost predicate SendPressed(t: Tables, token: nat, who: Principal, now: Time, x: Tx<Decision>) {
    && (Unnamed(t, token, who) ==> x == RolledBack(ScopeError))
    && (forall id :: Names(t, id, token, who) ==> SendAnswered(t, id, now, x))
  }

  lemma SendsArePressed(t: Tables, token: nat, who: Principal, now: Time)
    requires UniqueTokens(t)
    ensures SendPressed(t, token, who, now, GrantAndQueueSend(t, token, who, now))
  {
    if Unnamed(t, token, who) {
      NoneAddressed(t, token, who);
    }
    forall id | Names(t, id, token, who)
      ensures SendAnswered(t, id, now, GrantAndQueueSend(t, token, who, now))
    {
      SendIsAnswered(t, id, token, who, now);
    }
  }

  predicate SupersedeAnswered(t: Tables, id: ProposalId, x: Tx<()>)
    requires id in t.approvals && id in t.proposals
  {
    && x.Committed?
    && if t.approvals[id].status == ApprovalStatus.Pending
       then Settles(t, x.tables, id, ApprovalStatus.Superseded, ProposalStatus.Superseded)
       else x.tables == t
  }

  lemma SupersedeIsAnswered(t: Tables, id: ProposalId, token: nat, who: Principal)
    requires UniqueTokens(t) && Names(t, id, token, who)
    ensures SupersedeAnswered(t, id, SupersedeSendApproval(t, token, who))
  {
    OneAddressed(t, id, token, who);
  }

  ghost predicate SupersedeCalled(t: Tables, token: nat, who: Principal, x: Tx<()>) {
    && (Unnamed(t, token, who) ==> x == RolledBack(ScopeError))
    && (forall id :: Names(t, id, token, who) ==> SupersedeAnswered(t, id, x))
  }

  lemma SupersedesAreCalled(t: Tables, token: nat, who: Principal)
    requires UniqueTokens(t)
    ensures SupersedeCalled(t, token, who, SupersedeSendApproval(t, token, who))
  {
    if Unnamed(t, token, who) {
      NoneAddressed(t, token, who);
    }
    forall id | Names(t, id, token, who)
      ensures SupersedeAnswered(t, id, SupersedeSendApproval(t, token, who))
    {
      SupersedeIsAnswered(t, id, token, who);
    }
  }

  /** A Change press that is accepted: the approval superseded, the account's active session cancelled, every other
      session as it was, and a new one active for `ttl`. */
  predicate ChangeRows(t: Tables, t': Tables, id: ProposalId, account: string, until: Time)
    requires id in t.approvals && id in t.proposals
  {
    && Settles(t, t'.(sessions := t.sessions), id, ApprovalStatus.Superseded, ProposalStatus.Superseded)
    && t'.sessions.Keys == t.sessions.Keys + {id}
    && t'.sessions[id] == Session(account, SessionStatus.Active, until)
    && forall i :: i in t.sessions && i != id ==>
         t'.sessions[i] == if t.sessions[i].account == account && t.sessions[i].status == SessionStatus.Active
                           then t.sessions[i].(status := SessionStatus.Cancelled) else t.sessions[i]
  }

  predicate ChangeAnswered(t: Tables, id: ProposalId, account: string, ttl: int, now: Time, x: Tx<Decision>)
    requires id in t.approvals && id in t.proposals
  {
    var inTime := t.approvals[id].status == ApprovalStatus.Pending && now < t.approvals[id].expiresAt;
    if ttl <= 0 then x == RolledBack(ValidationError)
    else
      && AnsweredAlike(t, id, now, x)
      && (x.Committed? && x.value.NotWaiting? ==> x.value.action.None?)
      && (x == RolledBack(ValidationError) <==> inTime && t.proposals[id].situation.None?)
      && (x.Committed? && x.value.Stale? <==> inTime && t.proposals[id].situation.Some? && !Unchanged(t, id))
      && (x.Committed? && x.value.Accepted? <==>
            inTime && t.proposals[id].situation.Some? && Unchanged(t, id) && id !in t.sessions)
      && (x.Committed? && x.value.Accepted? ==> ChangeRows(t, x.tables, id, account, now + ttl))
      && (x.RolledBack? ==> inTime && (x.error.ValidationError? || x.error.IntegrityError?))
  }

  lemma AddressedChange(t: Tables, id: ProposalId, token: nat, who: Principal, ttl: int, now: Time)
    requires Addressed(t, token, who) == Some(id) && id in t.approvals && id in t.proposals
    ensures ChangeAnswered(t, id, who.account, ttl, now, OpenRevision(t, token, who, ttl, now))
  {
  }

  lemma ChangeIsAnswered(t: Tables, id: ProposalId, token: nat, who: Principal, ttl: int, now: Time)
    requires UniqueTokens(t) && Names(t, id, token, who)
    ensures ChangeAnswered(t, id, who.account, ttl, now, OpenRevision(t, token, who, ttl, now))
  {
    OneAddressed(t, id, token, who);
    AddressedChange(t, id, token, who, ttl, now);
  }

  /** A Change press, whoever it comes from. */
  ghost predicate ChangePressed(t: Tables, token: nat, who: Principal, ttl: int, now: Time, x: Tx<Decision>) {
    && (Unnamed(t, token, who) ==> x == RolledBack(if ttl <= 0 then ValidationError else ScopeError))
    && (forall id :: Names(t, id, token, who) ==> ChangeAnswered(t, id, who.account, ttl, now, x))
  }

  lemma ChangesArePressed(t: Tables, token: nat, who: Principal, ttl: int, now: Time)
    requires UniqueTokens(t)
    ensures ChangePressed(t, token, who, ttl, now, OpenRevision(t, token, who, ttl, now))
  {
    if Unnamed(t, token, who) {
      NoneAddressed(t, token, who);
    }
    forall id | Names(t, id, token, who)
      ensures ChangeAnswered(t, id, who.account, ttl, now, OpenRevision(t, token, who, ttl, now))
    {
      ChangeIsAnswered(t, id, token, who, ttl, now);
    }
  }

  /** A Discard press that is accepted: the approval rejected, the send cancelled, and the deletion of what was shown
      queued. */
  predicate DiscardRows(t: Tables, t': Tables, id: ProposalId)
    requires id in t.approvals && id in t.proposals && id.root in t.drafts
  {
    var delete, send := Delete(id.root), t.proposals[id];
    t' == t.(approvals := t.approvals[id := t.approvals[id].(status := ApprovalStatus.Rejected)],
             proposals := t.proposals[id := send.(status := ProposalStatus.Cancelled)][delete := Proposal(
               Capability.DeleteDraft, Some(id), Origin.TelegramUser, send.parameters, send.hash, PolicyDecision.Allow,
               ProposalStatus.Queued, 1, send.connector, send.situation, None)],
             actions := t.actions[delete := Waiting(Capability.DeleteDraft)],
             drafts := t.drafts[id.root := t.drafts[id.root].(status := DraftStatus.Deleting)])
  }

  predicate DiscardAnswered(t: Tables, id: ProposalId, now: Time, x: Tx<Decision>)
    requires id in t.approvals && id in t.proposals
  {
    var inTime := t.approvals[id].status == ApprovalStatus.Pending && now < t.approvals[id].expiresAt;
    var delete := Delete(id.root);
    && AnsweredAlike(t, id, now, x)
    && (x.Committed? && x.value.NotWaiting? ==>
          x.value.action == if delete in t.proposals && t.proposals[delete].supersedes == Some(id) && delete in t.actions
                            then Some(delete) else None)
    && (x.Committed? && x.value.Stale? <==> inTime && !Unchanged(t, id))
    && (x.Committed? && x.value.Accepted? <==>
          inTime && Unchanged(t, id) && delete !in t.proposals && delete !in t.actions)
    && (x.Committed? && x.value.Accepted? ==> DiscardRows(t, x.tables, id))
    && (x.RolledBack? ==> inTime && x == RolledBack(IntegrityError))
  }

  lemma AddressedDiscard(t: Tables, id: ProposalId, token: nat, who: Principal, now: Time)
    requires Addressed(t, token, who) == Some(id) && id in t.approvals && id in t.proposals
    ensures DiscardAnswered(t, id, now, DiscardAndQueueDelete(t, token, who, now))
  {
  }

  lemma DiscardIsAnswered(t: Tables, id: ProposalId, token: nat, who: Principal, now: Time)
    requires UniqueTokens(t) && Names(t, id, token, who)
    ensures DiscardAnswered(t, id, now, DiscardAndQueueDelete(t, token, who, now))
  {
    OneAddressed(t, id, token, who);
    AddressedDiscard(t, id, token, who, now);
  }

  /** A Discard press, whoever it comes from. */
  ghost predicate DiscardPressed(t: Tables, token: nat, who: Principal, now: Time, x: Tx<Decision>) {
    && (Unnamed(t, token, who) ==> x == RolledBack(ScopeError))
    && (forall id :: Names(t, id, token, who) ==> DiscardAnswered(t, id, now, x))
  }

  lemma DiscardsArePressed(t: Tables, token: nat, who: Principal, now: Time)
    requires UniqueTokens(t)
    ensures DiscardPressed(t, token, who, now, DiscardAndQueueDelete(t, token, who, now))
  {
    if Unnamed(t, token, who) {
      NoneAddressed(t, token, who);
    }
    forall id | Names(t, id, token, who)
      ensures DiscardAnswered(t, id, now, DiscardAndQueueDelete(t, token, who, now))
    {
      DiscardIsAnswered(t, id, token, who, now);
    }
  }

  // ----- Revisions ------------------------------------------------------------------------------------

  /** `id` is the session the account has open. */
  predicate Opened(t: Tables, id: ProposalId, account: string) {
    id in t.sessions && t.sessions[id].account == account && t.sessions[id].status == SessionStatus.Active
  }

  /** The draft still carries the session's send proposal and its hash. */
  predicate Carries(t: Tables, id: ProposalId) {
    && id in t.proposals && id.root in t.drafts
    && t.drafts[id.root].active == id && t.drafts[id.root].hash == t.proposals[id].hash
  }

  /** Loading the open session: past its expiry it expires, and nothing else ever changes; in time the message of its
      send proposal is answered if the draft still carries it. */
  predicate LoadAnswered(canon: Email -> Option<Email>, t: Tables, id: ProposalId, now: Time, x: Tx<Lookup>)
    requires id in t.sessions
  {
    if now >= t.sessions[id].expiresAt then
      x == Committed(t.(sessions := t.sessions[id := t.sessions[id].(status := SessionStatus.Expired)]), RevisionExpired)
    else if !Carries(t, id) then x == RolledBack(ScopeError)
    else if canon(t.proposals[id].parameters).None? then x == RolledBack(RecordError)
    else x == Committed(t, RevisionActive(id, canon(t.proposals[id].parameters).value))
  }

  lemma LoadIsAnswered(canon: Email -> Option<Email>, t: Tables, id: ProposalId, account: string, now: Time)
    requires OneActiveSession(t) && Opened(t, id, account)
    ensures LoadAnswered(canon, t, id, now, LoadRevision(canon, t, account, now))
  {
    assert FindSession(t, account) == Some(id);
  }

  lemma NothingToLoad(canon: Email -> Option<Email>, t: Tables, account: string, now: Time)
    requires forall id :: !Opened(t, id, account)
    ensures LoadRevision(canon, t, account, now) == Committed(t, NoRevision)
  {
    assert FindSession(t, account).Some? ==> Opened(t, FindSession(t, account).value, account);
  }

  ghost predicate LoadCalled(canon: Email -> Option<Email>, t: Tables, account: string, now: Time, x: Tx<Lookup>) {
    && ((forall id :: !Opened(t, id, account)) ==> x == Committed(t, NoRevision))
    && (forall id :: Opened(t, id, account) ==> LoadAnswered(canon, t, id, now, x))
  }

  lemma LoadsAreCalled(canon: Email -> Option<Email>, t: Tables, account: string, now: Time)
    requires OneActiveSession(t)
    ensures LoadCalled(canon, t, account, now, LoadRevision(canon, t, account, now))
  {
    if forall id :: !Opened(t, id, account) {
      NothingToLoad(canon, t, account, now);
    }
    forall id | Opened(t, id, account)
      ensures LoadAnswered(canon, t, id, now, LoadRevision(canon, t, account, now))
    {
      LoadIsAnswered(canon, t, id, account, now);
    }
  }

  /** A reply is taken if and only if its session is active and in time, the draft still carries the session's send
      proposal and hash, and no update of that version is on file. */
  predicate MayRevise(t: Tables, id: ProposalId, now: Time) {
    && id in t.sessions && t.sessions[id].status == SessionStatus.Active && now < t.sessions[id].expiresAt
    && id.Send? && Carries(t, id)
    && Update(id.root, id.version) !in t.proposals && Update(id.root, id.version) !in t.actions
  }

  /** Then the update carries the replacement, waits in the queue, and ends the session. */
  predicate RevisionRows(t: Tables, t': Tables, id: ProposalId, replacement: Email)
    requires id.Send? && id in t.sessions && id in t.proposals && id.root in t.drafts
  {
    var update, send := Update(id.root, id.version), t.proposals[id];
    t' == t.(proposals := t.proposals[update := Proposal(
               Capability.UpdateDraft, Some(id), Origin.TelegramUser, replacement, Sha256(replacement), PolicyDecision.Allow,
               ProposalStatus.Queued, t.drafts[id.root].version + 1, send.connector, send.situation, None)],
             actions := t.actions[update := Waiting(Capability.UpdateDraft)],
             drafts := t.drafts[id.root := t.drafts[id.root].(status := DraftStatus.Updating)],
             sessions := t.sessions[id := t.sessions[id].(status := SessionStatus.Completed)])
  }

  predicate RevisionAnswered(t: Tables, id: ProposalId, replacement: Email, now: Time, x: Tx<ProposalId>) {
    var active := id in t.sessions && t.sessions[id].status == SessionStatus.Active;
    && (x.Committed? <==> MayRevise(t, id, now))
    && (x.Committed? ==> x.value == Update(id.root, id.version) && RevisionRows(t, x.tables, id, replacement))
    && (x == RolledBack(ValidationError) <==> active && now >= t.sessions[id].expiresAt)
    && (x == RolledBack(ScopeError) <==> !active || (now < t.sessions[id].expiresAt && !(id.Send? && Carries(t, id))))
    && (x.RolledBack? ==> x.error.ValidationError? || x.error.ScopeError? || x.error.IntegrityError?)
  }

  lemma RevisionIsAnswered(t: Tables, id: ProposalId, replacement: Email, now: Time)
    ensures RevisionAnswered(t, id, replacement, now, CompleteRevision(t, id, replacement, now))
  {
  }

  // ----- Ends of actions ------------------------------------------------------------------------------

  /** The action runs under exactly this claim, and its end is not recorded yet. */
  predicate Held(t: Tables, c: Claim) {
    && c.action in t.actions && t.actions[c.action].status == ActionStatus.Running && t.actions[c.action].claim == Some(c.id)
    && c.action !in t.results
  }

  lemma CloseSparesConnectors(t: Tables, id: ProposalId, status: ActionStatus, proposal: ProposalStatus)
    requires id in t.actions
    ensures Close(t, id, status, proposal).connectors == t.connectors
  {
  }

  lemma ClosingSparesConnectors(t: Tables, id: ProposalId, status: ActionStatus, draft: DraftStatus)
    requires id in t.actions
    ensures CloseFailed(t, id, status, draft).connectors == t.connectors
  {
    CloseSparesConnectors(t, id, status, ProposalStatus.Failed);
  }

  /** A lost authorization marks its connector for reauthorization, unless reading still works; no other end of an
      action touches a connector. */
  lemma OnlyRevokedGrantsMark(t: Tables, c: Claim, connector: string, readAccessPreserved: bool)
    ensures MarkUnavailable(t, c, connector, readAccessPreserved).connectors ==
              if Held(t, c) && connector in t.connectors && !readAccessPreserved
              then t.connectors[connector := t.connectors[connector].(status := ConnectorStatus.ReauthorizationRequired)]
              else t.connectors
    ensures FailValidation(t, c).connectors == t.connectors && MarkUnknown(t, c).connectors == t.connectors
  {
    if Current(t, c) {
      ClosingSparesConnectors(t, c.action, ActionStatus.Failed, DraftStatus.Ready);
      ClosingSparesConnectors(t, c.action, ActionStatus.Unknown, DraftStatus.Unknown);
    }
  }

  /** Nothing on file stands against version `k` of the draft at `root`: no such proposal or approval, and the callback
      token is new. */
  ghost predicate Free(t: Tables, root: string, k: nat, token: nat) {
    && Send(root, k) !in t.proposals && Send(root, k) !in t.approvals
    && forall id :: id in t.approvals ==> t.approvals[id].token != token
  }

  /** The action succeeded, and version `k` of its draft waits for approval: same origin, connector and situation, the
      canonical message under the action's hash, and a notice to show it by. */
  predicate VersionRows(t: Tables, t': Tables, c: Claim, root: string, k: nat, supersedes: Option<ProposalId>, message: Email,
                        next: NextApproval)
    requires c.action in t.actions && c.action in t.proposals
  {
    var p, send := t.proposals[c.action], Send(root, k);
    && t'.actions == t.actions[c.action := t.actions[c.action].(status := ActionStatus.Succeeded, claim := None, lease := None)]
    && t'.results == t.results[c.action := ActionStatus.Succeeded]
    && t'.proposals == t.proposals[c.action := p.(status := ProposalStatus.Completed)][send := Proposal(
         Capability.SendDraft, supersedes, p.origin, message, p.hash, PolicyDecision.RequireApproval,
         ProposalStatus.WaitingApproval, k, p.connector, p.situation, Some(next.expiresAt))]
    && t'.approvals == t.approvals[send := Approval(p.hash, next.principal, ApprovalStatus.Pending, next.token, next.expiresAt)]
    && t'.notices == (if send in t.notices then t.notices else t.notices[send := NEVER_CLAIMED])
    && t'.sessions == t.sessions && t'.connectors == t.connectors
  }

  /** A create is completed if and only if its executor still holds it, the draft is new here and in Gmail, the first
      version can be added and its approval will not be over already. */
  ghost predicate MayCreate(canon: Email -> Option<Email>, t: Tables, c: Claim, draftId: string, next: NextApproval, now: Time) {
    && Held(t, c) && c.action in t.proposals && t.actions[c.action].capability == Capability.CreateDraft
    && canon(t.proposals[c.action].parameters).Some?
    && c.action.root !in t.drafts && now < next.expiresAt && Free(t, c.action.root, 1, next.token)
    && forall r :: r in t.drafts ==> t.drafts[r].provider != ProviderDraft(t.proposals[c.action].connector, draftId)
  }

  lemma ClosingSparesFree(t: Tables, id: ProposalId, root: string, k: nat, token: nat)
    requires id in t.actions && id in t.proposals
    ensures Free(Close(t, id, ActionStatus.Succeeded, ProposalStatus.Completed), root, k, token) <==> Free(t, root, k, token)
  {
    var t1 := Close(t, id, ActionStatus.Succeeded, ProposalStatus.Completed);
    assert t1.approvals == t.approvals && t1.proposals.Keys == t.proposals.Keys;
  }

  lemma AddsIfFree(t: Tables, id: ProposalId, root: string, k: nat, p: Proposal, next: NextApproval)
    requires id in t.actions && id in t.proposals
    ensures AddSendVersion(Close(t, id, ActionStatus.Succeeded, ProposalStatus.Completed), Send(root, k), p, next).Some?
            <==> Free(t, root, k, next.token)
  {
    ClosingSparesFree(t, id, root, k, next.token);
  }

  lemma CreateCommits(canon: Email -> Option<Email>, t: Tables, c: Claim, draftId: string, next: NextApproval, now: Time)
    ensures CompleteCreate(canon, t, c, draftId, next, now).Committed? <==> MayCreate(canon, t, c, draftId, next, now)
  {
    if c.action in t.actions && c.action in t.proposals && canon(t.proposals[c.action].parameters).Some? {
      var p := t.proposals[c.action];
      AddsIfFree(t, c.action, c.action.root, 1, SendProposal(p, None, 1, canon(p.parameters).value, next.expiresAt), next);
    }
  }

  lemma CreateIsCompleted(canon: Email -> Option<Email>, t: Tables, c: Claim, draftId: string, next: NextApproval, now: Time)
    ensures var x := CompleteCreate(canon, t, c, draftId, next, now);
            && (x.Committed? <==> MayCreate(canon, t, c, draftId, next, now))
            && (x.Committed? ==>
                  var p := t.proposals[c.action];
                  && VersionRows(t, x.tables, c, c.action.root, 1, None, canon(p.parameters).value, next)
                  && x.tables.drafts == t.drafts[c.action.root := Draft(
                       ProviderDraft(p.connector, draftId), Send(c.action.root, 1), 1, p.hash, DraftStatus.Ready)])
  {
    CreateCommits(canon, t, c, draftId, next, now);
  }

  /** The draft that carries `id`. */
  predicate DraftOf(t: Tables, id: ProposalId, root: string) {
    id.Send? && id.root == root && root in t.drafts && t.drafts[root].active == id
  }

  /** An update is completed if and only if its executor still holds it, Gmail answered with the id of the draft that
      carries what the update supersedes, and the next version can be added in time. */
  ghost predicate MayUpdate(canon: Email -> Option<Email>, t: Tables, c: Claim, draftId: string, next: NextApproval, now: Time) {
    && Held(t, c) && c.action in t.proposals && t.actions[c.action].capability == Capability.UpdateDraft
    && t.proposals[c.action].supersedes.Some?
    && var was := t.proposals[c.action].supersedes.value;
       && DraftOf(t, was, was.root) && t.drafts[was.root].provider.draftId == draftId
       && canon(t.proposals[c.action].parameters).Some?
       && now < next.expiresAt && Free(t, was.root, t.drafts[was.root].version + 1, next.token)
  }

  lemma UpdateCommits(canon: Email -> Option<Email>, t: Tables, c: Claim, draftId: string, next: NextApproval, now: Time)
    ensures CompleteUpdate(canon, t, c, draftId, next, now).Committed? <==> MayUpdate(canon, t, c, draftId, next, now)
  {
  }

  lemma UpdateIsCompleted(canon: Email -> Option<Email>, t: Tables, c: Claim, draftId: string, next: NextApproval, now: Time)
    ensures var x := CompleteUpdate(canon, t, c, draftId, next, now);
            && (x.Committed? <==> MayUpdate(canon, t, c, draftId, next, now))
            && (x.Committed? ==>
                  var p, root := t.proposals[c.action], t.proposals[c.action].supersedes.value.root;
                  var d := t.drafts[root];
                  && VersionRows(t, x.tables, c, root, d.version + 1, p.supersedes, canon(p.parameters).value, next)
                  && x.tables.drafts == t.drafts[root := Draft(
                       d.provider, Send(root, d.version + 1), d.version + 1, p.hash, DraftStatus.Ready)])
  {
    UpdateCommits(canon, t, c, draftId, next, now);
  }

  /** A send or delete is completed if and only if its executor still holds it and the draft it is about, the one that
      carries the send proposal or the superseded one, has the id in Gmail that the call was made with. */
  predicate MayFinish(t: Tables, c: Claim, draftId: string, root: string) {
    && Held(t, c) && c.action in t.proposals
    && (if c.capability == Capability.SendDraft then DraftOf(t, c.action, root)
        else t.proposals[c.action].supersedes.Some? && DraftOf(t, t.proposals[c.action].supersedes.value, root))
    && t.drafts[root].provider.draftId == draftId
  }

  lemma ManagedIsCompleted(t: Tables, c: Claim, draftId: string, finished: DraftStatus)
    ensures var x := CompleteManaged(t, c, draftId, finished);
            && (x.Committed? <==> exists root :: MayFinish(t, c, draftId, root))
            && (x.Committed? ==> forall root :: MayFinish(t, c, draftId, root) ==>
                  x.tables == t.(
                    actions := t.actions[c.action := t.actions[c.action].(status := ActionStatus.Succeeded, claim := None, lease := None)],
                    results := t.results[c.action := ActionStatus.Succeeded],
                    proposals := t.proposals[c.action := t.proposals[c.action].(status := ProposalStatus.Completed)],
                    drafts := t.drafts[root := t.drafts[root].(status := finished)]))
  {
    if CompleteManaged(t, c, draftId, finished).Committed? {
      var p := t.proposals[c.action];
      assert MayFinish(t, c, draftId, if c.capability.SendDraft? then c.action.root else p.supersedes.value.root);
    }
  }

  // ----- Cards and notices ----------------------------------------------------------------------------

  /** The notice is being sent under exactly this claim. */
  predicate HeldNotice(t: Tables, c: NoticeClaim) {
    && c.notice in t.notices && t.notices[c.notice].status == NoticeStatus.Sending && t.notices[c.notice].claim == Some(c.id)
  }

  /** A card is prepared if and only if its worker still holds the notice, the approval is pending, in time and
      unchanged, the proposal waits for it and still is a canonical email, and the token is new. */
  ghost predicate MayShow(canon: Email -> Option<Email>, t: Tables, c: NoticeClaim, token: nat, now: Time) {
    var id := c.notice;
    && HeldNotice(t, c) && id in t.approvals && id in t.proposals
    && t.approvals[id].status == ApprovalStatus.Pending && now < t.approvals[id].expiresAt && Unchanged(t, id)
    && t.proposals[id].status == ProposalStatus.WaitingApproval && canon(t.proposals[id].parameters).Some?
    && forall i :: i in t.approvals ==> t.approvals[i].token != token
  }

  /** Then it shows that email in full, and the approval answers to its token alone. */
  ghost predicate CardAnswered(canon: Email -> Option<Email>, t: Tables, c: NoticeClaim, token: nat, now: Time, x: Tx<Card>) {
    && (x.Committed? <==> MayShow(canon, t, c, token, now))
    && (x.Committed? ==>
          var a := t.approvals[c.notice];
          && CardShows(x.value, canon(t.proposals[c.notice].parameters).value, a.expiresAt)
          && x.tables == t.(approvals := t.approvals[c.notice := a.(token := token)]))
  }

  lemma CardIsAnswered(canon: Email -> Option<Email>, t: Tables, c: NoticeClaim, token: nat, now: Time)
    ensures CardAnswered(canon, t, c, token, now, PrepareApprovalCard(canon, t, c, token, now))
  {
  }

  /** What a user can tell two cards apart by: equal cards mean equal emails, up to what Gmail owns of the thread. */
  lemma EqualCardsShowOneEmail(n: AddressNormalizer, card: Card, a: Email, b: Email, expiresAt: Time, until: Time)
    requires Canonical(n, a) && Canonical(n, b) && CardShows(card, a, expiresAt) && CardShows(card, b, until)
    ensures expiresAt == until && b == a.(threadId := b.threadId, inReplyTo := b.inReplyTo, references := b.references)
    ensures SameThread(a, b) ==> a == b
  {
  }

  /** A notice is due if it waits, if it failed for now and its time has come or none was set, or if the lease on it
      is over. */
  predicate DueNotice(n: Notice, now: Time) {
    || n.status == NoticeStatus.Pending
    || (n.status == NoticeStatus.RetryableFailure && (n.nextRetry == None || n.nextRetry.value <= now))
    || (n.status == NoticeStatus.Sending && n.lease.Some? && n.lease.value <= now)
  }

  lemma NoticesAreClaimed(t: Tables, id: ProposalId, now: Time, leaseSeconds: int, claimId: nat)
    ensures var (t', claim) := ClaimNotice(t, id, now, leaseSeconds, claimId);
            && (claim.Some? <==> id in t.notices && DueNotice(t.notices[id], now))
            && (claim.None? ==> t' == t)
            && (claim.Some? ==>
                  var attempts := t.notices[id].attempts + 1;
                  && claim.value == NoticeClaim(id, claimId, attempts)
                  && t' == t.(notices := t.notices[id :=
                       Notice(NoticeStatus.Sending, Some(claimId), Some(now + leaseSeconds), attempts, None)]))
  {
  }

  /** Only the holder winds a notice up; an operator puts back exactly what failed. */
  lemma NoticesAreWoundUp(t: Tables, c: NoticeClaim, retryable: bool, maxAttempts: nat, nextRetry: Option<Time>, id: ProposalId)
    ensures var x := MarkNoticeSent(t, c);
            if !HeldNotice(t, c) then x == RolledBack(ConflictError)
            else x == Committed(t.(notices := t.notices[c.notice :=
                   Notice(NoticeStatus.Sent, None, None, t.notices[c.notice].attempts, None)]), ())
    ensures var x := FailNotice(t, c, retryable, maxAttempts, nextRetry);
            if !HeldNotice(t, c) then x == RolledBack(ConflictError)
            else if retryable && c.attempts < maxAttempts then
              x == Committed(t.(notices := t.notices[c.notice :=
                   Notice(NoticeStatus.RetryableFailure, None, None, t.notices[c.notice].attempts, nextRetry)]), ())
            else
              x == Committed(t.(notices := t.notices[c.notice :=
                   Notice(NoticeStatus.PermanentFailure, None, None, t.notices[c.notice].attempts, None)]), ())
    ensures var x := RetryNotice(t, id);
            && (x.Committed? <==> id in t.notices && t.notices[id].status in {NoticeStatus.RetryableFailure, NoticeStatus.PermanentFailure})
            && (x.Committed? ==>
                  x.tables == t.(notices := t.notices[id := t.notices[id].(status := NoticeStatus.Pending, nextRetry := None)]))
  {
  }
}
