/** `ActionRepository` itself: transactions that write one row after another, and undo them all when one
    cannot go through. Each method is proved to do exactly what its function in `ActionTransitions` says, and to
    answer as `ActionAnswers` describes. */
module ActionRepository {
  import opened Wrappers
  import opened CanonicalEmail
  import opened ActionTables
  import opened ActionTransitions
  import opened ActionInvariant
  import opened ActionDecisionSteps
  import opened ActionAnswers

  /** The transaction committed what `tx` says, or left no trace of itself. */
  predicate Answers<T(==)>(before: Tables, after: Tables, r: Result<T, Error>, tx: Tx<T>) {
    match tx
    case Committed(t, v) => after == t && r == Success(v)
    case RolledBack(e) => after == before && r == Failure(e)
  }

  /** What a caller learns who records the end of the action it holds. */
  function Ending(t: Tables, c: Claim): Result<(), Error> {
    if Current(t, c) && c.action in t.results then Failure(IntegrityError) else Success(())
  }

  lemma UnavailableIsFailed(t: Tables, c: Claim, connector: string, readAccessPreserved: bool)
    ensures var t1 := ActionTransitions.FailValidation(t, c);
            && t1.connectors == t.connectors
            && MarkUnavailable(t, c, connector, readAccessPreserved) ==
                 if Current(t, c) && Ending(t, c).Success? && connector in t.connectors && !readAccessPreserved
                 then t1.(connectors := t.connectors[connector :=
                        t.connectors[connector].(status := ConnectorStatus.ReauthorizationRequired)])
                 else t1
  {
  }

  class ActionRepository {
    const canon: Email -> Option<Email>

    var proposals: map<ProposalId, Proposal>
    var approvals: map<ProposalId, Approval>
    var actions: map<ProposalId, Action>
    var results: map<ProposalId, ActionStatus>
    var drafts: map<string, Draft>
    var sessions: map<ProposalId, Session>
    var notices: map<ProposalId, Notice>
    var connectors: map<string, Connector>

    function Snapshot(): Tables
      reads this
    {
      Tables(proposals, approvals, actions, results, drafts, sessions, notices, connectors)
    }

    /** The unique indexes the lookups rely on. */
    ghost predicate Valid()
      reads this
    {
      UniqueTokens(Snapshot()) && OneActiveSession(Snapshot())
    }

    constructor (canon: Email -> Option<Email>)
      ensures this.canon == canon && Valid()
      ensures Snapshot() == Tables(map[], map[], map[], map[], map[], map[], map[], map[])
    {
      this.canon := canon;
      proposals, approvals, actions, results := map[], map[], map[], map[];
      drafts, sessions, notices, connectors := map[], map[], map[], map[];
    }

    method Rollback(t: Tables)
      modifies this
      ensures Snapshot() == t
    {
      proposals, approvals, actions, results := t.proposals, t.approvals, t.actions, t.results;
      drafts, sessions, notices, connectors := t.drafts, t.sessions, t.notices, t.connectors;
    }

    // ----- Row writes ---------------------------------------------------------------------------------

    method SetProposal(id: ProposalId, s: ProposalStatus)
      modifies this`proposals
      ensures Snapshot() == SetProposalStatus(old(Snapshot()), id, s)
    {
      if id in proposals {
        proposals := proposals[id := proposals[id].(status := s)];
      }
    }

    method SetDraft(root: Option<string>, s: DraftStatus)
      modifies this`drafts
      ensures Snapshot() == SetDraftStatus(old(Snapshot()), root, s)
    {
      if root.Some? && root.value in drafts {
        drafts := drafts[root.value := drafts[root.value].(status := s)];
      }
    }

    /** Insert an action for a stored proposal; the primary key refuses a second one. */
    method Queue(id: ProposalId) returns (ok: bool)
      modifies this`actions
      ensures ok == QueueAction(old(Snapshot()), id).Some?
      ensures Snapshot() == if ok then QueueAction(old(Snapshot()), id).value else old(Snapshot())
    {
      ok := id !in actions && id in proposals;
      if ok {
        actions := actions[id := NewAction(proposals[id].capability)];
      }
    }

    method SettleApproval(id: ProposalId, a: ApprovalStatus, p: ProposalStatus)
      requires id in approvals
      modifies this`approvals, this`proposals
      ensures Snapshot() == Decide(old(Snapshot()), id, a, p)
    {
      approvals := approvals[id := approvals[id].(status := a)];
      SetProposal(id, p);
    }

    /** An action's row, its proposal and its one result. A second result violates the primary key, which
        undoes the rest. */
    method End(id: ProposalId, status: ActionStatus, proposal: ProposalStatus) returns (ok: bool)
      requires id in actions
      modifies this
      ensures ok == (id !in old(results))
      ensures Snapshot() == Close(old(Snapshot()), id, status, proposal)
    {
      var before := Snapshot();
      actions := actions[id := actions[id].(status := status, claim := None, lease := None)];
      SetProposal(id, proposal);
      ok := id !in results;
      if ok {
        results := results[id := status];
      } else {
        Rollback(before);
      }
    }

    // ----- Intake, claims and failures ----------------------------------------------------------------

    method CreateAllowedAction(p: NewProposal) returns (r: Result<ProposalId, Error>)
      requires Valid()
      modifies this
      ensures Valid()
      ensures Answers(old(Snapshot()), Snapshot(), r, ActionTransitions.CreateAllowedAction(old(Snapshot()), p))
      ensures IntakeAnswered(old(Snapshot()), p, AsTx(r, Snapshot()))
    {
      IntakeIsAnswered(Snapshot(), p);
      var id := Create(p.root);
      if !p.decision.Allow? || p.capability.SendDraft? {
        return Failure(ValidationError);
      }
      if id in proposals {
        return if id in actions then Success(id) else Failure(ConflictError);
      }
      if p.connector !in connectors {
        return Failure(ScopeError);
      }
      var before := Snapshot();
      proposals := proposals[id := Proposal(p.capability, p.supersedes, p.origin, p.message, Sha256(p.message), p.decision,
                                            ProposalStatus.Queued, 1, p.connector, p.situation, p.expiresAt)];
      var ok := Queue(id);
      if !ok {
        Rollback(before);
        return Failure(ScopeError);
      }
      r := Success(id);
    }

    method ClaimAction(id: ProposalId, now: Time, leaseSeconds: int, claimId: nat) returns (r: Result<ClaimResult, Error>)
      requires Valid()
      modifies this
      ensures Valid()
      ensures var (t, answer) := ActionTransitions.ClaimAction(old(Snapshot()), id, now, leaseSeconds, claimId);
              && Snapshot() == t
              && r == if answer.OutcomeUnknown? && id in old(results) then Failure(IntegrityError) else Success(answer)
    {
      if id !in actions || Terminal(actions[id].status) {
        return Success(NothingToDo);
      }
      var row := actions[id];
      if row.status.Running? {
        if row.lease.Some? && row.lease.value > now {
          return Success(Busy);
        }
        if row.started.Some? {
          var ended := EndWithoutSuccess(id, ActionStatus.Unknown, DraftStatus.Unknown);
          return if ended.Success? then Success(OutcomeUnknown) else Failure(IntegrityError);
        }
      }
      actions := actions[id := row.(status := ActionStatus.Running, claim := Some(claimId),
                                    lease := Some(now + leaseSeconds), attempts := row.attempts + 1)];
      r := Success(Claimed(Claim(id, claimId, row.capability)));
    }

    /** The compare-and-set at the boundary: true for the one caller whose update found the mark unset. */
    method MarkProviderCallStarted(c: Claim, now: Time) returns (marked: bool)
      requires Valid()
      modifies this`actions
      ensures Valid()
      ensures (Snapshot(), marked) == MarkStarted(old(Snapshot()), c, now)
    {
      marked := Current(Snapshot(), c) && actions[c.action].started.None?;
      if marked {
        actions := actions[c.action := actions[c.action].(started := Some(now))];
      }
    }

    method ReleasePreProviderFailure(c: Claim)
      requires Valid()
      modifies this`actions
      ensures Valid()
      ensures Snapshot() == ReleaseBeforeProvider(old(Snapshot()), c)
    {
      if Current(Snapshot(), c) && actions[c.action].started.None? {
        actions := actions[c.action := actions[c.action].(status := ActionStatus.Queued, claim := None, lease := None)];
      }
    }

    /** The action, its result, its proposal and its draft, or none of them if there was a result. */
    method EndWithoutSuccess(id: ProposalId, status: ActionStatus, draft: DraftStatus) returns (r: Result<(), Error>)
      requires Valid() && id in actions
      modifies this
      ensures Valid()
      ensures r == if id in old(results) then Failure(IntegrityError) else Success(())
      ensures Snapshot() == CloseFailed(old(Snapshot()), id, status, draft)
    {
      var stored := id in proposals;
      var root := if stored then ManagedFor(Snapshot(), id, proposals[id].capability, proposals[id].supersedes) else None;
      var ended := End(id, status, ProposalStatus.Failed);
      if !ended {
        return Failure(IntegrityError);
      }
      if stored {
        SetDraft(root, draft);
      }
      r := Success(());
    }

    method FailValidation(c: Claim) returns (r: Result<(), Error>)
      requires Valid()
      modifies this
      ensures Valid()
      ensures r == Ending(old(Snapshot()), c) && Snapshot() == ActionTransitions.FailValidation(old(Snapshot()), c)
    {
      r := Success(());
      if Current(Snapshot(), c) {
        r := EndWithoutSuccess(c.action, ActionStatus.Failed, DraftStatus.Ready);
      }
    }

    method MarkExecutionUnknown(c: Claim) returns (r: Result<(), Error>)
      requires Valid()
      modifies this
      ensures Valid()
      ensures r == Ending(old(Snapshot()), c) && Snapshot() == MarkUnknown(old(Snapshot()), c)
    {
      r := Success(());
      if Current(Snapshot(), c) {
        r := EndWithoutSuccess(c.action, ActionStatus.Unknown, DraftStatus.Unknown);
      }
    }

    method MarkExecutionUnavailable(c: Claim, connectorId: string, readAccessPreserved: bool) returns (r: Result<(), Error>)
      requires Valid()
      modifies this
      ensures Valid()
      ensures r == Ending(old(Snapshot()), c) && Snapshot() == MarkUnavailable(old(Snapshot()), c, connectorId, readAccessPreserved)
    {
      var held := Current(Snapshot(), c);
      UnavailableIsFailed(Snapshot(), c, connectorId, readAccessPreserved);
      r := FailValidation(c);
      if held && r.Success? && connectorId in connectors && !readAccessPreserved {
        connectors := connectors[connectorId := connectors[connectorId].(status := ConnectorStatus.ReauthorizationRequired)];
      }
    }

    // ----- Completions ----------------------------------------------------------------------------------

    /** The next send proposal, its approval and its notice; false when a unique index refuses one. */
    method AddVersion(id: ProposalId, p: Proposal, next: NextApproval) returns (ok: bool)
      requires Valid()
      modifies this`proposals, this`approvals, this`notices
      ensures Valid()
      ensures ok == AddSendVersion(old(Snapshot()), id, p, next).Some?
      ensures Snapshot() == if ok then AddSendVersion(old(Snapshot()), id, p, next).value else old(Snapshot())
      ensures ok ==> !TokenUsed(old(Snapshot()), next.token)
    {
      if id in proposals || id in approvals {
        return false;
      }
      if other :| other in approvals && approvals[other].token == next.token {
        assert TokenUsed(Snapshot(), next.token);
        return false;
      }
      proposals := proposals[id := p];
      approvals := approvals[id := Approval(p.hash, next.principal, ApprovalStatus.Pending, next.token, next.expiresAt)];
      if id !in notices {
        notices := notices[id := NEW_NOTICE];
      }
      ok := true;
    }

    /** End the action and add the version its success makes, or leave everything as it was. */
    method EndAndAddVersion(id: ProposalId, send: ProposalId, p: Proposal, next: NextApproval) returns (ok: bool)
      requires Valid() && id in actions && id !in results
      modifies this
      ensures Valid()
      ensures var t1 := Close(old(Snapshot()), id, ActionStatus.Succeeded, ProposalStatus.Completed);
              && ok == AddSendVersion(t1, send, p, next).Some?
              && Snapshot() == if ok then AddSendVersion(t1, send, p, next).value else old(Snapshot())
    {
      var before := Snapshot();
      var ended := End(id, ActionStatus.Succeeded, ProposalStatus.Completed);
      ok := AddVersion(send, p, next);
      if !ok {
        Rollback(before);
      }
    }

    method CompleteCreateDraft(c: Claim, draftId: string, next: NextApproval, now: Time) returns (r: Result<(), Error>)
      requires Valid()
      modifies this
      ensures Valid()
      ensures Answers(old(Snapshot()), Snapshot(), r, CompleteCreate(canon, old(Snapshot()), c, draftId, next, now))
    {
      if !Current(Snapshot(), c) || c.action !in proposals {
        return Failure(ConflictError);
      }
      var p := proposals[c.action];
      if !actions[c.action].capability.CreateDraft? {
        return Failure(ValidationError);
      }
      var message := canon(p.parameters);
      if message.None? {
        return Failure(RecordError);
      }
      var before := Snapshot();
      var root := c.action.root;
      var provider := ProviderDraft(p.connector, draftId);
      if c.action in results || root in drafts || ProviderDraftUsed(before, provider) || next.expiresAt <= now {
        return Failure(IntegrityError);
      }
      var send := Send(root, 1);
      var ok := EndAndAddVersion(c.action, send, SendProposal(p, None, 1, message.value, next.expiresAt), next);
      if !ok {
        return Failure(IntegrityError);
      }
      drafts := drafts[root := Draft(provider, send, 1, p.hash, DraftStatus.Ready)];
      r := Success(());
      assert CompleteCreate(canon, before, c, draftId, next, now) == Committed(Snapshot(), ());
    }

    method CompleteUpdateDraft(c: Claim, draftId: string, next: NextApproval, now: Time) returns (r: Result<(), Error>)
      requires Valid()
      modifies this
      ensures Valid()
      ensures Answers(old(Snapshot()), Snapshot(), r, CompleteUpdate(canon, old(Snapshot()), c, draftId, next, now))
    {
      if !Current(Snapshot(), c) || c.action !in proposals {
        return Failure(ConflictError);
      }
      var p := proposals[c.action];
      if !actions[c.action].capability.UpdateDraft? || p.supersedes.None? {
        return Failure(ValidationError);
      }
      var found := FindDraft(Snapshot(), p.supersedes.value);
      if found.None? || drafts[found.value].provider.draftId != draftId {
        return Failure(ValidationError);
      }
      var message := canon(p.parameters);
      if message.None? {
        return Failure(RecordError);
      }
      var before := Snapshot();
      if c.action in results || next.expiresAt <= now {
        return Failure(IntegrityError);
      }
      var d := drafts[found.value];
      var send := Send(found.value, d.version + 1);
      var ok := EndAndAddVersion(c.action, send, SendProposal(p, p.supersedes, d.version + 1, message.value, next.expiresAt), next);
      if !ok {
        return Failure(IntegrityError);
      }
      drafts := drafts[found.value := d.(active := send, version := d.version + 1, hash := p.hash, status := DraftStatus.Ready)];
      r := Success(());
      assert CompleteUpdate(canon, before, c, draftId, next, now) == Committed(Snapshot(), ());
    }

    /** `complete_send_draft` with `Sent`, `complete_delete_draft` with `Deleted`. */
    method CompleteManagedAction(c: Claim, draftId: string, finished: DraftStatus) returns (r: Result<(), Error>)
      requires Valid()
      modifies this
      ensures Valid()
      ensures Answers(old(Snapshot()), Snapshot(), r, CompleteManaged(old(Snapshot()), c, draftId, finished))
    {
      if !Current(Snapshot(), c) || c.action !in proposals {
        return Failure(ConflictError);
      }
      var found := ManagedFor(Snapshot(), c.action, c.capability, proposals[c.action].supersedes);
      if found.None? || drafts[found.value].provider.draftId != draftId {
        return Failure(ValidationError);
      }
      ghost var t := Snapshot();
      var ended := End(c.action, ActionStatus.Succeeded, ProposalStatus.Completed);
      if !ended {
        return Failure(IntegrityError);
      }
      SetDraft(found, finished);
      r := Success(());
      assert CompleteManaged(t, c, draftId, finished) == Committed(Snapshot(), ());
    }

    // ----- The user's decisions ---------------------------------------------------------------------------

    /** The approval a callback token is about, if it came from the bound account and chat. */
    method FindAddressed(token: nat, who: Principal) returns (id: Option<ProposalId>)
      requires Valid()
      ensures id == Addressed(Snapshot(), token, who)
      ensures id.Some? ==> id.value in approvals && id.value in proposals
    {
      if x :| x in approvals && approvals[x].token == token {
        AddressedIsUnique(Snapshot(), token, x);
        id := if x in proposals && approvals[x].principal == who then Some(x) else None;
      } else {
        id := None;
      }
    }

    method GrantAndQueueSend(token: nat, who: Principal, now: Time) returns (r: Result<Decision, Error>)
      requires Valid()
      modifies this
      ensures Valid()
      ensures Answers(old(Snapshot()), Snapshot(), r, ActionTransitions.GrantAndQueueSend(old(Snapshot()), token, who, now))
      ensures SendPressed(old(Snapshot()), token, who, now, AsTx(r, Snapshot()))
    {
      SendsArePressed(Snapshot(), token, who, now);
      r := Grant(token, who, now);
    }

    /** The transaction of a Send press. */
    method Grant(token: nat, who: Principal, now: Time) returns (r: Result<Decision, Error>)
      requires Valid()
      modifies this
      ensures Valid()
      ensures Answers(old(Snapshot()), Snapshot(), r, ActionTransitions.GrantAndQueueSend(old(Snapshot()), token, who, now))
    {
      var found := FindAddressed(token, who);
      if found.None? {
        return Failure(ScopeError);
      }
      var id := found.value;
      if !approvals[id].status.Pending? {
        return Success(NotWaiting(if id in actions then Some(id) else None));
      }
      if now >= approvals[id].expiresAt {
        SettleApproval(id, ApprovalStatus.Expired, ProposalStatus.Expired);
        return Success(TooLate);
      }
      if !Fresh(Snapshot(), id) {
        SettleApproval(id, ApprovalStatus.Superseded, ProposalStatus.Superseded);
        return Success(Stale);
      }
      var before := Snapshot();
      SettleApproval(id, ApprovalStatus.Granted, ProposalStatus.Approved);
      var ok := Queue(id);
      if !ok {
        Rollback(before);
        return Failure(IntegrityError);
      }
      SetDraft(Some(id.root), DraftStatus.Sending);
      r := Success(Decision.Accepted);
    }

    method SupersedeSendApproval(token: nat, who: Principal) returns (r: Result<(), Error>)
      requires Valid()
      modifies this
      ensures Valid()
      ensures Answers(old(Snapshot()), Snapshot(), r, ActionTransitions.SupersedeSendApproval(old(Snapshot()), token, who))
      ensures SupersedeCalled(old(Snapshot()), token, who, AsTx(r, Snapshot()))
    {
      SupersedesAreCalled(Snapshot(), token, who);
      var found := FindAddressed(token, who);
      if found.None? {
        return Failure(ScopeError);
      }
      if approvals[found.value].status.Pending? {
        SettleApproval(found.value, ApprovalStatus.Superseded, ProposalStatus.Superseded);
      }
      r := Success(());
    }

    method OpenRevision(token: nat, who: Principal, ttl: int, now: Time) returns (r: Result<Decision, Error>)
      requires Valid()
      modifies this
      ensures Valid()
      ensures Answers(old(Snapshot()), Snapshot(), r, ActionTransitions.OpenRevision(old(Snapshot()), token, who, ttl, now))
      ensures ChangePressed(old(Snapshot()), token, who, ttl, now, AsTx(r, Snapshot()))
    {
      ChangesArePressed(Snapshot(), token, who, ttl, now);
      r := Open(token, who, ttl, now);
    }

    /** The transaction of a Change press. */
    method Open(token: nat, who: Principal, ttl: int, now: Time) returns (r: Result<Decision, Error>)
      requires Valid()
      modifies this
      ensures Valid()
      ensures Answers(old(Snapshot()), Snapshot(), r, ActionTransitions.OpenRevision(old(Snapshot()), token, who, ttl, now))
    {
      if ttl <= 0 {
        return Failure(ValidationError);
      }
      var found := FindAddressed(token, who);
      if found.None? {
        return Failure(ScopeError);
      }
      var id := found.value;
      if !approvals[id].status.Pending? {
        return Success(NotWaiting(None));
      }
      if now >= approvals[id].expiresAt {
        SettleApproval(id, ApprovalStatus.Expired, ProposalStatus.Expired);
        return Success(TooLate);
      }
      if proposals[id].situation.None? {
        return Failure(ValidationError);
      }
      if !Fresh(Snapshot(), id) {
        SettleApproval(id, ApprovalStatus.Superseded, ProposalStatus.Superseded);
        return Success(Stale);
      }
      var before := Snapshot();
      sessions := CancelSessions(sessions, who.account);
      SettleApproval(id, ApprovalStatus.Superseded, ProposalStatus.Superseded);
      if id in sessions {
        Rollback(before);
        return Failure(IntegrityError);
      }
      sessions := sessions[id := Session(who.account, SessionStatus.Active, now + ttl)];
      r := Success(Decision.Accepted);
    }

    method LoadRevision(account: string, now: Time) returns (r: Result<Lookup, Error>)
      requires Valid()
      modifies this`sessions
      ensures Valid()
      ensures Answers(old(Snapshot()), Snapshot(), r, ActionTransitions.LoadRevision(canon, old(Snapshot()), account, now))
      ensures LoadCalled(canon, old(Snapshot()), account, now, AsTx(r, Snapshot()))
    {
      LoadsAreCalled(canon, Snapshot(), account, now);
      r := Load(account, now);
    }

    /** The transaction that looks a session up. */
    method Load(account: string, now: Time) returns (r: Result<Lookup, Error>)
      requires Valid()
      modifies this`sessions
      ensures Valid()
      ensures Answers(old(Snapshot()), Snapshot(), r, ActionTransitions.LoadRevision(canon, old(Snapshot()), account, now))
    {
      if id :| id in sessions && sessions[id].account == account && sessions[id].status.Active? {
        assert FindSession(Snapshot(), account) == Some(id);
        if now >= sessions[id].expiresAt {
          sessions := sessions[id := sessions[id].(status := SessionStatus.Expired)];
          return Success(RevisionExpired);
        }
        if !RevisionAvailable(Snapshot(), id) {
          return Failure(ScopeError);
        }
        var message := canon(proposals[id].parameters);
        r := if message.None? then Failure(RecordError) else Success(RevisionActive(id, message.value));
      } else {
        r := Success(NoRevision);
      }
    }

    /** An expired session is marked so and then the exception undoes the mark. */
    method CompleteRevision(id: ProposalId, replacement: Email, now: Time) returns (r: Result<ProposalId, Error>)
      requires Valid()
      modifies this
      ensures Valid()
      ensures Answers(old(Snapshot()), Snapshot(), r, ActionTransitions.CompleteRevision(old(Snapshot()), id, replacement, now))
      ensures RevisionAnswered(old(Snapshot()), id, replacement, now, AsTx(r, Snapshot()))
    {
      RevisionIsAnswered(Snapshot(), id, replacement, now);
      if id !in sessions || !sessions[id].status.Active? {
        return Failure(ScopeError);
      }
      var before := Snapshot();
      if now >= sessions[id].expiresAt {
        sessions := sessions[id := sessions[id].(status := SessionStatus.Expired)];
        Rollback(before);
        return Failure(ValidationError);
      }
      if !RevisionAvailable(before, id) || !id.Send? {
        return Failure(ScopeError);
      }
      var send := proposals[id];
      var update := Update(id.root, id.version);
      if update in proposals {
        return Failure(IntegrityError);
      }
      proposals := proposals[update := Proposal(Capability.UpdateDraft, Some(id), Origin.TelegramUser, replacement,
                                                Sha256(replacement), PolicyDecision.Allow, ProposalStatus.Queued,
                                                drafts[id.root].version + 1, send.connector, send.situation, None)];
      var ok := Queue(update);
      if !ok {
        Rollback(before);
        return Failure(IntegrityError);
      }
      SetDraft(Some(id.root), DraftStatus.Updating);
      sessions := sessions[id := sessions[id].(status := SessionStatus.Completed)];
      r := Success(update);
    }

    method DiscardAndQueueDelete(token: nat, who: Principal, now: Time) returns (r: Result<Decision, Error>)
      requires Valid()
      modifies this
      ensures Valid()
      ensures Answers(old(Snapshot()), Snapshot(), r, ActionTransitions.DiscardAndQueueDelete(old(Snapshot()), token, who, now))
      ensures DiscardPressed(old(Snapshot()), token, who, now, AsTx(r, Snapshot()))
    {
      DiscardsArePressed(Snapshot(), token, who, now);
      r := Discard(token, who, now);
    }

    /** The transaction of a Discard press. */
    method Discard(token: nat, who: Principal, now: Time) returns (r: Result<Decision, Error>)
      requires Valid()
      modifies this
      ensures Valid()
      ensures Answers(old(Snapshot()), Snapshot(), r, ActionTransitions.DiscardAndQueueDelete(old(Snapshot()), token, who, now))
    {
      var found := FindAddressed(token, who);
      if found.None? {
        return Failure(ScopeError);
      }
      var id := found.value;
      if !approvals[id].status.Pending? {
        return Success(NotWaiting(ExistingDelete(Snapshot(), id)));
      }
      if now >= approvals[id].expiresAt {
        SettleApproval(id, ApprovalStatus.Expired, ProposalStatus.Expired);
        return Success(TooLate);
      }
      if !Fresh(Snapshot(), id) {
        SettleApproval(id, ApprovalStatus.Superseded, ProposalStatus.Superseded);
        return Success(Stale);
      }
      var before := Snapshot();
      var send := proposals[id];
      var delete := Delete(id.root);
      SettleApproval(id, ApprovalStatus.Rejected, ProposalStatus.Cancelled);
      if delete in proposals {
        Rollback(before);
        return Failure(IntegrityError);
      }
      proposals := proposals[delete := Proposal(Capability.DeleteDraft, Some(id), Origin.TelegramUser, send.parameters, send.hash,
                                                PolicyDecision.Allow, ProposalStatus.Queued, 1, send.connector, send.situation, None)];
      var ok := Queue(delete);
      if !ok {
        Rollback(before);
        return Failure(IntegrityError);
      }
      SetDraft(Some(id.root), DraftStatus.Deleting);
      r := Success(Decision.Accepted);
    }

    // ----- Approval cards -----------------------------------------------------------------------------------

    /** `NotificationRepository.prepare_approval_card` */
    method PrepareApprovalCard(c: NoticeClaim, token: nat, now: Time) returns (r: Result<Card, Error>)
      requires Valid()
      modifies this`approvals
      ensures Valid()
      ensures Answers(old(Snapshot()), Snapshot(), r, ActionTransitions.PrepareApprovalCard(canon, old(Snapshot()), c, token, now))
      ensures CardAnswered(canon, old(Snapshot()), c, token, now, AsTx(r, Snapshot()))
    {
      CardIsAnswered(canon, Snapshot(), c, token, now);
      var id, t := c.notice, Snapshot();
      if !NoticeCurrent(t, c) || id !in approvals || id !in proposals || FindDraft(t, id).None? {
        return Failure(ScopeError);
      }
      var approval, proposal := approvals[id], proposals[id];
      if || !approval.status.Pending? || !proposal.status.WaitingApproval? || approval.hash != proposal.hash
         || drafts[id.root].hash != proposal.hash || now >= approval.expiresAt {
        return Failure(ScopeError);
      }
      var message := canon(proposal.parameters);
      if message.None? {
        return Failure(RecordError);
      }
      if other :| other in approvals && approvals[other].token == token {
        assert TokenUsed(t, token);
        return Failure(IntegrityError);
      }
      assert !TokenUsed(t, token);
      approvals := approvals[id := approval.(token := token)];
      r := Success(CardOf(message.value, approval.expiresAt));
    }

    // ----- Delivery of the notices --------------------------------------------------------------------------

    method ClaimNotice(id: ProposalId, now: Time, leaseSeconds: int, claimId: nat) returns (claim: Option<NoticeClaim>)
      requires Valid()
      modifies this`notices
      ensures Valid()
      ensures (Snapshot(), claim) == ActionTransitions.ClaimNotice(old(Snapshot()), id, now, leaseSeconds, claimId)
    {
      if id !in notices || !NoticeEligible(notices[id], now) {
        return None;
      }
      var attempts := notices[id].attempts + 1;
      notices := notices[id := Notice(NoticeStatus.Sending, Some(claimId), Some(now + leaseSeconds), attempts, None)];
      claim := Some(NoticeClaim(id, claimId, attempts));
    }

    method MarkNoticeSent(c: NoticeClaim) returns (r: Result<(), Error>)
      requires Valid()
      modifies this`notices
      ensures Valid()
      ensures Answers(old(Snapshot()), Snapshot(), r, ActionTransitions.MarkNoticeSent(old(Snapshot()), c))
    {
      if !NoticeCurrent(Snapshot(), c) {
        return Failure(ConflictError);
      }
      notices := notices[c.notice := notices[c.notice].(status := NoticeStatus.Sent, claim := None, lease := None, nextRetry := None)];
      r := Success(());
    }

    method FailNotice(c: NoticeClaim, retryable: bool, maxAttempts: nat, nextRetry: Option<Time>) returns (r: Result<(), Error>)
      requires Valid()
      modifies this`notices
      ensures Valid()
      ensures Answers(old(Snapshot()), Snapshot(), r, ActionTransitions.FailNotice(old(Snapshot()), c, retryable, maxAttempts, nextRetry))
    {
      if !NoticeCurrent(Snapshot(), c) {
        return Failure(ConflictError);
      }
      var row := notices[c.notice].(claim := None, lease := None);
      if retryable && c.attempts < maxAttempts {
        row := row.(status := NoticeStatus.RetryableFailure, nextRetry := nextRetry);
      } else {
        row := row.(status := NoticeStatus.PermanentFailure, nextRetry := None);
      }
      notices := notices[c.notice := row];
      r := Success(());
    }

    method RetryNotice(id: ProposalId) returns (r: Result<(), Error>)
      requires Valid()
      modifies this`notices
      ensures Valid()
      ensures Answers(old(Snapshot()), Snapshot(), r, ActionTransitions.RetryNotice(old(Snapshot()), id))
    {
      if id !in notices {
        return Failure(ScopeError);
      }
      if !notices[id].status.RetryableFailure? && !notices[id].status.PermanentFailure? {
        return Failure(ConflictError);
      }
      notices := notices[id := notices[id].(status := NoticeStatus.Pending, nextRetry := None)];
      r := Success(());
    }
  }
}
