/** `Keeps`, for the user's decisions and revisions. */
module ActionDecisionSteps {
  import opened Wrappers
  import opened CanonicalEmail
  import opened ActionTables
  import opened ActionTransitions
  import opened ActionInvariant
  import opened ActionPreservation
  import opened ActionSteps

  // ----- Idle roots ---------------------------------------------------------------------------------

  lemma IdleEvolves(t: Tables, t': Tables, r: string, minted: nat)
    requires SteadyRoot(t, t', r) && Idle(t, r)
    requires forall id :: id in t.actions && id.root == r ==> id in t'.actions && t'.actions[id] == t.actions[id]
    requires forall id :: id in t'.actions && id.root == r && id !in t.actions ==> t'.actions[id] == NewAction(t'.actions[id].capability)
    ensures RootEvolves(t, t', r, None, minted)
  {
  }

  lemma NewActionEvolves(t: Tables, t': Tables, r: string, id: ProposalId, c: Capability, minted: nat)
    requires SteadyRoot(t, t', r) && Idle(t, r)
    requires id !in t.actions && t'.actions == t.actions[id := NewAction(c)]
    ensures RootEvolves(t, t', r, None, minted)
  {
    IdleEvolves(t, t', r, minted);
  }

  lemma AddressedIsUnique(t: Tables, token: nat, id: ProposalId)
    requires UniqueTokens(t) && id in t.approvals && t.approvals[id].token == token
    ensures FindApproval(t, token) == Some(id)
  {
  }

  // ----- An approval lapses -------------------------------------------------------------------------

  /** `Decide`, table by table. */
  predicate Decides(t: Tables, t': Tables, id: ProposalId, a: ApprovalStatus, p: ProposalStatus)
    requires id in t.approvals && id in t.proposals
  {
    && t'.approvals == t.approvals[id := t.approvals[id].(status := a)]
    && t'.proposals == t.proposals[id := t.proposals[id].(status := p)]
    && t'.actions == t.actions && t'.drafts == t.drafts && t'.sessions == t.sessions && t'.results == t.results
  }

  lemma DecidesElsewhere(t: Tables, t': Tables, id: ProposalId, a: ApprovalStatus, p: ProposalStatus)
    requires id in t.approvals && id in t.proposals && Decides(t, t', id, a, p)
    ensures Elsewhere(t, t', id.root)
  {
  }

  lemma DecidesRoot(t: Tables, t': Tables, id: ProposalId, a: ApprovalStatus, p: ProposalStatus)
    requires id in t.approvals && t.approvals[id].status.Pending? && id in t.proposals
    requires Decides(t, t', id, a, p)
    ensures SteadyRoot(t, t', id.root)
  {
  }

  lemma DecidesRows(t: Tables, t': Tables, id: ProposalId, a: ApprovalStatus, p: ProposalStatus)
    requires id in t.approvals && id in t.proposals && Decides(t, t', id, a, p)
    requires RootRowsOk(t, id.root) && UniqueTokens(t) && UniqueProviderDrafts(t) && OneActiveSession(t)
    ensures RootRowsOk(t', id.root) && UniqueTokens(t') && UniqueProviderDrafts(t') && OneActiveSession(t')
  {
    forall i | i in t'.actions && i.root == id.root
      ensures ActionOk(t', i)
    {
      assert ActionOk(t, i);
    }
  }

  lemma LapseFamily(canon: Email -> Option<Email>, t: Tables, t': Tables, id: ProposalId, a: ApprovalStatus, p: ProposalStatus)
    requires id.Send? && FamilyOk(canon, t, id.root)
    requires id in t.approvals && t.approvals[id].status.Pending? && id in t.proposals
    requires (a.Expired? && p.Expired?) || (a.Superseded? && p.Superseded?)
    requires Decides(t, t', id, a, p)
    ensures FamilyOk(canon, t', id.root)
  {
    var r := id.root;
    PendingIsNewestAndIdle(t, id);
    assert Roster(t', r);
    forall k: nat | 1 <= k < t.drafts[r].version
      ensures PastVersion(t', r, k)
    {
      assert PastVersion(t, r, k);
    }
    DecidesRoot(t, t', id, a, p);
    SteadyTerms(canon, t, t', r);
  }

  lemma LapseKeeps(canon: Email -> Option<Email>, t: Tables, id: ProposalId, a: ApprovalStatus, p: ProposalStatus, minted: nat)
    requires TablesOk(canon, t)
    requires id in t.approvals && t.approvals[id].status.Pending?
    requires (a.Expired? && p.Expired?) || (a.Superseded? && p.Superseded?)
    ensures Keeps(canon, t, Decide(t, id, a, p), None, minted)
  {
    var t', r := Decide(t, id, a, p), id.root;
    assert FamilyOk(canon, t, r);
    PendingIsNewestAndIdle(t, id);
    assert id in t.proposals;
    assert Decides(t, t', id, a, p);
    LapseFamily(canon, t, t', id, a, p);
    DecidesElsewhere(t, t', id, a, p);
    DecidesRoot(t, t', id, a, p);
    RootRowsFromRows(t, r);
    DecidesRows(t, t', id, a, p);
    IdleEvolves(t, t', r, minted);
    OneRoot(canon, t, t', r, None, minted);
  }

  // ----- Send ------------------------------------------------------------------------------------------

  /** An accepted Send press, table by table. */
  predicate Grants(t: Tables, t': Tables, id: ProposalId)
    requires id in t.approvals && id in t.proposals && id.root in t.drafts
  {
    && t'.approvals == t.approvals[id := t.approvals[id].(status := ApprovalStatus.Granted)]
    && t'.proposals == t.proposals[id := t.proposals[id].(status := ProposalStatus.Approved)]
    && t'.actions == t.actions[id := NewAction(t.proposals[id].capability)]
    && t'.drafts == t.drafts[id.root := t.drafts[id.root].(status := DraftStatus.Sending)]
    && t'.sessions == t.sessions && t'.results == t.results
  }

  lemma GrantsElsewhere(t: Tables, t': Tables, id: ProposalId)
    requires id in t.approvals && id in t.proposals && id.root in t.drafts && Grants(t, t', id)
    ensures Elsewhere(t, t', id.root)
  {
    assert t'.proposals == t.proposals[id := t'.proposals[id]][id := t'.proposals[id]];
    TwoRowsElsewhere(t, t', id, id, id, id, t'.proposals[id], t'.proposals[id], t'.actions[id], t'.approvals[id], t'.drafts[id.root]);
  }

  lemma GrantsRoot(t: Tables, t': Tables, id: ProposalId)
    requires id in t.approvals && t.approvals[id].status.Pending? && id in t.proposals && id.root in t.drafts
    requires id !in t.actions && Grants(t, t', id)
    ensures SteadyRoot(t, t', id.root)
  {
  }

  lemma GrantsRows(t: Tables, t': Tables, id: ProposalId)
    requires id in t.approvals && id in t.proposals && id.root in t.drafts
    requires id !in t.actions && id !in t.results && Grants(t, t', id)
    requires RootRowsOk(t, id.root) && UniqueTokens(t) && UniqueProviderDrafts(t) && OneActiveSession(t)
    ensures RootRowsOk(t', id.root) && UniqueTokens(t') && UniqueProviderDrafts(t') && OneActiveSession(t')
  {
    forall i | i in t'.actions && i.root == id.root
      ensures ActionOk(t', i)
    {
      assert i != id ==> ActionOk(t, i);
    }
  }

  lemma GrantsLockstep(t: Tables, t': Tables, id: ProposalId)
    requires id.Send? && Roster(t, id.root) && Lockstep(t, id.root)
    requires id in t.approvals && t.approvals[id].status.Pending? && id in t.proposals && id.root in t.drafts
    requires t.proposals[id].capability.SendDraft?
    requires id !in t.actions && Grants(t, t', id)
    ensures Roster(t', id.root) && Lockstep(t', id.root)
  {
    var r := id.root;
    PendingIsNewestAndIdle(t, id);
    assert Roster(t', r);
    forall k: nat | 1 <= k < t.drafts[r].version
      ensures PastVersion(t', r, k)
    {
      assert PastVersion(t, r, k);
    }
  }

  lemma GrantsFamily(canon: Email -> Option<Email>, t: Tables, t': Tables, id: ProposalId)
    requires id.Send? && FamilyOk(canon, t, id.root)
    requires id in t.approvals && t.approvals[id].status.Pending? && id in t.proposals && id.root in t.drafts
    requires id !in t.actions && Grants(t, t', id)
    ensures FamilyOk(canon, t', id.root)
  {
    assert SendTerms(canon, t, id.root, id.version);
    GrantsLockstep(t, t', id);
    GrantsRoot(t, t', id);
    SteadyTerms(canon, t, t', id.root);
  }

  lemma GrantsKeeps(canon: Email -> Option<Email>, t: Tables, t': Tables, id: ProposalId, minted: nat)
    requires TablesOk(canon, t)
    requires id in t.approvals && t.approvals[id].status.Pending? && id in t.proposals && id.root in t.drafts
    requires id !in t.actions && Grants(t, t', id)
    ensures Keeps(canon, t, t', None, minted)
  {
    assert FamilyOk(canon, t, id.root);
    PendingIsNewestAndIdle(t, id);
    GrantsFamily(canon, t, t', id);
    GrantsElsewhere(t, t', id);
    GrantsRoot(t, t', id);
    RootRowsFromRows(t, id.root);
    GrantsRows(t, t', id);
    NewActionEvolves(t, t', id.root, id, t.proposals[id].capability, minted);
    OneRoot(canon, t, t', id.root, None, minted);
  }

  lemma AcceptedSendGrants(t: Tables, token: nat, who: Principal, now: Time)
    requires GrantAndQueueSend(t, token, who, now).Committed?
    requires GrantAndQueueSend(t, token, who, now).value.Accepted?
    ensures var id := Addressed(t, token, who).value;
            && t.approvals[id].status.Pending? && id !in t.actions && id.root in t.drafts
            && Grants(t, GrantAndQueueSend(t, token, who, now).tables, id)
  {
  }

  lemma GrantKeeps(canon: Email -> Option<Email>, t: Tables, token: nat, who: Principal, now: Time, minted: nat)
    requires TablesOk(canon, t)
    requires GrantAndQueueSend(t, token, who, now).Committed?
    ensures Keeps(canon, t, GrantAndQueueSend(t, token, who, now).tables, None, minted)
  {
    var id := Addressed(t, token, who).value;
    match GrantAndQueueSend(t, token, who, now).value
    case NotWaiting(_) =>
    case TooLate => LapseKeeps(canon, t, id, ApprovalStatus.Expired, ProposalStatus.Expired, minted);
    case Stale => LapseKeeps(canon, t, id, ApprovalStatus.Superseded, ProposalStatus.Superseded, minted);
    case Accepted =>
      AcceptedSendGrants(t, token, who, now);
      GrantsKeeps(canon, t, GrantAndQueueSend(t, token, who, now).tables, id, minted);
  }

  lemma SupersedeKeeps(canon: Email -> Option<Email>, t: Tables, token: nat, who: Principal, minted: nat)
    requires TablesOk(canon, t)
    requires SupersedeSendApproval(t, token, who).Committed?
    ensures Keeps(canon, t, SupersedeSendApproval(t, token, who).tables, None, minted)
  {
    var id := Addressed(t, token, who).value;
    if t.approvals[id].status.Pending? {
      LapseKeeps(canon, t, id, ApprovalStatus.Superseded, ProposalStatus.Superseded, minted);
    }
  }

  // ----- Change -----------------------------------------------------------------------------------------

  /** An accepted Change press, table by table. */
  predicate Opens(t: Tables, t': Tables, id: ProposalId, account: string, expiresAt: Time)
    requires id in t.approvals && id in t.proposals
  {
    && t'.approvals == t.approvals[id := t.approvals[id].(status := ApprovalStatus.Superseded)]
    && t'.proposals == t.proposals[id := t.proposals[id].(status := ProposalStatus.Superseded)]
    && t'.sessions == CancelSessions(t.sessions, account)[id := Session(account, SessionStatus.Active, expiresAt)]
    && t'.actions == t.actions && t'.drafts == t.drafts && t'.results == t.results
  }

  lemma OpensElsewhere(t: Tables, t': Tables, id: ProposalId, account: string, expiresAt: Time)
    requires id in t.approvals && id in t.proposals && Opens(t, t', id, account, expiresAt)
    ensures Elsewhere(t, t', id.root)
  {
    OpensSessions(t.sessions, account, id);
  }

  lemma OpensSessions(sessions: map<ProposalId, Session>, account: string, id: ProposalId)
    ensures forall i: ProposalId :: i.root != id.root ==>
              && (i in sessions <==> i in CancelSessions(sessions, account))
              && (i in sessions ==> SessionClosed(sessions[i], CancelSessions(sessions, account)[i]))
  {
  }

  lemma OpensRoot(t: Tables, t': Tables, id: ProposalId, account: string, expiresAt: Time)
    requires id in t.approvals && t.approvals[id].status.Pending? && id in t.proposals
    requires Opens(t, t', id, account, expiresAt)
    ensures SteadyRoot(t, t', id.root)
  {
  }

  lemma OpensRows(t: Tables, t': Tables, id: ProposalId, account: string, expiresAt: Time)
    requires id in t.approvals && id in t.proposals && id.Send? && Opens(t, t', id, account, expiresAt)
    requires RootRowsOk(t, id.root) && UniqueTokens(t) && UniqueProviderDrafts(t)
    ensures RootRowsOk(t', id.root) && UniqueTokens(t') && UniqueProviderDrafts(t')
  {
    forall i | i in t'.actions && i.root == id.root
      ensures ActionOk(t', i)
    {
      assert ActionOk(t, i);
    }
  }

  /** Cancelling the account's session first keeps one active session per account. */
  lemma OpensOneSession(t: Tables, t': Tables, id: ProposalId, account: string, expiresAt: Time)
    requires id in t.approvals && id in t.proposals && Opens(t, t', id, account, expiresAt)
    requires OneActiveSession(t)
    ensures OneActiveSession(t')
  {
  }

  lemma OpensFamily(canon: Email -> Option<Email>, t: Tables, t': Tables, id: ProposalId, account: string, expiresAt: Time)
    requires id.Send? && FamilyOk(canon, t, id.root)
    requires id in t.approvals && t.approvals[id].status.Pending? && id in t.proposals
    requires Opens(t, t', id, account, expiresAt)
    ensures FamilyOk(canon, t', id.root)
  {
    var r := id.root;
    PendingIsNewestAndIdle(t, id);
    assert Roster(t', r);
    forall k: nat | 1 <= k < t.drafts[r].version
      ensures PastVersion(t', r, k)
    {
      assert PastVersion(t, r, k);
    }
    OpensRoot(t, t', id, account, expiresAt);
    SteadyTerms(canon, t, t', r);
  }

  lemma OpensKeeps(canon: Email -> Option<Email>, t: Tables, t': Tables, id: ProposalId, account: string, expiresAt: Time, minted: nat)
    requires TablesOk(canon, t)
    requires id in t.approvals && t.approvals[id].status.Pending? && id in t.proposals
    requires Opens(t, t', id, account, expiresAt)
    ensures Keeps(canon, t, t', None, minted)
  {
    var r := id.root;
    assert FamilyOk(canon, t, r);
    PendingIsNewestAndIdle(t, id);
    OpensFamily(canon, t, t', id, account, expiresAt);
    OpensElsewhere(t, t', id, account, expiresAt);
    OpensRoot(t, t', id, account, expiresAt);
    RootRowsFromRows(t, r);
    OpensRows(t, t', id, account, expiresAt);
    OpensOneSession(t, t', id, account, expiresAt);
    IdleEvolves(t, t', r, minted);
    OneRoot(canon, t, t', r, None, minted);
  }

  lemma AcceptedChangeOpens(t: Tables, token: nat, who: Principal, ttl: int, now: Time)
    requires OpenRevision(t, token, who, ttl, now).Committed?
    requires OpenRevision(t, token, who, ttl, now).value.Accepted?
    ensures var id := Addressed(t, token, who).value;
            && t.approvals[id].status.Pending?
            && Opens(t, OpenRevision(t, token, who, ttl, now).tables, id, who.account, now + ttl)
  {
  }

  lemma RefusedChangeTables(t: Tables, token: nat, who: Principal, ttl: int, now: Time)
    requires OpenRevision(t, token, who, ttl, now).Committed?
    ensures var x, id := OpenRevision(t, token, who, ttl, now), Addressed(t, token, who).value;
            match x.value
            case NotWaiting(_) => x.tables == t
            case TooLate => t.approvals[id].status.Pending? && x.tables == Decide(t, id, ApprovalStatus.Expired, ProposalStatus.Expired)
            case Stale => t.approvals[id].status.Pending? && x.tables == Decide(t, id, ApprovalStatus.Superseded, ProposalStatus.Superseded)
            case Accepted => true
  {
  }

  lemma OpenRevisionKeeps(canon: Email -> Option<Email>, t: Tables, token: nat, who: Principal, ttl: int, now: Time, minted: nat)
    requires TablesOk(canon, t)
    requires OpenRevision(t, token, who, ttl, now).Committed?
    ensures Keeps(canon, t, OpenRevision(t, token, who, ttl, now).tables, None, minted)
  {
    var id := Addressed(t, token, who).value;
    var t' := OpenRevision(t, token, who, ttl, now).tables;
    RefusedChangeTables(t, token, who, ttl, now);
    match OpenRevision(t, token, who, ttl, now).value
    case NotWaiting(_) => NothingKeeps(canon, t, None, minted);
    case TooLate => LapseKeeps(canon, t, id, ApprovalStatus.Expired, ProposalStatus.Expired, minted);
    case Stale => LapseKeeps(canon, t, id, ApprovalStatus.Superseded, ProposalStatus.Superseded, minted);
    case Accepted =>
      AcceptedChangeOpens(t, token, who, ttl, now);
      OpensKeeps(canon, t, t', id, who.account, now + ttl, minted);
  }

  lemma SessionExpiryFamilies(canon: Email -> Option<Email>, t: Tables, t': Tables, id: ProposalId)
    requires forall r: string :: FamilyOk(canon, t, r)
    requires id in t.sessions && t.sessions[id].status.Active?
    requires t' == t.(sessions := t.sessions[id := t.sessions[id].(status := SessionStatus.Expired)])
    ensures forall r: string :: FamilyOk(canon, t', r)
  {
    forall r: string
      ensures FamilyOk(canon, t', r)
    {
      assert FamilyOk(canon, t, r);
      AgreeKeepsFamily(canon, t, t', r);
    }
  }

  lemma SessionExpiryRows(t: Tables, t': Tables, id: ProposalId)
    requires RowsOk(t) && id in t.sessions
    requires t' == t.(sessions := t.sessions[id := t.sessions[id].(status := SessionStatus.Expired)])
    ensures RowsOk(t')
  {
    forall i | i in t'.actions
      ensures ActionOk(t', i)
    {
      assert ActionOk(t, i);
    }
  }

  lemma SameRowsEvolve(t: Tables, t': Tables, minted: nat)
    requires t'.proposals == t.proposals && t'.actions == t.actions && t'.drafts == t.drafts && t'.approvals == t.approvals
    ensures Evolves(t, t', None, minted)
  {
    forall r: string
      ensures Untouched(t, t', r)
    {
    }
  }

  lemma LoadRevisionKeeps(canon: Email -> Option<Email>, t: Tables, account: string, now: Time, minted: nat)
    requires TablesOk(canon, t)
    requires LoadRevision(canon, t, account, now).Committed?
    ensures Keeps(canon, t, LoadRevision(canon, t, account, now).tables, None, minted)
  {
    var t' := LoadRevision(canon, t, account, now).tables;
    if LoadRevision(canon, t, account, now).value.RevisionExpired? {
      var id := FindSession(t, account).value;
      SessionExpiryFamilies(canon, t, t', id);
      SessionExpiryRows(t, t', id);
    }
    SameRowsEvolve(t, t', minted);
  }

  /** `CompleteRevision`, table by table. */
  predicate Revises(t: Tables, t': Tables, id: ProposalId, replacement: Email)
    requires id.Send? && id in t.proposals && id.root in t.drafts && id in t.sessions
  {
    var update, send, d := Update(id.root, id.version), t.proposals[id], t.drafts[id.root];
    && t'.proposals == t.proposals[update := Proposal(
         Capability.UpdateDraft, Some(id), Origin.TelegramUser, replacement, Sha256(replacement), PolicyDecision.Allow,
         ProposalStatus.Queued, d.version + 1, send.connector, send.situation, None)]
    && t'.actions == t.actions[update := NewAction(Capability.UpdateDraft)]
    && t'.drafts == t.drafts[id.root := d.(status := DraftStatus.Updating)]
    && t'.sessions == t.sessions[id := t.sessions[id].(status := SessionStatus.Completed)]
    && t'.approvals == t.approvals && t'.results == t.results
  }

  /** The session a revision is being completed for, and nothing of it queued yet. */
  predicate Revisable(t: Tables, id: ProposalId) {
    && id.Send? && id in t.proposals && id.root in t.drafts
    && id in t.sessions && t.sessions[id].status.Active?
    && Update(id.root, id.version) !in t.actions && Update(id.root, id.version) !in t.proposals
  }

  lemma CompleteRevisionRevises(t: Tables, id: ProposalId, replacement: Email, now: Time)
    requires CompleteRevision(t, id, replacement, now).Committed?
    ensures Revisable(t, id) && Revises(t, CompleteRevision(t, id, replacement, now).tables, id, replacement)
  {
  }

  lemma RevisesElsewhere(t: Tables, t': Tables, id: ProposalId, replacement: Email)
    requires Revisable(t, id) && Revises(t, t', id, replacement)
    ensures Elsewhere(t, t', id.root)
  {
    var update := Update(id.root, id.version);
    RowAside(t.proposals, t'.proposals, update, t'.proposals[update]);
    RowAside(t.actions, t'.actions, update, t'.actions[update]);
    RowAside(t.sessions, t'.sessions, id, t'.sessions[id]);
  }

  lemma RevisesRoot(t: Tables, t': Tables, id: ProposalId, replacement: Email)
    requires Revisable(t, id) && Revises(t, t', id, replacement)
    ensures SteadyRoot(t, t', id.root)
  {
  }

  lemma RevisesRows(t: Tables, t': Tables, id: ProposalId, replacement: Email)
    requires Revisable(t, id) && Revises(t, t', id, replacement)
    requires RootRowsOk(t, id.root) && UniqueTokens(t) && UniqueProviderDrafts(t) && OneActiveSession(t)
    ensures RootRowsOk(t', id.root) && UniqueTokens(t') && UniqueProviderDrafts(t') && OneActiveSession(t')
  {
    forall i | i in t'.actions && i.root == id.root
      ensures ActionOk(t', i)
    {
      assert i in t.actions ==> ActionOk(t, i);
    }
  }

  lemma RevisesLockstep(t: Tables, t': Tables, id: ProposalId, replacement: Email)
    requires Revisable(t, id) && Revises(t, t', id, replacement)
    requires Roster(t, id.root) && Lockstep(t, id.root)
    ensures Roster(t', id.root) && Lockstep(t', id.root)
  {
    var r := id.root;
    ActiveSessionIsNewestAndIdle(t, id);
    assert Roster(t', r);
    forall k: nat | 1 <= k < t.drafts[r].version
      ensures PastVersion(t', r, k)
    {
      assert PastVersion(t, r, k);
    }
  }

  lemma RevisesTerms(canon: Email -> Option<Email>, t: Tables, t': Tables, id: ProposalId, replacement: Email)
    requires Revisable(t, id) && Revises(t, t', id, replacement)
    requires id.version == t.drafts[id.root].version
    requires Roster(t, id.root) && Roster(t', id.root) && Terms(canon, t, id.root)
    requires canon(replacement) == Some(replacement) && SameThread(replacement, t.proposals[id].parameters)
    ensures Terms(canon, t', id.root)
  {
    var r := id.root;
    RevisesRoot(t, t', id, replacement);
    assert SendTerms(canon, t, r, id.version);
    assert UpdateTerms(canon, t', r, id.version);
    TermsCarry(canon, t, t', r);
  }

  lemma RevisesKeeps(canon: Email -> Option<Email>, t: Tables, t': Tables, id: ProposalId, replacement: Email, minted: nat)
    requires TablesOk(canon, t)
    requires Revisable(t, id) && Revises(t, t', id, replacement)
    requires canon(replacement) == Some(replacement) && SameThread(replacement, t.proposals[id].parameters)
    ensures Keeps(canon, t, t', None, minted)
  {
    var r := id.root;
    assert FamilyOk(canon, t, r);
    ActiveSessionIsNewestAndIdle(t, id);
    RevisesLockstep(t, t', id, replacement);
    RevisesTerms(canon, t, t', id, replacement);
    RevisesElsewhere(t, t', id, replacement);
    RevisesRoot(t, t', id, replacement);
    RootRowsFromRows(t, r);
    RevisesRows(t, t', id, replacement);
    NewActionEvolves(t, t', r, Update(id.root, id.version), Capability.UpdateDraft, minted);
    OneRoot(canon, t, t', r, None, minted);
  }

  lemma CompleteRevisionKeeps(canon: Email -> Option<Email>, t: Tables, id: ProposalId, replacement: Email, now: Time, minted: nat)
    requires TablesOk(canon, t)
    requires CompleteRevision(t, id, replacement, now).Committed?
    requires canon(replacement) == Some(replacement) && SameThread(replacement, t.proposals[id].parameters)
    ensures Keeps(canon, t, CompleteRevision(t, id, replacement, now).tables, None, minted)
  {
    CompleteRevisionRevises(t, id, replacement, now);
    RevisesKeeps(canon, t, CompleteRevision(t, id, replacement, now).tables, id, replacement, minted);
  }

  // ----- Discard ----------------------------------------------------------------------------------------

  /** An accepted Discard press, table by table. */
  predicate Discards(t: Tables, t': Tables, id: ProposalId)
    requires id in t.approvals && id in t.proposals && id.root in t.drafts
  {
    var delete, send := Delete(id.root), t.proposals[id];
    && t'.approvals == t.approvals[id := t.approvals[id].(status := ApprovalStatus.Rejected)]
    && t'.proposals == t.proposals[id := send.(status := ProposalStatus.Cancelled)][delete := Proposal(
         Capability.DeleteDraft, Some(id), Origin.TelegramUser, send.parameters, send.hash, PolicyDecision.Allow,
         ProposalStatus.Queued, 1, send.connector, send.situation, None)]
    && t'.actions == t.actions[delete := NewAction(Capability.DeleteDraft)]
    && t'.drafts == t.drafts[id.root := t.drafts[id.root].(status := DraftStatus.Deleting)]
    && t'.sessions == t.sessions && t'.results == t.results
  }

  predicate Discardable(t: Tables, id: ProposalId) {
    && id.Send? && id in t.approvals && t.approvals[id].status.Pending? && id in t.proposals && id.root in t.drafts
    && Delete(id.root) !in t.actions && Delete(id.root) !in t.proposals
  }

  lemma AcceptedDiscardDiscards(t: Tables, token: nat, who: Principal, now: Time)
    requires DiscardAndQueueDelete(t, token, who, now).Committed?
    requires DiscardAndQueueDelete(t, token, who, now).value.Accepted?
    ensures var id := Addressed(t, token, who).value;
            Discardable(t, id) && Discards(t, DiscardAndQueueDelete(t, token, who, now).tables, id)
  {
  }

  lemma DiscardsElsewhere(t: Tables, t': Tables, id: ProposalId)
    requires Discardable(t, id) && Discards(t, t', id)
    ensures Elsewhere(t, t', id.root)
  {
    var delete := Delete(id.root);
    TwoRowsElsewhere(t, t', id, delete, delete, id, t'.proposals[id], t'.proposals[delete], t'.actions[delete], t'.approvals[id], t'.drafts[id.root]);
  }

  lemma DiscardsRoot(t: Tables, t': Tables, id: ProposalId)
    requires Discardable(t, id) && Discards(t, t', id)
    ensures SteadyRoot(t, t', id.root)
  {
  }

  lemma DiscardsRows(t: Tables, t': Tables, id: ProposalId)
    requires Discardable(t, id) && Discards(t, t', id)
    requires RootRowsOk(t, id.root) && UniqueTokens(t) && UniqueProviderDrafts(t) && OneActiveSession(t)
    ensures RootRowsOk(t', id.root) && UniqueTokens(t') && UniqueProviderDrafts(t') && OneActiveSession(t')
  {
    forall i | i in t'.actions && i.root == id.root
      ensures ActionOk(t', i)
    {
      assert i in t.actions ==> ActionOk(t, i);
    }
  }

  lemma DiscardsLockstep(t: Tables, t': Tables, id: ProposalId)
    requires Discardable(t, id) && Discards(t, t', id)
    requires Roster(t, id.root) && Lockstep(t, id.root)
    ensures Roster(t', id.root) && Lockstep(t', id.root)
  {
    var r := id.root;
    PendingIsNewestAndIdle(t, id);
    assert Roster(t', r);
    forall k: nat | 1 <= k < t.drafts[r].version
      ensures PastVersion(t', r, k)
    {
      assert PastVersion(t, r, k);
    }
  }

  lemma DiscardsTerms(canon: Email -> Option<Email>, t: Tables, t': Tables, id: ProposalId)
    requires Discardable(t, id) && Discards(t, t', id)
    requires id.version == t.drafts[id.root].version
    requires Roster(t, id.root) && Roster(t', id.root) && Terms(canon, t, id.root)
    ensures Terms(canon, t', id.root)
  {
    var r := id.root;
    DiscardsRoot(t, t', id);
    assert SendTerms(canon, t, r, id.version);
    assert DeleteTerms(canon, t', r);
    TermsCarry(canon, t, t', r);
  }

  lemma DiscardsKeeps(canon: Email -> Option<Email>, t: Tables, t': Tables, id: ProposalId, minted: nat)
    requires TablesOk(canon, t)
    requires Discardable(t, id) && Discards(t, t', id)
    ensures Keeps(canon, t, t', None, minted)
  {
    var r := id.root;
    assert FamilyOk(canon, t, r);
    PendingIsNewestAndIdle(t, id);
    DiscardsLockstep(t, t', id);
    DiscardsTerms(canon, t, t', id);
    DiscardsElsewhere(t, t', id);
    DiscardsRoot(t, t', id);
    RootRowsFromRows(t, r);
    DiscardsRows(t, t', id);
    NewActionEvolves(t, t', r, Delete(id.root), Capability.DeleteDraft, minted);
    OneRoot(canon, t, t', r, None, minted);
  }

  lemma DiscardKeeps(canon: Email -> Option<Email>, t: Tables, token: nat, who: Principal, now: Time, minted: nat)
    requires TablesOk(canon, t)
    requires DiscardAndQueueDelete(t, token, who, now).Committed?
    ensures Keeps(canon, t, DiscardAndQueueDelete(t, token, who, now).tables, None, minted)
  {
    var id := Addressed(t, token, who).value;
    match DiscardAndQueueDelete(t, token, who, now).value
    case NotWaiting(_) =>
    case TooLate => LapseKeeps(canon, t, id, ApprovalStatus.Expired, ProposalStatus.Expired, minted);
    case Stale => LapseKeeps(canon, t, id, ApprovalStatus.Superseded, ProposalStatus.Superseded, minted);
    case Accepted =>
      AcceptedDiscardDiscards(t, token, who, now);
      DiscardsKeeps(canon, t, DiscardAndQueueDelete(t, token, who, now).tables, id, minted);
  }
}
