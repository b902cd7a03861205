/** `Keeps`, for intake, completions and approval cards. */
module ActionCompletionSteps {
  import opened Wrappers
  import opened CanonicalEmail
  import opened ActionTables
  import opened ActionTransitions
  import opened ActionInvariant
  import opened ActionPreservation
  import opened ActionSteps
  import opened ActionDecisionSteps

  // ----- Intake -------------------------------------------------------------------------------------

  /** A newly accepted draft creation, table by table. */
  predicate Intakes(t: Tables, t': Tables, p: NewProposal) {
    && t'.proposals == t.proposals[Create(p.root) := Proposal(
         p.capability, p.supersedes, p.origin, p.message, Sha256(p.message), p.decision,
         ProposalStatus.Queued, 1, p.connector, p.situation, p.expiresAt)]
    && t'.actions == t.actions[Create(p.root) := NewAction(p.capability)]
    && t'.approvals == t.approvals && t'.drafts == t.drafts && t'.sessions == t.sessions && t'.results == t.results
  }

  /** The one kind of proposal the service hands over: a draft creation the policy allows. */
  predicate ServiceProposal(canon: Email -> Option<Email>, p: NewProposal) {
    p.capability.CreateDraft? && p.supersedes.None? && p.decision.Allow? && canon(p.message) == Some(p.message)
  }

  lemma IntakesElsewhere(t: Tables, t': Tables, p: NewProposal)
    requires Intakes(t, t', p)
    ensures Elsewhere(t, t', p.root)
  {
  }

  lemma IntakesFamily(canon: Email -> Option<Email>, t: Tables, t': Tables, p: NewProposal)
    requires FamilyOk(canon, t, p.root) && Create(p.root) !in t.proposals
    requires Intakes(t, t', p) && ServiceProposal(canon, p)
    ensures FamilyOk(canon, t', p.root)
  {
  }

  lemma IntakesRows(t: Tables, t': Tables, p: NewProposal)
    requires Intakes(t, t', p) && Create(p.root) !in t.actions && Create(p.root) !in t.results
    requires RootRowsOk(t, p.root) && UniqueTokens(t) && UniqueProviderDrafts(t) && OneActiveSession(t)
    ensures RootRowsOk(t', p.root) && UniqueTokens(t') && UniqueProviderDrafts(t') && OneActiveSession(t')
  {
    forall i | i in t'.actions && i.root == p.root
      ensures ActionOk(t', i)
    {
      assert i in t.actions ==> ActionOk(t, i);
    }
  }

  lemma UnknownRootIsEmpty(t: Tables, r: string)
    requires Roster(t, r) && Create(r) !in t.proposals
    ensures forall id :: id in t.actions && id.root == r ==> false
    ensures forall id :: id in t.proposals && id.root == r ==> false
    ensures forall id :: id in t.approvals && id.root == r ==> !id.Send?
  {
  }

  lemma IntakesEvolves(t: Tables, t': Tables, p: NewProposal, minted: nat)
    requires Intakes(t, t', p) && Create(p.root) !in t.actions && Create(p.root) !in t.proposals && Idle(t, p.root)
    ensures RootEvolves(t, t', p.root, None, minted)
  {
    NewActionEvolves(t, t', p.root, Create(p.root), p.capability, minted);
  }

  lemma NewIntakeKeeps(canon: Email -> Option<Email>, t: Tables, p: NewProposal, minted: nat)
    requires TablesOk(canon, t) && ServiceProposal(canon, p) && Create(p.root) !in t.proposals
    requires CreateAllowedAction(t, p).Committed?
    ensures Keeps(canon, t, CreateAllowedAction(t, p).tables, None, minted)
  {
    var t', r := CreateAllowedAction(t, p).tables, p.root;
    assert FamilyOk(canon, t, r);
    UnknownRootIsEmpty(t, r);
    assert Intakes(t, t', p);
    IntakesFamily(canon, t, t', p);
    IntakesElsewhere(t, t', p);
    RootRowsFromRows(t, r);
    IntakesRows(t, t', p);
    IntakesEvolves(t, t', p, minted);
    OneRoot(canon, t, t', r, None, minted);
  }

  lemma SoundIntakeIsService(canon: Email -> Option<Email>, t: Tables, p: NewProposal)
    requires CreateAllowedAction(t, p).Committed? && Create(p.root) !in t.proposals
    requires FamilyOk(canon, CreateAllowedAction(t, p).tables, p.root)
    ensures ServiceProposal(canon, p)
  {
    var t' := CreateAllowedAction(t, p).tables;
    assert Create(p.root) in t'.proposals && t'.proposals[Create(p.root)].parameters == p.message;
  }

  /** A repeated source key changes nothing, whatever comes with it; a new one keeps the tables sound if and
      only if it is what the proposal service passes on. The repository itself would also take an update or
      delete. */
  lemma IntakeKeeps(canon: Email -> Option<Email>, t: Tables, p: NewProposal, minted: nat)
    requires TablesOk(canon, t) && CreateAllowedAction(t, p).Committed?
    ensures var t' := CreateAllowedAction(t, p).tables;
            && (Create(p.root) in t.proposals ==> t' == t)
            && (Create(p.root) in t.proposals || ServiceProposal(canon, p) ==> Keeps(canon, t, t', None, minted))
            && (Create(p.root) !in t.proposals && TablesOk(canon, t') ==> ServiceProposal(canon, p))
  {
    var t' := CreateAllowedAction(t, p).tables;
    if Create(p.root) in t.proposals {
      NothingKeeps(canon, t, None, minted);
    } else {
      if ServiceProposal(canon, p) {
        NewIntakeKeeps(canon, t, p, minted);
      }
      if TablesOk(canon, t') {
        assert FamilyOk(canon, t', p.root);
        SoundIntakeIsService(canon, t, p);
      }
    }
  }

  // ----- Completions of creates and updates ----------------------------------------------------------

  /** The action and proposal rows of a completed action. */
  function Succeeds(a: Action): Action {
    a.(status := ActionStatus.Succeeded, claim := None, lease := None)
  }

  /** A completed create, table by table. */
  predicate Creates(t: Tables, t': Tables, id: ProposalId, draftId: string, next: NextApproval)
    requires id in t.actions && id in t.proposals
  {
    var p, send := t.proposals[id], Send(id.root, 1);
    && t'.actions == t.actions[id := Succeeds(t.actions[id])]
    && t'.results == t.results[id := ActionStatus.Succeeded]
    && t'.proposals == t.proposals[id := p.(status := ProposalStatus.Completed)][send := SendProposal(p, None, 1, p.parameters, next.expiresAt)]
    && t'.approvals == t.approvals[send := Approval(p.hash, next.principal, ApprovalStatus.Pending, next.token, next.expiresAt)]
    && t'.drafts == t.drafts[id.root := Draft(ProviderDraft(p.connector, draftId), send, 1, p.hash, DraftStatus.Ready)]
    && t'.sessions == t.sessions
  }

  predicate Creatable(t: Tables, id: ProposalId, draftId: string, next: NextApproval) {
    && id.Create? && id in t.actions && id in t.proposals && t.actions[id].status.Running?
    && id.root !in t.drafts && Send(id.root, 1) !in t.proposals && Send(id.root, 1) !in t.approvals
    && !TokenUsed(t, next.token) && !ProviderDraftUsed(t, ProviderDraft(t.proposals[id].connector, draftId))
  }

  lemma CompleteCreateCreates(canon: Email -> Option<Email>, t: Tables, c: Claim, draftId: string, next: NextApproval, now: Time)
    requires CompleteCreate(canon, t, c, draftId, next, now).Committed?
    requires c.action.Create? && canon(t.proposals[c.action].parameters) == Some(t.proposals[c.action].parameters)
    ensures Creatable(t, c.action, draftId, next)
    ensures Creates(t, CompleteCreate(canon, t, c, draftId, next, now).tables, c.action, draftId, next)
  {
  }

  lemma CreatesElsewhere(t: Tables, t': Tables, id: ProposalId, draftId: string, next: NextApproval)
    requires Creatable(t, id, draftId, next) && Creates(t, t', id, draftId, next)
    ensures Elsewhere(t, t', id.root)
  {
    var send := Send(id.root, 1);
    TwoRowsElsewhere(t, t', id, send, id, send, t'.proposals[id], t'.proposals[send], t'.actions[id], t'.approvals[send], t'.drafts[id.root]);
  }

  lemma CreatesFamily(canon: Email -> Option<Email>, t: Tables, t': Tables, id: ProposalId, draftId: string, next: NextApproval)
    requires Creatable(t, id, draftId, next) && Creates(t, t', id, draftId, next)
    requires FamilyOk(canon, t, id.root)
    ensures FamilyOk(canon, t', id.root)
  {
  }

  lemma CreatesRows(t: Tables, t': Tables, id: ProposalId, draftId: string, next: NextApproval)
    requires Creatable(t, id, draftId, next) && Creates(t, t', id, draftId, next)
    requires RootRowsOk(t, id.root) && OneActiveSession(t)
    ensures RootRowsOk(t', id.root) && OneActiveSession(t')
  {
    forall i | i in t'.actions && i.root == id.root
      ensures ActionOk(t', i)
    {
      assert i != id ==> ActionOk(t, i);
    }
  }

  lemma CreatesUnique(t: Tables, t': Tables, id: ProposalId, draftId: string, next: NextApproval)
    requires Creatable(t, id, draftId, next) && Creates(t, t', id, draftId, next)
    requires UniqueTokens(t) && UniqueProviderDrafts(t)
    ensures UniqueTokens(t') && UniqueProviderDrafts(t')
  {
  }

  lemma CreatesRoot(t: Tables, t': Tables, id: ProposalId, draftId: string, next: NextApproval)
    requires Creatable(t, id, draftId, next) && Creates(t, t', id, draftId, next)
    ensures SteadyRoot(t, t', id.root)
  {
  }

  lemma SucceedsEvolves(t: Tables, t': Tables, id: ProposalId, actor: Option<nat>, minted: nat)
    requires id in t.actions && t.actions[id].status.Running? && t.actions[id].claim == actor
    requires t'.actions == t.actions[id := Succeeds(t.actions[id])]
    requires forall i :: i in t.actions && i.root == id.root && t.actions[i].status.Running? ==> i == id
    requires SteadyRoot(t, t', id.root)
    ensures RootEvolves(t, t', id.root, actor, minted)
  {
  }

  lemma CompleteCreateKeeps(canon: Email -> Option<Email>, t: Tables, c: Claim, draftId: string, next: NextApproval, now: Time, minted: nat)
    requires TablesOk(canon, t)
    requires CompleteCreate(canon, t, c, draftId, next, now).Committed?
    ensures Keeps(canon, t, CompleteCreate(canon, t, c, draftId, next, now).tables, Some(c.id), minted)
  {
    var t', id, r := CompleteCreate(canon, t, c, draftId, next, now).tables, c.action, c.action.root;
    assert FamilyOk(canon, t, r);
    TypedFromFamily(canon, t, id);
    CompleteCreateCreates(canon, t, c, draftId, next, now);
    CreatesFamily(canon, t, t', id, draftId, next);
    CreatesElsewhere(t, t', id, draftId, next);
    RootRowsFromRows(t, r);
    CreatesRows(t, t', id, draftId, next);
    CreatesUnique(t, t', id, draftId, next);
    CreatesRoot(t, t', id, draftId, next);
    OnlyLiveAction(t, id);
    SucceedsEvolves(t, t', id, Some(c.id), minted);
    OneRoot(canon, t, t', r, Some(c.id), minted);
  }

  /** A completed update, table by table. */
  predicate Updates(t: Tables, t': Tables, id: ProposalId, next: NextApproval)
    requires id in t.actions && id in t.proposals && id.root in t.drafts
  {
    var p, d := t.proposals[id], t.drafts[id.root];
    var send := Send(id.root, d.version + 1);
    && t'.actions == t.actions[id := Succeeds(t.actions[id])]
    && t'.results == t.results[id := ActionStatus.Succeeded]
    && t'.proposals == t.proposals[id := p.(status := ProposalStatus.Completed)][send :=
         SendProposal(p, p.supersedes, d.version + 1, p.parameters, next.expiresAt)]
    && t'.approvals == t.approvals[send := Approval(p.hash, next.principal, ApprovalStatus.Pending, next.token, next.expiresAt)]
    && t'.drafts == t.drafts[id.root := d.(active := send, version := d.version + 1, hash := p.hash, status := DraftStatus.Ready)]
    && t'.sessions == t.sessions
  }

  predicate Updatable(t: Tables, id: ProposalId, next: NextApproval) {
    && id.Update? && id in t.actions && id in t.proposals && t.actions[id].status.Running? && id.root in t.drafts
    && Send(id.root, t.drafts[id.root].version + 1) !in t.proposals
    && Send(id.root, t.drafts[id.root].version + 1) !in t.approvals
    && !TokenUsed(t, next.token)
  }

  lemma CompleteUpdateUpdates(canon: Email -> Option<Email>, t: Tables, c: Claim, draftId: string, next: NextApproval, now: Time)
    requires CompleteUpdate(canon, t, c, draftId, next, now).Committed?
    requires c.action.Update? && canon(t.proposals[c.action].parameters) == Some(t.proposals[c.action].parameters)
    requires t.proposals[c.action].supersedes == Some(Send(c.action.root, c.action.version))
    ensures Updatable(t, c.action, next)
    ensures Updates(t, CompleteUpdate(canon, t, c, draftId, next, now).tables, c.action, next)
  {
  }

  lemma UpdatesElsewhere(t: Tables, t': Tables, id: ProposalId, next: NextApproval)
    requires Updatable(t, id, next) && Updates(t, t', id, next)
    ensures Elsewhere(t, t', id.root)
  {
    var send := Send(id.root, t.drafts[id.root].version + 1);
    TwoRowsElsewhere(t, t', id, send, id, send, t'.proposals[id], t'.proposals[send], t'.actions[id], t'.approvals[send], t'.drafts[id.root]);
  }

  lemma UpdatesRoot(t: Tables, t': Tables, id: ProposalId, next: NextApproval)
    requires Updatable(t, id, next) && Updates(t, t', id, next)
    ensures SteadyRoot(t, t', id.root)
  {
  }

  lemma UpdatesLockstep(t: Tables, t': Tables, id: ProposalId, next: NextApproval)
    requires Updatable(t, id, next) && Updates(t, t', id, next)
    requires Roster(t, id.root) && Lockstep(t, id.root)
    ensures Roster(t', id.root) && Lockstep(t', id.root)
  {
    var r := id.root;
    LiveActionIsNewest(t, id);
    assert Roster(t', r);
    forall k: nat | 1 <= k < t.drafts[r].version + 1
      ensures PastVersion(t', r, k)
    {
      assert k < t.drafts[r].version ==> PastVersion(t, r, k);
    }
  }

  lemma UpdatesTerms(canon: Email -> Option<Email>, t: Tables, t': Tables, id: ProposalId, next: NextApproval)
    requires Updatable(t, id, next) && Updates(t, t', id, next)
    requires Roster(t, id.root) && Roster(t', id.root) && Terms(canon, t, id.root) && Delete(id.root) !in t.proposals
    ensures Terms(canon, t', id.root)
  {
    var r := id.root;
    UpdatesRoot(t, t', id, next);
    assert UpdateTerms(canon, t, r, id.version);
    assert SendTerms(canon, t', r, t.drafts[r].version + 1);
    TermsCarry(canon, t, t', r);
  }

  lemma UpdatesRows(t: Tables, t': Tables, id: ProposalId, next: NextApproval)
    requires Updatable(t, id, next) && Updates(t, t', id, next)
    requires RootRowsOk(t, id.root) && OneActiveSession(t)
    ensures RootRowsOk(t', id.root) && OneActiveSession(t')
  {
    forall i | i in t'.actions && i.root == id.root
      ensures ActionOk(t', i)
    {
      assert i != id ==> ActionOk(t, i);
    }
  }

  lemma UpdatesUnique(t: Tables, t': Tables, id: ProposalId, next: NextApproval)
    requires Updatable(t, id, next) && Updates(t, t', id, next)
    requires UniqueTokens(t) && UniqueProviderDrafts(t)
    ensures UniqueTokens(t') && UniqueProviderDrafts(t')
  {
  }

  lemma CompleteUpdateKeeps(canon: Email -> Option<Email>, t: Tables, c: Claim, draftId: string, next: NextApproval, now: Time, minted: nat)
    requires TablesOk(canon, t)
    requires CompleteUpdate(canon, t, c, draftId, next, now).Committed?
    ensures Keeps(canon, t, CompleteUpdate(canon, t, c, draftId, next, now).tables, Some(c.id), minted)
  {
    var t', id, r := CompleteUpdate(canon, t, c, draftId, next, now).tables, c.action, c.action.root;
    assert FamilyOk(canon, t, r);
    TypedFromFamily(canon, t, id);
    LiveActionIsNewest(t, id);
    assert UpdateTerms(canon, t, r, id.version);
    CompleteUpdateUpdates(canon, t, c, draftId, next, now);
    UpdatesLockstep(t, t', id, next);
    UpdatesTerms(canon, t, t', id, next);
    UpdatesElsewhere(t, t', id, next);
    RootRowsFromRows(t, r);
    UpdatesRows(t, t', id, next);
    UpdatesUnique(t, t', id, next);
    UpdatesRoot(t, t', id, next);
    OnlyLiveAction(t, id);
    SucceedsEvolves(t, t', id, Some(c.id), minted);
    OneRoot(canon, t, t', r, Some(c.id), minted);
  }

  // ----- Completions of sends and deletes --------------------------------------------------------------

  lemma CompleteManagedIsSettled(canon: Email -> Option<Email>, t: Tables, c: Claim, draftId: string, finished: DraftStatus)
    requires TablesOk(canon, t)
    requires CompleteManaged(t, c, draftId, finished).Committed?
    requires (c.action.Send? && c.capability.SendDraft? && finished.Sent?) || (c.action.Delete? && c.capability.DeleteDraft? && finished.Deleted?)
    ensures CompleteManaged(t, c, draftId, finished).tables == Settled(t, c.action, ActionStatus.Succeeded)
  {
    assert FamilyOk(canon, t, c.action.root) && ActionOk(t, c.action);
    TypedFromFamily(canon, t, c.action);
    ManagedForIsNewest(canon, t, c.action);
  }

  lemma CompleteManagedKeeps(canon: Email -> Option<Email>, t: Tables, c: Claim, draftId: string, finished: DraftStatus, minted: nat)
    requires TablesOk(canon, t)
    requires CompleteManaged(t, c, draftId, finished).Committed?
    requires (c.action.Send? && c.capability.SendDraft? && finished.Sent?) || (c.action.Delete? && c.capability.DeleteDraft? && finished.Deleted?)
    ensures Keeps(canon, t, CompleteManaged(t, c, draftId, finished).tables, Some(c.id), minted)
  {
    CompleteManagedIsSettled(canon, t, c, draftId, finished);
    SettledKeeps(canon, t, c.action, ActionStatus.Succeeded, Some(c.id), minted);
  }

  // ----- Approval cards ----------------------------------------------------------------------------------

  lemma NewTokenFamilies(canon: Email -> Option<Email>, t: Tables, t': Tables, id: ProposalId, token: nat)
    requires forall r: string :: FamilyOk(canon, t, r)
    requires id in t.approvals && t' == t.(approvals := t.approvals[id := t.approvals[id].(token := token)])
    ensures forall r: string :: FamilyOk(canon, t', r)
  {
    forall r: string
      ensures FamilyOk(canon, t', r)
    {
      assert FamilyOk(canon, t, r);
      AgreeKeepsFamily(canon, t, t', r);
    }
  }

  lemma NewTokenRows(t: Tables, t': Tables, id: ProposalId, token: nat)
    requires RowsOk(t) && !TokenUsed(t, token)
    requires id in t.approvals && t' == t.(approvals := t.approvals[id := t.approvals[id].(token := token)])
    ensures RowsOk(t')
  {
    forall i | i in t'.actions
      ensures ActionOk(t', i)
    {
      assert ActionOk(t, i);
    }
  }

  lemma NewTokenEvolves(t: Tables, t': Tables, id: ProposalId, token: nat, minted: nat)
    requires id in t.approvals && t' == t.(approvals := t.approvals[id := t.approvals[id].(token := token)])
    requires forall i :: i in t.actions && t.actions[i].status.Running? ==> i.root != id.root
    ensures Evolves(t, t', None, minted)
  {
    forall r: string | r != id.root
      ensures Untouched(t, t', r)
    {
    }
  }

  lemma PrepareCardKeeps(canon: Email -> Option<Email>, t: Tables, c: NoticeClaim, token: nat, now: Time, minted: nat)
    requires TablesOk(canon, t)
    requires PrepareApprovalCard(canon, t, c, token, now).Committed?
    ensures Keeps(canon, t, PrepareApprovalCard(canon, t, c, token, now).tables, None, minted)
  {
    var t', id := PrepareApprovalCard(canon, t, c, token, now).tables, c.notice;
    assert FamilyOk(canon, t, id.root);
    PendingIsNewestAndIdle(t, id);
    NewTokenFamilies(canon, t, t', id, token);
    NewTokenRows(t, t', id, token);
    NewTokenEvolves(t, t', id, token, minted);
  }
}
