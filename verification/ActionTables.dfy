/** The rows of the approval-gated Gmail action protocol (src/eva_ai/db/models/actions.py,
    src/eva_ai/actions/types.py), for one workspace and user. */
module ActionTables {
  import opened Wrappers
  import opened CanonicalEmail

  type Time = int

  datatype Capability = CreateDraft | UpdateDraft | SendDraft | DeleteDraft

  datatype Origin = AgentRun | TelegramUser | System

  datatype PolicyDecision = Allow | RequireApproval | Deny

  datatype ProposalStatus =
    | Proposed | Queued | WaitingApproval | Approved | Rejected
    | Expired | Superseded | Completed | Failed | Cancelled

  datatype ApprovalStatus = Pending | Granted | Rejected | Expired | Superseded

  datatype ActionStatus = Queued | Running | Succeeded | Failed | Unknown

  datatype DraftStatus = Creating | Ready | Updating | Sending | Sent | Deleting | Deleted | Unknown

  datatype SessionStatus = Active | Completed | Expired | Cancelled

  datatype NoticeStatus = Pending | Sending | Sent | RetryableFailure | PermanentFailure

  datatype ConnectorStatus = Connecting | Active | ReauthorizationRequired | Disabled | Error

  /** Row ids are UUIDv5 digests of a name, so they are represented by the name. `root` is the source
      key of the creation request everything about one draft goes back to: the draft's own id is
      derived from the creation action's id, and a revision session's id from the approval's id. An
      action's id is derived from its proposal's, an approval's likewise, so one id serves for all. */
  datatype ProposalId =
    | Create(root: string)
    | Send(root: string, version: nat)    // managed-draft:<draft>:send:<version>
    | Update(root: string, version: nat)  // revision:<session of send version>:update
    | Delete(root: string)                // managed-draft:<draft>:delete

  datatype Proposal = Proposal(
    capability: Capability,
    supersedes: Option<ProposalId>,
    origin: Origin,
    parameters: Email,
    hash: Digest,
    decision: PolicyDecision,
    status: ProposalStatus,
    version: nat,
    connector: string,
    situation: Option<string>,
    expiresAt: Option<Time>)

  datatype Principal = Principal(account: string, chat: int)

  /** `token` stands for the SHA-256 digest of the callback token. */
  datatype Approval = Approval(
    hash: Digest,
    principal: Principal,
    status: ApprovalStatus,
    token: nat,
    expiresAt: Time)

  datatype Action = Action(
    capability: Capability,
    status: ActionStatus,
    claim: Option<nat>,
    lease: Option<Time>,
    attempts: nat,
    started: Option<Time>)

  datatype ProviderDraft = ProviderDraft(connector: string, draftId: string)

  datatype Draft = Draft(
    provider: ProviderDraft,
    active: ProposalId,
    version: nat,
    hash: Digest,
    status: DraftStatus)

  datatype Session = Session(account: string, status: SessionStatus, expiresAt: Time)

  datatype Notice = Notice(status: NoticeStatus, claim: Option<nat>, lease: Option<Time>, attempts: nat, nextRetry: Option<Time>)

  datatype Connector = Connector(status: ConnectorStatus, compose: bool, secret: Option<string>)

  /** `approvals`, `sessions` and `notices` are keyed by the send proposal, `drafts` by the root,
      `actions` and `results` by the proposal. */
  datatype Tables = Tables(
    proposals: map<ProposalId, Proposal>,
    approvals: map<ProposalId, Approval>,
    actions: map<ProposalId, Action>,
    results: map<ProposalId, ActionStatus>,
    drafts: map<string, Draft>,
    sessions: map<ProposalId, Session>,
    notices: map<ProposalId, Notice>,
    connectors: map<string, Connector>)

  datatype Claim = Claim(action: ProposalId, id: nat, capability: Capability)

  datatype NoticeClaim = NoticeClaim(notice: ProposalId, id: nat, attempts: nat)

  datatype Error = ScopeError | ValidationError | ConflictError | IntegrityError | RecordError

  /** One transaction: an exception inside it leaves no trace. */
  datatype Tx<+T> = Committed(tables: Tables, value: T) | RolledBack(error: Error)

  predicate Terminal(s: ActionStatus) {
    s.Succeeded? || s.Failed? || s.Unknown?
  }

  /** `_claim_predicate`: the action is running under exactly this claim. */
  predicate Current(t: Tables, c: Claim) {
    && c.action in t.actions
    && t.actions[c.action].status.Running?
    && t.actions[c.action].claim == Some(c.id)
  }

  /** The draft whose active send proposal is `id`. Only send proposals are ever active, and a send
      proposal's id names its draft; `FindDraftFindsActive` says this is the same as searching. */
  function FindDraft(t: Tables, id: ProposalId): Option<string> {
    if id.Send? && id.root in t.drafts && t.drafts[id.root].active == id then Some(id.root) else None
  }

  /** `_managed_draft_for_proposal` */
  function ManagedFor(t: Tables, id: ProposalId, capability: Capability, supersedes: Option<ProposalId>): Option<string> {
    if capability.SendDraft? then FindDraft(t, id)
    else if supersedes.None? then None
    else FindDraft(t, supersedes.value)
  }

  /** The approval row holding this callback digest. */
  ghost function FindApproval(t: Tables, token: nat): Option<ProposalId> {
    if exists id :: id in t.approvals && t.approvals[id].token == token
    then var id :| id in t.approvals && t.approvals[id].token == token; Some(id)
    else None
  }

  predicate TokenUsed(t: Tables, token: nat) {
    exists id :: id in t.approvals && t.approvals[id].token == token
  }

  predicate ProviderDraftUsed(t: Tables, provider: ProviderDraft) {
    exists root :: root in t.drafts && t.drafts[root].provider == provider
  }

  /** The active revision session of a Telegram account. */
  ghost function FindSession(t: Tables, account: string): Option<ProposalId> {
    if exists id :: id in t.sessions && t.sessions[id].account == account && t.sessions[id].status.Active?
    then var id :| id in t.sessions && t.sessions[id].account == account && t.sessions[id].status.Active?; Some(id)
    else None
  }
}
