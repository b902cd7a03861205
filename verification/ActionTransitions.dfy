/** Each transaction of `ActionRepository` as a function on the tables
    (src/eva_ai/actions/repository.py, and the approval card of src/eva_ai/notifications/repository.py).
    `ActionRepository.dfy` proves the row-by-row methods against these. */
module ActionTransitions {
  import opened Wrappers
  import opened CanonicalEmail
  import opened ActionTables

  // ----- Proposal intake -------------------------------------------------------------------------

  datatype NewProposal = NewProposal(
    root: string,
    capability: Capability,
    supersedes: Option<ProposalId>,
    origin: Origin,
    message: Email,
    decision: PolicyDecision,
    connector: string,
    situation: Option<string>,
    expiresAt: Option<Time>)

  function NewAction(capability: Capability): Action {
    Action(capability, ActionStatus.Queued, None, None, 0, None)
  }

  /** `_queue_action_in_session`; the primary key refuses a second action for one proposal. */
  function QueueAction(t: Tables, id: ProposalId): Option<Tables> {
    if id in t.actions || id !in t.proposals then None
    else Some(t.(actions := t.actions[id := NewAction(t.proposals[id].capability)]))
  }

  function CreateAllowedAction(t: Tables, p: NewProposal): Tx<ProposalId> {
    var id := Create(p.root);
    if !p.decision.Allow? || p.capability.SendDraft? then RolledBack(ValidationError)
    else if id in t.proposals then
      if id in t.actions then Committed(t, id) else RolledBack(ConflictError)
    else if p.connector !in t.connectors then RolledBack(ScopeError)
    else
      var row := Proposal(p.capability, p.supersedes, p.origin, p.message, Sha256(p.message), p.decision,
                          ProposalStatus.Queued, 1, p.connector, p.situation, p.expiresAt);
      match QueueAction(t.(proposals := t.proposals[id := row]), id)
      case None => RolledBack(ScopeError)
      case Some(t') => Committed(t', id)
  }

  // ----- Claims ------------------------------------------------------------------------------------

  datatype ClaimResult = NothingToDo | Busy | OutcomeUnknown | Claimed(claim: Claim)

  function SetAction(t: Tables, id: ProposalId, a: Action): Tables {
    t.(actions := t.actions[id := a])
  }

  function SetProposalStatus(t: Tables, id: ProposalId, s: ProposalStatus): Tables {
    if id !in t.proposals then t
    else t.(proposals := t.proposals[id := t.proposals[id].(status := s)])
  }

  function SetDraftStatus(t: Tables, root: Option<string>, s: DraftStatus): Tables {
    if root.None? || root.value !in t.drafts then t
    else t.(drafts := t.drafts[root.value := t.drafts[root.value].(status := s)])
  }

  /** Close an action: its row, its one result and its proposal. A second result for the action would
      violate the primary key and undo the whole transaction. */
  function Close(t: Tables, id: ProposalId, status: ActionStatus, proposal: ProposalStatus): Tables
    requires id in t.actions
  {
    if id in t.results then t
    else
      var a := t.actions[id].(status := status, claim := None, lease := None);
      SetProposalStatus(SetAction(t, id, a).(results := t.results[id := status]), id, proposal)
  }

  /** Close an action that did not succeed, and settle the draft it was about. */
  function CloseFailed(t: Tables, id: ProposalId, status: ActionStatus, draft: DraftStatus): Tables
    requires id in t.actions
  {
    if id in t.results then t
    else
      var t1 := Close(t, id, status, ProposalStatus.Failed);
      if id !in t.proposals then t1
      else SetDraftStatus(t1, ManagedFor(t, id, t.proposals[id].capability, t.proposals[id].supersedes), draft)
  }

  function ClaimAction(t: Tables, id: ProposalId, now: Time, leaseSeconds: int, claimId: nat): (Tables, ClaimResult) {
    if id !in t.actions || Terminal(t.actions[id].status) then (t, NothingToDo)
    else
      var a := t.actions[id];
      if a.status.Running? && a.lease.Some? && a.lease.value > now then (t, Busy)
      else if a.status.Running? && a.started.Some? then
        (CloseFailed(t, id, ActionStatus.Unknown, DraftStatus.Unknown), OutcomeUnknown)
      else
        var running := a.(status := ActionStatus.Running, claim := Some(claimId),
                          lease := Some(now + leaseSeconds), attempts := a.attempts + 1);
        (SetAction(t, id, running), Claimed(Claim(id, claimId, a.capability)))
  }

  function MarkStarted(t: Tables, c: Claim, now: Time): (Tables, bool) {
    if Current(t, c) && t.actions[c.action].started.None?
    then (SetAction(t, c.action, t.actions[c.action].(started := Some(now))), true)
    else (t, false)
  }

  function ReleaseBeforeProvider(t: Tables, c: Claim): Tables {
    if Current(t, c) && t.actions[c.action].started.None?
    then SetAction(t, c.action, t.actions[c.action].(status := ActionStatus.Queued, claim := None, lease := None))
    else t
  }

  /** `fail_validation` */
  function FailValidation(t: Tables, c: Claim): Tables {
    if Current(t, c) then CloseFailed(t, c.action, ActionStatus.Failed, DraftStatus.Ready) else t
  }

  function MarkUnknown(t: Tables, c: Claim): Tables {
    if Current(t, c) then CloseFailed(t, c.action, ActionStatus.Unknown, DraftStatus.Unknown) else t
  }

  function MarkUnavailable(t: Tables, c: Claim, connector: string, readAccessPreserved: bool): Tables {
    if !Current(t, c) then t
    else
      var t1 := CloseFailed(t, c.action, ActionStatus.Failed, DraftStatus.Ready);
      if connector !in t.connectors || readAccessPreserved || c.action in t.results then t1
      else t1.(connectors := t.connectors[connector := t.connectors[connector].(status := ConnectorStatus.ReauthorizationRequired)])
  }

  // ----- Completions -------------------------------------------------------------------------------

  /** What a completion supplies for the next send approval. */
  datatype NextApproval = NextApproval(principal: Principal, token: nat, expiresAt: Time)

  const NEW_NOTICE: Notice := Notice(NoticeStatus.Pending, None, None, 0, None)

  function SendProposal(from: Proposal, supersedes: Option<ProposalId>, version: nat, message: Email, expiresAt: Time): Proposal {
    Proposal(Capability.SendDraft, supersedes, from.origin, message, from.hash, PolicyDecision.RequireApproval,
             ProposalStatus.WaitingApproval, version, from.connector, from.situation, Some(expiresAt))
  }

  /** Insert the send proposal, its pending approval and the notification that will show it. */
  function AddSendVersion(t: Tables, id: ProposalId, p: Proposal, next: NextApproval): Option<Tables> {
    if id in t.proposals || id in t.approvals || TokenUsed(t, next.token) then None
    else
      var approval := Approval(p.hash, next.principal, ApprovalStatus.Pending, next.token, next.expiresAt);
      Some(t.(proposals := t.proposals[id := p],
              approvals := t.approvals[id := approval],
              notices := if id in t.notices then t.notices else t.notices[id := NEW_NOTICE]))
  }

  function CompleteCreate(canon: Email -> Option<Email>, t: Tables, c: Claim, draftId: string, next: NextApproval, now: Time): Tx<()> {
    if !Current(t, c) || c.action !in t.proposals then RolledBack(ConflictError)
    else
      var p := t.proposals[c.action];
      var root := c.action.root;
      var provider := ProviderDraft(p.connector, draftId);
      if !t.actions[c.action].capability.CreateDraft? then RolledBack(ValidationError)
      else
        match canon(p.parameters)
        case None => RolledBack(RecordError)
        case Some(message) =>
          var send := Send(root, 1);
          if c.action in t.results || root in t.drafts || ProviderDraftUsed(t, provider) || next.expiresAt <= now
          then RolledBack(IntegrityError)
          else
            var t1 := Close(t, c.action, ActionStatus.Succeeded, ProposalStatus.Completed);
            match AddSendVersion(t1, send, SendProposal(p, None, 1, message, next.expiresAt), next)
            case None => RolledBack(IntegrityError)
            case Some(t2) =>
              Committed(t2.(drafts := t2.drafts[root := Draft(provider, send, 1, p.hash, DraftStatus.Ready)]), ())
  }

  function CompleteUpdate(canon: Email -> Option<Email>, t: Tables, c: Claim, draftId: string, next: NextApproval, now: Time): Tx<()> {
    if !Current(t, c) || c.action !in t.proposals then RolledBack(ConflictError)
    else
      var p := t.proposals[c.action];
      if !t.actions[c.action].capability.UpdateDraft? || p.supersedes.None? then RolledBack(ValidationError)
      else
        var found := FindDraft(t, p.supersedes.value);
        if found.None? || t.drafts[found.value].provider.draftId != draftId then RolledBack(ValidationError)
        else
          match canon(p.parameters)
          case None => RolledBack(RecordError)
          case Some(message) =>
            var d := t.drafts[found.value];
            var send := Send(found.value, d.version + 1);
            if c.action in t.results || next.expiresAt <= now then RolledBack(IntegrityError)
            else
              var t1 := Close(t, c.action, ActionStatus.Succeeded, ProposalStatus.Completed);
              match AddSendVersion(t1, send, SendProposal(p, p.supersedes, d.version + 1, message, next.expiresAt), next)
              case None => RolledBack(IntegrityError)
              case Some(t2) =>
                var d' := d.(active := send, version := d.version + 1, hash := p.hash, status := DraftStatus.Ready);
                Committed(t2.(drafts := t2.drafts[found.value := d']), ())
  }

  /** `_complete_managed_action`: `finished` is Sent for a send and Deleted for a delete. */
  function CompleteManaged(t: Tables, c: Claim, draftId: string, finished: DraftStatus): Tx<()> {
    if !Current(t, c) || c.action !in t.proposals then RolledBack(ConflictError)
    else
      var found := ManagedFor(t, c.action, c.capability, t.proposals[c.action].supersedes);
      if found.None? || t.drafts[found.value].provider.draftId != draftId then RolledBack(ValidationError)
      else if c.action in t.results then RolledBack(IntegrityError)
      else
        var t1 := Close(t, c.action, ActionStatus.Succeeded, ProposalStatus.Completed);
        Committed(SetDraftStatus(t1, found, finished), ())
  }

  // ----- The user's decisions ----------------------------------------------------------------------

  datatype Decision = NotWaiting(action: Option<ProposalId>) | TooLate | Stale | Accepted

  /** Settle an approval and its send proposal together. */
  function Decide(t: Tables, id: ProposalId, approval: ApprovalStatus, proposal: ProposalStatus): Tables
    requires id in t.approvals
  {
    SetProposalStatus(t.(approvals := t.approvals[id := t.approvals[id].(status := approval)]), id, proposal)
  }

  /** The approval this press is about, provided it came from the bound account and chat. */
  ghost function Addressed(t: Tables, token: nat, who: Principal): Option<ProposalId> {
    match FindApproval(t, token)
    case None => None
    case Some(id) => if id in t.proposals && t.approvals[id].principal == who then Some(id) else None
  }

  /** The draft is still exactly what the approval is about. */
  predicate Fresh(t: Tables, id: ProposalId)
    requires id in t.approvals && id in t.proposals
  {
    && FindDraft(t, id).Some?
    && t.drafts[id.root].hash == t.proposals[id].hash
    && t.approvals[id].hash == t.proposals[id].hash
  }

  ghost function GrantAndQueueSend(t: Tables, token: nat, who: Principal, now: Time): Tx<Decision> {
    match Addressed(t, token, who)
    case None => RolledBack(ScopeError)
    case Some(id) =>
      var existing := if id in t.actions then Some(id) else None;
      if !t.approvals[id].status.Pending? then Committed(t, NotWaiting(existing))
      else if now >= t.approvals[id].expiresAt then
        Committed(Decide(t, id, ApprovalStatus.Expired, ProposalStatus.Expired), TooLate)
      else if !Fresh(t, id) then
        Committed(Decide(t, id, ApprovalStatus.Superseded, ProposalStatus.Superseded), Stale)
      else
        match QueueAction(Decide(t, id, ApprovalStatus.Granted, ProposalStatus.Approved), id)
        case None => RolledBack(IntegrityError)
        case Some(t1) => Committed(SetDraftStatus(t1, Some(id.root), DraftStatus.Sending), Accepted)
  }

  ghost function SupersedeSendApproval(t: Tables, token: nat, who: Principal): Tx<()> {
    match Addressed(t, token, who)
    case None => RolledBack(ScopeError)
    case Some(id) =>
      if t.approvals[id].status.Pending?
      then Committed(Decide(t, id, ApprovalStatus.Superseded, ProposalStatus.Superseded), ())
      else Committed(t, ())
  }

  function CancelSessions(sessions: map<ProposalId, Session>, account: string): map<ProposalId, Session> {
    map id | id in sessions ::
      if sessions[id].account == account && sessions[id].status.Active?
      then sessions[id].(status := SessionStatus.Cancelled)
      else sessions[id]
  }

  ghost function OpenRevision(t: Tables, token: nat, who: Principal, ttl: int, now: Time): Tx<Decision> {
    if ttl <= 0 then RolledBack(ValidationError)
    else
      match Addressed(t, token, who)
      case None => RolledBack(ScopeError)
      case Some(id) =>
        if !t.approvals[id].status.Pending? then Committed(t, NotWaiting(None))
        else if now >= t.approvals[id].expiresAt then
          Committed(Decide(t, id, ApprovalStatus.Expired, ProposalStatus.Expired), TooLate)
        else if t.proposals[id].situation.None? then RolledBack(ValidationError)
        else if !Fresh(t, id) then
          Committed(Decide(t, id, ApprovalStatus.Superseded, ProposalStatus.Superseded), Stale)
        else if id in t.sessions then RolledBack(IntegrityError)
        else
          var t1 := Decide(t, id, ApprovalStatus.Superseded, ProposalStatus.Superseded);
          var session := Session(who.account, SessionStatus.Active, now + ttl);
          Committed(t1.(sessions := CancelSessions(t.sessions, who.account)[id := session]), Accepted)
  }

  /** The draft a revision session is about still carries the session's send proposal. */
  predicate RevisionAvailable(t: Tables, id: ProposalId) {
    && id in t.proposals
    && id.root in t.drafts
    && t.drafts[id.root].active == id
    && t.drafts[id.root].hash == t.proposals[id].hash
  }

  datatype Lookup = NoRevision | RevisionExpired | RevisionActive(session: ProposalId, current: Email)

  ghost function LoadRevision(canon: Email -> Option<Email>, t: Tables, account: string, now: Time): Tx<Lookup> {
    match FindSession(t, account)
    case None => Committed(t, NoRevision)
    case Some(id) =>
      if now >= t.sessions[id].expiresAt then
        Committed(t.(sessions := t.sessions[id := t.sessions[id].(status := SessionStatus.Expired)]), RevisionExpired)
      else if !RevisionAvailable(t, id) then RolledBack(ScopeError)
      else
        match canon(t.proposals[id].parameters)
        case None => RolledBack(RecordError)
        case Some(message) => Committed(t, RevisionActive(id, message))
  }

  function CompleteRevision(t: Tables, id: ProposalId, replacement: Email, now: Time): Tx<ProposalId> {
    if id !in t.sessions || !t.sessions[id].status.Active? then RolledBack(ScopeError)
    else if now >= t.sessions[id].expiresAt then RolledBack(ValidationError)
    else if !RevisionAvailable(t, id) || !id.Send? then RolledBack(ScopeError)
    else
      var send := t.proposals[id];
      var update := Update(id.root, id.version);
      if update in t.proposals then RolledBack(IntegrityError)
      else
        var row := Proposal(Capability.UpdateDraft, Some(id), Origin.TelegramUser, replacement, Sha256(replacement),
                            PolicyDecision.Allow, ProposalStatus.Queued, t.drafts[id.root].version + 1,
                            send.connector, send.situation, None);
        match QueueAction(t.(proposals := t.proposals[update := row]), update)
        case None => RolledBack(IntegrityError)
        case Some(t1) =>
          var t2 := SetDraftStatus(t1, Some(id.root), DraftStatus.Updating);
          Committed(t2.(sessions := t2.sessions[id := t2.sessions[id].(status := SessionStatus.Completed)]), update)
  }

  /** The delete action already recorded against a send proposal, if any. */
  function ExistingDelete(t: Tables, id: ProposalId): Option<ProposalId> {
    var delete := Delete(id.root);
    if delete in t.proposals && t.proposals[delete].supersedes == Some(id) && delete in t.actions then Some(delete) else None
  }

  ghost function DiscardAndQueueDelete(t: Tables, token: nat, who: Principal, now: Time): Tx<Decision> {
    match Addressed(t, token, who)
    case None => RolledBack(ScopeError)
    case Some(id) =>
      if !t.approvals[id].status.Pending? then Committed(t, NotWaiting(ExistingDelete(t, id)))
      else if now >= t.approvals[id].expiresAt then
        Committed(Decide(t, id, ApprovalStatus.Expired, ProposalStatus.Expired), TooLate)
      else if !Fresh(t, id) then
        Committed(Decide(t, id, ApprovalStatus.Superseded, ProposalStatus.Superseded), Stale)
      else
        var delete := Delete(id.root);
        if delete in t.proposals then RolledBack(IntegrityError)
        else
          var send := t.proposals[id];
          var row := Proposal(Capability.DeleteDraft, Some(id), Origin.TelegramUser, send.parameters, send.hash,
                              PolicyDecision.Allow, ProposalStatus.Queued, 1, send.connector, send.situation, None);
          var t1 := Decide(t, id, ApprovalStatus.Rejected, ProposalStatus.Cancelled);
          match QueueAction(t1.(proposals := t1.proposals[delete := row]), delete)
          case None => RolledBack(IntegrityError)
          case Some(t2) => Committed(SetDraftStatus(t2, Some(id.root), DraftStatus.Deleting), Accepted)
  }

  // ----- Approval cards ----------------------------------------------------------------------------

  predicate NoticeCurrent(t: Tables, c: NoticeClaim) {
    && c.notice in t.notices
    && t.notices[c.notice].status.Sending?
    && t.notices[c.notice].claim == Some(c.id)
  }

  predicate NoticeEligible(n: Notice, now: Time) {
    match n.status
    case Pending => true
    case RetryableFailure => n.nextRetry.None? || n.nextRetry.value <= now
    case Sending => n.lease.Some? && n.lease.value <= now
    case _ => false
  }

  function ClaimNotice(t: Tables, id: ProposalId, now: Time, leaseSeconds: int, claimId: nat): (Tables, Option<NoticeClaim>) {
    if id !in t.notices || !NoticeEligible(t.notices[id], now) then (t, None)
    else
      var attempts := t.notices[id].attempts + 1;
      var n := Notice(NoticeStatus.Sending, Some(claimId), Some(now + leaseSeconds), attempts, None);
      (t.(notices := t.notices[id := n]), Some(NoticeClaim(id, claimId, attempts)))
  }

  /** What the user is shown: everything of the message except the provider-owned thread fields. */
  datatype Card = Card(
    mode: Mode, to: seq<string>, cc: seq<string>, bcc: seq<string>,
    subject: string, textBody: string, htmlBody: Option<string>, expiresAt: Time)

  function CardOf(m: Email, expiresAt: Time): Card {
    Card(m.mode, m.to, m.cc, m.bcc, m.subject, m.textBody, m.htmlBody, expiresAt)
  }

  /** The card says all of the message that the user is to approve, and until when. */
  predicate CardShows(card: Card, m: Email, expiresAt: Time) {
    && card.mode == m.mode && card.to == m.to && card.cc == m.cc && card.bcc == m.bcc
    && card.subject == m.subject && card.textBody == m.textBody && card.htmlBody == m.htmlBody
    && card.expiresAt == expiresAt
  }

  function PrepareApprovalCard(canon: Email -> Option<Email>, t: Tables, c: NoticeClaim, token: nat, now: Time): Tx<Card> {
    var id := c.notice;
    if !NoticeCurrent(t, c) || id !in t.approvals || id !in t.proposals || FindDraft(t, id).None?
    then RolledBack(ScopeError)
    else if || !t.approvals[id].status.Pending?
            || !t.proposals[id].status.WaitingApproval?
            || t.approvals[id].hash != t.proposals[id].hash
            || t.drafts[id.root].hash != t.proposals[id].hash
            || now >= t.approvals[id].expiresAt
    then RolledBack(ScopeError)
    else
      match canon(t.proposals[id].parameters)
      case None => RolledBack(RecordError)
      case Some(message) =>
        if TokenUsed(t, token) then RolledBack(IntegrityError)
        else
          Committed(t.(approvals := t.approvals[id := t.approvals[id].(token := token)]),
                    CardOf(message, t.approvals[id].expiresAt))
  }

  function MarkNoticeSent(t: Tables, c: NoticeClaim): Tx<()> {
    if !NoticeCurrent(t, c) then RolledBack(ConflictError)
    else
      var n := t.notices[c.notice].(status := NoticeStatus.Sent, claim := None, lease := None, nextRetry := None);
      Committed(t.(notices := t.notices[c.notice := n]), ())
  }

  function FailNotice(t: Tables, c: NoticeClaim, retryable: bool, maxAttempts: nat, nextRetry: Option<Time>): Tx<()> {
    if !NoticeCurrent(t, c) then RolledBack(ConflictError)
    else
      var again := retryable && c.attempts < maxAttempts;
      var n := t.notices[c.notice].(
        status := if again then NoticeStatus.RetryableFailure else NoticeStatus.PermanentFailure,
        claim := None, lease := None, nextRetry := if again then nextRetry else None);
      Committed(t.(notices := t.notices[c.notice := n]), ())
  }

  /** `NotificationRepository.retry`: an operator puts a failed notice back in line. */
  function RetryNotice(t: Tables, id: ProposalId): Tx<()> {
    if id !in t.notices then RolledBack(ScopeError)
    else if !t.notices[id].status.RetryableFailure? && !t.notices[id].status.PermanentFailure? then RolledBack(ConflictError)
    else Committed(t.(notices := t.notices[id := t.notices[id].(status := NoticeStatus.Pending, nextRetry := None)]), ())
  }
}
