/** What every transaction keeps true of the tables. Everything about one draft shares a root, so the
    invariant is stated root by root and a transaction has to answer for one root only. */
module ActionInvariant {
  import opened Wrappers
  import opened CanonicalEmail
  import opened ActionTables

  // ----- Lockstep of the four statuses -----------------------------------------------------------

  /** The status of a create, update or delete proposal while its action has status `a`. */
  function PlainProposalStatus(a: ActionStatus): ProposalStatus {
    match a
    case Queued => ProposalStatus.Queued
    case Running => ProposalStatus.Queued
    case Succeeded => ProposalStatus.Completed
    case _ => ProposalStatus.Failed
  }

  function SendProposalStatus(a: ActionStatus): ProposalStatus {
    match a
    case Queued => ProposalStatus.Approved
    case Running => ProposalStatus.Approved
    case Succeeded => ProposalStatus.Completed
    case _ => ProposalStatus.Failed
  }

  function DraftStatusUnder(c: Capability, a: ActionStatus): DraftStatus {
    match a
    case Failed => DraftStatus.Ready
    case Unknown => DraftStatus.Unknown
    case Succeeded =>
      (match c
       case SendDraft => DraftStatus.Sent
       case DeleteDraft => DraftStatus.Deleted
       case _ => DraftStatus.Ready)
    case _ =>
      match c
      case SendDraft => DraftStatus.Sending
      case DeleteDraft => DraftStatus.Deleting
      case UpdateDraft => DraftStatus.Updating
      case CreateDraft => DraftStatus.Creating
  }

  // ----- One root ---------------------------------------------------------------------------------

  predicate HasVersion(t: Tables, r: string, k: nat) {
    r in t.drafts && 1 <= k <= t.drafts[r].version
  }

  /** Which rows exist: a draft once its creation succeeded, send versions 1..n with no gap, updates
      and revision sessions for existing versions only, a send action for version n only. */
  ghost predicate Roster(t: Tables, r: string) {
    && (Create(r) in t.proposals <==> Create(r) in t.actions)
    && (r in t.drafts <==> Create(r) in t.actions && t.actions[Create(r)].status.Succeeded?)
    && (r in t.drafts ==> t.drafts[r].version >= 1)
    && (forall k: nat :: Send(r, k) in t.proposals <==> HasVersion(t, r, k))
    && (forall k: nat :: Send(r, k) in t.approvals <==> HasVersion(t, r, k))
    && (forall k: nat :: Send(r, k) in t.actions ==> r in t.drafts && k == t.drafts[r].version)
    && (forall k: nat :: Send(r, k) in t.sessions ==> HasVersion(t, r, k))
    && (forall k: nat :: Update(r, k) in t.proposals <==> Update(r, k) in t.actions)
    && (forall k: nat :: Update(r, k) in t.proposals ==> HasVersion(t, r, k))
    && (Delete(r) in t.proposals <==> Delete(r) in t.actions)
    && (Delete(r) in t.proposals ==> r in t.drafts)
  }

  /** The stored form is canonical and carries its own hash. */
  predicate Stored(canon: Email -> Option<Email>, p: Proposal) {
    canon(p.parameters) == Some(p.parameters) && p.hash == Sha256(p.parameters)
  }

  /** A later proposal about the draft `c` created: same connector, same thread, same message terms. */
  predicate Descends(canon: Email -> Option<Email>, p: Proposal, c: Proposal) {
    Stored(canon, p) && p.connector == c.connector && SameThread(p.parameters, c.parameters)
  }

  predicate CreateTerms(canon: Email -> Option<Email>, t: Tables, r: string)
    requires Create(r) in t.proposals
  {
    var p := t.proposals[Create(r)];
    && p.capability.CreateDraft? && p.decision.Allow? && p.supersedes.None? && Stored(canon, p)
    && (Create(r) in t.actions ==> t.actions[Create(r)].capability.CreateDraft?)
  }

  predicate SendTerms(canon: Email -> Option<Email>, t: Tables, r: string, k: nat)
    requires Create(r) in t.proposals && Send(r, k) in t.proposals && Send(r, k) in t.approvals
  {
    var p, a := t.proposals[Send(r, k)], t.approvals[Send(r, k)];
    && p.capability.SendDraft? && p.decision.RequireApproval? && p.version == k
    && Descends(canon, p, t.proposals[Create(r)])
    && a.hash == p.hash && p.expiresAt == Some(a.expiresAt)
    && (Send(r, k) in t.actions ==> t.actions[Send(r, k)].capability.SendDraft?)
  }

  predicate UpdateTerms(canon: Email -> Option<Email>, t: Tables, r: string, k: nat)
    requires Create(r) in t.proposals && Update(r, k) in t.proposals
  {
    var p := t.proposals[Update(r, k)];
    && p.capability.UpdateDraft? && p.decision.Allow? && p.supersedes == Some(Send(r, k)) && p.version == k + 1
    && p.origin.TelegramUser? && p.expiresAt.None?
    && Descends(canon, p, t.proposals[Create(r)])
    && (Update(r, k) in t.actions ==> t.actions[Update(r, k)].capability.UpdateDraft?)
  }

  predicate DeleteTerms(canon: Email -> Option<Email>, t: Tables, r: string)
    requires Create(r) in t.proposals && Delete(r) in t.proposals && r in t.drafts
  {
    var p := t.proposals[Delete(r)];
    && p.capability.DeleteDraft? && p.decision.Allow? && p.supersedes == Some(Send(r, t.drafts[r].version))
    && p.origin.TelegramUser? && p.expiresAt.None?
    && Descends(canon, p, t.proposals[Create(r)])
    && (Delete(r) in t.actions ==> t.actions[Delete(r)].capability.DeleteDraft?)
  }

  /** What every proposal, approval and draft of the root says, whatever its status. */
  ghost predicate Terms(canon: Email -> Option<Email>, t: Tables, r: string)
    requires Roster(t, r)
  {
    && (Create(r) in t.proposals ==> CreateTerms(canon, t, r))
    && (r in t.drafts ==>
          && t.drafts[r].active == Send(r, t.drafts[r].version)
          && t.drafts[r].hash == t.proposals[Send(r, t.drafts[r].version)].hash
          && t.drafts[r].provider.connector == t.proposals[Create(r)].connector
          && (forall k: nat :: Send(r, k) in t.proposals ==> SendTerms(canon, t, r, k))
          && (forall k: nat :: Update(r, k) in t.proposals ==> UpdateTerms(canon, t, r, k))
          && (Delete(r) in t.proposals ==> DeleteTerms(canon, t, r)))
  }

  /** A replaced version: its approval can never be granted, and its update went through. */
  predicate PastVersion(t: Tables, r: string, k: nat) {
    var s, u := Send(r, k), Update(r, k);
    && s in t.approvals && t.approvals[s].status.Superseded?
    && s in t.proposals && t.proposals[s].status.Superseded?
    && u in t.actions && t.actions[u].status.Succeeded?
    && u in t.proposals && t.proposals[u].status.Completed?
    && s in t.sessions && t.sessions[s].status.Completed?
  }

  predicate HasStatus(t: Tables, id: ProposalId, s: ProposalStatus) {
    id in t.proposals && t.proposals[id].status == s
  }

  /** The newest version, by the state of its approval. */
  predicate NewestVersion(t: Tables, r: string, k: nat)
    requires r in t.drafts && Send(r, k) in t.approvals
  {
    var s, u, d := Send(r, k), Update(r, k), Delete(r);
    var draft := t.drafts[r].status;
    match t.approvals[s].status
    case Pending =>
      && HasStatus(t, s, ProposalStatus.WaitingApproval) && draft.Ready?
      && s !in t.actions && u !in t.actions && d !in t.actions && s !in t.sessions
    case Expired =>
      && HasStatus(t, s, ProposalStatus.Expired) && draft.Ready?
      && s !in t.actions && u !in t.actions && d !in t.actions && s !in t.sessions
    case Granted =>
      && s in t.actions && u !in t.actions && d !in t.actions && s !in t.sessions
      && HasStatus(t, s, SendProposalStatus(t.actions[s].status))
      && draft == DraftStatusUnder(Capability.SendDraft, t.actions[s].status)
    case Rejected =>
      && HasStatus(t, s, ProposalStatus.Cancelled)
      && s !in t.actions && u !in t.actions && d in t.actions && s !in t.sessions
      && HasStatus(t, d, PlainProposalStatus(t.actions[d].status))
      && draft == DraftStatusUnder(Capability.DeleteDraft, t.actions[d].status)
    case Superseded =>
      && HasStatus(t, s, ProposalStatus.Superseded) && s !in t.actions && d !in t.actions
      && if u in t.actions then
           && s in t.sessions && t.sessions[s].status.Completed?
           && !t.actions[u].status.Succeeded?
           && HasStatus(t, u, PlainProposalStatus(t.actions[u].status))
           && draft == DraftStatusUnder(Capability.UpdateDraft, t.actions[u].status)
         else
           draft.Ready? && (s in t.sessions ==> !t.sessions[s].status.Completed?)
  }

  /** The statuses of the root's proposals, approvals, actions, draft and sessions move together. */
  ghost predicate Lockstep(t: Tables, r: string)
    requires Roster(t, r)
  {
    && (Create(r) in t.actions ==> HasStatus(t, Create(r), PlainProposalStatus(t.actions[Create(r)].status)))
    && (r in t.drafts ==>
          && (forall k: nat :: 1 <= k < t.drafts[r].version ==> PastVersion(t, r, k))
          && NewestVersion(t, r, t.drafts[r].version))
  }

  ghost predicate FamilyOk(canon: Email -> Option<Email>, t: Tables, r: string) {
    Roster(t, r) && Terms(canon, t, r) && Lockstep(t, r)
  }

  // ----- Rows on their own, and uniqueness --------------------------------------------------------

  predicate ActionOk(t: Tables, id: ProposalId)
    requires id in t.actions
  {
    var a := t.actions[id];
    && (Terminal(a.status) <==> id in t.results)
    && (id in t.results ==> t.results[id] == a.status)
    && (a.status.Running? <==> a.claim.Some?) && (a.status.Running? <==> a.lease.Some?)
    && (a.status.Queued? ==> a.started.None?)
  }

  ghost predicate UniqueTokens(t: Tables) {
    forall i, j :: i in t.approvals && j in t.approvals && t.approvals[i].token == t.approvals[j].token ==> i == j
  }

  ghost predicate UniqueProviderDrafts(t: Tables) {
    forall r, q :: r in t.drafts && q in t.drafts && t.drafts[r].provider == t.drafts[q].provider ==> r == q
  }

  ghost predicate OneActiveSession(t: Tables) {
    forall i, j ::
      (i in t.sessions && j in t.sessions
       && t.sessions[i].status.Active? && t.sessions[j].status.Active?
       && t.sessions[i].account == t.sessions[j].account) ==> i == j
  }

  ghost predicate Shapes(t: Tables) {
    && (forall id :: id in t.approvals ==> id.Send?)
    && (forall id :: id in t.sessions ==> id.Send?)
    && t.results.Keys <= t.actions.Keys
  }

  ghost predicate RowsOk(t: Tables) {
    && (forall id :: id in t.actions ==> ActionOk(t, id))
    && Shapes(t) && UniqueTokens(t) && UniqueProviderDrafts(t) && OneActiveSession(t)
  }

  ghost predicate TablesOk(canon: Email -> Option<Email>, t: Tables) {
    RowsOk(t) && forall r: string :: FamilyOk(canon, t, r)
  }

  // ----- Framing ----------------------------------------------------------------------------------

  predicate SessionClosed(s: Session, s': Session) {
    s' == s || (s.status.Active? && (s'.status.Expired? || s'.status.Cancelled?) && s'.account == s.account)
  }

  /** `t'` tells the same story about `r`, up to callback tokens and sessions that lapsed. */
  ghost predicate Agree(t: Tables, t': Tables, r: string) {
    && (forall id: ProposalId :: id.root == r ==>
          && (id in t.proposals <==> id in t'.proposals)
          && (id in t.proposals ==> t'.proposals[id] == t.proposals[id]))
    && (forall id: ProposalId :: id.root == r ==>
          && (id in t.actions <==> id in t'.actions)
          && (id in t.actions ==> t'.actions[id] == t.actions[id]))
    && (forall id: ProposalId :: id.root == r ==>
          && (id in t.approvals <==> id in t'.approvals)
          && (id in t.approvals ==> t.approvals[id] == t'.approvals[id].(token := t.approvals[id].token)))
    && (forall id: ProposalId :: id.root == r ==>
          && (id in t.sessions <==> id in t'.sessions)
          && (id in t.sessions ==> SessionClosed(t.sessions[id], t'.sessions[id])))
    && (r in t.drafts <==> r in t'.drafts)
    && (r in t.drafts ==> t'.drafts[r] == t.drafts[r])
  }

  lemma AgreeKeepsTerms(canon: Email -> Option<Email>, t: Tables, t': Tables, r: string)
    requires Roster(t, r) && Roster(t', r) && Terms(canon, t, r) && Agree(t, t', r)
    ensures Terms(canon, t', r)
  {
    forall k: nat | Send(r, k) in t'.proposals && r in t.drafts
      ensures SendTerms(canon, t', r, k)
    {
      assert SendTerms(canon, t, r, k);
    }
    forall k: nat | Update(r, k) in t'.proposals && r in t.drafts
      ensures UpdateTerms(canon, t', r, k)
    {
      assert UpdateTerms(canon, t, r, k);
    }
  }

  lemma AgreeKeepsLockstep(t: Tables, t': Tables, r: string)
    requires Roster(t, r) && Roster(t', r) && Lockstep(t, r) && Agree(t, t', r)
    ensures Lockstep(t', r)
  {
    forall k: nat | r in t.drafts && 1 <= k < t.drafts[r].version
      ensures PastVersion(t', r, k)
    {
      assert PastVersion(t, r, k);
    }
  }

  lemma AgreeKeepsFamily(canon: Email -> Option<Email>, t: Tables, t': Tables, r: string)
    requires FamilyOk(canon, t, r) && Agree(t, t', r)
    ensures FamilyOk(canon, t', r)
  {
    assert Roster(t', r);
    AgreeKeepsTerms(canon, t, t', r);
    AgreeKeepsLockstep(t, t', r);
  }

  /** At most one action of a root is queued or running. */
  lemma OneLiveAction(t: Tables, i: ProposalId, j: ProposalId)
    requires Roster(t, i.root) && Lockstep(t, i.root)
    requires i.root == j.root && i in t.actions && j in t.actions
    requires !Terminal(t.actions[i].status) && !Terminal(t.actions[j].status)
    ensures i == j
  {
    LiveActionIsNewest(t, i);
    LiveActionIsNewest(t, j);
  }

  lemma LiveActionIsNewest(t: Tables, i: ProposalId)
    requires Roster(t, i.root) && Lockstep(t, i.root)
    requires i in t.actions && !Terminal(t.actions[i].status)
    ensures i.Create? <==> i.root !in t.drafts
    ensures i.Send? || i.Update? ==> i.version == t.drafts[i.root].version
    ensures i.root in t.drafts ==> !t.approvals[Send(i.root, t.drafts[i.root].version)].status.Pending?
  {
    var r := i.root;
    assert i.Update? ==> i in t.proposals;
    assert i.Update? && i.version < t.drafts[r].version ==> PastVersion(t, r, i.version);
  }

  /** No action of the root is queued or running. */
  ghost predicate Idle(t: Tables, r: string) {
    forall id :: id in t.actions && id.root == r ==> Terminal(t.actions[id].status)
  }

  /** A pending approval belongs to the newest version, and nothing of its root is under way. */
  lemma PendingIsNewestAndIdle(t: Tables, id: ProposalId)
    requires id.Send? && id in t.approvals && t.approvals[id].status.Pending?
    requires Roster(t, id.root) && Lockstep(t, id.root)
    ensures id.root in t.drafts && id == Send(id.root, t.drafts[id.root].version)
    ensures Idle(t, id.root)
  {
    var r := id.root;
    assert id.version < t.drafts[r].version ==> PastVersion(t, r, id.version);
    forall i | i in t.actions && i.root == r
      ensures Terminal(t.actions[i].status)
    {
      if !Terminal(t.actions[i].status) {
        LiveActionIsNewest(t, i);
      }
    }
  }

  /** So does an active revision session, whose send approval is superseded. */
  lemma ActiveSessionIsNewestAndIdle(t: Tables, id: ProposalId)
    requires id.Send? && id in t.sessions && t.sessions[id].status.Active?
    requires Roster(t, id.root) && Lockstep(t, id.root)
    ensures id.root in t.drafts && id == Send(id.root, t.drafts[id.root].version)
    ensures id in t.approvals && t.approvals[id].status.Superseded?
    ensures Update(id.root, id.version) !in t.proposals && Idle(t, id.root)
  {
    var r := id.root;
    assert id.version < t.drafts[r].version ==> PastVersion(t, r, id.version);
    forall i | i in t.actions && i.root == r
      ensures Terminal(t.actions[i].status)
    {
      if !Terminal(t.actions[i].status) {
        LiveActionIsNewest(t, i);
      }
    }
  }

  /** Following a send id to its draft is the same as searching the drafts for it. */
  lemma FindDraftFindsActive(canon: Email -> Option<Email>, t: Tables, id: ProposalId, r: string)
    requires TablesOk(canon, t)
    ensures FindDraft(t, id) == Some(r) <==> r in t.drafts && t.drafts[r].active == id
  {
    assert FamilyOk(canon, t, r);
  }
}
