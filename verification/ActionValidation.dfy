/** The authority check never wrongly denies what the repository itself queued. */
module ActionValidation {
  import opened Wrappers
  import opened CanonicalEmail
  import opened ActionTables
  import opened ActionInvariant
  import opened ActionExecutor

  /** The connector is active, may compose, and has a secret. */
  predicate Usable(c: Connector) {
    c.status == ConnectorStatus.Active && c.compose && c.secret.Some? && c.secret.value != ""
  }

  /** The send proposal was granted exactly, for this draft as it is, and the grant is still in time. */
  predicate GrantedExactly(s: Subject, now: Time) {
    && s.approval.Some? && s.approval.value.status == ApprovalStatus.Granted && now < s.approval.value.expiresAt
    && s.managed.Some? && s.managed.value.active == s.claim.action
    && s.approval.value.hash == s.proposal.hash == s.managed.value.hash
  }

  /** What the check asks of a subject, whatever subject it is. */
  predicate Passes(s: Subject, now: Time) {
    var c, p := s.claim.capability, s.proposal;
    && p.capability == c && Usable(s.connector) && p.hash == Sha256(s.message)
    && (p.expiresAt.Some? ==> now < p.expiresAt.value)
    && (s.managed.Some? ==> s.managed.value.provider.connector == p.connector)
    && match c
       case CreateDraft => p.decision.Allow? && p.status.Queued? && s.telegram.Some?
       case UpdateDraft => p.decision.Allow? && p.status.Queued? && s.telegram.Some? && s.managed.Some?
       case SendDraft => p.decision.RequireApproval? && p.status.Approved? && GrantedExactly(s, now)
       case DeleteDraft => p.decision.Allow? && p.status.Queued? && s.managed.Some? && p.origin.TelegramUser?
  }

  /** The check lets exactly that pass, calls a connector that is no use unavailable, and denies everything else. */
  lemma CheckedExactly(s: Subject, now: Time)
    ensures Revalidate(s, now).Authorized? <==> Passes(s, now)
    ensures Revalidate(s, now).AuthorizationUnavailable? <==> s.proposal.capability == s.claim.capability && !Usable(s.connector)
  {
  }

  /** Everything outside the action tables that the check depends on. */
  predicate Circumstances(s: Subject, now: Time) {
    && Usable(s.connector)
    && (s.proposal.expiresAt.None? || now < s.proposal.expiresAt.value)
    && (s.claim.capability.CreateDraft? || s.claim.capability.UpdateDraft? ==> s.telegram.Some?)
  }

  /** The subject is what the tables say about the claimed action. */
  predicate Reads(canon: Email -> Option<Email>, t: Tables, s: Subject) {
    && Current(t, s.claim) && s.claim.action in t.proposals
    && s.claim.capability == t.actions[s.claim.action].capability
    && s.proposal == t.proposals[s.claim.action]
    && s.managed == LookupDraft(t, s.claim, s.proposal)
    && s.approval == LookupApproval(t, s.claim)
    && canon(s.proposal.parameters) == Some(s.message)
  }

  lemma SendIsAuthorized(canon: Email -> Option<Email>, t: Tables, s: Subject, now: Time)
    requires FamilyOk(canon, t, s.claim.action.root) && Reads(canon, t, s) && s.claim.action.Send?
    ensures Revalidate(s, now).Authorized? <==> Circumstances(s, now)
  {
    var id := s.claim.action;
    LiveActionIsNewest(t, id);
    assert SendTerms(canon, t, id.root, id.version);
  }

  lemma UpdateIsAuthorized(canon: Email -> Option<Email>, t: Tables, s: Subject, now: Time)
    requires FamilyOk(canon, t, s.claim.action.root) && Reads(canon, t, s) && s.claim.action.Update?
    ensures Revalidate(s, now).Authorized? <==> Circumstances(s, now)
  {
    var id := s.claim.action;
    LiveActionIsNewest(t, id);
    assert UpdateTerms(canon, t, id.root, id.version);
  }

  lemma CreateOrDeleteIsAuthorized(canon: Email -> Option<Email>, t: Tables, s: Subject, now: Time)
    requires FamilyOk(canon, t, s.claim.action.root) && Reads(canon, t, s) && (s.claim.action.Create? || s.claim.action.Delete?)
    ensures Revalidate(s, now).Authorized? <==> Circumstances(s, now)
  {
  }

  /** An action the repository queued passes the check exactly when the circumstances outside the
      action tables allow it: the tables themselves never make it fail. */
  lemma AuthorizedIffCircumstancesAllow(canon: Email -> Option<Email>, t: Tables, s: Subject, now: Time)
    requires TablesOk(canon, t) && Reads(canon, t, s)
    ensures Revalidate(s, now).Authorized? <==> Circumstances(s, now)
  {
    assert FamilyOk(canon, t, s.claim.action.root);
    match s.claim.action
    case Send(_, _) => SendIsAuthorized(canon, t, s, now);
    case Update(_, _) => UpdateIsAuthorized(canon, t, s, now);
    case _ => CreateOrDeleteIsAuthorized(canon, t, s, now);
  }
}
