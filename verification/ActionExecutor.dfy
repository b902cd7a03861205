/** What one executor knows and decides (src/eva_ai/actions/executor.py): the reads that make up an
    execution subject, the authority check on it, and the replacement check of a revision
    (src/eva_ai/actions/service.py). */
module ActionExecutor {
  import opened Wrappers
  import opened CanonicalEmail
  import opened ActionTables
  import opened ActionPolicy

  datatype Subject = Subject(
    claim: Claim,
    proposal: Proposal,
    message: Email,
    connector: Connector,
    managed: Option<Draft>,
    approval: Option<Approval>,
    telegram: Option<Principal>)

  // ----- The reads, each a statement of its own -------------------------------------------------------

  function LookupDraft(t: Tables, c: Claim, p: Proposal): Option<Draft> {
    var found :=
      if c.capability.SendDraft? then FindDraft(t, c.action)
      else if (c.capability.UpdateDraft? || c.capability.DeleteDraft?) && p.supersedes.Some? then FindDraft(t, p.supersedes.value)
      else None;
    if found.None? then None else Some(t.drafts[found.value])
  }

  function LookupApproval(t: Tables, c: Claim): Option<Approval> {
    if c.capability.SendDraft? && c.action in t.approvals then Some(t.approvals[c.action]) else None
  }

  // ----- The authority check -----------------------------------------------------------------------

  datatype Verdict = Authorized | AuthorizationUnavailable | Denied

  /** `_has_exact_approval` */
  predicate HasExactApproval(s: Subject, now: Time) {
    && s.approval.Some? && s.managed.Some?
    && s.approval.value.status.Granted?
    && s.approval.value.hash == s.proposal.hash
    && s.managed.value.active == s.claim.action
    && s.managed.value.hash == s.proposal.hash
    && now < s.approval.value.expiresAt
  }

  predicate ConnectorUsable(c: Connector) {
    c.status.Active? && c.compose && c.secret.Some? && c.secret.value != ""
  }

  function ExpectedDecision(c: Capability): PolicyDecision {
    if c.SendDraft? then RequireApproval else Allow
  }

  function ContextOf(s: Subject, now: Time): PolicyContext {
    PolicyContext(true, s.managed.Some?, s.proposal.origin.TelegramUser? && s.claim.capability.DeleteDraft?, HasExactApproval(s, now))
  }

  /** `_revalidate` */
  function Revalidate(s: Subject, now: Time): Verdict {
    var c, p := s.claim.capability, s.proposal;
    if c != p.capability then Denied
    else if !ConnectorUsable(s.connector) then AuthorizationUnavailable
    else if Sha256(s.message) != p.hash then Denied
    else if p.expiresAt.Some? && now >= p.expiresAt.value then Denied
    else if Evaluate(c, ContextOf(s, now)) != ExpectedDecision(c) || p.decision != ExpectedDecision(c) then Denied
    else if c.SendDraft? && (!p.status.Approved? || !HasExactApproval(s, now)) then Denied
    else if !c.SendDraft? && !p.status.Queued? then Denied
    else if (c.CreateDraft? || c.UpdateDraft?) && s.telegram.None? then Denied
    else if s.managed.Some? && s.managed.value.provider.connector != p.connector then Denied
    else Authorized
  }

  // ----- Revisions -----------------------------------------------------------------------------------

  datatype Candidate = Candidate(
    mode: Mode, to: seq<string>, cc: seq<string>, bcc: seq<string>, subject: string,
    textBody: string, htmlBody: Option<string>, threadId: Option<string>, attachments: seq<string>)

  /** `validate_replacement`: provider-owned thread fields come from the current message only. */
  function ValidateReplacement(canon: Email -> Option<Email>, current: Email, x: Candidate): Option<Email> {
    if x.mode != current.mode || x.threadId != current.threadId || x.attachments != [] then None
    else canon(Email(current.mode, x.to, x.cc, x.bcc, x.subject, x.textBody, x.htmlBody,
                     current.threadId, current.inReplyTo, current.references, []))
  }

  /** What is handed on to validation is the candidate's recipients, subject and bodies in the current thread, and
      only if the candidate claims mode and thread as they are and no attachment. */
  lemma ReplacementIsTheCandidate(canon: Email -> Option<Email>, current: Email, x: Candidate, raw: Email)
    requires raw.to == x.to && raw.cc == x.cc && raw.bcc == x.bcc && raw.subject == x.subject
    requires raw.textBody == x.textBody && raw.htmlBody == x.htmlBody && raw.attachments == [] && SameThread(raw, current)
    ensures ValidateReplacement(canon, current, x) ==
              if x.mode == current.mode && x.threadId == current.threadId && x.attachments == [] then canon(raw) else None
  {
  }

  /** An accepted replacement is canonical and stays in the conversation of the email it replaces. */
  lemma ReplacementKeepsThread(canon: Email -> Option<Email>, current: Email, x: Candidate)
    requires Canonicalizer(canon) && canon(current) == Some(current)
    requires ValidateReplacement(canon, current, x).Some?
    ensures var m := ValidateReplacement(canon, current, x).value;
            canon(m) == Some(m) && SameThread(m, current)
  {
    var raw := Email(current.mode, x.to, x.cc, x.bcc, x.subject, x.textBody, x.htmlBody,
                     current.threadId, current.inReplyTo, current.references, []);
    assert SameThread(raw, current) && canon(raw).Some?;
  }
}
