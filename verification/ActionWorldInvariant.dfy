/** What holds between the tables, the executors, Gmail and the history in every reachable world. */
module ActionWorldInvariant {
  import opened Wrappers
  import opened ActionTables
  import opened ActionInvariant
  import opened ActionPreservation
  import opened ActionExecutor
  import opened ActionWorld
  import GmailClient

  // ----- One executor ---------------------------------------------------------------------------------

  function ClaimOf(p: Phase): Claim
    requires !p.Done?
  {
    match p
    case Holding(c) => c
    case HasProposal(c, _, _) => c
    case HasDraft(c, _, _, _) => c
    case Validated(s) => s.claim
    case Connected(s) => s.claim
    case Checked(s, _) => s.claim
    case Started(s, _) => s.claim
    case Returned(s, _) => s.claim
    case Failing(c, _, _) => c
  }

  predicate ClaimOk(t: Tables, minted: nat, c: Claim) {
    && c.id < minted
    && c.action in t.actions && c.action in t.proposals
    && c.capability == t.actions[c.action].capability
  }

  /** While the claim is current, its provider call has not been marked. */
  predicate Unmarked(t: Tables, c: Claim) {
    Current(t, c) ==> t.actions[c.action].started.None?
  }

  /** What was read of the proposal is still its terms, and the whole row while the claim is current. */
  predicate KnowsProposal(t: Tables, c: Claim, p: Proposal) {
    && c.action in t.proposals
    && SameProposalTerms(p, t.proposals[c.action])
    && (!c.capability.SendDraft? && p.supersedes.Some? ==> p.supersedes.value.root == c.action.root)
    && (Current(t, c) ==> p == t.proposals[c.action])
  }

  predicate KnowsDraft(t: Tables, c: Claim, p: Proposal, m: Option<Draft>) {
    && (m.Some? ==> c.action.root in t.drafts && t.drafts[c.action.root].provider == m.value.provider)
    && (Current(t, c) ==> m == LookupDraft(t, c, p))
  }

  predicate SubjectOk(t: Tables, s: Subject) {
    && KnowsProposal(t, s.claim, s.proposal)
    && KnowsDraft(t, s.claim, s.proposal, s.managed)
    && (Current(t, s.claim) ==> s.approval == LookupApproval(t, s.claim))
    && s.message == s.proposal.parameters
    && (s.claim.capability.CreateDraft? || s.managed.Some?)
    && (s.claim.capability.CreateDraft? || s.claim.capability.UpdateDraft? ==> s.telegram.Some?)
  }

  /** Unless someone outside edited it since the comparison, Gmail's draft is the approved message. */
  predicate Compared(gmail: map<ProviderDraft, GmailDraft>, s: Subject, edits: nat) {
    s.claim.capability.SendDraft? ==>
      && s.managed.Some? && s.managed.value.provider in gmail
      && edits <= gmail[s.managed.value.provider].edits
      && (gmail[s.managed.value.provider].edits == edits ==> gmail[s.managed.value.provider].content == s.message)
  }

  predicate InLog(log: seq<Mutation>, id: ProposalId) {
    exists i :: 0 <= i < |log| && log[i].action == id
  }

  predicate Acknowledged(log: seq<Mutation>, id: ProposalId, draftId: Option<string>) {
    exists i :: 0 <= i < |log| && log[i].action == id && log[i].reply.Accepted? && (draftId.None? || log[i].draftId == draftId.value)
  }

  /** The two ways a mutation Gmail applied can be recorded as a failure: the client's retry of an update
      or delete ended in an authorization error, or Gmail answered an update with another draft's id. */
  predicate Excused(t: Tables, m: Mutation) {
    || (m.reply.Revoked? && Repeated(m.capability))
    || (m.capability.UpdateDraft? && m.reply.Accepted?
        && m.action.root in t.drafts && m.draftId != t.drafts[m.action.root].provider.draftId)
  }

  predicate OnlyExcused(t: Tables, log: seq<Mutation>, id: ProposalId) {
    forall i :: 0 <= i < |log| && log[i].action == id ==> Excused(t, log[i])
  }

  ghost predicate ExecOk(t: Tables, minted: nat, log: seq<Mutation>, gmail: map<ProviderDraft, GmailDraft>, p: Phase) {
    p.Done? ||
    (ClaimOk(t, minted, ClaimOf(p)) &&
     match p
     case Done => true
     case Holding(c) => Unmarked(t, c)
     case HasProposal(c, q, _) => Unmarked(t, c) && KnowsProposal(t, c, q)
     case HasDraft(c, q, _, m) => Unmarked(t, c) && KnowsProposal(t, c, q) && KnowsDraft(t, c, q, m)
     case Validated(s) => Unmarked(t, s.claim) && SubjectOk(t, s)
     case Connected(s) => Unmarked(t, s.claim) && SubjectOk(t, s)
     case Checked(s, n) => Unmarked(t, s.claim) && SubjectOk(t, s) && Compared(gmail, s, n)
     case Started(s, n) =>
       && SubjectOk(t, s) && Compared(gmail, s, n)
       && t.actions[s.claim.action].started.Some?
       && (Current(t, s.claim) || t.actions[s.claim.action].status.Unknown?)
       && !InLog(log, s.claim.action)
     case Returned(s, d) => SubjectOk(t, s) && Acknowledged(log, s.claim.action, Some(d))
     case Failing(c, _, f) => Current(t, c) && Fails(f) ==> OnlyExcused(t, log, c.action))
  }

  // ----- The whole world --------------------------------------------------------------------------------

  ghost predicate ClaimsBelow(t: Tables, minted: nat) {
    forall id :: id in t.actions && t.actions[id].claim.Some? ==> t.actions[id].claim.value < minted
  }

  ghost predicate ExecsOk(w: World) {
    forall e :: e in w.execs ==> ExecOk(w.t, w.minted, w.log, w.gmail, w.execs[e])
  }

  ghost predicate DistinctClaims(execs: map<nat, Phase>) {
    forall e, d :: e in execs && d in execs && e != d && !execs[e].Done? && !execs[d].Done? ==>
                     ClaimOf(execs[e]).id != ClaimOf(execs[d]).id
  }

  ghost predicate OneStarted(execs: map<nat, Phase>) {
    forall e, d ::
      (e in execs && d in execs && execs[e].Started? && execs[d].Started?
       && execs[e].subject.claim.action == execs[d].subject.claim.action) ==> e == d
  }

  /** Only repeated calls can end in a revoked grant after Gmail applied one. */
  predicate ReplyOk(c: Capability, reply: Reply) {
    reply.Revoked? ==> Repeated(c)
  }

  predicate EntryOk(t: Tables, m: Mutation) {
    && m.action in t.actions && m.action in t.proposals
    && t.actions[m.action].started.Some?
    && m.capability == t.actions[m.action].capability
    && m.message == t.proposals[m.action].parameters
    && (m.capability.SendDraft? && m.checked == m.edits ==> m.content == m.message)
  }

  ghost predicate LogOk(t: Tables, log: seq<Mutation>) {
    && (forall i :: 0 <= i < |log| ==> EntryOk(t, log[i]))
    && (forall i, j :: 0 <= i < j < |log| ==> log[i].action != log[j].action)
  }

  predicate OutcomeOk(t: Tables, log: seq<Mutation>, id: ProposalId)
    requires id in t.actions
  {
    && (t.actions[id].status.Failed? ==> OnlyExcused(t, log, id))
    && (t.actions[id].status.Succeeded? ==> Acknowledged(log, id, None))
  }

  ghost predicate OutcomesOk(t: Tables, log: seq<Mutation>) {
    forall id :: id in t.actions ==> OutcomeOk(t, log, id)
  }

  /** Every entry is of a call that can happen, and the reply is what the client concluded from it. */
  predicate MadeOk(m: Mutation, retryAttempts: nat) {
    Possible(m.capability, m.made, retryAttempts) && GmailClient.Applied(m.made) > 0 && m.reply == ReplyTo(m.made)
  }

  predicate CallsOk(log: seq<Mutation>, retryAttempts: nat) {
    forall i :: 0 <= i < |log| ==> MadeOk(log[i], retryAttempts)
  }

  /** The handlers that record FAILED. */
  predicate Fails(f: Failure) {
    f.Refused? || f.Mismatch? || f.Unavailable?
  }

  ghost predicate CoreOk(cfg: Config, w: World) {
    && TablesOk(cfg.canon, w.t)
    && ClaimsBelow(w.t, w.minted)
    && ExecsOk(w) && DistinctClaims(w.execs) && OneStarted(w.execs)
    && LogOk(w.t, w.log) && OutcomesOk(w.t, w.log) && CallsOk(w.log, cfg.retryAttempts)
  }

  /** Every revision context ever loaded is the message of a stored proposal. */
  ghost predicate ContextsOk(cfg: Config, w: World) {
    forall session, current :: (session, current) in w.contexts ==>
      session in w.t.proposals && current == w.t.proposals[session].parameters && cfg.canon(current) == Some(current)
  }

  // ----- What never changes again -------------------------------------------------------------------------

  /** History is never rewritten: terms stay, decisions and terminal actions are final, marks stay set. */
  ghost predicate Later(t: Tables, t': Tables) {
    && (forall id :: id in t.proposals ==> id in t'.proposals && SameProposalTerms(t.proposals[id], t'.proposals[id]))
    && (forall id :: id in t.approvals ==> id in t'.approvals && SameApprovalTerms(t.approvals[id], t'.approvals[id]))
    && (forall r :: r in t.drafts ==> r in t'.drafts && t'.drafts[r].provider == t.drafts[r].provider)
    && (forall id :: id in t.actions ==>
          && id in t'.actions
          && t'.actions[id].capability == t.actions[id].capability
          && (Terminal(t.actions[id].status) ==> t'.actions[id] == t.actions[id])
          && (t.actions[id].started.Some? ==> t'.actions[id].started == t.actions[id].started))
  }

  lemma EvolvesIsLater(t: Tables, t': Tables, actor: Option<nat>, minted: nat)
    requires Evolves(t, t', actor, minted)
    ensures Later(t, t')
  {
  }

  lemma NothingIsLater(t: Tables)
    ensures Later(t, t)
  {
  }

  lemma LaterIsTransitive(t: Tables, t': Tables, t'': Tables)
    requires Later(t, t') && Later(t', t'')
    ensures Later(t, t'')
  {
  }

  /** One step of the world: the invariant holds again and history was not rewritten. */
  ghost predicate Follows(cfg: Config, w: World, w': World) {
    CoreOk(cfg, w') && Later(w.t, w'.t)
  }

  // ----- A transaction by someone else ------------------------------------------------------------------

  /** Nobody else's transaction can make a claim current, or change what its holder has read. */
  lemma ClaimCarries(t: Tables, t': Tables, c: Claim, actor: Option<nat>, minted: nat, minted': nat)
    requires Evolves(t, t', actor, minted) && ClaimOk(t, minted, c) && Some(c.id) != actor && minted <= minted'
    ensures ClaimOk(t', minted', c)
    ensures Current(t', c) ==> Current(t, c) && Untouched(t, t', c.action.root)
    ensures Current(t, c) && t.actions[c.action].started.Some? ==>
              Current(t', c) || t'.actions[c.action].status.Unknown?
    ensures t.actions[c.action].started.Some? ==> t'.actions[c.action].started.Some?
    ensures t.actions[c.action].status.Unknown? ==> t'.actions[c.action].status.Unknown?
    ensures SameProposalTerms(t.proposals[c.action], t'.proposals[c.action])
  {
  }

  lemma SubjectCarries(t: Tables, t': Tables, s: Subject, actor: Option<nat>, minted: nat, minted': nat)
    requires Evolves(t, t', actor, minted) && ClaimOk(t, minted, s.claim) && Some(s.claim.id) != actor && minted <= minted'
    requires SubjectOk(t, s)
    ensures SubjectOk(t', s)
  {
    ClaimCarries(t, t', s.claim, actor, minted, minted');
  }

  lemma ReaderCarries(t: Tables, t': Tables, log: seq<Mutation>, gmail: map<ProviderDraft, GmailDraft>, p: Phase,
                     actor: Option<nat>, minted: nat, minted': nat)
    requires ExecOk(t, minted, log, gmail, p) && !p.Done? && Some(ClaimOf(p).id) != actor
    requires Evolves(t, t', actor, minted) && minted <= minted'
    requires p.Holding? || p.HasProposal? || p.HasDraft?
    ensures ExecOk(t', minted', log, gmail, p)
  {
    ClaimCarries(t, t', ClaimOf(p), actor, minted, minted');
  }

  lemma ApproacherCarries(t: Tables, t': Tables, log: seq<Mutation>, gmail: map<ProviderDraft, GmailDraft>, p: Phase,
                         actor: Option<nat>, minted: nat, minted': nat)
    requires ExecOk(t, minted, log, gmail, p) && !p.Done? && Some(ClaimOf(p).id) != actor
    requires Evolves(t, t', actor, minted) && minted <= minted'
    requires p.Validated? || p.Connected? || p.Checked?
    ensures ExecOk(t', minted', log, gmail, p)
  {
    ClaimCarries(t, t', p.subject.claim, actor, minted, minted');
    SubjectCarries(t, t', p.subject, actor, minted, minted');
  }

  lemma CallerCarries(t: Tables, t': Tables, log: seq<Mutation>, gmail: map<ProviderDraft, GmailDraft>, p: Phase,
                     actor: Option<nat>, minted: nat, minted': nat)
    requires ExecOk(t, minted, log, gmail, p) && !p.Done? && Some(ClaimOf(p).id) != actor
    requires Evolves(t, t', actor, minted) && minted <= minted'
    requires p.Started? || p.Returned?
    ensures ExecOk(t', minted', log, gmail, p)
  {
    ClaimCarries(t, t', p.subject.claim, actor, minted, minted');
    SubjectCarries(t, t', p.subject, actor, minted, minted');
  }

  /** An executor is unaffected by any transaction not made under its own claim. */
  lemma ExecCarries(t: Tables, t': Tables, log: seq<Mutation>, gmail: map<ProviderDraft, GmailDraft>, p: Phase,
                    actor: Option<nat>, minted: nat, minted': nat)
    requires ExecOk(t, minted, log, gmail, p)
    requires !p.Done? ==> Some(ClaimOf(p).id) != actor
    requires Evolves(t, t', actor, minted) && minted <= minted'
    ensures ExecOk(t', minted', log, gmail, p)
  {
    if p.Failing? {
      ClaimCarries(t, t', p.claim, actor, minted, minted');
      ExcusesCarry(t, t', log, p.claim.action, actor, minted);
    } else if p.Holding? || p.HasProposal? || p.HasDraft? {
      ReaderCarries(t, t', log, gmail, p, actor, minted, minted');
    } else if p.Started? || p.Returned? {
      CallerCarries(t, t', log, gmail, p, actor, minted, minted');
    } else if !p.Done? {
      ApproacherCarries(t, t', log, gmail, p, actor, minted, minted');
    }
  }

  lemma ExcusesCarry(t: Tables, t': Tables, log: seq<Mutation>, id: ProposalId, actor: Option<nat>, minted: nat)
    requires Evolves(t, t', actor, minted)
    ensures OnlyExcused(t, log, id) ==> OnlyExcused(t', log, id)
  {
  }

  lemma LogCarries(t: Tables, t': Tables, log: seq<Mutation>, actor: Option<nat>, minted: nat)
    requires Evolves(t, t', actor, minted) && LogOk(t, log)
    ensures LogOk(t', log)
  {
    forall i | 0 <= i < |log|
      ensures EntryOk(t', log[i])
    {
      assert EntryOk(t, log[i]);
    }
  }

  /** Only the holder of a claim can make its action succeed or fail. */
  lemma OutcomeCarries(t: Tables, t': Tables, log: seq<Mutation>, id: ProposalId, actor: Option<nat>, minted: nat)
    requires Evolves(t, t', actor, minted)
    requires id in t.actions ==> OutcomeOk(t, log, id)
    requires id in t.actions && t.actions[id].status.Running? ==> t.actions[id].claim != actor
    requires id in t'.actions
    ensures OutcomeOk(t', log, id)
  {
    if id in t.actions && Terminal(t.actions[id].status) {
      if t.actions[id].status.Failed? {
        ExcusesCarry(t, t', log, id, actor, minted);
      }
    }
  }

  lemma OutcomesCarry(t: Tables, t': Tables, log: seq<Mutation>, minted: nat)
    requires Evolves(t, t', None, minted) && OutcomesOk(t, log)
    requires forall id :: id in t.actions ==> ActionOk(t, id)
    ensures OutcomesOk(t', log)
  {
    forall id | id in t'.actions
      ensures OutcomeOk(t', log, id)
    {
      if id in t.actions {
        assert OutcomeOk(t, log, id) && ActionOk(t, id);
      }
      OutcomeCarries(t, t', log, id, None, minted);
    }
  }

  lemma ClaimsBelowCarries(t: Tables, t': Tables, actor: Option<nat>, minted: nat)
    requires Evolves(t, t', actor, minted) && ClaimsBelow(t, minted)
    requires forall id :: id in t'.actions ==> ActionOk(t', id)
    ensures ClaimsBelow(t', minted + 1)
  {
    forall id | id in t'.actions && t'.actions[id].claim.Some?
      ensures t'.actions[id].claim.value < minted + 1
    {
      assert ActionOk(t', id);
    }
  }

  /** A transaction by no executor at all, everything else staying put. */
  lemma CoreCarries(cfg: Config, w: World, w': World)
    requires CoreOk(cfg, w)
    requires Keeps(cfg.canon, w.t, w'.t, None, w.minted)
    requires w'.execs == w.execs && w'.log == w.log && w'.gmail == w.gmail
    requires w.minted <= w'.minted
    requires ClaimsBelow(w'.t, w'.minted)
    ensures CoreOk(cfg, w')
  {
    ExecsCarry(w, w', None);
    LogCarries(w.t, w'.t, w.log, None, w.minted);
    OutcomesCarry(w.t, w'.t, w.log, w.minted);
  }

  lemma ExecsCarry(w: World, w': World, actor: Option<nat>)
    requires ExecsOk(w) && Evolves(w.t, w'.t, actor, w.minted) && w.minted <= w'.minted
    requires w'.log == w.log && w'.gmail == w.gmail
    requires forall e :: e in w'.execs ==>
               || (e in w.execs && w'.execs[e] == w.execs[e] && (!w.execs[e].Done? ==> Some(ClaimOf(w.execs[e]).id) != actor))
               || ExecOk(w'.t, w'.minted, w'.log, w'.gmail, w'.execs[e])
    ensures ExecsOk(w')
  {
    forall e | e in w'.execs
      ensures ExecOk(w'.t, w'.minted, w'.log, w'.gmail, w'.execs[e])
    {
      if e in w.execs && w'.execs[e] == w.execs[e] && (!w.execs[e].Done? ==> Some(ClaimOf(w.execs[e]).id) != actor) {
        ExecCarries(w.t, w'.t, w.log, w.gmail, w.execs[e], actor, w.minted, w'.minted);
      }
    }
  }
}
