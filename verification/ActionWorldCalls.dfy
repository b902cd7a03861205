/** The steps after the boundary keep `CoreOk`: provider calls, completions and recoveries. */
module ActionWorldCalls {
  import opened Wrappers
  import opened CanonicalEmail
  import opened ActionTables
  import opened ActionTransitions
  import opened ActionInvariant
  import opened ActionPreservation
  import opened ActionSteps
  import opened ActionCompletionSteps
  import opened ActionExecutor
  import opened ActionWorld
  import GmailClient
  import opened ActionWorldInvariant
  import opened ActionWorldSteps

  // ----- Gmail applies or refuses a call ------------------------------------------------------------

  function CallEntry(w: World, s: Subject, draftId: string, reply: Reply, made: seq<GmailClient.Try>, checked: nat): Mutation
    requires Applicable(w, s, draftId)
  {
    var after := Applied(w, s, Target(s, draftId));
    Mutation(s.claim.action, s.claim.capability, s.message, after.content, draftId, reply, made, checked, after.edits)
  }

  lemma CallEntryOk(w: World, e: nat, draftId: string, reply: Reply, made: seq<GmailClient.Try>)
    requires e in w.execs && w.execs[e].Started? && Applicable(w, w.execs[e].subject, draftId)
    requires ReplyOk(w.execs[e].subject.claim.capability, reply)
    requires ExecOk(w.t, w.minted, w.log, w.gmail, w.execs[e])
    ensures EntryOk(w.t, CallEntry(w, w.execs[e].subject, draftId, reply, made, w.execs[e].edits))
  {
  }

  /** The caller itself, after Gmail acted. */
  lemma CallerAfter(w: World, e: nat, draftId: string, reply: Reply, made: seq<GmailClient.Try>)
    requires e in w.execs && w.execs[e].Started? && Applicable(w, w.execs[e].subject, draftId)
    requires ReplyOk(w.execs[e].subject.claim.capability, reply)
    requires ExecOk(w.t, w.minted, w.log, w.gmail, w.execs[e])
    ensures var w' := GmailAppliesStep(w, e, draftId, reply, made);
            && w'.execs[e].Done? == false && !w'.execs[e].Started? && ClaimOf(w'.execs[e]) == w.execs[e].subject.claim
            && ExecOk(w'.t, w'.minted, w'.log, w'.gmail, w'.execs[e])
  {
    var s := w.execs[e].subject;
    LogGrows(w.log, CallEntry(w, s, draftId, reply, made, w.execs[e].edits), s.claim.action);
  }

  /** Everyone else, after Gmail acted. */
  lemma BystanderAfter(cfg: Config, w: World, e: nat, draftId: string, reply: Reply, made: seq<GmailClient.Try>, d: nat)
    requires CoreOk(cfg, w)
    requires e in w.execs && w.execs[e].Started? && Applicable(w, w.execs[e].subject, draftId)
    requires d in w.execs && d != e
    ensures var w' := GmailAppliesStep(w, e, draftId, reply, made);
            ExecOk(w'.t, w'.minted, w'.log, w'.gmail, w.execs[d])
  {
    var s, p := w.execs[e].subject, w.execs[d];
    assert ExecOk(w.t, w.minted, w.log, w.gmail, w.execs[e]) && ExecOk(w.t, w.minted, w.log, w.gmail, p);
    if !p.Done? {
      var m := CallEntry(w, s, draftId, reply, made, w.execs[e].edits);
      LogGrows(w.log, m, ClaimOf(p).action);
      if p.Checked? || p.Started? {
        OthersStayCompared(cfg.canon, w, s, p.subject, p.edits, Target(s, draftId));
      }
    }
  }

  lemma AppliedOk(cfg: Config, w: World, e: nat, draftId: string, reply: Reply, made: seq<GmailClient.Try>)
    requires CoreOk(cfg, w)
    requires e in w.execs && w.execs[e].Started? && Applicable(w, w.execs[e].subject, draftId)
    requires ReplyOk(w.execs[e].subject.claim.capability, reply)
    ensures ExecsOk(GmailAppliesStep(w, e, draftId, reply, made))
  {
    var w' := GmailAppliesStep(w, e, draftId, reply, made);
    forall d | d in w'.execs
      ensures ExecOk(w'.t, w'.minted, w'.log, w'.gmail, w'.execs[d])
    {
      if d != e {
        BystanderAfter(cfg, w, e, draftId, reply, made, d);
      } else {
        assert ExecOk(w.t, w.minted, w.log, w.gmail, w.execs[e]);
        CallerAfter(w, e, draftId, reply, made);
      }
    }
  }

  lemma AppliedLogOk(w: World, e: nat, draftId: string, reply: Reply, made: seq<GmailClient.Try>)
    requires ExecsOk(w) && LogOk(w.t, w.log) && OutcomesOk(w.t, w.log)
    requires e in w.execs && w.execs[e].Started? && Applicable(w, w.execs[e].subject, draftId)
    requires ReplyOk(w.execs[e].subject.claim.capability, reply)
    ensures var w' := GmailAppliesStep(w, e, draftId, reply, made);
            LogOk(w.t, w'.log) && OutcomesOk(w.t, w'.log)
  {
    var m := CallEntry(w, w.execs[e].subject, draftId, reply, made, w.execs[e].edits);
    assert ExecOk(w.t, w.minted, w.log, w.gmail, w.execs[e]);
    CallEntryOk(w, e, draftId, reply, made);
    EntryAppends(w.t, w.log, m);
    OutcomesAppend(w.t, w.log, m);
  }

  lemma AppliedShape(w: World, e: nat, draftId: string, reply: Reply, made: seq<GmailClient.Try>)
    requires e in w.execs && w.execs[e].Started? && Applicable(w, w.execs[e].subject, draftId)
    ensures var w' := GmailAppliesStep(w, e, draftId, reply, made);
            && w'.t == w.t && w'.minted == w.minted
            && e in w'.execs && w'.execs == w.execs[e := w'.execs[e]]
            && !w'.execs[e].Done? && !w'.execs[e].Started? && ClaimOf(w'.execs[e]) == ClaimOf(w.execs[e])
  {
  }

  lemma CallersStayDistinct(execs: map<nat, Phase>, execs': map<nat, Phase>, e: nat)
    requires DistinctClaims(execs) && OneStarted(execs)
    requires e in execs && e in execs' && execs' == execs[e := execs'[e]]
    requires !execs[e].Done? && !execs'[e].Done? && !execs'[e].Started? && ClaimOf(execs'[e]) == ClaimOf(execs[e])
    ensures DistinctClaims(execs') && OneStarted(execs')
  {
  }

  lemma GmailAppliesStepOk(cfg: Config, w: World, e: nat, draftId: string, reply: Reply, made: seq<GmailClient.Try>)
    requires CoreOk(cfg, w) && e in w.execs && w.execs[e].Started?
    requires ReplyOk(w.execs[e].subject.claim.capability, reply)
    requires Possible(w.execs[e].subject.claim.capability, made, cfg.retryAttempts)
    requires GmailClient.Applied(made) > 0 && reply == ReplyTo(made)
    ensures Follows(cfg, w, GmailAppliesStep(w, e, draftId, reply, made))
  {
    NothingIsLater(w.t);
    if Applicable(w, w.execs[e].subject, draftId) {
      AppliedShape(w, e, draftId, reply, made);
      AppliedOk(cfg, w, e, draftId, reply, made);
      AppliedLogOk(w, e, draftId, reply, made);
      CallersStayDistinct(w.execs, GmailAppliesStep(w, e, draftId, reply, made).execs, e);
      CallsAppend(w.log, CallEntry(w, w.execs[e].subject, draftId, reply, made, w.execs[e].edits), cfg.retryAttempts);
    }
  }

  lemma CallsAppend(log: seq<Mutation>, m: Mutation, retryAttempts: nat)
    requires CallsOk(log, retryAttempts) && MadeOk(m, retryAttempts)
    ensures CallsOk(log + [m], retryAttempts)
  {
  }

  /** What can become of a call Gmail applied: of a create, send or delete exactly one request was, of an
      update any number up to the attempts; and a revoked grant follows exactly when the last request met one
      after an earlier one was applied and its answer lost, which takes an update or delete. */
  lemma CallsAnswerWithinBounds(c: Capability, made: seq<GmailClient.Try>, retryAttempts: nat)
    requires Possible(c, made, retryAttempts) && GmailClient.Applied(made) > 0
    ensures GmailClient.Applied(made) <= retryAttempts && (!c.UpdateDraft? ==> GmailClient.Applied(made) == 1)
    ensures ReplyTo(made).Revoked? <==>
              && Repeated(c) && made[|made| - 1].InvalidGrant?
              && exists i :: 0 <= i < |made| - 1 && made[i] == GmailClient.Transient(true)
  {
    GmailClient.RequestsAreBounded(made, retryAttempts, Repeated(c));
    if c.DeleteDraft? {
      GmailClient.AppliedOnceIfNeverTwice(made);
    }
    if !Repeated(c) {
      GmailClient.CreateAndSendApplyAtMostOnce(made, retryAttempts);
    } else if ReplyTo(made).Revoked? {
      GmailClient.RevokedUpdateMayHaveApplied(made, retryAttempts);
    }
  }

  lemma CallGmailStepOk(cfg: Config, w: World, e: nat, draftId: string, made: seq<GmailClient.Try>)
    requires CoreOk(cfg, w)
    ensures Follows(cfg, w, CallGmailStep(cfg, w, e, draftId, made))
  {
    NothingIsLater(w.t);
    if e in w.execs && w.execs[e].Started? && Possible(w.execs[e].subject.claim.capability, made, cfg.retryAttempts) {
      if GmailClient.Applied(made) > 0 {
        CallsAnswerWithinBounds(w.execs[e].subject.claim.capability, made, cfg.retryAttempts);
        GmailAppliesStepOk(cfg, w, e, draftId, ReplyTo(made), made);
      } else {
        GmailRefusesStepOk(cfg, w, e, GmailClient.Conclusion(made).AuthorizationRevoked?);
      }
    }
  }

  lemma GmailRefusesStepOk(cfg: Config, w: World, e: nat, authorization: bool)
    requires CoreOk(cfg, w)
    ensures Follows(cfg, w, GmailRefusesStep(w, e, authorization))
  {
    if e in w.execs && w.execs[e].Started? {
      assert ExecOk(w.t, w.minted, w.log, w.gmail, w.execs[e]);
      QuietStep(cfg, w, e, GmailRefusesStep(w, e, authorization).execs[e]);
    }
  }

  // ----- Completions -------------------------------------------------------------------------------------

  lemma HolderIsTyped(cfg: Config, w: World, c: Claim)
    requires TablesOk(cfg.canon, w.t) && ClaimOk(w.t, w.minted, c)
    ensures Typed(w.t, c.action)
  {
    assert FamilyOk(cfg.canon, w.t, c.action.root);
    TypedFromFamily(cfg.canon, w.t, c.action);
  }

  lemma CompletionKeeps(cfg: Config, w: World, s: Subject, draftId: string, now: Time, t: Tables, minted: nat)
    requires TablesOk(cfg.canon, w.t) && Typed(w.t, s.claim.action) && s.claim.capability == w.t.actions[s.claim.action].capability
    requires Completion(cfg, w, s, draftId, now) == Committed(t, ())
    ensures Keeps(cfg.canon, w.t, t, Some(s.claim.id), minted)
  {
    match s.claim.capability
    case CreateDraft => CompleteCreateKeeps(cfg.canon, w.t, s.claim, draftId, Next(cfg, w, s, now).value, now, minted);
    case UpdateDraft => CompleteUpdateKeeps(cfg.canon, w.t, s.claim, draftId, Next(cfg, w, s, now).value, now, minted);
    case DeleteDraft => CompleteManagedKeeps(cfg.canon, w.t, s.claim, s.managed.value.provider.draftId, DraftStatus.Deleted, minted);
    case SendDraft => CompleteManagedKeeps(cfg.canon, w.t, s.claim, s.managed.value.provider.draftId, DraftStatus.Sent, minted);
  }

  /** A completion ends its own action and touches no other. */
  predicate EndsOnly(t: Tables, t': Tables, c: Claim) {
    && Current(t, c)
    && t'.actions == t.actions[c.action := Succeeds(t.actions[c.action])]
  }

  lemma CreateEndsOnly(canon: Email -> Option<Email>, t: Tables, c: Claim, draftId: string, next: NextApproval, now: Time)
    requires CompleteCreate(canon, t, c, draftId, next, now).Committed?
    ensures EndsOnly(t, CompleteCreate(canon, t, c, draftId, next, now).tables, c)
  {
  }

  lemma UpdateEndsOnly(canon: Email -> Option<Email>, t: Tables, c: Claim, draftId: string, next: NextApproval, now: Time)
    requires CompleteUpdate(canon, t, c, draftId, next, now).Committed?
    ensures EndsOnly(t, CompleteUpdate(canon, t, c, draftId, next, now).tables, c)
  {
  }

  lemma ManagedEndsOnly(t: Tables, c: Claim, draftId: string, finished: DraftStatus)
    requires CompleteManaged(t, c, draftId, finished).Committed?
    ensures EndsOnly(t, CompleteManaged(t, c, draftId, finished).tables, c)
  {
  }

  lemma CompletionEndsOnly(cfg: Config, w: World, s: Subject, draftId: string, now: Time)
    requires Completion(cfg, w, s, draftId, now).Committed?
    ensures EndsOnly(w.t, Completion(cfg, w, s, draftId, now).tables, s.claim)
  {
    match s.claim.capability
    case CreateDraft => CreateEndsOnly(cfg.canon, w.t, s.claim, draftId, Next(cfg, w, s, now).value, now);
    case UpdateDraft => UpdateEndsOnly(cfg.canon, w.t, s.claim, draftId, Next(cfg, w, s, now).value, now);
    case DeleteDraft => ManagedEndsOnly(w.t, s.claim, s.managed.value.provider.draftId, DraftStatus.Deleted);
    case SendDraft => ManagedEndsOnly(w.t, s.claim, s.managed.value.provider.draftId, DraftStatus.Sent);
  }

  lemma EndingOutcomes(t: Tables, t': Tables, log: seq<Mutation>, c: Claim, draftId: string)
    requires forall id :: id in t.actions ==> ActionOk(t, id)
    requires EndsOnly(t, t', c) && Acknowledged(log, c.action, Some(draftId))
    ensures forall id :: id in t.actions && t.actions[id].claim == Some(c.id) ==> OutcomeOk(t', log, id)
  {
    forall id | id in t.actions && t.actions[id].claim == Some(c.id)
      ensures OutcomeOk(t', log, id)
    {
      assert ActionOk(t, id);
      assert t'.actions[id] == if id == c.action then Succeeds(t.actions[id]) else t.actions[id];
    }
  }

  /** A subject whose claim is current names its draft as the completion will find it. */
  lemma CurrentUpdateFindsDraft(canon: Email -> Option<Email>, t: Tables, s: Subject)
    requires FamilyOk(canon, t, s.claim.action.root) && Current(t, s.claim) && Typed(t, s.claim.action) && s.claim.action.Update?
    ensures t.actions[s.claim.action].capability.UpdateDraft?
    ensures t.proposals[s.claim.action].supersedes.Some?
    ensures FindDraft(t, t.proposals[s.claim.action].supersedes.value) == Some(s.claim.action.root)
  {
    LiveActionIsNewest(t, s.claim.action);
    assert UpdateTerms(canon, t, s.claim.action.root, s.claim.action.version);
  }

  /** A send or delete finds its own draft, so its completion never refuses. */
  lemma ManagedIsNeverRefused(cfg: Config, w: World, s: Subject, draftId: string, now: Time)
    requires FamilyOk(cfg.canon, w.t, s.claim.action.root) && Typed(w.t, s.claim.action) && SubjectOk(w.t, s)
    requires s.claim.capability == w.t.actions[s.claim.action].capability
    requires s.claim.action.Send? || s.claim.action.Delete?
    ensures Completion(cfg, w, s, draftId, now) != RolledBack(ValidationError)
  {
    if Current(w.t, s.claim) {
      ManagedForIsNewest(cfg.canon, w.t, s.claim.action);
    }
  }

  /** The only completion that refuses is an update Gmail answered with another draft's id. */
  lemma OnlyStrangeUpdatesAreRefused(cfg: Config, w: World, s: Subject, draftId: string, now: Time)
    requires TablesOk(cfg.canon, w.t) && ClaimOk(w.t, w.minted, s.claim) && SubjectOk(w.t, s)
    requires Completion(cfg, w, s, draftId, now) == RolledBack(ValidationError)
    ensures s.claim.capability.UpdateDraft? && s.claim.action.root in w.t.drafts
    ensures draftId != w.t.drafts[s.claim.action.root].provider.draftId
  {
    HolderIsTyped(cfg, w, s.claim);
    assert FamilyOk(cfg.canon, w.t, s.claim.action.root);
    match s.claim.action
    case Create(_) =>
    case Update(_, _) => CurrentUpdateFindsDraft(cfg.canon, w.t, s);
    case _ => ManagedIsNeverRefused(cfg, w, s, draftId, now);
  }

  /** The acknowledged entry is the action's only one. */
  lemma RefusedUpdateIsExcused(t: Tables, log: seq<Mutation>, id: ProposalId, draftId: string)
    requires LogOk(t, log) && Acknowledged(log, id, Some(draftId))
    requires id in t.actions && t.actions[id].capability.UpdateDraft? && id.root in t.drafts
    requires draftId != t.drafts[id.root].provider.draftId
    ensures OnlyExcused(t, log, id)
  {
    var k :| 0 <= k < |log| && log[k].action == id && log[k].reply.Accepted? && log[k].draftId == draftId;
    assert EntryOk(t, log[k]);
    assert forall i :: 0 <= i < |log| && log[i].action == id ==> i == k;
  }

  lemma HeldCompletionKeeps(cfg: Config, w: World, s: Subject, draftId: string, now: Time, t: Tables, minted: nat)
    requires TablesOk(cfg.canon, w.t) && ClaimOk(w.t, w.minted, s.claim)
    requires Completion(cfg, w, s, draftId, now) == Committed(t, ())
    ensures Keeps(cfg.canon, w.t, t, Some(s.claim.id), minted)
  {
    HolderIsTyped(cfg, w, s.claim);
    CompletionKeeps(cfg, w, s, draftId, now, t, minted);
  }

  lemma CompletionIsQuiet(cfg: Config, w: World, s: Subject, draftId: string, now: Time, t: Tables)
    requires TablesOk(cfg.canon, w.t) && ClaimOk(w.t, w.minted, s.claim)
    requires Completion(cfg, w, s, draftId, now) == Committed(t, ())
    ensures Quiet(cfg.canon, w.t, t, Some(s.claim.id), w.minted)
  {
    HeldCompletionKeeps(cfg, w, s, draftId, now, t, w.minted);
    HeldCompletionKeeps(cfg, w, s, draftId, now, t, w.minted + 1);
  }

  lemma QuietClaimOk(canon: Email -> Option<Email>, t: Tables, t': Tables, minted: nat, c: Claim,
                     log: seq<Mutation>, gmail: map<ProviderDraft, GmailDraft>, connectorId: string)
    requires Quiet(canon, t, t', Some(c.id), minted) && ClaimOk(t, minted, c)
    ensures ExecOk(t', minted, log, gmail, Failing(c, connectorId, Uncertain))
  {
  }

  lemma CommittedOk(cfg: Config, w: World, w': World, e: nat, t: Tables, p: Phase)
    requires CoreOk(cfg, w) && e in w.execs && w.execs[e].Returned?
    requires Quiet(cfg.canon, w.t, t, Some(w.execs[e].subject.claim.id), w.minted)
    requires EndsOnly(w.t, t, w.execs[e].subject.claim)
    requires w'.t == t && w'.log == w.log && w'.gmail == w.gmail && w'.minted == w.minted
    requires w'.execs == w.execs[e := p]
    requires p.Done? || p == Failing(w.execs[e].subject.claim, w.execs[e].subject.proposal.connector, Uncertain)
    ensures Follows(cfg, w, w')
  {
    var s, draftId := w.execs[e].subject, w.execs[e].draftId;
    assert ExecOk(w.t, w.minted, w.log, w.gmail, w.execs[e]);
    QuietClaimOk(cfg.canon, w.t, t, w.minted, s.claim, w.log, w.gmail, s.proposal.connector);
    EndingOutcomes(w.t, t, w.log, s.claim, draftId);
    OwnStep(cfg, w, w', e, p);
  }

  /** A completion that rolled back leaves the executor with a failure it may record. */
  lemma RefusedOk(cfg: Config, w: World, e: nat, now: Time, f: Failure)
    requires CoreOk(cfg, w) && e in w.execs && w.execs[e].Returned?
    requires f.Uncertain? || (f.Refused? && Completion(cfg, w, w.execs[e].subject, w.execs[e].draftId, now) == RolledBack(ValidationError))
    ensures Follows(cfg, w, Fail(w, e, w.execs[e].subject, f))
  {
    var s, draftId := w.execs[e].subject, w.execs[e].draftId;
    assert ExecOk(w.t, w.minted, w.log, w.gmail, w.execs[e]);
    if f.Refused? {
      OnlyStrangeUpdatesAreRefused(cfg, w, s, draftId, now);
      RefusedUpdateIsExcused(w.t, w.log, s.claim.action, draftId);
    }
    QuietStep(cfg, w, e, Failing(s.claim, s.proposal.connector, f));
  }

  /** `CoreOk` does not look at the tokens drawn so far. */
  lemma TokensAside(cfg: Config, w: World, w': World)
    requires CoreOk(cfg, w) && w' == w.(tokens := w'.tokens)
    ensures Follows(cfg, w, w')
  {
    assert forall e :: e in w.execs ==> ExecOk(w.t, w.minted, w.log, w.gmail, w.execs[e]);
  }

  lemma CommittedStepOk(cfg: Config, w: World, e: nat, now: Time, replyLost: bool, t: Tables)
    requires CoreOk(cfg, w) && e in w.execs && w.execs[e].Returned?
    requires Completion(cfg, w, w.execs[e].subject, w.execs[e].draftId, now) == Committed(t, ())
    ensures Follows(cfg, w, CompleteStep(cfg, w, e, now, replyLost))
  {
    var s, draftId := w.execs[e].subject, w.execs[e].draftId;
    assert ExecOk(w.t, w.minted, w.log, w.gmail, w.execs[e]);
    CompletionIsQuiet(cfg, w, s, draftId, now, t);
    CompletionEndsOnly(cfg, w, s, draftId, now);
    var w' := CompleteStep(cfg, w, e, now, replyLost);
    CommittedOk(cfg, w, w', e, t, w'.execs[e]);
  }

  lemma RolledBackStepOk(cfg: Config, w: World, e: nat, now: Time, replyLost: bool)
    requires CoreOk(cfg, w) && e in w.execs && w.execs[e].Returned?
    requires Completion(cfg, w, w.execs[e].subject, w.execs[e].draftId, now).RolledBack?
    ensures CoreOk(cfg, CompleteStep(cfg, w, e, now, replyLost)) && CompleteStep(cfg, w, e, now, replyLost).t == w.t
  {
    var f := if Completion(cfg, w, w.execs[e].subject, w.execs[e].draftId, now).error.ValidationError? then Refused else Uncertain;
    RefusedOk(cfg, w, e, now, f);
    TokensAside(cfg, Fail(w, e, w.execs[e].subject, f), CompleteStep(cfg, w, e, now, replyLost));
  }

  lemma CompleteStepOk(cfg: Config, w: World, e: nat, now: Time, replyLost: bool)
    requires CoreOk(cfg, w)
    ensures Follows(cfg, w, CompleteStep(cfg, w, e, now, replyLost))
  {
    NothingIsLater(w.t);
    if e in w.execs && w.execs[e].Returned? {
      match Completion(cfg, w, w.execs[e].subject, w.execs[e].draftId, now)
      case Committed(t, _) => CommittedStepOk(cfg, w, e, now, replyLost, t);
      case RolledBack(_) => RolledBackStepOk(cfg, w, e, now, replyLost);
    }
  }

  // ----- Failures ----------------------------------------------------------------------------------------

  lemma InterruptStepOk(cfg: Config, w: World, e: nat, refused: Option<bool>)
    requires CoreOk(cfg, w)
    ensures Follows(cfg, w, InterruptStep(w, e, refused))
  {
    if e in w.execs && !w.execs[e].Done? && !w.execs[e].Started? && (w.execs[e].Failing? ==> w.execs[e].failure.Mismatch?) {
      assert ExecOk(w.t, w.minted, w.log, w.gmail, w.execs[e]);
      var p := InterruptStep(w, e, refused).execs[e];
      GiveUp(cfg, w, e, p.connectorId, p.failure);
    }
  }

  function Recovered(t: Tables, c: Claim, connectorId: string, f: Failure): Tables {
    match f
    case Unavailable(preserved) => MarkUnavailable(t, c, connectorId, preserved)
    case Refused => FailValidation(t, c)
    case Mismatch => FailValidation(t, c)
    case Release => ReleaseBeforeProvider(t, c)
    case Uncertain => MarkUnknown(t, c)
  }

  /** What each handler records, while the claim is current and the action has no result: FAILED for a refusal
      or a lost authorization, UNKNOWN for an uncertain outcome, QUEUED for a release before the boundary and
      nothing for one after it. A claim that is not current records nothing. */
  lemma RecoveryRecords(t: Tables, c: Claim, connectorId: string, f: Failure)
    ensures var t' := Recovered(t, c, connectorId, f);
            && (!Current(t, c) ==> t' == t)
            && (Current(t, c) && c.action !in t.results && !f.Release? ==>
                  && !Current(t', c) && c.action in t'.actions && c.action in t'.results
                  && t'.actions[c.action].status == t'.results[c.action]
                  && t'.results[c.action] == if f.Uncertain? then ActionStatus.Unknown else ActionStatus.Failed)
            && (Current(t, c) && f.Release? ==>
                  if t.actions[c.action].started.None?
                  then c.action in t'.actions && t'.actions[c.action].status.Queued? && !Current(t', c)
                  else t' == t)
  {
    if Current(t, c) && c.action !in t.results && !f.Release? {
      ClosedFailedRows(t, c.action, ActionStatus.Failed, DraftStatus.Ready);
      ClosedFailedRows(t, c.action, ActionStatus.Unknown, DraftStatus.Unknown);
    }
  }

  lemma RecoveryKeeps(canon: Email -> Option<Email>, t: Tables, c: Claim, connectorId: string, f: Failure, minted: nat)
    requires TablesOk(canon, t)
    ensures Keeps(canon, t, Recovered(t, c, connectorId, f), Some(c.id), minted)
  {
    match f
    case Unavailable(preserved) => MarkUnavailableKeeps(canon, t, c, connectorId, preserved, minted);
    case Refused => FailValidationKeeps(canon, t, c, minted);
    case Mismatch => FailValidationKeeps(canon, t, c, minted);
    case Release => ReleaseKeeps(canon, t, c, minted);
    case Uncertain => MarkUnknownKeeps(canon, t, c, minted);
  }

  /** A recovery touches one action, if anything, and never makes it succeed. */
  predicate TouchesOnly(t: Tables, t': Tables, c: Claim, mayFail: bool) {
    && t'.actions.Keys == t.actions.Keys
    && (forall id :: id in t.actions && id != c.action ==> t'.actions[id] == t.actions[id])
    && (c.action in t.actions && t'.actions[c.action] != t.actions[c.action] ==>
          && Current(t, c) && !t'.actions[c.action].status.Succeeded?
          && (t'.actions[c.action].status.Failed? ==> mayFail))
    && (forall r :: r in t.drafts ==> r in t'.drafts && t'.drafts[r].provider == t.drafts[r].provider)
  }

  lemma CloseActions(t: Tables, id: ProposalId, s: ActionStatus)
    requires id in t.actions
    ensures var t' := Close(t, id, s, ProposalStatus.Failed);
            t'.drafts == t.drafts && (t' == t || t'.actions == t.actions[id := t.actions[id].(status := s, claim := None, lease := None)])
  {
  }

  lemma OneActionTouches(t: Tables, t': Tables, c: Claim, a: Action)
    requires Current(t, c) && t'.actions == t.actions[c.action := a] && t'.drafts == t.drafts && !a.status.Succeeded?
    ensures TouchesOnly(t, t', c, a.status.Failed?)
  {
  }

  lemma CloseTouches(t: Tables, c: Claim, s: ActionStatus)
    requires Current(t, c) && (s.Failed? || s.Unknown?)
    ensures TouchesOnly(t, Close(t, c.action, s, ProposalStatus.Failed), c, s.Failed?)
  {
    var t' := Close(t, c.action, s, ProposalStatus.Failed);
    CloseActions(t, c.action, s);
    if t' != t {
      OneActionTouches(t, t', c, t.actions[c.action].(status := s, claim := None, lease := None));
    }
  }

  lemma DraftStatusAside(t: Tables, t1: Tables, root: Option<string>, d: DraftStatus, c: Claim, mayFail: bool)
    requires TouchesOnly(t, t1, c, mayFail)
    ensures TouchesOnly(t, SetDraftStatus(t1, root, d), c, mayFail)
  {
  }

  lemma CloseFailedTouches(t: Tables, c: Claim, s: ActionStatus, d: DraftStatus)
    requires Current(t, c) && (s.Failed? || s.Unknown?)
    ensures TouchesOnly(t, CloseFailed(t, c.action, s, d), c, s.Failed?)
  {
    CloseTouches(t, c, s);
    if c.action in t.proposals {
      var root := ManagedFor(t, c.action, t.proposals[c.action].capability, t.proposals[c.action].supersedes);
      DraftStatusAside(t, Close(t, c.action, s, ProposalStatus.Failed), root, d, c, s.Failed?);
    }
  }

  lemma RecoveryTouchesItsAction(t: Tables, c: Claim, connectorId: string, f: Failure)
    ensures TouchesOnly(t, Recovered(t, c, connectorId, f), c, Fails(f))
  {
    if Current(t, c) {
      match f
      case Unavailable(_) =>
        CloseFailedTouches(t, c, ActionStatus.Failed, DraftStatus.Ready);
        UnavailableKeepsRows(t, c, connectorId, f.readAccessPreserved);
      case Refused => CloseFailedTouches(t, c, ActionStatus.Failed, DraftStatus.Ready);
      case Mismatch => CloseFailedTouches(t, c, ActionStatus.Failed, DraftStatus.Ready);
      case Release =>
      case Uncertain => CloseFailedTouches(t, c, ActionStatus.Unknown, DraftStatus.Unknown);
    }
  }

  lemma UnavailableKeepsRows(t: Tables, c: Claim, connectorId: string, preserved: bool)
    requires Current(t, c)
    ensures var t1, t2 := CloseFailed(t, c.action, ActionStatus.Failed, DraftStatus.Ready), MarkUnavailable(t, c, connectorId, preserved);
            t2.actions == t1.actions && t2.drafts == t1.drafts
  {
  }

  lemma RecoveryOutcomes(t: Tables, t': Tables, log: seq<Mutation>, c: Claim, f: Failure)
    requires forall id :: id in t.actions ==> ActionOk(t, id)
    requires c.action in t.actions && TouchesOnly(t, t', c, Fails(f))
    requires Current(t, c) && Fails(f) ==> OnlyExcused(t, log, c.action)
    ensures forall id :: id in t.actions && t.actions[id].claim == Some(c.id) ==> OutcomeOk(t', log, id)
  {
    forall id | id in t.actions && t.actions[id].claim == Some(c.id)
      ensures OutcomeOk(t', log, id)
    {
      assert ActionOk(t, id);
    }
  }

  lemma RecoveryIsQuiet(canon: Email -> Option<Email>, t: Tables, c: Claim, connectorId: string, f: Failure, minted: nat)
    requires TablesOk(canon, t)
    ensures Quiet(canon, t, Recovered(t, c, connectorId, f), Some(c.id), minted)
  {
    RecoveryKeeps(canon, t, c, connectorId, f, minted);
    RecoveryKeeps(canon, t, c, connectorId, f, minted + 1);
  }

  lemma RecoveredOutcomes(cfg: Config, w: World, e: nat, t: Tables)
    requires CoreOk(cfg, w) && e in w.execs && w.execs[e].Failing? && TouchesOnly(w.t, t, w.execs[e].claim, Fails(w.execs[e].failure))
    ensures ClaimOk(w.t, w.minted, w.execs[e].claim)
    ensures forall id :: id in w.t.actions && w.t.actions[id].claim == Some(w.execs[e].claim.id) ==> OutcomeOk(t, w.log, id)
  {
    assert ExecOk(w.t, w.minted, w.log, w.gmail, w.execs[e]);
    RecoveryOutcomes(w.t, t, w.log, w.execs[e].claim, w.execs[e].failure);
  }

  lemma RecoveredOk(cfg: Config, w: World, e: nat, t: Tables, p: Phase)
    requires CoreOk(cfg, w) && e in w.execs && w.execs[e].Failing?
    requires Quiet(cfg.canon, w.t, t, Some(w.execs[e].claim.id), w.minted)
    requires TouchesOnly(w.t, t, w.execs[e].claim, Fails(w.execs[e].failure))
    requires p.Done? || p == Failing(w.execs[e].claim, w.execs[e].connectorId, Release)
    ensures Follows(cfg, w, With(w.(t := t), e, p))
  {
    RecoveredOutcomes(cfg, w, e, t);
    ReleasesLater(cfg.canon, w.t, t, w.minted, w.execs[e].claim, w.log, w.gmail, w.execs[e].connectorId);
    OwnStep(cfg, w, With(w.(t := t), e, p), e, p);
  }

  lemma ReleasesLater(canon: Email -> Option<Email>, t: Tables, t': Tables, minted: nat, c: Claim,
                      log: seq<Mutation>, gmail: map<ProviderDraft, GmailDraft>, connectorId: string)
    requires Quiet(canon, t, t', Some(c.id), minted) && ClaimOk(t, minted, c)
    ensures ExecOk(t', minted, log, gmail, Failing(c, connectorId, Release))
  {
  }

  lemma RecoverShape(w: World, e: nat, replyLost: bool)
    requires e in w.execs && w.execs[e].Failing?
    ensures var x := w.execs[e];
            RecoverStep(w, e, replyLost) ==
              With(w.(t := Recovered(w.t, x.claim, x.connectorId, x.failure)), e,
                   if x.failure.Mismatch? && replyLost then Failing(x.claim, x.connectorId, Release) else Done)
  {
  }

  lemma RecoverStepOk(cfg: Config, w: World, e: nat, replyLost: bool)
    requires CoreOk(cfg, w)
    ensures Follows(cfg, w, RecoverStep(w, e, replyLost))
  {
    NothingIsLater(w.t);
    if e in w.execs && w.execs[e].Failing? {
      var x := w.execs[e];
      var t := Recovered(w.t, x.claim, x.connectorId, x.failure);
      var p := if x.failure.Mismatch? && replyLost then Failing(x.claim, x.connectorId, Release) else Done;
      RecoverShape(w, e, replyLost);
      RecoveryIsQuiet(cfg.canon, w.t, x.claim, x.connectorId, x.failure, w.minted);
      RecoveryTouchesItsAction(w.t, x.claim, x.connectorId, x.failure);
      RecoveredOk(cfg, w, e, t, p);
    }
  }

  lemma CrashStepOk(cfg: Config, w: World, e: nat)
    requires CoreOk(cfg, w)
    ensures Follows(cfg, w, CrashStep(w, e))
  {
    if e !in w.execs {
    } else if !w.execs[e].Done? {
      QuietStep(cfg, w, e, Done);
    } else {
      assert w.execs[e := Done] == w.execs;
    }
  }

  lemma EditKeepsExec(w: World, w': World, key: ProviderDraft, content: Email, p: Phase)
    requires ExecOk(w.t, w.minted, w.log, w.gmail, p) && w' == EditStep(w, key, content)
    ensures ExecOk(w.t, w.minted, w.log, w'.gmail, p)
  {
  }

  /** An edit from outside changes the draft and is counted, so no comparison is mistaken for current. */
  lemma EditStepOk(cfg: Config, w: World, key: ProviderDraft, content: Email)
    requires CoreOk(cfg, w)
    ensures Follows(cfg, w, EditStep(w, key, content))
  {
    NothingIsLater(w.t);
    var w' := EditStep(w, key, content);
    forall e | e in w'.execs
      ensures ExecOk(w'.t, w'.minted, w'.log, w'.gmail, w'.execs[e])
    {
      assert w'.execs == w.execs && ExecOk(w.t, w.minted, w.log, w.gmail, w.execs[e]);
      EditKeepsExec(w, w', key, content, w.execs[e]);
    }
  }
}
