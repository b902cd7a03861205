/** The two ways an update or delete that Gmail applied is nevertheless recorded FAILED, and how often an
    update can be applied: what the truthfulness and at-most-once theorems except does happen. */
module ActionMisrecords {
  import opened Wrappers
  import opened CanonicalEmail
  import opened ActionTables
  import opened ActionTransitions
  import opened ActionInvariant
  import opened ActionDecisionSteps
  import opened ActionExecutor
  import opened ActionWorld
  import opened ActionWorldInvariant
  import opened ActionWorldCalls
  import opened ActionRuns
  import opened ActionProgress
  import GmailClient

  // ----- Applied, and recorded FAILED all the same -----------------------------------------------------

  lemma HoldersAction(cfg: Config, w: World, e: nat)
    requires Reachable(cfg, w) && Canonicalizer(cfg.canon) && e in w.execs && w.execs[e].Started?
    ensures ClaimOk(w.t, w.minted, w.execs[e].subject.claim) && SubjectOk(w.t, w.execs[e].subject)
    ensures Current(w.t, w.execs[e].subject.claim) ==> w.execs[e].subject.claim.action !in w.t.results
  {
    ReachableOk(cfg, w);
    assert ExecOk(w.t, w.minted, w.log, w.gmail, w.execs[e]);
    assert ActionOk(w.t, w.execs[e].subject.claim.action);
  }

  /** The caller's side of a call Gmail applied. */
  lemma AppliesIt(cfg: Config, w: World, e: nat, draftId: string, made: seq<GmailClient.Try>)
    requires e in w.execs && w.execs[e].Started? && Applicable(w, w.execs[e].subject, draftId)
    requires Possible(w.execs[e].subject.claim.capability, made, cfg.retryAttempts) && GmailClient.Applied(made) > 0
    ensures var w1, s, reply := CallGmailStep(cfg, w, e, draftId, made), w.execs[e].subject, ReplyTo(made);
            && |w1.log| == |w.log| + 1 && w1.log[|w.log|].made == made
            && w1.log[|w.log|].action == s.claim.action && w1.log[|w.log|].capability == s.claim.capability
            && InLog(w1.log, s.claim.action) && w1.t == w.t && e in w1.execs
            && (reply.Revoked? ==> w1.execs[e] == Failing(s.claim, s.proposal.connector, Unavailable(false)))
            && (reply.Accepted? ==> w1.execs[e] == Returned(s, draftId))
  {
    assert CallGmailStep(cfg, w, e, draftId, made) == GmailAppliesStep(w, e, draftId, ReplyTo(made), made);
    assert CallGmailStep(cfg, w, e, draftId, made).log[|w.log|].action == w.execs[e].subject.claim.action;
  }

  /** Applied by Gmail, recorded FAILED. */
  predicate WronglyFailed(w: World, id: ProposalId) {
    id in w.t.actions && w.t.actions[id].status.Failed? && InLog(w.log, id)
  }

  lemma FailsIt(w: World, e: nat, c: Claim, connectorId: string, f: Failure)
    requires e in w.execs && w.execs[e] == Failing(c, connectorId, f) && (f == Refused || f == Unavailable(false))
    requires Current(w.t, c) && c.action !in w.t.results && InLog(w.log, c.action)
    ensures WronglyFailed(RecoverStep(w, e, false), c.action)
  {
    RecoveryRecords(w.t, c, connectorId, f);
  }

  /** A revoked grant met after Gmail applied an earlier request of the call: the record says FAILED. */
  lemma RevokedRetryIsRecordedFailed(cfg: Config, w: World, e: nat, draftId: string, made: seq<GmailClient.Try>)
    requires Reachable(cfg, w) && Canonicalizer(cfg.canon)
    requires e in w.execs && w.execs[e].Started? && Current(w.t, w.execs[e].subject.claim)
    requires Applicable(w, w.execs[e].subject, draftId)
    requires Possible(w.execs[e].subject.claim.capability, made, cfg.retryAttempts)
    requires GmailClient.Applied(made) > 0 && ReplyTo(made).Revoked?
    ensures WronglyFailed(Run(cfg, w, [Outcome(e, CallGmail(draftId, made)), Outcome(e, Recover(false))]), w.execs[e].subject.claim.action)
  {
    var w1, s := CallGmailStep(cfg, w, e, draftId, made), w.execs[e].subject;
    HoldersAction(cfg, w, e);
    AppliesIt(cfg, w, e, draftId, made);
    FailsIt(w1, e, s.claim, s.proposal.connector, Unavailable(false));
    RunsOne(cfg, w, Outcome(e, CallGmail(draftId, made)), w1);
    RunsOne(cfg, w1, Outcome(e, Recover(false)), RecoverStep(w1, e, false));
    RunConcat(cfg, w, [Outcome(e, CallGmail(draftId, made))], [Outcome(e, Recover(false))]);
  }

  lemma RefusesIt(cfg: Config, w: World, e: nat, now: Time)
    requires e in w.execs && w.execs[e].Returned?
    requires Completion(cfg, w, w.execs[e].subject, w.execs[e].draftId, now) == RolledBack(ValidationError)
    ensures var w', s := CompleteStep(cfg, w, e, now, false), w.execs[e].subject;
            e in w'.execs && w'.execs[e] == Failing(s.claim, s.proposal.connector, Refused) && w'.t == w.t && w'.log == w.log
  {
  }

  /** An update Gmail answers with another draft's id: applied, and recorded FAILED as well. */
  lemma StrangeUpdateIsRecordedFailed(cfg: Config, w: World, e: nat, draftId: string, made: seq<GmailClient.Try>, now: Time)
    requires Reachable(cfg, w) && Canonicalizer(cfg.canon)
    requires e in w.execs && w.execs[e].Started? && Current(w.t, w.execs[e].subject.claim)
    requires w.execs[e].subject.claim.capability.UpdateDraft? && Applicable(w, w.execs[e].subject, draftId)
    requires Possible(Capability.UpdateDraft, made, cfg.retryAttempts) && ReplyTo(made).Accepted?
    requires var r := w.execs[e].subject.claim.action.root; r in w.t.drafts ==> draftId != w.t.drafts[r].provider.draftId
    ensures WronglyFailed(Run(cfg, w, [Outcome(e, CallGmail(draftId, made)), Outcome(e, Complete(now, false)), Outcome(e, Recover(false))]),
                          w.execs[e].subject.claim.action)
  {
    var w1, s := CallGmailStep(cfg, w, e, draftId, made), w.execs[e].subject;
    var w2 := CompleteStep(cfg, w1, e, now, false);
    HoldersAction(cfg, w, e);
    GmailClient.RequestsAreBounded(made, cfg.retryAttempts, true);
    AppliesIt(cfg, w, e, draftId, made);
    StrangeHere(cfg, w, w1, e, draftId, now);
    RefusesIt(cfg, w1, e, now);
    FailsIt(w2, e, s.claim, s.proposal.connector, Refused);
    RunsThree(cfg, w, Outcome(e, CallGmail(draftId, made)), Outcome(e, Complete(now, false)), Outcome(e, Recover(false)),
              w1, w2, RecoverStep(w2, e, false));
  }

  lemma StrangeHere(cfg: Config, w: World, w1: World, e: nat, draftId: string, now: Time)
    requires Reachable(cfg, w) && Canonicalizer(cfg.canon) && w1.t == w.t && e in w.execs && w.execs[e].Started?
    requires ClaimOk(w.t, w.minted, w.execs[e].subject.claim) && SubjectOk(w.t, w.execs[e].subject)
    requires Current(w.t, w.execs[e].subject.claim) && w.execs[e].subject.claim.capability.UpdateDraft?
    requires var r := w.execs[e].subject.claim.action.root; r in w.t.drafts ==> draftId != w.t.drafts[r].provider.draftId
    ensures Completion(cfg, w1, w.execs[e].subject, draftId, now) == RolledBack(ValidationError)
  {
    ReachableOk(cfg, w);
    StrangeUpdateIsRefused(cfg, w1.(minted := w.minted), w.execs[e].subject, draftId, now);
  }

  lemma StrangeUpdateIsRefused(cfg: Config, w: World, s: Subject, draftId: string, now: Time)
    requires TablesOk(cfg.canon, w.t) && ClaimOk(w.t, w.minted, s.claim) && SubjectOk(w.t, s)
    requires Current(w.t, s.claim) && s.claim.capability.UpdateDraft?
    requires s.claim.action.root in w.t.drafts ==> draftId != w.t.drafts[s.claim.action.root].provider.draftId
    ensures Completion(cfg, w, s, draftId, now) == RolledBack(ValidationError)
  {
    HolderIsTyped(cfg, w, s.claim);
    assert FamilyOk(cfg.canon, w.t, s.claim.action.root);
    CurrentUpdateFindsDraft(cfg.canon, w.t, s);
  }

  /** The bound on an update's applied requests is exact: every number up to the attempts can happen to any
      of them, with the caller told of one success. */
  lemma UpdateCanBeAppliedAnyNumberOfTimes(cfg: Config, w: World, e: nat, draftId: string, n: nat)
    requires e in w.execs && w.execs[e].Started? && Applicable(w, w.execs[e].subject, draftId)
    requires w.execs[e].subject.claim.capability.UpdateDraft? && 0 < n <= cfg.retryAttempts
    ensures var w' := Run(cfg, w, [Outcome(e, CallGmail(draftId, GmailClient.AppliedTimes(n)))]);
            && |w'.log| == |w.log| + 1 && w'.log[|w.log|].action == w.execs[e].subject.claim.action
            && GmailClient.Applied(w'.log[|w.log|].made) == n && e in w'.execs && w'.execs[e].Returned?
  {
    GmailClient.EveryCountCanHappen(n, cfg.retryAttempts);
    AppliesIt(cfg, w, e, draftId, GmailClient.AppliedTimes(n));
    RunsOne(cfg, w, Outcome(e, CallGmail(draftId, GmailClient.AppliedTimes(n))),
            CallGmailStep(cfg, w, e, draftId, GmailClient.AppliedTimes(n)));
  }

  /** Which calls Gmail applies at most once, whatever becomes of them: all but an update with attempts to
      repeat it. */
  lemma AtMostOnceIffNotUpdate(c: Capability, retryAttempts: nat)
    ensures (forall made :: Possible(c, made, retryAttempts) ==> GmailClient.Applied(made) <= 1)
            <==> !c.UpdateDraft? || retryAttempts <= 1
  {
    forall made | Possible(c, made, retryAttempts) && (!c.UpdateDraft? || retryAttempts <= 1)
      ensures GmailClient.Applied(made) <= 1
    {
      GmailClient.RequestsAreBounded(made, retryAttempts, Repeated(c));
      if GmailClient.Applied(made) > 0 {
        CallsAnswerWithinBounds(c, made, retryAttempts);
      }
    }
    if c.UpdateDraft? && retryAttempts > 1 {
      GmailClient.EveryCountCanHappen(2, retryAttempts);
      assert Possible(c, GmailClient.AppliedTimes(2), retryAttempts);
    }
  }

  // ----- ... and it can happen to any draft that was shown ----------------------------------------------

  lemma ReachableStays(cfg: Config, w: World, events: seq<Event>)
    requires Reachable(cfg, w)
    ensures Reachable(cfg, Run(cfg, w, events))
  {
    var before :| Run(cfg, EMPTY, before) == w;
    RunConcat(cfg, EMPTY, before, events);
  }

  /** The user looks at a card that still works, with Gmail in order. */
  predicate CardWorks(w: World, card: nat, who: Principal, now: Time) {
    && card < |w.cards| && card in w.delivered
    && var id := w.cards[card].approval;
       && id in w.t.approvals && w.t.approvals[id].token == w.cards[card].token
       && w.t.approvals[id].status.Pending? && w.t.approvals[id].principal == who && now < w.t.approvals[id].expiresAt
       && id in w.t.proposals && w.t.proposals[id].connector in w.t.connectors
       && ConnectorUsable(w.t.connectors[w.t.proposals[id].connector])
       && id.root in w.t.drafts && w.t.drafts[id.root].provider in w.gmail && w.gmail[w.t.drafts[id.root].provider].live
  }

  /** Discard is accepted and queues the delete. */
  lemma DiscardQueuesDelete(cfg: Config, w: World, card: nat, who: Principal, now: Time)
    requires Reachable(cfg, w) && Canonicalizer(cfg.canon) && CardWorks(w, card, who, now)
    ensures var w', r := PressStep(cfg, w, PressDiscard, card, who, now), w.cards[card].approval.root;
            && w' == w.(t := w'.t) && Delete(r) in w'.t.actions && w'.t.actions[Delete(r)].status.Queued?
            && Delete(r) in w'.t.proposals && Favourable(w', Delete(r), now)
            && r in w'.t.drafts && w'.t.drafts[r].provider == w.t.drafts[r].provider
  {
    var id := w.cards[card].approval;
    PendingHere(cfg, w, id);
    AddressedIsUnique(w.t, w.cards[card].token, id);
    AcceptedDiscard(w.t, id, w.cards[card].token, who, now);
  }

  lemma PendingHere(cfg: Config, w: World, id: ProposalId)
    requires Reachable(cfg, w) && Canonicalizer(cfg.canon) && id in w.t.approvals && w.t.approvals[id].status.Pending?
    ensures id.Send? && id in w.t.proposals && Fresh(w.t, id) && UniqueTokens(w.t)
    ensures Delete(id.root) !in w.t.actions && Delete(id.root) !in w.t.proposals
  {
    ReachableOk(cfg, w);
    assert FamilyOk(cfg.canon, w.t, id.root);
    PendingIsNewestAndIdle(w.t, id);
    assert SendTerms(cfg.canon, w.t, id.root, id.version);
  }

  lemma AcceptedDiscard(t: Tables, id: ProposalId, token: nat, who: Principal, now: Time)
    requires id in t.approvals && id in t.proposals && t.approvals[id].status.Pending? && t.approvals[id].principal == who
    requires FindApproval(t, token) == Some(id) && now < t.approvals[id].expiresAt && Fresh(t, id)
    requires Delete(id.root) !in t.actions && Delete(id.root) !in t.proposals
    ensures var x := DiscardAndQueueDelete(t, token, who, now);
            && x.Committed? && Discards(t, x.tables, id) && x.tables.connectors == t.connectors
  {
  }

  /** Applied, its answer lost, and the grant revoked by the time the client tries again. */
  const LOST_THEN_REVOKED: seq<GmailClient.Try> := [GmailClient.Transient(true), GmailClient.InvalidGrant]

  /** So every draft whose card still works can end like this: Discard, the delete applied by Gmail and
      its answer lost, the grant found revoked by the retry, and the delete recorded FAILED. */
  lemma AnyDiscardCanBeMisrecorded(cfg: Config, w: World, card: nat, who: Principal, e: nat, now: Time, draftId: string)
    requires Reachable(cfg, w) && Canonicalizer(cfg.canon) && CardWorks(w, card, who, now) && e !in w.execs
    requires cfg.retryAttempts >= 2
    ensures WronglyFailed(Run(cfg, w, [Service(ActionWorld.Press(PressDiscard, card, who, now))]
                                      + Approaches(e, Delete(w.cards[card].approval.root), now)
                                      + [Outcome(e, CallGmail(draftId, LOST_THEN_REVOKED)), Outcome(e, Recover(false))]),
                          Delete(w.cards[card].approval.root))
  {
    var press, id := Service(ActionWorld.Press(PressDiscard, card, who, now)), Delete(w.cards[card].approval.root);
    var w1 := PressStep(cfg, w, PressDiscard, card, who, now);
    DiscardQueuesDelete(cfg, w, card, who, now);
    RunsOne(cfg, w, press, w1);
    ReachableStays(cfg, w, [press]);
    var w2 := Run(cfg, w1, Approaches(e, id, now));
    QueuedActionReachesItsCall(cfg, w1, e, id, now);
    ReachableStays(cfg, w1, Approaches(e, id, now));
    DeleteIsApplicable(cfg, w1, w2, e, id, Approaches(e, id, now), draftId);
    GmailClient.RevokedAfterApplied(cfg.retryAttempts);
    RevokedRetryIsRecordedFailed(cfg, w2, e, draftId, LOST_THEN_REVOKED);
    RunConcat(cfg, w, [press] + Approaches(e, id, now), [Outcome(e, CallGmail(draftId, LOST_THEN_REVOKED)), Outcome(e, Recover(false))]);
    RunConcat(cfg, w, [press], Approaches(e, id, now));
  }

  lemma DeleteIsApplicable(cfg: Config, w1: World, w2: World, e: nat, id: ProposalId, events: seq<Event>, draftId: string)
    requires Reachable(cfg, w1) && Reachable(cfg, w2) && Canonicalizer(cfg.canon) && w2 == Run(cfg, w1, events)
    requires e in w2.execs && w2.execs[e].Started? && w2.execs[e].subject.claim.action == id && id.Delete?
    requires w2.gmail == w1.gmail && id.root in w1.t.drafts
    requires w1.t.drafts[id.root].provider in w1.gmail && w1.gmail[w1.t.drafts[id.root].provider].live
    ensures Applicable(w2, w2.execs[e].subject, draftId) && w2.execs[e].subject.claim.capability.DeleteDraft?
  {
    HoldersAction(cfg, w2, e);
    ReachableOk(cfg, w2);
    HolderIsTyped(cfg, w2, w2.execs[e].subject.claim);
    DraftsKeepProvider(cfg, w1, events, id.root);
  }

  lemma DraftsKeepProvider(cfg: Config, w: World, events: seq<Event>, r: string)
    requires Reachable(cfg, w) && Canonicalizer(cfg.canon) && r in w.t.drafts
    ensures r in Run(cfg, w, events).t.drafts && Run(cfg, w, events).t.drafts[r].provider == w.t.drafts[r].provider
  {
    ReachableOk(cfg, w);
    RunOk(cfg, w, events);
  }
}
