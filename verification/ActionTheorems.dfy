/** What the protocol promises, for every reachable world. */
module ActionTheorems {
  import opened Wrappers
  import opened CanonicalEmail
  import opened ActionTables
  import opened ActionTransitions
  import opened ActionInvariant
  import opened ActionPreservation
  import opened ActionSteps
  import opened ActionExecutor
  import opened ActionValidation
  import opened ActionWorld
  import opened ActionWorldInvariant
  import opened ActionWorldSteps
  import opened ActionWorldCalls
  import opened ActionCards
  import opened ActionRuns
  import GmailClient

  lemma FamilyHolds(cfg: Config, w: World, r: string)
    requires Reachable(cfg, w) && Canonicalizer(cfg.canon)
    ensures FamilyOk(cfg.canon, w.t, r)
  {
    ReachableOk(cfg, w);
  }

  lemma ActionHolds(cfg: Config, w: World, id: ProposalId)
    requires Reachable(cfg, w) && Canonicalizer(cfg.canon) && id in w.t.actions
    ensures ActionOk(w.t, id) && Typed(w.t, id)
  {
    ReachableOk(cfg, w);
    TypedFromFamily(cfg.canon, w.t, id);
  }

  // ----- At most one mutation -----------------------------------------------------------------------

  /** However executors interleave, crash, lose replies and outlive their leases, Gmail applies at most one
      call per action, and at most one executor per action is ever past the boundary. Of a create, send or
      delete it applies exactly one request; of an update, which the client repeats and Gmail takes again, any
      number from one up to the client's attempts (`ActionMisrecords.UpdateCanBeAppliedAnyNumberOfTimes`). */
  lemma AtMostOneMutation(cfg: Config, w: World)
    requires Reachable(cfg, w) && Canonicalizer(cfg.canon)
    ensures forall i, j :: 0 <= i < |w.log| && 0 <= j < |w.log| && w.log[i].action == w.log[j].action ==> i == j
    ensures forall i :: 0 <= i < |w.log| ==>
              var m := w.log[i];
              && Possible(m.capability, m.made, cfg.retryAttempts) && m.reply == ReplyTo(m.made)
              && 1 <= GmailClient.Applied(m.made) <= cfg.retryAttempts
              && (!m.capability.UpdateDraft? ==> GmailClient.Applied(m.made) == 1)
    ensures forall e :: e in w.execs && w.execs[e].Started? ==> !InLog(w.log, w.execs[e].subject.claim.action)
    ensures forall e, d ::
              (e in w.execs && d in w.execs && w.execs[e].Started? && w.execs[d].Started?
               && w.execs[e].subject.claim.action == w.execs[d].subject.claim.action) ==> e == d
  {
    ReachableOk(cfg, w);
    assert forall i :: 0 <= i < |w.log| ==> EntryOk(w.t, w.log[i]);
    forall i | 0 <= i < |w.log|
      ensures MadeOk(w.log[i], cfg.retryAttempts) && 1 <= GmailClient.Applied(w.log[i].made) <= cfg.retryAttempts
      ensures !w.log[i].capability.UpdateDraft? ==> GmailClient.Applied(w.log[i].made) == 1
    {
      CallsAnswerWithinBounds(w.log[i].capability, w.log[i].made, cfg.retryAttempts);
    }
    forall e | e in w.execs && w.execs[e].Started?
      ensures !InLog(w.log, w.execs[e].subject.claim.action)
    {
      assert ExecOk(w.t, w.minted, w.log, w.gmail, w.execs[e]);
    }
  }

  /** The mark is set once and never cleared, and terminal actions absorb, whatever happens next. */
  lemma HistoryIsFinal(cfg: Config, w: World, events: seq<Event>, id: ProposalId)
    requires Reachable(cfg, w) && Canonicalizer(cfg.canon) && id in w.t.actions
    ensures var a, t' := w.t.actions[id], Run(cfg, w, events).t;
            && id in t'.actions
            && (a.started.Some? ==> t'.actions[id].started == a.started)
            && (Terminal(a.status) ==> t'.actions[id] == a && id in t'.results && t'.results[id] == a.status)
  {
    ReachableOk(cfg, w);
    RunOk(cfg, w, events);
    assert ActionOk(Run(cfg, w, events).t, id);
  }

  // ----- One decision per draft -----------------------------------------------------------------------

  predicate Decisive(id: ProposalId) {
    id.Send? || id.Delete?
  }

  lemma OneDecisiveAction(t: Tables, i: ProposalId, j: ProposalId)
    requires Roster(t, i.root) && Lockstep(t, i.root)
    requires Decisive(i) && Decisive(j) && i.root == j.root && i in t.actions && j in t.actions
    ensures i == j
  {
  }

  lemma FamilyHoldsLater(cfg: Config, w: World, events: seq<Event>, r: string)
    requires Reachable(cfg, w) && Canonicalizer(cfg.canon)
    ensures FamilyOk(cfg.canon, Run(cfg, w, events).t, r)
    ensures w.t.actions.Keys <= Run(cfg, w, events).t.actions.Keys
  {
    ReachableOk(cfg, w);
    RunOk(cfg, w, events);
  }

  /** Over a draft's whole history, past and future, one send or delete action at most is ever queued;
      and two actions that are queued or running at the same moment are about different drafts. */
  lemma OneDecisionPerDraft(cfg: Config, w: World, events: seq<Event>, i: ProposalId, j: ProposalId)
    requires Reachable(cfg, w) && Canonicalizer(cfg.canon)
    requires i in w.t.actions && j in Run(cfg, w, events).t.actions && i.root == j.root
    ensures Decisive(i) && Decisive(j) ==> i == j
    ensures j in w.t.actions && !Terminal(w.t.actions[i].status) && !Terminal(w.t.actions[j].status) ==> i == j
  {
    FamilyHolds(cfg, w, i.root);
    FamilyHoldsLater(cfg, w, events, i.root);
    if Decisive(i) && Decisive(j) {
      OneDecisiveAction(Run(cfg, w, events).t, i, j);
    }
    if j in w.t.actions && !Terminal(w.t.actions[i].status) && !Terminal(w.t.actions[j].status) {
      OneLiveAction(w.t, i, j);
    }
  }

  lemma EntryIsTyped(cfg: Config, w: World, i: nat)
    requires CoreOk(cfg, w) && i < |w.log|
    ensures EntryOk(w.t, w.log[i]) && Typed(w.t, w.log[i].action) && FamilyOk(cfg.canon, w.t, w.log[i].action.root)
  {
    assert FamilyOk(cfg.canon, w.t, w.log[i].action.root);
    TypedFromFamily(cfg.canon, w.t, w.log[i].action);
  }

  /** A draft is sent at most once, and never both sent and deleted; and no two drafts of the store are
      the same Gmail draft. */
  lemma SentAtMostOnce(cfg: Config, w: World, i: nat, j: nat)
    requires Reachable(cfg, w) && Canonicalizer(cfg.canon)
    requires i < |w.log| && j < |w.log| && w.log[i].action.root == w.log[j].action.root
    requires w.log[i].capability.SendDraft? || w.log[i].capability.DeleteDraft?
    requires w.log[j].capability.SendDraft? || w.log[j].capability.DeleteDraft?
    ensures i == j
    ensures forall r, q :: r in w.t.drafts && q in w.t.drafts && w.t.drafts[r].provider == w.t.drafts[q].provider ==> r == q
  {
    ReachableOk(cfg, w);
    EntryIsTyped(cfg, w, i);
    EntryIsTyped(cfg, w, j);
    OneDecisiveAction(w.t, w.log[i].action, w.log[j].action);
  }

  // ----- Only what was approved -----------------------------------------------------------------------

  /** The tables say that exactly `message` was approved for `id`, now, by its bound user. */
  predicate Approved(t: Tables, id: ProposalId, message: Email) {
    && id.Send? && id in t.proposals && id in t.approvals && id.root in t.drafts
    && t.approvals[id].status.Granted?
    && t.approvals[id].hash == t.proposals[id].hash == Sha256(message)
    && t.drafts[id.root].active == id && t.drafts[id.root].hash == Sha256(message)
  }

  /** The bound user pressed Send, before the approval expired, on the last card ever prepared for `id`: a card that
      had been delivered and showed every recipient, the subject and the bodies of `message`. */
  ghost predicate ShownAndPressed(w: World, id: ProposalId, message: Email)
    requires id in w.t.approvals
  {
    exists k :: 0 <= k < |w.presses| &&
      var p := w.presses[k];
      && p.approval == id && p.who == w.t.approvals[id].principal && p.at < w.t.approvals[id].expiresAt
      && p.card < |w.cards| && p.card in w.delivered && LastFor(w.cards, p.card)
      && w.cards[p.card].approval == id
      && CardShows(w.cards[p.card].card, message, w.t.approvals[id].expiresAt)
  }

  lemma SendActionIsApproved(canon: Email -> Option<Email>, t: Tables, id: ProposalId)
    requires FamilyOk(canon, t, id.root) && id.Send? && id in t.actions && id in t.proposals
    ensures Approved(t, id, t.proposals[id].parameters)
  {
    assert SendTerms(canon, t, id.root, id.version);
  }

  lemma ApprovedWasShown(w: World, id: ProposalId)
    requires CardsOk(w) && id in w.t.approvals && w.t.approvals[id].status.Granted? && id in w.t.proposals
    ensures ShownAndPressed(w, id, w.t.proposals[id].parameters)
  {
    var k :| 0 <= k < |w.presses| && w.presses[k].approval == id;
    assert PressOk(w.t, w.cards, w.delivered, w.presses[k]);
    assert CardOk(w.t, w.cards[w.presses[k].card]);
  }

  /** Whatever was ever granted was granted by such a press, on a card that showed what is on file. */
  lemma GrantsWerePressedInTime(cfg: Config, w: World, id: ProposalId)
    requires Reachable(cfg, w) && Canonicalizer(cfg.canon)
    requires id in w.t.approvals && w.t.approvals[id].status.Granted?
    ensures id in w.t.proposals && ShownAndPressed(w, id, w.t.proposals[id].parameters)
  {
    ReachableOk(cfg, w);
    assert FamilyOk(cfg.canon, w.t, id.root);
    ApprovedWasShown(w, id);
  }

  /** Every email Gmail ever sent was approved exactly, was shown on the card that was pressed, and left
      as approved unless someone edited the Gmail draft between the comparison and the call. */
  lemma OnlyApprovedContentIsSent(cfg: Config, w: World, i: nat)
    requires Reachable(cfg, w) && Canonicalizer(cfg.canon)
    requires i < |w.log| && w.log[i].capability.SendDraft?
    ensures Approved(w.t, w.log[i].action, w.log[i].message)
    ensures ShownAndPressed(w, w.log[i].action, w.log[i].message)
    ensures w.log[i].edits == w.log[i].checked ==> w.log[i].content == w.log[i].message
  {
    ReachableOk(cfg, w);
    EntryIsTyped(cfg, w, i);
    SendActionIsApproved(cfg.canon, w.t, w.log[i].action);
    ApprovedWasShown(w, w.log[i].action);
  }

  /** What the authority check found at load time is still so at the call, under every interleaving. */
  lemma AuthorityHoldsAtTheCall(cfg: Config, w: World, e: nat)
    requires Reachable(cfg, w) && Canonicalizer(cfg.canon)
    requires e in w.execs && w.execs[e].Started? && w.execs[e].subject.claim.capability.SendDraft?
    ensures var s := w.execs[e].subject;
            && Approved(w.t, s.claim.action, s.message)
            && ShownAndPressed(w, s.claim.action, s.message)
            && s.managed.Some? && s.managed.value.provider == w.t.drafts[s.claim.action.root].provider
  {
    ReachableOk(cfg, w);
    var id := w.execs[e].subject.claim.action;
    assert ExecOk(w.t, w.minted, w.log, w.gmail, w.execs[e]);
    assert FamilyOk(cfg.canon, w.t, id.root);
    TypedFromFamily(cfg.canon, w.t, id);
    SendActionIsApproved(cfg.canon, w.t, id);
    ApprovedWasShown(w, id);
  }

  // ----- Truthful outcomes ------------------------------------------------------------------------------

  /** QUEUED means Gmail applied nothing; SUCCEEDED means it applied exactly one call and said so; a
      send or create Gmail applied is never recorded QUEUED or FAILED; and an update or delete is recorded
      FAILED after Gmail applied it only if the client's retry met a revoked grant or Gmail answered an
      update with another draft's id. */
  lemma OutcomesAreTruthful(cfg: Config, w: World, id: ProposalId)
    requires Reachable(cfg, w) && Canonicalizer(cfg.canon) && id in w.t.actions
    ensures w.t.actions[id].status.Queued? ==> !InLog(w.log, id)
    ensures w.t.actions[id].status.Succeeded? ==>
              exists i :: 0 <= i < |w.log| && w.log[i].action == id && w.log[i].reply.Accepted?
                          && forall j :: 0 <= j < |w.log| && w.log[j].action == id ==> j == i
    ensures w.t.actions[id].status.Failed? && (w.t.actions[id].capability.SendDraft? || w.t.actions[id].capability.CreateDraft?) ==>
              !InLog(w.log, id)
    ensures w.t.actions[id].status.Failed? ==> forall i :: 0 <= i < |w.log| && w.log[i].action == id ==> Excused(w.t, w.log[i])
  {
    ReachableOk(cfg, w);
    assert ActionOk(w.t, id) && OutcomeOk(w.t, w.log, id);
    assert forall i :: 0 <= i < |w.log| ==> EntryOk(w.t, w.log[i]);
    if w.t.actions[id].status.Succeeded? {
      var i :| 0 <= i < |w.log| && w.log[i].action == id && w.log[i].reply.Accepted?;
      assert forall j :: 0 <= j < |w.log| && w.log[j].action == id ==> j == i;
    }
  }

  /** The last request was answered, and, except for an update, no other was applied. */
  predicate WasAnswered(m: Mutation) {
    && m.made != [] && m.made[|m.made| - 1].Answered?
    && (!m.capability.UpdateDraft? ==> GmailClient.Applied(m.made[..|m.made| - 1]) == 0)
  }

  lemma AcceptedWasAnswered(m: Mutation, retryAttempts: nat)
    requires MadeOk(m, retryAttempts) && m.reply.Accepted?
    ensures WasAnswered(m)
  {
    CallsAnswerWithinBounds(m.capability, m.made, retryAttempts);
  }

  /** An action recorded SUCCEEDED took effect by the request Gmail answered; and by that one alone, except
      that an update may have been applied before. */
  lemma SuccessWasAnswered(cfg: Config, w: World, id: ProposalId)
    requires Reachable(cfg, w) && Canonicalizer(cfg.canon) && id in w.t.actions && w.t.actions[id].status.Succeeded?
    ensures exists i :: 0 <= i < |w.log| && w.log[i].action == id
                        && w.log[i].capability == w.t.actions[id].capability && WasAnswered(w.log[i])
  {
    ReachableOk(cfg, w);
    assert OutcomeOk(w.t, w.log, id);
    var i :| 0 <= i < |w.log| && w.log[i].action == id && w.log[i].reply.Accepted?;
    assert EntryOk(w.t, w.log[i]) && MadeOk(w.log[i], cfg.retryAttempts);
    AcceptedWasAnswered(w.log[i], cfg.retryAttempts);
  }

  // ----- Nothing pending is stale -------------------------------------------------------------------------

  lemma PendingIsFreshHere(canon: Email -> Option<Email>, t: Tables, id: ProposalId)
    requires FamilyOk(canon, t, id.root) && id.Send? && id in t.approvals && t.approvals[id].status.Pending?
    ensures id in t.proposals && t.proposals[id].status.WaitingApproval? && Fresh(t, id)
  {
    PendingIsNewestAndIdle(t, id);
    assert SendTerms(canon, t, id.root, id.version);
  }

  /** A pending approval's proposal waits for it and is the active send proposal of exactly one draft,
      and the three stored hashes agree. */
  lemma PendingIsFresh(cfg: Config, w: World, id: ProposalId)
    requires Reachable(cfg, w) && Canonicalizer(cfg.canon)
    requires id in w.t.approvals && w.t.approvals[id].status.Pending?
    ensures id in w.t.proposals && w.t.proposals[id].status.WaitingApproval?
    ensures forall r :: r in w.t.drafts && w.t.drafts[r].active == id <==> r == id.root
    ensures w.t.approvals[id].hash == w.t.proposals[id].hash == w.t.drafts[id.root].hash
  {
    FamilyHolds(cfg, w, id.root);
    ApprovalsAreForSends(cfg, w, id);
    PendingIsFreshHere(cfg.canon, w.t, id);
    forall r | r in w.t.drafts && w.t.drafts[r].active == id
      ensures r == id.root
    {
      FamilyHolds(cfg, w, r);
    }
  }

  lemma ApprovalsAreForSends(cfg: Config, w: World, id: ProposalId)
    requires Reachable(cfg, w) && Canonicalizer(cfg.canon) && id in w.t.approvals
    ensures id.Send?
  {
    ReachableOk(cfg, w);
  }

  predicate AnsweredStale(x: Tx<Decision>) {
    x.Committed? && x.value.Stale?
  }

  /** So no press is ever answered with the stale-draft branch. */
  lemma StaleBranchesNeverFire(cfg: Config, w: World, token: nat, who: Principal, ttl: int, now: Time)
    requires Reachable(cfg, w) && Canonicalizer(cfg.canon)
    ensures !AnsweredStale(GrantAndQueueSend(w.t, token, who, now))
    ensures !AnsweredStale(OpenRevision(w.t, token, who, ttl, now))
    ensures !AnsweredStale(DiscardAndQueueDelete(w.t, token, who, now))
  {
    if Addressed(w.t, token, who).Some? {
      var id := Addressed(w.t, token, who).value;
      if w.t.approvals[id].status.Pending? {
        FamilyHolds(cfg, w, id.root);
        ApprovalsAreForSends(cfg, w, id);
        PendingIsFreshHere(cfg.canon, w.t, id);
      }
    }
  }

  // ----- Nothing queued is wrongly denied ---------------------------------------------------------------

  /** An executor that still holds its claim is authorised exactly when the circumstances outside the
      action tables allow it; a connector that is no use is reported so, without marking it, and anything else is
      refused. */
  lemma NeverWronglyDenied(cfg: Config, w: World, e: nat, now: Time)
    requires Reachable(cfg, w) && Canonicalizer(cfg.canon)
    requires e in w.execs && w.execs[e].HasDraft? && Current(w.t, w.execs[e].claim)
    ensures var x, p := w.execs[e], CheckAuthorityStep(cfg, w, e, now).execs[e];
            && (p.Validated? <==>
                  && Usable(x.connector)
                  && (x.proposal.expiresAt.None? || now < x.proposal.expiresAt.value)
                  && (x.claim.capability.CreateDraft? || x.claim.capability.UpdateDraft? ==> w.telegram.Some?))
            && (!p.Validated? ==>
                  p == Failing(x.claim, x.proposal.connector, if Usable(x.connector) then Refused else Failure.Unavailable(true)))
  {
    ReachableOk(cfg, w);
    var x := w.execs[e];
    assert ExecOk(w.t, w.minted, w.log, w.gmail, x);
    SupersedesOwnRoot(cfg, w.t, x.claim.action);
    var s := Subject(x.claim, x.proposal, x.proposal.parameters, x.connector, x.managed, LookupApproval(w.t, x.claim), w.telegram);
    AuthorizedIffCircumstancesAllow(cfg.canon, w.t, s, now);
    CheckedExactly(s, now);
  }

  // ----- Lockstep and versions ------------------------------------------------------------------------------

  /** The four statuses of a send, seen from its action. */
  predicate SendInLockstep(t: Tables, id: ProposalId)
    requires id in t.actions
  {
    && id in t.proposals && id in t.approvals && id.root in t.drafts
    && t.approvals[id].status.Granted?
    && match t.actions[id].status
       case Queued => t.proposals[id].status.Approved? && t.drafts[id.root].status.Sending?
       case Running => t.proposals[id].status.Approved? && t.drafts[id.root].status.Sending?
       case Succeeded => t.proposals[id].status.Completed? && t.drafts[id.root].status.Sent?
       case Failed => t.proposals[id].status.Failed? && t.drafts[id.root].status.Ready?
       case Unknown => t.proposals[id].status.Failed? && t.drafts[id.root].status.Unknown?
  }

  /** Likewise of a delete. */
  predicate DeleteInLockstep(t: Tables, id: ProposalId)
    requires id in t.actions
  {
    && id in t.proposals && id.root in t.drafts
    && var s := Send(id.root, t.drafts[id.root].version);
    && s in t.approvals && t.approvals[s].status.Rejected? && HasStatus(t, s, ProposalStatus.Cancelled)
    && match t.actions[id].status
       case Queued => t.proposals[id].status.Queued? && t.drafts[id.root].status.Deleting?
       case Running => t.proposals[id].status.Queued? && t.drafts[id.root].status.Deleting?
       case Succeeded => t.proposals[id].status.Completed? && t.drafts[id.root].status.Deleted?
       case Failed => t.proposals[id].status.Failed? && t.drafts[id.root].status.Ready?
       case Unknown => t.proposals[id].status.Failed? && t.drafts[id.root].status.Unknown?
  }

  /** And of an update, whose version it replaces is superseded and whose success adds the next one. */
  predicate UpdateInLockstep(t: Tables, id: ProposalId)
    requires id in t.actions && id.Update?
  {
    && id in t.proposals && id.root in t.drafts
    && var s, d := Send(id.root, id.version), t.drafts[id.root];
    && s in t.approvals && t.approvals[s].status.Superseded? && HasStatus(t, s, ProposalStatus.Superseded)
    && (t.actions[id].status.Succeeded? <==> id.version < d.version)
    && match t.actions[id].status
       case Queued => t.proposals[id].status.Queued? && d.status.Updating?
       case Running => t.proposals[id].status.Queued? && d.status.Updating?
       case Succeeded => t.proposals[id].status.Completed?
       case Failed => t.proposals[id].status.Failed? && d.status.Ready?
       case Unknown => t.proposals[id].status.Failed? && d.status.Unknown?
  }

  /** A create's success is the draft's existence. */
  predicate CreateInLockstep(t: Tables, id: ProposalId)
    requires id in t.actions
  {
    && id in t.proposals
    && (t.actions[id].status.Succeeded? <==> id.root in t.drafts)
    && match t.actions[id].status
       case Queued => t.proposals[id].status.Queued?
       case Running => t.proposals[id].status.Queued?
       case Succeeded => t.proposals[id].status.Completed?
       case _ => t.proposals[id].status.Failed?
  }

  lemma UpdateLockstepHere(t: Tables, id: ProposalId)
    requires Roster(t, id.root) && Lockstep(t, id.root) && id.Update? && id in t.actions
    ensures UpdateInLockstep(t, id)
  {
    assert id in t.proposals && HasVersion(t, id.root, id.version);
    assert id.version < t.drafts[id.root].version ==> PastVersion(t, id.root, id.version);
  }

  /** Action, proposal, approval and draft statuses move together, and an action is terminal exactly when
      it has a result, which is its status. */
  lemma StatusesMoveInLockstep(cfg: Config, w: World, id: ProposalId)
    requires Reachable(cfg, w) && Canonicalizer(cfg.canon) && id in w.t.actions
    ensures match id
            case Create(_) => CreateInLockstep(w.t, id)
            case Send(_, _) => SendInLockstep(w.t, id)
            case Update(_, _) => UpdateInLockstep(w.t, id)
            case Delete(_) => DeleteInLockstep(w.t, id)
    ensures Terminal(w.t.actions[id].status) <==> id in w.t.results
    ensures id in w.t.results ==> w.t.results[id] == w.t.actions[id].status
  {
    FamilyHolds(cfg, w, id.root);
    ActionHolds(cfg, w, id);
    if id.Update? {
      UpdateLockstepHere(w.t, id);
    }
  }

  /** The send proposals of a draft are versions 1 to n with no gap; n is the active one; every earlier one
      was superseded by a completed update; and all of them are in the thread the draft began in. */
  lemma VersionsHaveNoGap(cfg: Config, w: World, r: string, k: nat)
    requires Reachable(cfg, w) && Canonicalizer(cfg.canon)
    ensures Send(r, k) in w.t.proposals <==> r in w.t.drafts && 1 <= k <= w.t.drafts[r].version
    ensures r in w.t.drafts ==> w.t.drafts[r].active == Send(r, w.t.drafts[r].version)
    ensures r in w.t.drafts && 1 <= k < w.t.drafts[r].version ==> PastVersion(w.t, r, k)
    ensures Send(r, k) in w.t.proposals ==>
              && w.t.proposals[Send(r, k)].version == k
              && Create(r) in w.t.proposals
              && SameThread(w.t.proposals[Send(r, k)].parameters, w.t.proposals[Create(r)].parameters)
  {
    FamilyHolds(cfg, w, r);
    assert Send(r, k) in w.t.proposals ==> SendTerms(cfg.canon, w.t, r, k);
  }
}
