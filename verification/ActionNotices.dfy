/** The notices that carry the approval cards, over every run: who can move one, how, and how often
    (src/eva_ai/notifications/repository.py). */
module ActionNotices {
  import opened Wrappers
  import opened CanonicalEmail
  import opened ActionTables
  import opened ActionTransitions
  import opened ActionExecutor
  import opened ActionWorld
  import opened ActionWorldInvariant
  import opened ActionRuns

  // ----- Everything but the delivery steps only adds notices -----------------------------------------------

  /** No notice moved; any new one is as the completions make it, with the approval it is to show. */
  ghost predicate Grows(t: Tables, t': Tables) {
    && (forall id :: id in t.notices ==> id in t'.notices && t'.notices[id] == t.notices[id])
    && (forall id :: id in t'.notices && id !in t.notices ==> t'.notices[id] == NEW_NOTICE && id in t'.approvals)
  }

  lemma SameNoticesGrow(t: Tables, t': Tables)
    requires t'.notices == t.notices
    ensures Grows(t, t')
  {
  }

  lemma CompletionGrows(cfg: Config, w: World, s: Subject, draftId: string, now: Time)
    requires Completion(cfg, w, s, draftId, now).Committed?
    ensures Grows(w.t, Completion(cfg, w, s, draftId, now).tables)
  {
    match s.claim.capability
    case CreateDraft => CreateGrows(cfg, w.t, s.claim, draftId, Next(cfg, w, s, now).value, now);
    case UpdateDraft => UpdateGrows(cfg, w.t, s.claim, draftId, Next(cfg, w, s, now).value, now);
    case DeleteDraft =>
      SameNoticesGrow(w.t, CompleteManaged(w.t, s.claim, s.managed.value.provider.draftId, DraftStatus.Deleted).tables);
    case SendDraft =>
      SameNoticesGrow(w.t, CompleteManaged(w.t, s.claim, s.managed.value.provider.draftId, DraftStatus.Sent).tables);
  }

  lemma CreateGrows(cfg: Config, t: Tables, c: Claim, draftId: string, next: NextApproval, now: Time)
    requires CompleteCreate(cfg.canon, t, c, draftId, next, now).Committed?
    ensures Grows(t, CompleteCreate(cfg.canon, t, c, draftId, next, now).tables)
  {
  }

  lemma UpdateGrows(cfg: Config, t: Tables, c: Claim, draftId: string, next: NextApproval, now: Time)
    requires CompleteUpdate(cfg.canon, t, c, draftId, next, now).Committed?
    ensures Grows(t, CompleteUpdate(cfg.canon, t, c, draftId, next, now).tables)
  {
  }

  lemma GrantAnswered(t: Tables, token: nat, who: Principal, now: Time)
    requires GrantAndQueueSend(t, token, who, now).Committed? && !GrantAndQueueSend(t, token, who, now).value.Accepted?
    ensures GrantAndQueueSend(t, token, who, now).tables.notices == t.notices
  {
  }

  lemma GrantAccepted(t: Tables, token: nat, who: Principal, now: Time)
    requires GrantAndQueueSend(t, token, who, now).Committed? && GrantAndQueueSend(t, token, who, now).value.Accepted?
    ensures GrantAndQueueSend(t, token, who, now).tables.notices == t.notices
  {
  }

  lemma ChangeAnswered(t: Tables, token: nat, who: Principal, ttl: int, now: Time)
    requires OpenRevision(t, token, who, ttl, now).Committed? && !OpenRevision(t, token, who, ttl, now).value.Accepted?
    ensures OpenRevision(t, token, who, ttl, now).tables.notices == t.notices
  {
  }

  lemma ChangeAccepted(t: Tables, token: nat, who: Principal, ttl: int, now: Time)
    requires OpenRevision(t, token, who, ttl, now).Committed? && OpenRevision(t, token, who, ttl, now).value.Accepted?
    ensures OpenRevision(t, token, who, ttl, now).tables.notices == t.notices
  {
  }

  lemma DiscardAnswered(t: Tables, token: nat, who: Principal, now: Time)
    requires DiscardAndQueueDelete(t, token, who, now).Committed? && !DiscardAndQueueDelete(t, token, who, now).value.Accepted?
    ensures DiscardAndQueueDelete(t, token, who, now).tables.notices == t.notices
  {
  }

  lemma DiscardAccepted(t: Tables, token: nat, who: Principal, now: Time)
    requires DiscardAndQueueDelete(t, token, who, now).Committed? && DiscardAndQueueDelete(t, token, who, now).value.Accepted?
    ensures DiscardAndQueueDelete(t, token, who, now).tables.notices == t.notices
  {
  }

  lemma PressNotices(cfg: Config, w: World, op: Operation, card: nat, who: Principal, now: Time)
    ensures PressStep(cfg, w, op, card, who, now).t.notices == w.t.notices
  {
    if card in w.delivered && card < |w.cards| {
      var token := w.cards[card].token;
      match op {
        case PressSend =>
          var x := GrantAndQueueSend(w.t, token, who, now);
          if x.Committed? && x.value.Accepted? {
            GrantAccepted(w.t, token, who, now);
          } else if x.Committed? {
            GrantAnswered(w.t, token, who, now);
          }
        case PressChange =>
          var ttl := cfg.revisionTtl;
          var x := OpenRevision(w.t, token, who, ttl, now);
          if x.Committed? && x.value.Accepted? {
            ChangeAccepted(w.t, token, who, ttl, now);
          } else if x.Committed? {
            ChangeAnswered(w.t, token, who, ttl, now);
          }
        case PressDiscard =>
          var x := DiscardAndQueueDelete(w.t, token, who, now);
          if x.Committed? && x.value.Accepted? {
            DiscardAccepted(w.t, token, who, now);
          } else if x.Committed? {
            DiscardAnswered(w.t, token, who, now);
          }
      }
    }
  }

  lemma IntakeNotices(cfg: Config, w: World, root: string, raw: Email, origin: Origin, connector: string, situation: Option<string>)
    ensures IntakeStep(cfg, w, root, raw, origin, connector, situation).t.notices == w.t.notices
  {
  }

  lemma SupersedeNotices(w: World, card: nat, who: Principal)
    ensures SupersedeStep(w, card, who).t.notices == w.t.notices
  {
  }

  lemma StartRevisionNotices(cfg: Config, w: World, account: string, now: Time)
    ensures StartRevisionStep(cfg, w, account, now).t.notices == w.t.notices
  {
  }

  lemma FinishRevisionNotices(cfg: Config, w: World, session: ProposalId, current: Email, x: Candidate, now: Time)
    ensures FinishRevisionStep(cfg, w, session, current, x, now).t.notices == w.t.notices
  {
  }

  lemma ServiceNotices(cfg: Config, w: World, ev: ServiceEvent)
    ensures ServiceStep(cfg, w, ev).t.notices == w.t.notices
  {
    match ev
    case Intake(root, raw, origin, connector, situation) => IntakeNotices(cfg, w, root, raw, origin, connector, situation);
    case Press(op, card, who, now) => PressNotices(cfg, w, op, card, who, now);
    case Supersede(card, who) => SupersedeNotices(w, card, who);
    case StartRevision(account, now) => StartRevisionNotices(cfg, w, account, now);
    case FinishRevision(session, current, x, now) => FinishRevisionNotices(cfg, w, session, current, x, now);
  }

  lemma ClosingNotices(t: Tables, id: ProposalId, status: ActionStatus, draft: DraftStatus)
    requires id in t.actions
    ensures CloseFailed(t, id, status, draft).notices == t.notices
  {
  }

  lemma ClaimNotices(t: Tables, id: ProposalId, now: Time, leaseSeconds: int, claimId: nat)
    ensures ClaimAction(t, id, now, leaseSeconds, claimId).0.notices == t.notices
  {
    if id in t.actions {
      ClosingNotices(t, id, ActionStatus.Unknown, DraftStatus.Unknown);
    }
  }

  lemma ApproachNotices(cfg: Config, w: World, e: nat, ev: ApproachEvent)
    ensures ApproachStep(cfg, w, e, ev).t.notices == w.t.notices
  {
    match ev
    case ClaimWork(action, now, _) => ClaimNotices(w.t, action, now, cfg.leaseSeconds, w.minted);
    case ReadProposal =>
    case ReadDraft =>
    case CheckAuthority(_) =>
    case Connect(_) =>
    case Compare =>
    case MarkCall(_, _) =>
  }

  lemma RecoverNotices(w: World, e: nat, replyLost: bool)
    ensures RecoverStep(w, e, replyLost).t.notices == w.t.notices
  {
    if e in w.execs && w.execs[e].Failing? && Current(w.t, w.execs[e].claim) {
      var id := w.execs[e].claim.action;
      ClosingNotices(w.t, id, ActionStatus.Failed, DraftStatus.Ready);
      ClosingNotices(w.t, id, ActionStatus.Unknown, DraftStatus.Unknown);
    }
  }

  lemma OutcomeGrows(cfg: Config, w: World, e: nat, ev: OutcomeEvent)
    ensures Grows(w.t, OutcomeStep(cfg, w, e, ev).t)
  {
    match ev
    case CallGmail(draftId, made) => SameNoticesGrow(w.t, CallGmailStep(cfg, w, e, draftId, made).t);
    case Complete(now, replyLost) =>
      if e in w.execs && w.execs[e].Returned? && Completion(cfg, w, w.execs[e].subject, w.execs[e].draftId, now).Committed? {
        CompletionGrows(cfg, w, w.execs[e].subject, w.execs[e].draftId, now);
      } else {
        SameNoticesGrow(w.t, CompleteStep(cfg, w, e, now, replyLost).t);
      }
    case Interrupt(refused) => SameNoticesGrow(w.t, InterruptStep(w, e, refused).t);
    case Recover(replyLost) =>
      RecoverNotices(w, e, replyLost);
      SameNoticesGrow(w.t, RecoverStep(w, e, replyLost).t);
    case Crash => SameNoticesGrow(w.t, CrashStep(w, e).t);
  }

  lemma OthersGrow(cfg: Config, w: World, ev: Event)
    requires !ev.Delivery?
    ensures Grows(w.t, Step(cfg, w, ev).t)
  {
    match ev
    case Service(service) =>
      ServiceNotices(cfg, w, service);
      SameNoticesGrow(w.t, ServiceStep(cfg, w, service).t);
    case Approach(e, approach) =>
      ApproachNotices(cfg, w, e, approach);
      SameNoticesGrow(w.t, ApproachStep(cfg, w, e, approach).t);
    case Outcome(e, outcome) => OutcomeGrows(cfg, w, e, outcome);
    case Outside(outside) => SameNoticesGrow(w.t, OutsideStep(w, outside).t);
  }

  // ----- How a notice moves -------------------------------------------------------------------------------

  predicate Failed(n: Notice) {
    n.status.RetryableFailure? || n.status.PermanentFailure?
  }

  /** A due notice taken under the next claim id, its attempt counted. */
  predicate TakenUp(n: Notice, n': Notice, now: Time, leaseSeconds: int, minted: nat) {
    NoticeEligible(n, now) && n' == Notice(NoticeStatus.Sending, Some(minted), Some(now + leaseSeconds), n.attempts + 1, None)
  }

  /** Its current holder says how it went; a retryable failure is retried only while attempts are left. */
  predicate WoundUp(n: Notice, n': Notice, c: NoticeClaim, sent: bool, retryable: bool, maxAttempts: nat, nextRetry: Option<Time>) {
    && n.status.Sending? && n.claim == Some(c.id)
    && n'.claim.None? && n'.lease.None? && n'.attempts == n.attempts
    && if sent then n'.status.Sent? && n'.nextRetry.None?
       else if retryable && c.attempts < maxAttempts then n'.status.RetryableFailure? && n'.nextRetry == nextRetry
       else n'.status.PermanentFailure? && n'.nextRetry.None?
  }

  /** An operator puts a failed one back in line. */
  predicate PutBack(n: Notice, n': Notice) {
    Failed(n) && n' == n.(status := NoticeStatus.Pending, nextRetry := None)
  }

  /** The only ways a notice ever changes. */
  predicate MovesBy(cfg: Config, w: World, id: ProposalId, n: Notice, n': Notice, ev: Event) {
    match ev
    case Delivery(_, ClaimCard(notice, now)) => notice == id && TakenUp(n, n', now, cfg.leaseSeconds, w.minted)
    case Delivery(worker, FinishCard(sent, retryable, nextRetry)) =>
      && worker in w.workers && w.workers[worker].notice == id
      && WoundUp(n, n', w.workers[worker], sent, retryable, cfg.maxAttempts, nextRetry)
    case Delivery(_, RetryCard(notice)) => notice == id && PutBack(n, n')
    case _ => false
  }

  lemma FinishMoves(cfg: Config, w: World, worker: nat, sent: bool, retryable: bool, nextRetry: Option<Time>, id: ProposalId)
    requires id in w.t.notices
    ensures var t' := FinishCardStep(cfg, w, worker, sent, retryable, nextRetry).t;
            && id in t'.notices
            && (t'.notices[id] == w.t.notices[id]
                || (worker in w.workers && w.workers[worker].notice == id
                    && WoundUp(w.t.notices[id], t'.notices[id], w.workers[worker], sent, retryable, cfg.maxAttempts, nextRetry)))
  {
  }

  lemma ClaimMoves(cfg: Config, w: World, worker: nat, notice: ProposalId, now: Time, id: ProposalId)
    requires id in w.t.notices
    ensures var t' := ClaimCardStep(cfg, w, worker, notice, now).t;
            && id in t'.notices
            && (t'.notices[id] == w.t.notices[id]
                || (notice == id && TakenUp(w.t.notices[id], t'.notices[id], now, cfg.leaseSeconds, w.minted)))
  {
  }

  lemma RetryMoves(w: World, notice: ProposalId, id: ProposalId)
    requires id in w.t.notices
    ensures var t' := RetryCardStep(w, notice).t;
            && id in t'.notices
            && (t'.notices[id] == w.t.notices[id] || (notice == id && PutBack(w.t.notices[id], t'.notices[id])))
  {
  }

  lemma PrepareNotices(cfg: Config, w: World, worker: nat, now: Time)
    ensures PrepareCardStep(cfg, w, worker, now).t.notices == w.t.notices
  {
  }

  lemma DeliveryMoves(cfg: Config, w: World, worker: nat, ev: DeliveryEvent, id: ProposalId)
    requires id in w.t.notices
    ensures var t' := DeliveryStep(cfg, w, worker, ev).t;
            && id in t'.notices
            && (t'.notices[id] == w.t.notices[id]
                || MovesBy(cfg, w, id, w.t.notices[id], t'.notices[id], Delivery(worker, ev)))
  {
    match ev
    case ClaimCard(notice, now) => ClaimMoves(cfg, w, worker, notice, now, id);
    case FinishCard(sent, retryable, nextRetry) => FinishMoves(cfg, w, worker, sent, retryable, nextRetry, id);
    case RetryCard(notice) => RetryMoves(w, notice, id);
    case PrepareCard(now) => PrepareNotices(cfg, w, worker, now);
    case DeliverCard(_) =>
  }

  lemma FinishAddsNone(cfg: Config, w: World, worker: nat, sent: bool, retryable: bool, nextRetry: Option<Time>, id: ProposalId)
    requires id !in w.t.notices
    ensures id !in FinishCardStep(cfg, w, worker, sent, retryable, nextRetry).t.notices
  {
  }

  lemma ClaimAddsNone(cfg: Config, w: World, worker: nat, notice: ProposalId, now: Time, id: ProposalId)
    requires id !in w.t.notices
    ensures id !in ClaimCardStep(cfg, w, worker, notice, now).t.notices
  {
  }

  lemma RetryAddsNone(w: World, notice: ProposalId, id: ProposalId)
    requires id !in w.t.notices
    ensures id !in RetryCardStep(w, notice).t.notices
  {
  }

  lemma DeliveryAddsNone(cfg: Config, w: World, worker: nat, ev: DeliveryEvent, id: ProposalId)
    requires id !in w.t.notices
    ensures id !in DeliveryStep(cfg, w, worker, ev).t.notices
  {
    match ev
    case ClaimCard(notice, now) => ClaimAddsNone(cfg, w, worker, notice, now, id);
    case FinishCard(sent, retryable, nextRetry) => FinishAddsNone(cfg, w, worker, sent, retryable, nextRetry, id);
    case RetryCard(notice) => RetryAddsNone(w, notice, id);
    case PrepareCard(now) => PrepareNotices(cfg, w, worker, now);
    case DeliverCard(_) =>
  }

  /** A notice is taken up when due, wound up by its current holder, put back by an operator, and by nothing
      else ever moved or removed. So a SENT notice stays, a FAILED one moves only by an operator or, if it
      failed for now, by a claim when it is due, and a PENDING one only by a claim. */
  lemma NoticesMoveOnlySo(cfg: Config, w: World, ev: Event, id: ProposalId)
    requires id in w.t.notices
    ensures var t' := Step(cfg, w, ev).t;
            id in t'.notices && (t'.notices[id] == w.t.notices[id] || MovesBy(cfg, w, id, w.t.notices[id], t'.notices[id], ev))
  {
    match ev
    case Delivery(worker, delivery) => DeliveryMoves(cfg, w, worker, delivery, id);
    case _ => OthersGrow(cfg, w, ev);
  }

  lemma NewNoticesArePending(cfg: Config, w: World, ev: Event, id: ProposalId)
    requires id !in w.t.notices && id in Step(cfg, w, ev).t.notices
    ensures Step(cfg, w, ev).t.notices[id] == NEW_NOTICE && id in Step(cfg, w, ev).t.approvals
  {
    match ev
    case Delivery(worker, delivery) => DeliveryAddsNone(cfg, w, worker, delivery, id);
    case _ => OthersGrow(cfg, w, ev);
  }

  // ----- Over any run -------------------------------------------------------------------------------------

  /** What is never undone: SENT stays, attempts only grow, and a claim not current never becomes so again. */
  ghost predicate NoticesForward(w: World, w': World) {
    && w.minted <= w'.minted
    && (forall id :: id in w.t.notices ==>
          && id in w'.t.notices && w.t.notices[id].attempts <= w'.t.notices[id].attempts
          && (w.t.notices[id].status.Sent? ==> w'.t.notices[id] == w.t.notices[id]))
    && (forall c: NoticeClaim :: c.id < w.minted && !NoticeCurrent(w.t, c) ==> !NoticeCurrent(w'.t, c))
  }

  lemma MintedGrows(cfg: Config, w: World, ev: Event)
    ensures w.minted <= Step(cfg, w, ev).minted
  {
    match ev
    case Service(_) =>
    case Delivery(_, _) =>
    case Approach(_, _) =>
    case Outcome(_, _) =>
    case Outside(_) =>
  }

  lemma StepIsForward(cfg: Config, w: World, ev: Event)
    ensures NoticesForward(w, Step(cfg, w, ev))
  {
    var w' := Step(cfg, w, ev);
    MintedGrows(cfg, w, ev);
    forall id | id in w.t.notices
      ensures id in w'.t.notices && w.t.notices[id].attempts <= w'.t.notices[id].attempts
      ensures w.t.notices[id].status.Sent? ==> w'.t.notices[id] == w.t.notices[id]
    {
      NoticesMoveOnlySo(cfg, w, ev, id);
    }
    forall c: NoticeClaim | c.id < w.minted && !NoticeCurrent(w.t, c)
      ensures !NoticeCurrent(w'.t, c)
    {
      LostStaysLost(cfg, w, ev, c);
    }
  }

  lemma LostStaysLost(cfg: Config, w: World, ev: Event, c: NoticeClaim)
    requires c.id < w.minted && !NoticeCurrent(w.t, c)
    ensures !NoticeCurrent(Step(cfg, w, ev).t, c)
  {
    if c.notice in Step(cfg, w, ev).t.notices {
      if c.notice in w.t.notices {
        NoticesMoveOnlySo(cfg, w, ev, c.notice);
      } else {
        NewNoticesArePending(cfg, w, ev, c.notice);
      }
    }
  }

  lemma {:induction false} RunIsForward(cfg: Config, w: World, events: seq<Event>)
    ensures NoticesForward(w, Run(cfg, w, events))
    decreases |events|
  {
    if events != [] {
      var w' := Step(cfg, w, events[0]);
      StepIsForward(cfg, w, events[0]);
      RunIsForward(cfg, w', events[1..]);
      ForwardIsTransitive(w, w', Run(cfg, w', events[1..]));
    }
  }

  lemma ForwardIsTransitive(a: World, b: World, c: World)
    requires NoticesForward(a, b) && NoticesForward(b, c)
    ensures NoticesForward(a, c)
  {
  }

  /** A claim on a notice that is current no more can never again mark it sent, fail it or prepare its card,
      whatever happens in between. */
  lemma LostNoticeClaimIsPowerless(cfg: Config, w: World, events: seq<Event>, c: NoticeClaim, retryable: bool,
                                   nextRetry: Option<Time>, token: nat, now: Time)
    requires c.id < w.minted && !NoticeCurrent(w.t, c)
    ensures var t := Run(cfg, w, events).t;
            && MarkNoticeSent(t, c) == RolledBack(ConflictError)
            && FailNotice(t, c, retryable, cfg.maxAttempts, nextRetry) == RolledBack(ConflictError)
            && PrepareApprovalCard(cfg.canon, t, c, token, now) == RolledBack(ScopeError)
  {
    RunIsForward(cfg, w, events);
  }

  /** A card once recorded as SENT is never claimed, failed or delivered anew. */
  lemma SentIsForGood(cfg: Config, w: World, events: seq<Event>, id: ProposalId)
    requires id in w.t.notices && w.t.notices[id].status.Sent?
    ensures id in Run(cfg, w, events).t.notices && Run(cfg, w, events).t.notices[id] == w.t.notices[id]
  {
    RunIsForward(cfg, w, events);
  }

  // ----- One holder, and the limit on attempts -----------------------------------------------------------

  /** Workers hold different claims, each knows its notice's attempts while the claim is current, and a
      notice waits for an automatic retry only below the limit. */
  ghost predicate NoticesOk(cfg: Config, w: World) {
    && (forall k :: k in w.workers ==> WorkerOk(w, w.workers[k]))
    && (forall k, j :: k in w.workers && j in w.workers && w.workers[k].id == w.workers[j].id ==> k == j)
    && (forall id :: id in w.t.notices && w.t.notices[id].status.RetryableFailure? ==> w.t.notices[id].attempts < cfg.maxAttempts)
  }

  predicate WorkerOk(w: World, c: NoticeClaim) {
    c.id < w.minted && (NoticeCurrent(w.t, c) ==> w.t.notices[c.notice].attempts == c.attempts)
  }

  lemma WorkersStay(cfg: Config, w: World, ev: Event)
    requires !(ev.Delivery? && ev.delivery.ClaimCard?)
    ensures Step(cfg, w, ev).workers == w.workers
  {
    match ev
    case Service(_) =>
    case Delivery(_, _) =>
    case Approach(_, _) =>
    case Outcome(_, _) =>
    case Outside(_) =>
  }

  lemma WorkerStaysOk(cfg: Config, w: World, ev: Event, c: NoticeClaim)
    requires WorkerOk(w, c)
    ensures WorkerOk(Step(cfg, w, ev), c)
  {
    MintedGrows(cfg, w, ev);
    if NoticeCurrent(w.t, c) {
      NoticesMoveOnlySo(cfg, w, ev, c.notice);
    } else {
      LostStaysLost(cfg, w, ev, c);
    }
  }

  lemma NewWorkerOk(cfg: Config, w: World, worker: nat, id: ProposalId, now: Time)
    requires worker !in w.workers
    ensures var w' := ClaimCardStep(cfg, w, worker, id, now);
            w'.workers == w.workers || (w'.workers == w.workers[worker := w'.workers[worker]] && worker in w'.workers
                                        && w'.workers[worker].id == w.minted && WorkerOk(w', w'.workers[worker]))
  {
  }

  lemma RetriesStayBelow(cfg: Config, w: World, ev: Event, id: ProposalId)
    requires NoticesOk(cfg, w) && id in Step(cfg, w, ev).t.notices && Step(cfg, w, ev).t.notices[id].status.RetryableFailure?
    ensures Step(cfg, w, ev).t.notices[id].attempts < cfg.maxAttempts
  {
    if id in w.t.notices {
      NoticesMoveOnlySo(cfg, w, ev, id);
      if ev.Delivery? && ev.worker in w.workers {
        assert WorkerOk(w, w.workers[ev.worker]);
      }
    } else {
      NewNoticesArePending(cfg, w, ev, id);
    }
  }

  lemma NoticesStepOk(cfg: Config, w: World, ev: Event)
    requires NoticesOk(cfg, w)
    ensures NoticesOk(cfg, Step(cfg, w, ev))
  {
    var w' := Step(cfg, w, ev);
    forall k | k in w.workers
      ensures WorkerOk(w', w.workers[k])
    {
      WorkerStaysOk(cfg, w, ev, w.workers[k]);
    }
    forall id | id in w'.t.notices && w'.t.notices[id].status.RetryableFailure?
      ensures w'.t.notices[id].attempts < cfg.maxAttempts
    {
      RetriesStayBelow(cfg, w, ev, id);
    }
    WorkersStepOk(cfg, w, ev);
  }

  lemma WorkersStepOk(cfg: Config, w: World, ev: Event)
    requires forall k :: k in w.workers ==> WorkerOk(w, w.workers[k])
    requires forall k :: k in w.workers ==> WorkerOk(Step(cfg, w, ev), w.workers[k])
    requires forall k, j :: k in w.workers && j in w.workers && w.workers[k].id == w.workers[j].id ==> k == j
    ensures var w' := Step(cfg, w, ev);
            && (forall k :: k in w'.workers ==> WorkerOk(w', w'.workers[k]))
            && (forall k, j :: k in w'.workers && j in w'.workers && w'.workers[k].id == w'.workers[j].id ==> k == j)
  {
    match ev
    case Delivery(worker, ClaimCard(id, now)) =>
      if worker !in w.workers {
        NewWorkerOk(cfg, w, worker, id, now);
      }
    case _ => WorkersStay(cfg, w, ev);
  }

  lemma {:induction false} NoticesRunOk(cfg: Config, w: World, events: seq<Event>)
    requires NoticesOk(cfg, w)
    ensures NoticesOk(cfg, Run(cfg, w, events))
    decreases |events|
  {
    if events != [] {
      NoticesStepOk(cfg, w, events[0]);
      NoticesRunOk(cfg, Step(cfg, w, events[0]), events[1..]);
    }
  }

  /** What a worker delivered under a current claim is recorded as SENT, and a failed notice an operator puts back
      waits again. */
  lemma NoticesCanBeFinished(cfg: Config, w: World, worker: nat, retryable: bool, nextRetry: Option<Time>, id: ProposalId)
    ensures worker in w.workers && NoticeCurrent(w.t, w.workers[worker]) ==>
              var notice, t' := w.workers[worker].notice, FinishCardStep(cfg, w, worker, true, retryable, nextRetry).t;
              notice in t'.notices && t'.notices[notice].status.Sent?
    ensures id in w.t.notices && Failed(w.t.notices[id]) ==>
              id in RetryCardStep(w, id).t.notices && PutBack(w.t.notices[id], RetryCardStep(w, id).t.notices[id])
  {
  }

  /** In every reachable world a notice has one worker at most that can still finish it; and that worker's
      failure is retried by itself exactly if it is retryable and the notice's own count of attempts is below
      the limit. */
  lemma OneWorkerWithinTheLimit(cfg: Config, w: World, worker: nat, other: nat, retryable: bool, nextRetry: Option<Time>)
    requires Reachable(cfg, w) && worker in w.workers && NoticeCurrent(w.t, w.workers[worker])
    ensures other in w.workers && w.workers[other].notice == w.workers[worker].notice && NoticeCurrent(w.t, w.workers[other]) ==>
              other == worker
    ensures var id, t' := w.workers[worker].notice, FinishCardStep(cfg, w, worker, false, retryable, nextRetry).t;
            && id in t'.notices && Failed(t'.notices[id])
            && (t'.notices[id].status.RetryableFailure? <==> retryable && w.t.notices[id].attempts < cfg.maxAttempts)
  {
    var events :| Run(cfg, EMPTY, events) == w;
    NoticesRunOk(cfg, EMPTY, events);
    assert WorkerOk(w, w.workers[worker]);
  }

  // ----- Every notice shows an approval ------------------------------------------------------------------

  ghost predicate ForApprovals(t: Tables) {
    forall id :: id in t.notices ==> id in t.approvals
  }

  lemma LaterKeepsApprovals(t: Tables, t': Tables)
    requires Later(t, t')
    ensures forall id :: id in t.approvals ==> id in t'.approvals
  {
  }

  lemma StepKeepsForApprovals(cfg: Config, w: World, ev: Event)
    requires ForApprovals(w.t) && Later(w.t, Step(cfg, w, ev).t)
    ensures ForApprovals(Step(cfg, w, ev).t)
  {
    LaterKeepsApprovals(w.t, Step(cfg, w, ev).t);
    forall id | id in Step(cfg, w, ev).t.notices
      ensures id in Step(cfg, w, ev).t.approvals
    {
      if id !in w.t.notices {
        NewNoticesArePending(cfg, w, ev, id);
      }
    }
  }

  lemma {:induction false} RunKeepsForApprovals(cfg: Config, w: World, events: seq<Event>)
    requires WorldOk(cfg, w) && Canonicalizer(cfg.canon) && ForApprovals(w.t)
    ensures ForApprovals(Run(cfg, w, events).t)
    decreases |events|
  {
    if events != [] {
      StepOk(cfg, w, events[0]);
      StepKeepsForApprovals(cfg, w, events[0]);
      RunKeepsForApprovals(cfg, Step(cfg, w, events[0]), events[1..]);
    }
  }

  /** No notice is on file before the approval it is to show. */
  lemma NoticesAreForApprovals(cfg: Config, w: World, id: ProposalId)
    requires Reachable(cfg, w) && Canonicalizer(cfg.canon) && id in w.t.notices
    ensures id in w.t.approvals
  {
    var events :| Run(cfg, EMPTY, events) == w;
    EmptyOk(cfg);
    RunKeepsForApprovals(cfg, EMPTY, events);
  }
}
