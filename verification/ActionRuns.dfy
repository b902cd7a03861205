/** The invariant of every run, whatever happens in it. */
module ActionRuns {
  import opened Wrappers
  import opened CanonicalEmail
  import opened ActionTables
  import opened ActionTransitions
  import opened ActionInvariant
  import opened ActionExecutor
  import opened ActionWorld
  import opened ActionWorldInvariant
  import opened ActionWorldSteps
  import opened ActionWorldCalls
  import opened ActionCards

  ghost predicate WorldOk(cfg: Config, w: World) {
    CoreOk(cfg, w) && CardsOk(w) && ContextsOk(cfg, w)
  }

  // ----- The core ---------------------------------------------------------------------------------------

  lemma ServiceStepOk(cfg: Config, w: World, ev: ServiceEvent)
    requires CoreOk(cfg, w) && ContextsOk(cfg, w) && Canonicalizer(cfg.canon)
    ensures Follows(cfg, w, ServiceStep(cfg, w, ev))
  {
    match ev
    case Intake(root, raw, origin, connector, situation) => IntakeStepOk(cfg, w, root, raw, origin, connector, situation);
    case Press(op, card, who, now) =>
      match op {
        case PressSend => PressSendOk(cfg, w, card, who, now);
        case PressChange => PressChangeOk(cfg, w, card, who, now);
        case PressDiscard => PressDiscardOk(cfg, w, card, who, now);
      }
    case Supersede(card, who) => SupersedeStepOk(cfg, w, card, who);
    case StartRevision(account, now) => StartRevisionStepOk(cfg, w, account, now);
    case FinishRevision(session, current, x, now) => FinishRevisionStepOk(cfg, w, session, current, x, now);
  }

  lemma NothingInCore(cfg: Config, w: World, w': World)
    requires CoreOk(cfg, w)
    requires w'.t == w.t && w'.execs == w.execs && w'.minted == w.minted && w'.gmail == w.gmail && w'.log == w.log
    ensures Follows(cfg, w, w')
  {
    assert forall e :: e in w.execs ==> ExecOk(w.t, w.minted, w.log, w.gmail, w.execs[e]);
  }

  lemma DeliveryStepOk(cfg: Config, w: World, worker: nat, ev: DeliveryEvent)
    requires CoreOk(cfg, w)
    ensures Follows(cfg, w, DeliveryStep(cfg, w, worker, ev))
  {
    match ev
    case ClaimCard(approval, now) => ClaimCardStepOk(cfg, w, worker, approval, now);
    case PrepareCard(now) => PrepareCardStepOk(cfg, w, worker, now);
    case DeliverCard(_) => NothingInCore(cfg, w, DeliveryStep(cfg, w, worker, ev));
    case FinishCard(sent, retryable, nextRetry) => FinishCardStepOk(cfg, w, worker, sent, retryable, nextRetry);
    case RetryCard(approval) => RetryCardStepOk(cfg, w, approval);
  }

  lemma OutsideStepOk(cfg: Config, w: World, ev: OutsideEvent)
    requires CoreOk(cfg, w)
    ensures Follows(cfg, w, OutsideStep(w, ev))
  {
    match ev
    case SetConnector(id, row) => SetConnectorOk(cfg, w, id, row);
    case SetTelegram(_) => NothingInCore(cfg, w, OutsideStep(w, ev));
    case EditDraft(key, content) => EditStepOk(cfg, w, key, content);
  }

  lemma ApproachStepOk(cfg: Config, w: World, e: nat, ev: ApproachEvent)
    requires CoreOk(cfg, w)
    ensures Follows(cfg, w, ApproachStep(cfg, w, e, ev))
  {
    match ev
    case ClaimWork(action, now, replyLost) => ClaimWorkStepOk(cfg, w, e, action, now, replyLost);
    case ReadProposal => ReadProposalStepOk(cfg, w, e);
    case ReadDraft => ReadDraftStepOk(cfg, w, e);
    case CheckAuthority(now) => CheckAuthorityStepOk(cfg, w, e, now);
    case Connect(refused) => ConnectStepOk(cfg, w, e, refused);
    case Compare => CompareStepOk(cfg, w, e);
    case MarkCall(now, replyLost) => MarkCallStepOk(cfg, w, e, now, replyLost);
  }

  lemma OutcomeStepOk(cfg: Config, w: World, e: nat, ev: OutcomeEvent)
    requires CoreOk(cfg, w)
    ensures Follows(cfg, w, OutcomeStep(cfg, w, e, ev))
  {
    match ev
    case CallGmail(draftId, made) => CallGmailStepOk(cfg, w, e, draftId, made);
    case Complete(now, replyLost) => CompleteStepOk(cfg, w, e, now, replyLost);
    case Interrupt(refused) => InterruptStepOk(cfg, w, e, refused);
    case Recover(replyLost) => RecoverStepOk(cfg, w, e, replyLost);
    case Crash => CrashStepOk(cfg, w, e);
  }

  // ----- Cards and contexts -------------------------------------------------------------------------------

  /** The papers and everything the user saw or pressed, across one step. */
  ghost predicate PapersMove(w: World, w': World) {
    && Moves(w.t, w'.t, w.tokens, w'.tokens)
    && w'.cards == w.cards && w'.presses == w.presses && w.delivered <= w'.delivered && w'.contexts == w.contexts
  }

  lemma StillPapers(w: World, w': World)
    requires w'.t.proposals == w.t.proposals && w'.t.approvals == w.t.approvals && w.tokens <= w'.tokens
    requires w'.cards == w.cards && w'.presses == w.presses && w.delivered <= w'.delivered && w'.contexts == w.contexts
    ensures PapersMove(w, w')
  {
    SamePapersMove(w.t, w'.t, w.tokens, w'.tokens);
  }

  lemma PressPapers(cfg: Config, w: World, op: Operation, card: nat, who: Principal, now: Time)
    requires !op.PressSend?
    ensures PapersMove(w, PressStep(cfg, w, op, card, who, now))
  {
    StillPapers(w, w);
    if card in w.delivered && card < |w.cards| {
      var token := w.cards[card].token;
      if op.PressChange? && OpenRevision(w.t, token, who, cfg.revisionTtl, now).Committed? {
        ChangeMoves(w.t, token, who, cfg.revisionTtl, now, w.tokens);
      }
      if op.PressDiscard? && DiscardAndQueueDelete(w.t, token, who, now).Committed? {
        DiscardMoves(w.t, token, who, now, w.tokens);
      }
    }
  }

  lemma IntakePapers(cfg: Config, w: World, root: string, raw: Email, origin: Origin, connector: string, situation: Option<string>)
    ensures PapersMove(w, IntakeStep(cfg, w, root, raw, origin, connector, situation))
  {
    StillPapers(w, w);
    if cfg.canon(raw).Some? {
      var p := NewProposal(root, Capability.CreateDraft, None, origin, cfg.canon(raw).value, PolicyDecision.Allow, connector, situation, None);
      if CreateAllowedAction(w.t, p).Committed? {
        IntakeMoves(w.t, p, w.tokens);
      }
    }
  }

  lemma FinishRevisionPapers(cfg: Config, w: World, session: ProposalId, current: Email, x: Candidate, now: Time)
    ensures PapersMove(w, FinishRevisionStep(cfg, w, session, current, x, now))
  {
    StillPapers(w, w);
    if ValidateReplacement(cfg.canon, current, x).Some? {
      var replacement := ValidateReplacement(cfg.canon, current, x).value;
      if CompleteRevision(w.t, session, replacement, now).Committed? {
        CompleteRevisionMoves(w.t, session, replacement, now, w.tokens);
      }
    }
  }

  lemma SupersedePapers(w: World, card: nat, who: Principal)
    ensures PapersMove(w, SupersedeStep(w, card, who))
  {
    StillPapers(w, w);
    if card < |w.cards| && SupersedeSendApproval(w.t, w.cards[card].token, who).Committed? {
      SupersedeMoves(w.t, w.cards[card].token, who, w.tokens);
    }
  }

  lemma ReadingPapers(cfg: Config, w: World, e: nat, ev: ApproachEvent)
    requires ev.ReadProposal? || ev.ReadDraft? || ev.CheckAuthority? || ev.Connect? || ev.Compare?
    ensures PapersMove(w, ApproachStep(cfg, w, e, ev))
  {
    match ev
    case ReadProposal => StillPapers(w, ReadProposalStep(w, e));
    case ReadDraft => StillPapers(w, ReadDraftStep(w, e));
    case CheckAuthority(now) => StillPapers(w, CheckAuthorityStep(cfg, w, e, now));
    case Connect(refused) => StillPapers(w, ConnectStep(w, e, refused));
    case Compare => StillPapers(w, CompareStep(w, e));
  }

  lemma ClaimPapers(cfg: Config, w: World, e: nat, action: ProposalId, now: Time, replyLost: bool)
    ensures PapersMove(w, ClaimWorkStep(cfg, w, e, action, now, replyLost))
  {
    StillPapers(w, w);
    ClaimMoves(w.t, action, now, cfg.leaseSeconds, w.minted, w.tokens);
  }

  lemma ApproachPapers(cfg: Config, w: World, e: nat, ev: ApproachEvent)
    ensures PapersMove(w, ApproachStep(cfg, w, e, ev))
  {
    match ev
    case ClaimWork(action, now, replyLost) => ClaimPapers(cfg, w, e, action, now, replyLost);
    case MarkCall(now, replyLost) => StillPapers(w, MarkCallStep(w, e, now, replyLost));
    case _ => ReadingPapers(cfg, w, e, ev);
  }

  lemma CompletePapers(cfg: Config, w: World, e: nat, now: Time, replyLost: bool)
    ensures PapersMove(w, CompleteStep(cfg, w, e, now, replyLost))
  {
    if e in w.execs && w.execs[e].Returned? && Completion(cfg, w, w.execs[e].subject, w.execs[e].draftId, now).Committed? {
      CompletionMoves(cfg, w, w.execs[e].subject, w.execs[e].draftId, now);
    } else {
      StillPapers(w, CompleteStep(cfg, w, e, now, replyLost));
    }
  }

  lemma RecoverPapers(w: World, e: nat, replyLost: bool)
    ensures PapersMove(w, RecoverStep(w, e, replyLost))
  {
    if e in w.execs && w.execs[e].Failing? {
      var x := w.execs[e];
      RecoveryMoves(w.t, x.claim, x.connectorId, x.failure.Unavailable? && x.failure.readAccessPreserved, w.tokens);
      SamePapersMove(w.t, ReleaseBeforeProvider(w.t, x.claim), w.tokens, w.tokens);
    } else {
      StillPapers(w, w);
    }
  }

  lemma OutcomePapers(cfg: Config, w: World, e: nat, ev: OutcomeEvent)
    ensures PapersMove(w, OutcomeStep(cfg, w, e, ev))
  {
    match ev
    case Complete(now, replyLost) => CompletePapers(cfg, w, e, now, replyLost);
    case Recover(replyLost) => RecoverPapers(w, e, replyLost);
    case CallGmail(draftId, made) => StillPapers(w, CallGmailStep(cfg, w, e, draftId, made));
    case Interrupt(refused) => StillPapers(w, InterruptStep(w, e, refused));
    case Crash => StillPapers(w, CrashStep(w, e));
  }

  lemma StoredProposal(cfg: Config, w: World, id: ProposalId)
    requires TablesOk(cfg.canon, w.t) && id in w.t.proposals && id.Send?
    ensures cfg.canon(w.t.proposals[id].parameters) == Some(w.t.proposals[id].parameters)
  {
    assert FamilyOk(cfg.canon, w.t, id.root);
    assert SendTerms(cfg.canon, w.t, id.root, id.version);
  }

  lemma PapersCarry(cfg: Config, w: World, w': World)
    requires CardsOk(w) && ContextsOk(cfg, w) && PapersMove(w, w')
    ensures CardsOk(w') && ContextsOk(cfg, w')
  {
    CardsCarry(w, w');
    ContextsCarry(cfg, w, w');
  }

  /** Loading a revision records the message of the session's own proposal. */
  lemma StartRevisionPapers(cfg: Config, w: World, account: string, now: Time)
    requires TablesOk(cfg.canon, w.t) && ContextsOk(cfg, w) && CardsOk(w)
    ensures CardsOk(StartRevisionStep(cfg, w, account, now)) && ContextsOk(cfg, StartRevisionStep(cfg, w, account, now))
  {
    var w' := StartRevisionStep(cfg, w, account, now);
    StartRevisionShape(cfg, w, account, now);
    StillPapers(w, w'.(contexts := w.contexts));
    PapersCarry(cfg, w, w'.(contexts := w.contexts));
    forall session, current | (session, current) in w'.contexts
      ensures session in w'.t.proposals && current == w'.t.proposals[session].parameters && cfg.canon(current) == Some(current)
    {
      if (session, current) !in w.contexts {
        StoredProposal(cfg, w, session);
      }
    }
  }

  lemma StartRevisionShape(cfg: Config, w: World, account: string, now: Time)
    requires Shapes(w.t)
    ensures var w' := StartRevisionStep(cfg, w, account, now);
            && w' == w.(t := w'.t, contexts := w'.contexts)
            && w'.t.proposals == w.t.proposals && w'.t.approvals == w.t.approvals
            && (forall session, current :: (session, current) in w'.contexts && (session, current) !in w.contexts ==>
                  session.Send? && session in w.t.proposals && cfg.canon(w.t.proposals[session].parameters) == Some(current))
  {
  }

  lemma PrepareCardPapers(cfg: Config, w: World, worker: nat, now: Time)
    requires TablesOk(cfg.canon, w.t) && ContextsOk(cfg, w) && CardsOk(w)
    ensures CardsOk(PrepareCardStep(cfg, w, worker, now)) && ContextsOk(cfg, PrepareCardStep(cfg, w, worker, now))
  {
    if worker in w.workers && PrepareApprovalCard(cfg.canon, w.t, w.workers[worker], w.tokens, now).Committed? {
      StoredProposal(cfg, w, w.workers[worker].notice);
      PrepareCardOk(cfg, w, worker, now);
      ContextsCarry(cfg, w, PrepareCardStep(cfg, w, worker, now));
    }
  }

  lemma PressSendPapers(cfg: Config, w: World, card: nat, who: Principal, now: Time)
    requires ContextsOk(cfg, w) && CardsOk(w)
    ensures CardsOk(PressStep(cfg, w, PressSend, card, who, now)) && ContextsOk(cfg, PressStep(cfg, w, PressSend, card, who, now))
  {
    PressSendCards(cfg, w, card, who, now);
    PressSendShape(cfg, w, card, who, now);
    ContextsCarry(cfg, w, PressStep(cfg, w, PressSend, card, who, now));
  }

  lemma ServicePapers(cfg: Config, w: World, ev: ServiceEvent)
    requires TablesOk(cfg.canon, w.t) && ContextsOk(cfg, w) && CardsOk(w)
    ensures CardsOk(ServiceStep(cfg, w, ev)) && ContextsOk(cfg, ServiceStep(cfg, w, ev))
  {
    match ev
    case StartRevision(account, now) => StartRevisionPapers(cfg, w, account, now);
    case Press(op, card, who, now) =>
      if op.PressSend? {
        PressSendPapers(cfg, w, card, who, now);
      } else {
        PressPapers(cfg, w, op, card, who, now);
        PapersCarry(cfg, w, PressStep(cfg, w, op, card, who, now));
      }
    case Supersede(card, who) =>
      SupersedePapers(w, card, who);
      PapersCarry(cfg, w, SupersedeStep(w, card, who));
    case Intake(root, raw, origin, connector, situation) =>
      IntakePapers(cfg, w, root, raw, origin, connector, situation);
      PapersCarry(cfg, w, IntakeStep(cfg, w, root, raw, origin, connector, situation));
    case FinishRevision(session, current, x, now) =>
      FinishRevisionPapers(cfg, w, session, current, x, now);
      PapersCarry(cfg, w, FinishRevisionStep(cfg, w, session, current, x, now));
  }

  lemma DeliveryPapers(cfg: Config, w: World, worker: nat, ev: DeliveryEvent)
    requires TablesOk(cfg.canon, w.t) && ContextsOk(cfg, w) && CardsOk(w)
    ensures CardsOk(DeliveryStep(cfg, w, worker, ev)) && ContextsOk(cfg, DeliveryStep(cfg, w, worker, ev))
  {
    if ev.PrepareCard? {
      PrepareCardPapers(cfg, w, worker, ev.now);
    } else {
      QuietDeliveryPapers(cfg, w, worker, ev);
      PapersCarry(cfg, w, DeliveryStep(cfg, w, worker, ev));
    }
  }

  lemma QuietDeliveryPapers(cfg: Config, w: World, worker: nat, ev: DeliveryEvent)
    requires !ev.PrepareCard?
    ensures PapersMove(w, DeliveryStep(cfg, w, worker, ev))
  {
    match ev
    case ClaimCard(approval, now) => StillPapers(w, ClaimCardStep(cfg, w, worker, approval, now));
    case DeliverCard(_) => StillPapers(w, DeliveryStep(cfg, w, worker, ev));
    case FinishCard(sent, retryable, nextRetry) => StillPapers(w, FinishCardStep(cfg, w, worker, sent, retryable, nextRetry));
    case RetryCard(approval) => StillPapers(w, RetryCardStep(w, approval));
  }

  lemma OutsidePapers(w: World, ev: OutsideEvent)
    ensures PapersMove(w, OutsideStep(w, ev))
  {
    StillPapers(w, OutsideStep(w, ev));
  }

  lemma PapersOk(cfg: Config, w: World, ev: Event)
    requires TablesOk(cfg.canon, w.t) && ContextsOk(cfg, w) && CardsOk(w)
    ensures CardsOk(Step(cfg, w, ev)) && ContextsOk(cfg, Step(cfg, w, ev))
  {
    match ev
    case Service(service) => ServicePapers(cfg, w, service);
    case Delivery(worker, delivery) => DeliveryPapers(cfg, w, worker, delivery);
    case Approach(e, approach) =>
      ApproachPapers(cfg, w, e, approach);
      PapersCarry(cfg, w, ApproachStep(cfg, w, e, approach));
    case Outcome(e, outcome) =>
      OutcomePapers(cfg, w, e, outcome);
      PapersCarry(cfg, w, OutcomeStep(cfg, w, e, outcome));
    case Outside(outside) =>
      OutsidePapers(w, outside);
      PapersCarry(cfg, w, OutsideStep(w, outside));
  }

  // ----- Every run ------------------------------------------------------------------------------------------

  lemma CoreStepOk(cfg: Config, w: World, ev: Event)
    requires CoreOk(cfg, w) && ContextsOk(cfg, w) && Canonicalizer(cfg.canon)
    ensures Follows(cfg, w, Step(cfg, w, ev))
  {
    match ev
    case Service(service) => ServiceStepOk(cfg, w, service);
    case Delivery(worker, delivery) => DeliveryStepOk(cfg, w, worker, delivery);
    case Approach(e, approach) => ApproachStepOk(cfg, w, e, approach);
    case Outcome(e, outcome) => OutcomeStepOk(cfg, w, e, outcome);
    case Outside(outside) => OutsideStepOk(cfg, w, outside);
  }

  lemma StepOk(cfg: Config, w: World, ev: Event)
    requires WorldOk(cfg, w) && Canonicalizer(cfg.canon)
    ensures WorldOk(cfg, Step(cfg, w, ev)) && Later(w.t, Step(cfg, w, ev).t)
  {
    CoreStepOk(cfg, w, ev);
    PapersOk(cfg, w, ev);
  }

  lemma {:induction false} RunOk(cfg: Config, w: World, events: seq<Event>)
    requires WorldOk(cfg, w) && Canonicalizer(cfg.canon)
    ensures WorldOk(cfg, Run(cfg, w, events)) && Later(w.t, Run(cfg, w, events).t)
    decreases |events|
  {
    if events == [] {
      NothingIsLater(w.t);
    } else {
      var w' := Step(cfg, w, events[0]);
      StepOk(cfg, w, events[0]);
      RunOk(cfg, w', events[1..]);
      LaterIsTransitive(w.t, w'.t, Run(cfg, w', events[1..]).t);
    }
  }

  lemma EmptyFamilies(canon: Email -> Option<Email>)
    ensures TablesOk(canon, EMPTY.t)
  {
    forall r: string
      ensures FamilyOk(canon, EMPTY.t, r)
    {
    }
  }

  lemma EmptyOk(cfg: Config)
    ensures WorldOk(cfg, EMPTY)
  {
    EmptyFamilies(cfg.canon);
  }

  /** The invariant holds after any history of intakes, presses, revisions, deliveries, executors, lost
      replies, crashes, connector changes and outside edits, in any order and number. */
  lemma ReachableOk(cfg: Config, w: World)
    requires Reachable(cfg, w) && Canonicalizer(cfg.canon)
    ensures WorldOk(cfg, w)
  {
    var events :| Run(cfg, EMPTY, events) == w;
    EmptyOk(cfg);
    RunOk(cfg, EMPTY, events);
  }
}
