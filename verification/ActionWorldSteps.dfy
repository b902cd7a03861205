/** Every step of the world keeps `CoreOk`. */
module ActionWorldSteps {
  import opened Wrappers
  import opened CanonicalEmail
  import opened ActionTables
  import opened ActionTransitions
  import opened ActionInvariant
  import opened ActionPreservation
  import opened ActionSteps
  import opened ActionDecisionSteps
  import opened ActionCompletionSteps
  import opened ActionExecutor
  import opened ActionWorld
  import opened ActionWorldInvariant

  // ----- Steps by nobody in particular --------------------------------------------------------------

  /** A transaction that keeps the tables whatever claim id might come next hands out none. */
  lemma NoNewClaims(t: Tables, t': Tables, actor: Option<nat>, minted: nat)
    requires Evolves(t, t', actor, minted) && Evolves(t, t', actor, minted + 1) && ClaimsBelow(t, minted)
    requires forall id :: id in t'.actions ==> ActionOk(t', id)
    ensures ClaimsBelow(t', minted)
  {
    forall id | id in t'.actions && t'.actions[id].claim.Some?
      ensures t'.actions[id].claim.value < minted
    {
      assert ActionOk(t', id);
      assert id in t.actions ==> ActionEvolves(t.actions[id], t'.actions[id], minted + 1);
    }
  }

  /** A transaction by nobody that hands out no claim. */
  ghost predicate Quiet(canon: Email -> Option<Email>, t: Tables, t': Tables, actor: Option<nat>, minted: nat) {
    Keeps(canon, t, t', actor, minted) && Keeps(canon, t, t', actor, minted + 1)
  }

  lemma QuietClaims(canon: Email -> Option<Email>, t: Tables, t': Tables, actor: Option<nat>, minted: nat)
    requires Quiet(canon, t, t', actor, minted) && ClaimsBelow(t, minted)
    ensures Keeps(canon, t, t', actor, minted) && ClaimsBelow(t', minted)
  {
    NoNewClaims(t, t', actor, minted);
  }

  lemma AnonymousStep(cfg: Config, w: World, w': World)
    requires CoreOk(cfg, w)
    requires Quiet(cfg.canon, w.t, w'.t, None, w.minted)
    requires w'.execs == w.execs && w'.log == w.log && w'.gmail == w.gmail && w'.minted == w.minted
    ensures Follows(cfg, w, w')
  {
    QuietClaims(cfg.canon, w.t, w'.t, None, w.minted);
    CoreCarries(cfg, w, w');
  }

  lemma IntakeStepOk(cfg: Config, w: World, root: string, raw: Email, origin: Origin, connector: string, situation: Option<string>)
    requires CoreOk(cfg, w) && Canonicalizer(cfg.canon)
    ensures Follows(cfg, w, IntakeStep(cfg, w, root, raw, origin, connector, situation))
  {
    if cfg.canon(raw).Some? {
      var p := NewProposal(root, Capability.CreateDraft, None, origin, cfg.canon(raw).value, PolicyDecision.Allow, connector, situation, None);
      if CreateAllowedAction(w.t, p).Committed? {
        IntakeKeeps(cfg.canon, w.t, p, w.minted);
        IntakeKeeps(cfg.canon, w.t, p, w.minted + 1);
        AnonymousStep(cfg, w, IntakeStep(cfg, w, root, raw, origin, connector, situation));
      }
    }
  }

  /** A Send press touches the tables by one transaction, and nothing else but the list of presses. */
  lemma PressSendShape(cfg: Config, w: World, card: nat, who: Principal, now: Time)
    ensures var w' := PressStep(cfg, w, PressSend, card, who, now);
            && w' == w.(t := w'.t, presses := w'.presses)
            && (w'.t == w.t
                || (card < |w.cards| && GrantAndQueueSend(w.t, w.cards[card].token, who, now).Committed?
                    && w'.t == GrantAndQueueSend(w.t, w.cards[card].token, who, now).tables))
  {
  }

  lemma GrantIsQuiet(canon: Email -> Option<Email>, t: Tables, token: nat, who: Principal, now: Time, minted: nat)
    requires TablesOk(canon, t) && GrantAndQueueSend(t, token, who, now).Committed?
    ensures Quiet(canon, t, GrantAndQueueSend(t, token, who, now).tables, None, minted)
  {
    GrantKeeps(canon, t, token, who, now, minted);
    GrantKeeps(canon, t, token, who, now, minted + 1);
  }

  lemma PressSendOk(cfg: Config, w: World, card: nat, who: Principal, now: Time)
    requires CoreOk(cfg, w)
    ensures Follows(cfg, w, PressStep(cfg, w, PressSend, card, who, now))
  {
    var w' := PressStep(cfg, w, PressSend, card, who, now);
    PressSendShape(cfg, w, card, who, now);
    if w'.t != w.t {
      GrantIsQuiet(cfg.canon, w.t, w.cards[card].token, who, now, w.minted);
      AnonymousStep(cfg, w, w');
    }
  }

  lemma PressChangeOk(cfg: Config, w: World, card: nat, who: Principal, now: Time)
    requires CoreOk(cfg, w)
    ensures Follows(cfg, w, PressStep(cfg, w, PressChange, card, who, now))
  {
    if card in w.delivered && card < |w.cards| && OpenRevision(w.t, w.cards[card].token, who, cfg.revisionTtl, now).Committed? {
      OpenRevisionKeeps(cfg.canon, w.t, w.cards[card].token, who, cfg.revisionTtl, now, w.minted);
      OpenRevisionKeeps(cfg.canon, w.t, w.cards[card].token, who, cfg.revisionTtl, now, w.minted + 1);
      AnonymousStep(cfg, w, PressStep(cfg, w, PressChange, card, who, now));
    }
  }

  lemma PressDiscardOk(cfg: Config, w: World, card: nat, who: Principal, now: Time)
    requires CoreOk(cfg, w)
    ensures Follows(cfg, w, PressStep(cfg, w, PressDiscard, card, who, now))
  {
    if card in w.delivered && card < |w.cards| && DiscardAndQueueDelete(w.t, w.cards[card].token, who, now).Committed? {
      DiscardKeeps(cfg.canon, w.t, w.cards[card].token, who, now, w.minted);
      DiscardKeeps(cfg.canon, w.t, w.cards[card].token, who, now, w.minted + 1);
      AnonymousStep(cfg, w, PressStep(cfg, w, PressDiscard, card, who, now));
    }
  }

  lemma SupersedeStepOk(cfg: Config, w: World, card: nat, who: Principal)
    requires CoreOk(cfg, w)
    ensures Follows(cfg, w, SupersedeStep(w, card, who))
  {
    if card < |w.cards| && SupersedeSendApproval(w.t, w.cards[card].token, who).Committed? {
      SupersedeKeeps(cfg.canon, w.t, w.cards[card].token, who, w.minted);
      SupersedeKeeps(cfg.canon, w.t, w.cards[card].token, who, w.minted + 1);
      AnonymousStep(cfg, w, SupersedeStep(w, card, who));
    }
  }

  lemma StartRevisionStepOk(cfg: Config, w: World, account: string, now: Time)
    requires CoreOk(cfg, w)
    ensures Follows(cfg, w, StartRevisionStep(cfg, w, account, now))
  {
    NothingIsLater(w.t);
    if LoadRevision(cfg.canon, w.t, account, now).Committed? {
      LoadRevisionKeeps(cfg.canon, w.t, account, now, w.minted);
      LoadRevisionKeeps(cfg.canon, w.t, account, now, w.minted + 1);
      AnonymousStep(cfg, w, StartRevisionStep(cfg, w, account, now));
    }
  }

  lemma FinishRevisionStepOk(cfg: Config, w: World, session: ProposalId, current: Email, x: Candidate, now: Time)
    requires CoreOk(cfg, w) && Canonicalizer(cfg.canon) && ContextsOk(cfg, w)
    ensures Follows(cfg, w, FinishRevisionStep(cfg, w, session, current, x, now))
  {
    if (session, current) in w.contexts && ValidateReplacement(cfg.canon, current, x).Some? {
      var replacement := ValidateReplacement(cfg.canon, current, x).value;
      ReplacementKeepsThread(cfg.canon, current, x);
      if CompleteRevision(w.t, session, replacement, now).Committed? {
        CompleteRevisionKeeps(cfg.canon, w.t, session, replacement, now, w.minted);
        CompleteRevisionKeeps(cfg.canon, w.t, session, replacement, now, w.minted + 1);
        AnonymousStep(cfg, w, FinishRevisionStep(cfg, w, session, current, x, now));
      }
    }
  }

  lemma AsideStep(cfg: Config, w: World, w': World)
    requires CoreOk(cfg, w) && Aside(w.t, w'.t)
    requires w'.execs == w.execs && w'.log == w.log && w'.gmail == w.gmail && w'.minted >= w.minted
    ensures Follows(cfg, w, w')
  {
    AsideKeeps(cfg.canon, w.t, w.t, w'.t, None, w.minted);
    CoreCarries(cfg, w, w');
  }

  lemma ClaimCardStepOk(cfg: Config, w: World, worker: nat, approval: ProposalId, now: Time)
    requires CoreOk(cfg, w)
    ensures Follows(cfg, w, ClaimCardStep(cfg, w, worker, approval, now))
  {
    AsideStep(cfg, w, ClaimCardStep(cfg, w, worker, approval, now));
  }

  lemma FinishCardStepOk(cfg: Config, w: World, worker: nat, sent: bool, retryable: bool, nextRetry: Option<Time>)
    requires CoreOk(cfg, w)
    ensures Follows(cfg, w, FinishCardStep(cfg, w, worker, sent, retryable, nextRetry))
  {
    AsideStep(cfg, w, FinishCardStep(cfg, w, worker, sent, retryable, nextRetry));
  }

  lemma RetryCardStepOk(cfg: Config, w: World, approval: ProposalId)
    requires CoreOk(cfg, w)
    ensures Follows(cfg, w, RetryCardStep(w, approval))
  {
    AsideStep(cfg, w, RetryCardStep(w, approval));
  }

  lemma PrepareCardStepOk(cfg: Config, w: World, worker: nat, now: Time)
    requires CoreOk(cfg, w)
    ensures Follows(cfg, w, PrepareCardStep(cfg, w, worker, now))
  {
    if worker in w.workers && PrepareApprovalCard(cfg.canon, w.t, w.workers[worker], w.tokens, now).Committed? {
      PrepareCardKeeps(cfg.canon, w.t, w.workers[worker], w.tokens, now, w.minted);
      PrepareCardKeeps(cfg.canon, w.t, w.workers[worker], w.tokens, now, w.minted + 1);
      AnonymousStep(cfg, w, PrepareCardStep(cfg, w, worker, now));
    }
  }

  lemma SetConnectorOk(cfg: Config, w: World, id: string, row: Connector)
    requires CoreOk(cfg, w)
    ensures Follows(cfg, w, w.(t := w.t.(connectors := w.t.connectors[id := row])))
  {
    AsideStep(cfg, w, w.(t := w.t.(connectors := w.t.connectors[id := row])));
  }

  // ----- Steps by one executor ------------------------------------------------------------------------

  /** Executor `e` moves to phase `p`, possibly with a transaction under its own claim. */
  lemma OwnStep(cfg: Config, w: World, w': World, e: nat, p: Phase)
    requires CoreOk(cfg, w) && e in w.execs && !w.execs[e].Done?
    requires Quiet(cfg.canon, w.t, w'.t, Some(ClaimOf(w.execs[e]).id), w.minted)
    requires w'.execs == w.execs[e := p] && w'.log == w.log && w'.gmail == w.gmail && w'.minted == w.minted
    requires ExecOk(w'.t, w.minted, w.log, w.gmail, p)
    requires p.Done? || ClaimOf(p) == ClaimOf(w.execs[e])
    requires p.Started? ==> forall d :: d in w.execs && w.execs[d].Started? ==> w.execs[d].subject.claim.action != p.subject.claim.action
    requires forall id :: id in w.t.actions && w.t.actions[id].claim == Some(ClaimOf(w.execs[e]).id) ==> OutcomeOk(w'.t, w.log, id)
    ensures Follows(cfg, w, w')
  {
    var actor := Some(ClaimOf(w.execs[e]).id);
    QuietClaims(cfg.canon, w.t, w'.t, actor, w.minted);
    OwnExecs(w, w', e, p);
    LogCarries(w.t, w'.t, w.log, actor, w.minted);
    OwnOutcomes(w.t, w'.t, w.log, actor, w.minted);
  }

  lemma OwnExecs(w: World, w': World, e: nat, p: Phase)
    requires ExecsOk(w) && DistinctClaims(w.execs) && OneStarted(w.execs) && e in w.execs && !w.execs[e].Done?
    requires Evolves(w.t, w'.t, Some(ClaimOf(w.execs[e]).id), w.minted)
    requires w'.execs == w.execs[e := p] && w'.log == w.log && w'.gmail == w.gmail && w'.minted == w.minted
    requires ExecOk(w'.t, w.minted, w.log, w.gmail, p)
    requires p.Done? || ClaimOf(p) == ClaimOf(w.execs[e])
    requires p.Started? ==> forall d :: d in w.execs && w.execs[d].Started? ==> w.execs[d].subject.claim.action != p.subject.claim.action
    ensures ExecsOk(w') && DistinctClaims(w'.execs) && OneStarted(w'.execs)
  {
    ExecsCarry(w, w', Some(ClaimOf(w.execs[e]).id));
  }

  lemma OwnOutcomes(t: Tables, t': Tables, log: seq<Mutation>, actor: Option<nat>, minted: nat)
    requires Evolves(t, t', actor, minted) && OutcomesOk(t, log)
    requires actor.Some?
    requires forall id :: id in t.actions ==> ActionOk(t, id)
    requires forall id :: id in t.actions && t.actions[id].claim == actor ==> OutcomeOk(t', log, id)
    ensures OutcomesOk(t', log)
  {
    forall id | id in t'.actions
      ensures OutcomeOk(t', log, id)
    {
      if id in t.actions && t.actions[id].claim == actor {
      } else {
        assert id in t.actions ==> OutcomeOk(t, log, id);
        OutcomeCarries(t, t', log, id, actor, minted);
      }
    }
  }

  /** The same, when the executor only reads or thinks. */
  lemma QuietStep(cfg: Config, w: World, e: nat, p: Phase)
    requires CoreOk(cfg, w) && e in w.execs && !w.execs[e].Done?
    requires ExecOk(w.t, w.minted, w.log, w.gmail, p)
    requires p.Done? || ClaimOf(p) == ClaimOf(w.execs[e])
    requires !p.Started?
    ensures Follows(cfg, w, With(w, e, p))
  {
    var w' := With(w, e, p);
    forall d | d in w'.execs
      ensures ExecOk(w'.t, w'.minted, w'.log, w'.gmail, w'.execs[d])
    {
      assert d != e ==> ExecOk(w.t, w.minted, w.log, w.gmail, w.execs[d]);
    }
  }

  lemma ClaimWorkStepOk(cfg: Config, w: World, e: nat, action: ProposalId, now: Time, replyLost: bool)
    requires CoreOk(cfg, w)
    ensures Follows(cfg, w, ClaimWorkStep(cfg, w, e, action, now, replyLost))
  {
    NothingIsLater(w.t);
    if e !in w.execs {
      ClaimWorkCore(cfg, w, e, action, now, replyLost);
      ClaimActionKeeps(cfg.canon, w.t, action, now, cfg.leaseSeconds, w.minted);
      EvolvesIsLater(w.t, ClaimWorkStep(cfg, w, e, action, now, replyLost).t, None, w.minted);
    }
  }

  lemma ClaimWorkCore(cfg: Config, w: World, e: nat, action: ProposalId, now: Time, replyLost: bool)
    requires CoreOk(cfg, w) && e !in w.execs
    ensures CoreOk(cfg, ClaimWorkStep(cfg, w, e, action, now, replyLost))
  {
    var w' := ClaimWorkStep(cfg, w, e, action, now, replyLost);
    ClaimActionKeeps(cfg.canon, w.t, action, now, cfg.leaseSeconds, w.minted);
    if action in w.t.actions {
      ClaimedHasProposal(cfg, w, action);
    }
    NewExec(cfg, w, e, action, now, replyLost);
    ClaimsBelowCarries(w.t, w'.t, None, w.minted);
    ExecsCarry(w, w', None);
    LogCarries(w.t, w'.t, w.log, None, w.minted);
    OutcomesCarry(w.t, w'.t, w.log, w.minted);
    NewClaimIsDistinct(w, w', e);
  }

  /** What the executor holds right after its claim. */
  lemma NewExec(cfg: Config, w: World, e: nat, action: ProposalId, now: Time, replyLost: bool)
    requires e !in w.execs
    requires action in w.t.actions ==> action in w.t.proposals && ActionOk(w.t, action)
    ensures var w' := ClaimWorkStep(cfg, w, e, action, now, replyLost);
            && w'.t == ClaimAction(w.t, action, now, cfg.leaseSeconds, w.minted).0
            && e in w'.execs && w'.execs == w.execs[e := w'.execs[e]]
            && w'.minted == w.minted + 1 && w'.log == w.log && w'.gmail == w.gmail
            && (w'.execs[e].Done? || (w'.execs[e].Holding? && w'.execs[e].claim.id == w.minted))
            && ExecOk(w'.t, w'.minted, w'.log, w'.gmail, w'.execs[e])
  {
  }

  lemma ClaimedHasProposal(cfg: Config, w: World, id: ProposalId)
    requires TablesOk(cfg.canon, w.t) && id in w.t.actions
    ensures id in w.t.proposals
  {
    assert FamilyOk(cfg.canon, w.t, id.root);
    TypedFromFamily(cfg.canon, w.t, id);
  }

  lemma NewClaimIsDistinct(w: World, w': World, e: nat)
    requires ExecsOk(w) && DistinctClaims(w.execs) && OneStarted(w.execs)
    requires e !in w.execs && e in w'.execs && w'.execs == w.execs[e := w'.execs[e]]
    requires w'.execs[e].Done? || (w'.execs[e].Holding? && w'.execs[e].claim.id == w.minted)
    ensures DistinctClaims(w'.execs) && OneStarted(w'.execs)
  {
    assert forall d :: d in w.execs ==> ExecOk(w.t, w.minted, w.log, w.gmail, w.execs[d]);
  }

  lemma SupersedesOwnRoot(cfg: Config, t: Tables, id: ProposalId)
    requires TablesOk(cfg.canon, t) && id in t.actions && id in t.proposals
    ensures t.proposals[id].supersedes.Some? && !id.Send? ==> t.proposals[id].supersedes.value.root == id.root
    ensures id.Send? ==> t.proposals[id].capability.SendDraft?
    ensures cfg.canon(t.proposals[id].parameters) == Some(t.proposals[id].parameters)
    ensures t.proposals[id].capability == t.actions[id].capability
  {
    assert FamilyOk(cfg.canon, t, id.root);
    match id
    case Send(r, k) => assert SendTerms(cfg.canon, t, r, k);
    case Update(r, k) => assert UpdateTerms(cfg.canon, t, r, k);
    case _ =>
  }

  lemma ReadsProposal(cfg: Config, w: World, e: nat)
    requires CoreOk(cfg, w) && e in w.execs && w.execs[e].Holding?
    ensures var w' := ReadProposalStep(w, e);
            e in w'.execs && w' == With(w, e, w'.execs[e]) && !w'.execs[e].Done? && ClaimOf(w'.execs[e]) == w.execs[e].claim
            && ExecOk(w.t, w.minted, w.log, w.gmail, w'.execs[e]) && !w'.execs[e].Started?
  {
    assert ExecOk(w.t, w.minted, w.log, w.gmail, w.execs[e]);
    SupersedesOwnRoot(cfg, w.t, w.execs[e].claim.action);
  }

  lemma ReadProposalStepOk(cfg: Config, w: World, e: nat)
    requires CoreOk(cfg, w)
    ensures Follows(cfg, w, ReadProposalStep(w, e))
  {
    if e in w.execs && w.execs[e].Holding? {
      ReadsProposal(cfg, w, e);
      QuietStep(cfg, w, e, ReadProposalStep(w, e).execs[e]);
    }
  }

  lemma ReadDraftStepOk(cfg: Config, w: World, e: nat)
    requires CoreOk(cfg, w)
    ensures Follows(cfg, w, ReadDraftStep(w, e))
  {
    if e in w.execs && w.execs[e].HasProposal? {
      assert ExecOk(w.t, w.minted, w.log, w.gmail, w.execs[e]);
      QuietStep(cfg, w, e, ReadDraftStep(w, e).execs[e]);
    }
  }

  /** Before its call is marked, an action is in nobody's log. */
  lemma UnmarkedIsUnlogged(t: Tables, log: seq<Mutation>, c: Claim)
    requires LogOk(t, log) && c.action in t.actions && t.actions[c.action].started.None?
    ensures !InLog(log, c.action) && OnlyExcused(t, log, c.action)
  {
    assert forall i :: 0 <= i < |log| ==> EntryOk(t, log[i]);
  }

  /** Giving up before the boundary is always sound. */
  lemma GiveUp(cfg: Config, w: World, e: nat, connectorId: string, f: Failure)
    requires CoreOk(cfg, w) && e in w.execs && !w.execs[e].Done?
    requires f.Release? || f.Uncertain? || Unmarked(w.t, ClaimOf(w.execs[e]))
    ensures Follows(cfg, w, With(w, e, Failing(ClaimOf(w.execs[e]), connectorId, f)))
  {
    var c := ClaimOf(w.execs[e]);
    assert ExecOk(w.t, w.minted, w.log, w.gmail, w.execs[e]);
    if Current(w.t, c) && !f.Release? && !f.Uncertain? {
      UnmarkedIsUnlogged(w.t, w.log, c);
    }
    QuietStep(cfg, w, e, Failing(c, connectorId, f));
  }

  lemma AuthorizedSubject(cfg: Config, t: Tables, s: Subject, now: Time)
    requires ClaimOk(t, s.claim.id + 1, s.claim) && KnowsProposal(t, s.claim, s.proposal) && KnowsDraft(t, s.claim, s.proposal, s.managed)
    requires s.approval == LookupApproval(t, s.claim)
    requires cfg.canon(t.proposals[s.claim.action].parameters) == Some(t.proposals[s.claim.action].parameters)
    requires cfg.canon(s.proposal.parameters) == Some(s.message)
    requires Revalidate(s, now).Authorized?
    ensures SubjectOk(t, s)
  {
  }

  lemma CheckAuthorityStepOk(cfg: Config, w: World, e: nat, now: Time)
    requires CoreOk(cfg, w)
    ensures Follows(cfg, w, CheckAuthorityStep(cfg, w, e, now))
  {
    if e in w.execs && w.execs[e].HasDraft? {
      var x := w.execs[e];
      assert ExecOk(w.t, w.minted, w.log, w.gmail, x);
      SupersedesOwnRoot(cfg, w.t, x.claim.action);
      var s := Subject(x.claim, x.proposal, x.proposal.parameters, x.connector, x.managed, LookupApproval(w.t, x.claim), w.telegram);
      match Revalidate(s, now)
      case Authorized =>
        AuthorizedSubject(cfg, w.t, s, now);
        QuietStep(cfg, w, e, Validated(s));
      case AuthorizationUnavailable => GiveUp(cfg, w, e, x.proposal.connector, Unavailable(true));
      case Denied => GiveUp(cfg, w, e, x.proposal.connector, Refused);
    }
  }

  lemma ConnectStepOk(cfg: Config, w: World, e: nat, refused: Option<bool>)
    requires CoreOk(cfg, w)
    ensures Follows(cfg, w, ConnectStep(w, e, refused))
  {
    if e in w.execs && w.execs[e].Validated? {
      var s := w.execs[e].subject;
      assert ExecOk(w.t, w.minted, w.log, w.gmail, w.execs[e]);
      if refused.None? {
        QuietStep(cfg, w, e, Connected(s));
      } else {
        GiveUp(cfg, w, e, s.proposal.connector, Unavailable(refused.value));
      }
    }
  }

  /** A matching draft is remembered with its edit count. */
  lemma ComparedExec(w: World, e: nat)
    requires e in w.execs && w.execs[e].Connected? && ExecOk(w.t, w.minted, w.log, w.gmail, w.execs[e])
    ensures var p := CompareStep(w, e).execs[e];
            && CompareStep(w, e) == With(w, e, p)
            && ((p.Checked? && p.subject == w.execs[e].subject && ExecOk(w.t, w.minted, w.log, w.gmail, p))
                || (p.Failing? && p.claim == w.execs[e].subject.claim))
  {
  }

  lemma CompareStepOk(cfg: Config, w: World, e: nat)
    requires CoreOk(cfg, w)
    ensures Follows(cfg, w, CompareStep(w, e))
  {
    if e in w.execs && w.execs[e].Connected? {
      assert ExecOk(w.t, w.minted, w.log, w.gmail, w.execs[e]);
      ComparedExec(w, e);
      var p := CompareStep(w, e).execs[e];
      if p.Checked? {
        QuietStep(cfg, w, e, p);
      } else {
        GiveUp(cfg, w, e, p.connectorId, p.failure);
      }
    }
  }

  // ----- The boundary -----------------------------------------------------------------------------------

  lemma MarkIsQuiet(canon: Email -> Option<Email>, t: Tables, c: Claim, now: Time, minted: nat)
    requires TablesOk(canon, t)
    ensures Quiet(canon, t, MarkStarted(t, c, now).0, Some(c.id), minted)
  {
    MarkStartedKeeps(canon, t, c, now, minted);
    MarkStartedKeeps(canon, t, c, now, minted + 1);
  }

  /** The executor whose update set the mark: nothing about its action has happened at Gmail yet. */
  lemma MarkedExec(w: World, e: nat, now: Time)
    requires e in w.execs && w.execs[e].Checked? && ExecOk(w.t, w.minted, w.log, w.gmail, w.execs[e]) && LogOk(w.t, w.log)
    requires MarkStarted(w.t, w.execs[e].subject.claim, now).1
    ensures ExecOk(MarkStarted(w.t, w.execs[e].subject.claim, now).0, w.minted, w.log, w.gmail,
                   Started(w.execs[e].subject, w.execs[e].edits))
  {
    UnmarkedIsUnlogged(w.t, w.log, w.execs[e].subject.claim);
  }

  lemma MarkOutcomes(t: Tables, log: seq<Mutation>, c: Claim, now: Time)
    requires forall id :: id in t.actions ==> ActionOk(t, id)
    ensures forall id :: id in t.actions && t.actions[id].claim == Some(c.id) ==> OutcomeOk(MarkStarted(t, c, now).0, log, id)
  {
    forall id | id in t.actions && t.actions[id].claim == Some(c.id)
      ensures OutcomeOk(MarkStarted(t, c, now).0, log, id)
    {
      assert ActionOk(t, id);
    }
  }

  lemma NobodyElseStarted(w: World, c: Claim)
    requires ExecsOk(w) && c.action in w.t.actions && w.t.actions[c.action].started.None?
    ensures forall d :: d in w.execs && w.execs[d].Started? ==> w.execs[d].subject.claim.action != c.action
  {
    forall d | d in w.execs && w.execs[d].Started?
      ensures w.execs[d].subject.claim.action != c.action
    {
      assert ExecOk(w.t, w.minted, w.log, w.gmail, w.execs[d]);
    }
  }

  lemma MarkCallExec(w: World, e: nat, now: Time, replyLost: bool)
    requires e in w.execs && w.execs[e].Checked? && ExecOk(w.t, w.minted, w.log, w.gmail, w.execs[e]) && LogOk(w.t, w.log)
    ensures var w', c := MarkCallStep(w, e, now, replyLost), w.execs[e].subject.claim;
            && w' == w.(t := MarkStarted(w.t, c, now).0, execs := w.execs[e := w'.execs[e]])
            && ExecOk(w'.t, w.minted, w.log, w.gmail, w'.execs[e])
            && (w'.execs[e].Done? || ClaimOf(w'.execs[e]) == c)
            && (w'.execs[e].Started? ==> w.t.actions[c.action].started.None?)
  {
    if MarkStarted(w.t, w.execs[e].subject.claim, now).1 {
      MarkedExec(w, e, now);
    }
  }

  lemma MarkCallStepOk(cfg: Config, w: World, e: nat, now: Time, replyLost: bool)
    requires CoreOk(cfg, w)
    ensures Follows(cfg, w, MarkCallStep(w, e, now, replyLost))
  {
    if e in w.execs && w.execs[e].Checked? {
      var w', c := MarkCallStep(w, e, now, replyLost), w.execs[e].subject.claim;
      assert ExecOk(w.t, w.minted, w.log, w.gmail, w.execs[e]);
      MarkIsQuiet(cfg.canon, w.t, c, now, w.minted);
      MarkOutcomes(w.t, w.log, c, now);
      MarkCallExec(w, e, now, replyLost);
      if w'.execs[e].Started? {
        NobodyElseStarted(w, c);
      }
      OwnStep(cfg, w, w', e, w'.execs[e]);
    }
  }

  // ----- Gmail ------------------------------------------------------------------------------------------

  /** Once a send of a draft is queued, every update of that draft has succeeded. */
  lemma SendFollowsUpdates(t: Tables, u: ProposalId, s: ProposalId)
    requires Roster(t, u.root) && Lockstep(t, u.root) && u.root == s.root
    requires u.Update? && u in t.actions && s.Send? && s in t.actions
    ensures t.actions[u].status.Succeeded?
  {
    var r := u.root;
    assert u in t.proposals && HasVersion(t, r, u.version);
    assert u.version < t.drafts[r].version ==> PastVersion(t, r, u.version);
  }

  /** Whatever Gmail applied, the other comparisons still stand. */
  lemma OthersStayCompared(canon: Email -> Option<Email>, w: World, s: Subject, d: Subject, n: nat, key: ProviderDraft)
    requires TablesOk(canon, w.t)
    requires ClaimOk(w.t, w.minted, s.claim) && SubjectOk(w.t, s) && ClaimOk(w.t, w.minted, d.claim) && SubjectOk(w.t, d)
    requires Current(w.t, s.claim) || w.t.actions[s.claim.action].status.Unknown?
    requires Compared(w.gmail, d, n)
    requires if s.claim.capability.CreateDraft? then key !in w.gmail else key in w.gmail && s.managed.Some? && s.managed.value.provider == key
    ensures Compared(w.gmail[key := Applied(w, s, key)], d, n)
  {
    if d.claim.capability.SendDraft? && d.managed.Some? && d.managed.value.provider == key && s.claim.capability.UpdateDraft? {
      var u, v := s.claim.action, d.claim.action;
      assert FamilyOk(canon, w.t, u.root) && FamilyOk(canon, w.t, v.root);
      TypedFromFamily(canon, w.t, u);
      TypedFromFamily(canon, w.t, v);
      SendFollowsUpdates(w.t, u, v);
    }
  }

  /** The history with one more entry, seen from another executor or from the outcomes. */
  lemma LogGrows(log: seq<Mutation>, m: Mutation, id: ProposalId)
    ensures id != m.action ==> (InLog(log + [m], id) <==> InLog(log, id))
    ensures forall t :: id != m.action && OnlyExcused(t, log, id) ==> OnlyExcused(t, log + [m], id)
    ensures forall t :: !InLog(log, id) && Excused(t, m) ==> OnlyExcused(t, log + [m], id)
    ensures forall d :: Acknowledged(log, id, d) ==> Acknowledged(log + [m], id, d)
    ensures m.action == id && m.reply.Accepted? ==> Acknowledged(log + [m], id, Some(m.draftId))
  {
    var log' := log + [m];
    assert log'[|log|] == m;
    assert forall i :: 0 <= i < |log| ==> log'[i] == log[i];
  }

  lemma EntryAppends(t: Tables, log: seq<Mutation>, m: Mutation)
    requires LogOk(t, log) && EntryOk(t, m) && !InLog(log, m.action)
    ensures LogOk(t, log + [m])
  {
  }

  lemma OutcomesAppend(t: Tables, log: seq<Mutation>, m: Mutation)
    requires OutcomesOk(t, log) && m.action in t.actions
    requires !t.actions[m.action].status.Failed? && !t.actions[m.action].status.Succeeded?
    ensures OutcomesOk(t, log + [m])
  {
    forall id | id in t.actions
      ensures OutcomeOk(t, log + [m], id)
    {
      assert OutcomeOk(t, log, id);
      LogGrows(log, m, id);
    }
  }
}
