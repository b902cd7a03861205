/** The whole protocol as a state machine: any number of executors, notification workers and users over
    the tables and Gmail. Every step is one transaction, one read, one provider call or one crash, and
    carries its own clock reading, so no two clocks need agree. A step that is not enabled does nothing. */
module ActionWorld {
  import opened Wrappers
  import opened CanonicalEmail
  import opened ActionTables
  import opened ActionTransitions
  import opened ActionPolicy
  import opened ActionExecutor
  import GmailClient

  datatype Config = Config(
    canon: Email -> Option<Email>, leaseSeconds: int, approvalTtl: int, revisionTtl: int, maxAttempts: nat,
    retryAttempts: nat)

  // ----- Executors ------------------------------------------------------------------------------------

  /** The exception handler an executor is about to run. `Mismatch` is no exception: the comparison failed,
      and what records that can still raise and be handled as a release. */
  datatype Failure = Unavailable(readAccessPreserved: bool) | Refused | Mismatch | Release | Uncertain

  /** Where an executor is, with what it has read. `edits` counts the outside edits of the Gmail draft
      seen when it was compared with the approved message. `Started` is reached only by the executor
      whose update set the provider-call mark; `Returned` holds Gmail's answer. */
  datatype Phase =
    | Holding(claim: Claim)
    | HasProposal(claim: Claim, proposal: Proposal, connector: Connector)
    | HasDraft(claim: Claim, proposal: Proposal, connector: Connector, managed: Option<Draft>)
    | Validated(subject: Subject)
    | Connected(subject: Subject)
    | Checked(subject: Subject, edits: nat)
    | Started(subject: Subject, edits: nat)
    | Returned(subject: Subject, draftId: string)
    | Failing(claim: Claim, connectorId: string, failure: Failure)
    | Done

  // ----- Gmail -----------------------------------------------------------------------------------------

  /** A Gmail draft: what it holds, how often someone outside edited it, whether it still exists. */
  datatype GmailDraft = GmailDraft(content: Email, edits: nat, live: bool)

  /** What the executor learns of a call some request of which Gmail applied. `Revoked` is an authorization
      error after that request's answer was lost. */
  datatype Reply = Accepted | Lost | Revoked

  /** One call Gmail applied, for the history, and the requests made for it. `content` is what the draft held
      afterwards, or was sent as; `checked` and `edits` are its outside-edit counts at the comparison and at
      the call. */
  datatype Mutation = Mutation(
    action: ProposalId, capability: Capability, message: Email, content: Email,
    draftId: string, reply: Reply, made: seq<GmailClient.Try>, checked: nat, edits: nat)

  // ----- Cards and presses ------------------------------------------------------------------------------

  datatype PreparedCard = PreparedCard(approval: ProposalId, token: nat, card: Card)

  /** An accepted Send press: the approval, who pressed, which prepared card the token was on, and when. */
  datatype SendPress = SendPress(approval: ProposalId, who: Principal, card: nat, at: Time)

  datatype World = World(
    t: Tables,
    telegram: Option<Principal>,
    execs: map<nat, Phase>,
    minted: nat,                           // claim ids handed out so far
    tokens: nat,                           // callback tokens drawn so far
    gmail: map<ProviderDraft, GmailDraft>,
    log: seq<Mutation>,
    workers: map<nat, NoticeClaim>,
    cards: seq<PreparedCard>,
    delivered: set<nat>,
    presses: seq<SendPress>,
    contexts: set<(ProposalId, Email)>)    // revision contexts loaded so far

  datatype Operation = PressSend | PressChange | PressDiscard

  datatype ServiceEvent =
    | Intake(root: string, raw: Email, origin: Origin, connector: string, situation: Option<string>)
    | Press(operation: Operation, card: nat, who: Principal, now: Time)
    | Supersede(card: nat, who: Principal)
    | StartRevision(account: string, now: Time)
    | FinishRevision(session: ProposalId, current: Email, candidate: Candidate, now: Time)

  datatype DeliveryEvent =
    | ClaimCard(approval: ProposalId, now: Time)
    | PrepareCard(now: Time)
    | DeliverCard(card: nat)
    | FinishCard(sent: bool, retryable: bool, nextRetry: Option<Time>)
    | RetryCard(approval: ProposalId)

  /** What an executor does up to the provider-call boundary ... */
  datatype ApproachEvent =
    | ClaimWork(action: ProposalId, now: Time, replyLost: bool)
    | ReadProposal
    | ReadDraft
    | CheckAuthority(now: Time)
    | Connect(refused: Option<bool>)   // Some(readAccessPreserved) when Gmail refuses the grant
    | Compare
    | MarkCall(now: Time, replyLost: bool)

  /** ... and what happens to it from then on, or when something goes wrong. */
  datatype OutcomeEvent =
    | CallGmail(draftId: string, made: seq<GmailClient.Try>)   // the requests the client made
    | Complete(now: Time, replyLost: bool)
    | Interrupt(refused: Option<bool>)
    | Recover(replyLost: bool)
    | Crash

  datatype OutsideEvent =
    | SetConnector(id: string, row: Connector)
    | SetTelegram(principal: Option<Principal>)
    | EditDraft(draft: ProviderDraft, content: Email)

  datatype Event =
    | Service(service: ServiceEvent)
    | Delivery(worker: nat, delivery: DeliveryEvent)
    | Approach(executor: nat, approach: ApproachEvent)
    | Outcome(executor: nat, outcome: OutcomeEvent)
    | Outside(outside: OutsideEvent)

  // ----- Steps -----------------------------------------------------------------------------------------

  function With(w: World, e: nat, p: Phase): World {
    w.(execs := w.execs[e := p])
  }

  function Fail(w: World, e: nat, s: Subject, f: Failure): World {
    With(w, e, Failing(s.claim, s.proposal.connector, f))
  }

  function IntakeStep(cfg: Config, w: World, root: string, raw: Email, origin: Origin, connector: string, situation: Option<string>): World {
    match cfg.canon(raw)
    case None => w
    case Some(message) =>
      var decision := Evaluate(Capability.CreateDraft, PolicyContext(true, false, false, false));
      match CreateAllowedAction(w.t, NewProposal(root, Capability.CreateDraft, None, origin, message, decision, connector, situation, None))
      case RolledBack(_) => w
      case Committed(t, _) => w.(t := t)
  }

  /** A press carries the token of a card that was delivered. */
  ghost function PressStep(cfg: Config, w: World, op: Operation, card: nat, who: Principal, now: Time): World {
    if card !in w.delivered || card >= |w.cards| then w
    else
      var token := w.cards[card].token;
      match op
      case PressSend =>
        (match GrantAndQueueSend(w.t, token, who, now)
         case RolledBack(_) => w
         case Committed(t, Accepted) => w.(t := t, presses := w.presses + [SendPress(FindApproval(w.t, token).value, who, card, now)])
         case Committed(t, _) => w.(t := t))
      case PressChange =>
        (match OpenRevision(w.t, token, who, cfg.revisionTtl, now)
         case RolledBack(_) => w
         case Committed(t, _) => w.(t := t))
      case PressDiscard =>
        match DiscardAndQueueDelete(w.t, token, who, now)
        case RolledBack(_) => w
        case Committed(t, _) => w.(t := t)
  }

  ghost function SupersedeStep(w: World, card: nat, who: Principal): World {
    if card >= |w.cards| then w
    else match SupersedeSendApproval(w.t, w.cards[card].token, who)
      case RolledBack(_) => w
      case Committed(t, _) => w.(t := t)
  }

  ghost function StartRevisionStep(cfg: Config, w: World, account: string, now: Time): World {
    match LoadRevision(cfg.canon, w.t, account, now)
    case RolledBack(_) => w
    case Committed(t, RevisionActive(session, current)) => w.(t := t, contexts := w.contexts + {(session, current)})
    case Committed(t, _) => w.(t := t)
  }

  function FinishRevisionStep(cfg: Config, w: World, session: ProposalId, current: Email, x: Candidate, now: Time): World {
    if (session, current) !in w.contexts then w
    else match ValidateReplacement(cfg.canon, current, x)
      case None => w
      case Some(replacement) =>
        match CompleteRevision(w.t, session, replacement, now)
        case RolledBack(_) => w
        case Committed(t, _) => w.(t := t)
  }

  function ClaimCardStep(cfg: Config, w: World, worker: nat, approval: ProposalId, now: Time): World {
    if worker in w.workers then w
    else
      var (t, claim) := ClaimNotice(w.t, approval, now, cfg.leaseSeconds, w.minted);
      if claim.None? then w
      else w.(t := t, minted := w.minted + 1, workers := w.workers[worker := claim.value])
  }

  function PrepareCardStep(cfg: Config, w: World, worker: nat, now: Time): World {
    if worker !in w.workers then w
    else match PrepareApprovalCard(cfg.canon, w.t, w.workers[worker], w.tokens, now)
      case RolledBack(_) => w
      case Committed(t, card) =>
        w.(t := t, tokens := w.tokens + 1, cards := w.cards + [PreparedCard(w.workers[worker].notice, w.tokens, card)])
  }

  function FinishCardStep(cfg: Config, w: World, worker: nat, sent: bool, retryable: bool, nextRetry: Option<Time>): World {
    if worker !in w.workers then w
    else
      var c := w.workers[worker];
      match if sent then MarkNoticeSent(w.t, c) else FailNotice(w.t, c, retryable, cfg.maxAttempts, nextRetry)
      case RolledBack(_) => w
      case Committed(t, _) => w.(t := t)
  }

  function RetryCardStep(w: World, approval: ProposalId): World {
    match RetryNotice(w.t, approval)
    case RolledBack(_) => w
    case Committed(t, _) => w.(t := t)
  }

  function ClaimWorkStep(cfg: Config, w: World, e: nat, action: ProposalId, now: Time, replyLost: bool): World {
    if e in w.execs then w
    else
      var (t, r) := ClaimAction(w.t, action, now, cfg.leaseSeconds, w.minted);
      var w1 := w.(t := t, minted := w.minted + 1);
      if r.Claimed? && !replyLost then With(w1, e, Holding(r.claim)) else With(w1, e, Done)
  }

  function ReadProposalStep(w: World, e: nat): World {
    if e !in w.execs || !w.execs[e].Holding? then w
    else
      var c := w.execs[e].claim;
      if Current(w.t, c) && c.action in w.t.proposals && w.t.proposals[c.action].connector in w.t.connectors
      then With(w, e, HasProposal(c, w.t.proposals[c.action], w.t.connectors[w.t.proposals[c.action].connector]))
      else With(w, e, Failing(c, "", Release))
  }

  function ReadDraftStep(w: World, e: nat): World {
    if e !in w.execs || !w.execs[e].HasProposal? then w
    else
      var x := w.execs[e];
      With(w, e, HasDraft(x.claim, x.proposal, x.connector, LookupDraft(w.t, x.claim, x.proposal)))
  }

  function CheckAuthorityStep(cfg: Config, w: World, e: nat, now: Time): World {
    if e !in w.execs || !w.execs[e].HasDraft? then w
    else
      var x := w.execs[e];
      match cfg.canon(x.proposal.parameters)
      case None => With(w, e, Failing(x.claim, x.proposal.connector, Release))
      case Some(message) =>
        var s := Subject(x.claim, x.proposal, message, x.connector, x.managed, LookupApproval(w.t, x.claim), w.telegram);
        match Revalidate(s, now)
        case Authorized => With(w, e, Validated(s))
        case AuthorizationUnavailable => Fail(w, e, s, Unavailable(true))
        case Denied => Fail(w, e, s, Refused)
  }

  function ConnectStep(w: World, e: nat, refused: Option<bool>): World {
    if e !in w.execs || !w.execs[e].Validated? then w
    else
      var s := w.execs[e].subject;
      match refused
      case None => With(w, e, Connected(s))
      case Some(preserved) => Fail(w, e, s, Unavailable(preserved))
  }

  /** Before a send the draft Gmail holds is compared with the approved message. */
  function CompareStep(w: World, e: nat): World {
    if e !in w.execs || !w.execs[e].Connected? then w
    else
      var s := w.execs[e].subject;
      if !s.claim.capability.SendDraft? then With(w, e, Checked(s, 0))
      else if s.managed.None? then Fail(w, e, s, Refused)
      else
        var key := s.managed.value.provider;
        if key !in w.gmail || !w.gmail[key].live then Fail(w, e, s, Release)
        else if w.gmail[key].content != s.message then Fail(w, e, s, Mismatch)
        else With(w, e, Checked(s, w.gmail[key].edits))
  }

  function MarkCallStep(w: World, e: nat, now: Time, replyLost: bool): World {
    if e !in w.execs || !w.execs[e].Checked? then w
    else
      var x := w.execs[e];
      var (t, marked) := MarkStarted(w.t, x.subject.claim, now);
      var w1 := w.(t := t);
      if replyLost then Fail(w1, e, x.subject, Release)
      else if marked then With(w1, e, Started(x.subject, x.edits))
      else With(w1, e, Done)
  }

  /** The draft a provider call is about; a create names the id Gmail will assign. */
  function Target(s: Subject, draftId: string): ProviderDraft {
    if s.claim.capability.CreateDraft? || s.managed.None? then ProviderDraft(s.proposal.connector, draftId)
    else s.managed.value.provider
  }

  /** Gmail can apply the call: a create gets an id never used before, anything else needs a live draft. */
  predicate Applicable(w: World, s: Subject, draftId: string) {
    var key := Target(s, draftId);
    if s.claim.capability.CreateDraft? then key !in w.gmail else s.managed.Some? && key in w.gmail && w.gmail[key].live
  }

  function Applied(w: World, s: Subject, key: ProviderDraft): GmailDraft
    requires s.claim.capability.CreateDraft? || key in w.gmail
  {
    match s.claim.capability
    case CreateDraft => GmailDraft(s.message, 0, true)
    case UpdateDraft => w.gmail[key].(content := s.message)
    case _ => w.gmail[key].(live := false)
  }

  function GmailAppliesStep(w: World, e: nat, draftId: string, reply: Reply, made: seq<GmailClient.Try>): World {
    if e !in w.execs || !w.execs[e].Started? || !Applicable(w, w.execs[e].subject, draftId) then w
    else
      var s, checked := w.execs[e].subject, w.execs[e].edits;
      var key := Target(s, draftId);
      var after := Applied(w, s, key);
      var m := Mutation(s.claim.action, s.claim.capability, s.message, after.content, draftId, reply, made, checked, after.edits);
      var w1 := w.(gmail := w.gmail[key := after], log := w.log + [m]);
      match reply
      case Accepted => With(w1, e, Returned(s, draftId))
      case Lost => Fail(w1, e, s, Uncertain)
      case Revoked => Fail(w1, e, s, Unavailable(false))
  }

  function GmailRefusesStep(w: World, e: nat, authorization: bool): World {
    if e !in w.execs || !w.execs[e].Started? then w
    else Fail(w, e, w.execs[e].subject, if authorization then Unavailable(false) else Uncertain)
  }

  /** The calls the client repeats after a transient failure. */
  predicate Repeated(c: Capability) {
    c.UpdateDraft? || c.DeleteDraft?
  }

  function ReplyTo(made: seq<GmailClient.Try>): Reply {
    match GmailClient.Conclusion(made)
    case Response => Reply.Accepted
    case AuthorizationRevoked => Revoked
    case ProviderError => Lost
  }

  predicate TakesDraft(c: Capability) {
    c.SendDraft? || c.DeleteDraft?
  }

  /** Gmail can answer these requests so: a send or delete takes the draft away, and another request for it
      finds nothing. The answer to a delete is not read. */
  predicate Feasible(c: Capability, made: seq<GmailClient.Try>) {
    && (TakesDraft(c) ==>
          forall i, j :: 0 <= i < j < |made| ==> !GmailClient.Applies(made[i]) || !GmailClient.Applies(made[j]))
    && (c.DeleteDraft? ==> GmailClient.Unreadable !in made)
  }

  /** A call as it can happen: the loop makes these requests, and Gmail can answer them so. */
  predicate Possible(c: Capability, made: seq<GmailClient.Try>, retryAttempts: nat) {
    GmailClient.Call(made, retryAttempts, Repeated(c)) && Feasible(c, made)
  }

  /** The provider call: whatever requests the client's retry loop can make of it. */
  function CallGmailStep(cfg: Config, w: World, e: nat, draftId: string, made: seq<GmailClient.Try>): World {
    if e !in w.execs || !w.execs[e].Started?
       || !Possible(w.execs[e].subject.claim.capability, made, cfg.retryAttempts) then w
    else if GmailClient.Applied(made) > 0 then GmailAppliesStep(w, e, draftId, ReplyTo(made), made)
    else GmailRefusesStep(w, e, GmailClient.Conclusion(made).AuthorizationRevoked?)
  }

  /** `_complete` for a draft: the principal read at validation, a token drawn now and thrown away. */
  function Next(cfg: Config, w: World, s: Subject, now: Time): Option<NextApproval> {
    if s.telegram.None? then None else Some(NextApproval(s.telegram.value, w.tokens, now + cfg.approvalTtl))
  }

  function Completion(cfg: Config, w: World, s: Subject, draftId: string, now: Time): Tx<()> {
    var next := Next(cfg, w, s, now);
    match s.claim.capability
    case CreateDraft =>
      if next.None? then RolledBack(RecordError) else CompleteCreate(cfg.canon, w.t, s.claim, draftId, next.value, now)
    case UpdateDraft =>
      if next.None? then RolledBack(RecordError) else CompleteUpdate(cfg.canon, w.t, s.claim, draftId, next.value, now)
    case DeleteDraft =>
      if s.managed.None? then RolledBack(ValidationError)
      else CompleteManaged(w.t, s.claim, s.managed.value.provider.draftId, DraftStatus.Deleted)
    case SendDraft =>
      if s.managed.None? then RolledBack(ValidationError)
      else CompleteManaged(w.t, s.claim, s.managed.value.provider.draftId, DraftStatus.Sent)
  }

  function CompleteStep(cfg: Config, w: World, e: nat, now: Time, replyLost: bool): World {
    if e !in w.execs || !w.execs[e].Returned? then w
    else
      var s := w.execs[e].subject;
      var w1 := w.(tokens := w.tokens + 1);
      match Completion(cfg, w, s, w.execs[e].draftId, now)
      case Committed(t, _) => if replyLost then Fail(w1.(t := t), e, s, Uncertain) else With(w1.(t := t), e, Done)
      case RolledBack(ValidationError) => Fail(w1, e, s, Refused)
      case RolledBack(_) => Fail(w1, e, s, Uncertain)
  }

  /** Any other failure: before the boundary it releases the action, after it the outcome is uncertain. */
  function InterruptStep(w: World, e: nat, refused: Option<bool>): World {
    if e !in w.execs then w
    else match w.execs[e]
      case Holding(c) => With(w, e, Failing(c, "", Release))
      case HasProposal(c, p, _) => With(w, e, Failing(c, p.connector, Release))
      case HasDraft(c, p, _, _) => With(w, e, Failing(c, p.connector, Release))
      case Validated(s) => Fail(w, e, s, Release)
      case Connected(s) => Fail(w, e, s, if refused.None? then Release else Unavailable(refused.value))
      case Checked(s, _) => Fail(w, e, s, Release)
      case Returned(s, _) => Fail(w, e, s, Uncertain)
      case Failing(c, connectorId, Mismatch) => With(w, e, Failing(c, connectorId, Release))
      case _ => w
  }

  /** The handler records its failure, and an exception then goes through, except one from recording a
      mismatch. */
  function RecoverStep(w: World, e: nat, replyLost: bool): World {
    if e !in w.execs || !w.execs[e].Failing? then w
    else
      var x := w.execs[e];
      var t := match x.failure
        case Unavailable(preserved) => MarkUnavailable(w.t, x.claim, x.connectorId, preserved)
        case Refused => FailValidation(w.t, x.claim)
        case Mismatch => FailValidation(w.t, x.claim)
        case Release => ReleaseBeforeProvider(w.t, x.claim)
        case Uncertain => MarkUnknown(w.t, x.claim);
      With(w.(t := t), e, if x.failure.Mismatch? && replyLost then Failing(x.claim, x.connectorId, Release) else Done)
  }

  function CrashStep(w: World, e: nat): World {
    if e in w.execs then With(w, e, Done) else w
  }

  function EditStep(w: World, key: ProviderDraft, content: Email): World {
    if key !in w.gmail || !w.gmail[key].live then w
    else w.(gmail := w.gmail[key := GmailDraft(content, w.gmail[key].edits + 1, true)])
  }

  ghost function ServiceStep(cfg: Config, w: World, ev: ServiceEvent): World {
    match ev
    case Intake(root, raw, origin, connector, situation) => IntakeStep(cfg, w, root, raw, origin, connector, situation)
    case Press(op, card, who, now) => PressStep(cfg, w, op, card, who, now)
    case Supersede(card, who) => SupersedeStep(w, card, who)
    case StartRevision(account, now) => StartRevisionStep(cfg, w, account, now)
    case FinishRevision(session, current, x, now) => FinishRevisionStep(cfg, w, session, current, x, now)
  }

  function DeliveryStep(cfg: Config, w: World, worker: nat, ev: DeliveryEvent): World {
    match ev
    case ClaimCard(approval, now) => ClaimCardStep(cfg, w, worker, approval, now)
    case PrepareCard(now) => PrepareCardStep(cfg, w, worker, now)
    case DeliverCard(card) => if card < |w.cards| then w.(delivered := w.delivered + {card}) else w
    case FinishCard(sent, retryable, nextRetry) => FinishCardStep(cfg, w, worker, sent, retryable, nextRetry)
    case RetryCard(approval) => RetryCardStep(w, approval)
  }

  function ApproachStep(cfg: Config, w: World, e: nat, ev: ApproachEvent): World {
    match ev
    case ClaimWork(action, now, replyLost) => ClaimWorkStep(cfg, w, e, action, now, replyLost)
    case ReadProposal => ReadProposalStep(w, e)
    case ReadDraft => ReadDraftStep(w, e)
    case CheckAuthority(now) => CheckAuthorityStep(cfg, w, e, now)
    case Connect(refused) => ConnectStep(w, e, refused)
    case Compare => CompareStep(w, e)
    case MarkCall(now, replyLost) => MarkCallStep(w, e, now, replyLost)
  }

  function OutcomeStep(cfg: Config, w: World, e: nat, ev: OutcomeEvent): World {
    match ev
    case CallGmail(draftId, made) => CallGmailStep(cfg, w, e, draftId, made)
    case Complete(now, replyLost) => CompleteStep(cfg, w, e, now, replyLost)
    case Interrupt(refused) => InterruptStep(w, e, refused)
    case Recover(replyLost) => RecoverStep(w, e, replyLost)
    case Crash => CrashStep(w, e)
  }

  function OutsideStep(w: World, ev: OutsideEvent): World {
    match ev
    case SetConnector(id, row) => w.(t := w.t.(connectors := w.t.connectors[id := row]))
    case SetTelegram(principal) => w.(telegram := principal)
    case EditDraft(key, content) => EditStep(w, key, content)
  }

  ghost function Step(cfg: Config, w: World, ev: Event): World {
    match ev
    case Service(service) => ServiceStep(cfg, w, service)
    case Delivery(worker, delivery) => DeliveryStep(cfg, w, worker, delivery)
    case Approach(e, approach) => ApproachStep(cfg, w, e, approach)
    case Outcome(e, outcome) => OutcomeStep(cfg, w, e, outcome)
    case Outside(outside) => OutsideStep(w, outside)
  }

  ghost function Run(cfg: Config, w: World, events: seq<Event>): World
    decreases |events|
  {
    if events == [] then w else Run(cfg, Step(cfg, w, events[0]), events[1..])
  }

  const EMPTY: World := World(
    Tables(map[], map[], map[], map[], map[], map[], map[], map[]),
    None, map[], 0, 0, map[], [], map[], [], {}, [], {})

  /** The world after any history whatever. */
  ghost predicate Reachable(cfg: Config, w: World) {
    exists events :: Run(cfg, EMPTY, events) == w
  }
}
