/** That the whole way is open: from any reachable world, a new email can be drafted, shown, approved and sent,
    if the circumstances are favourable. So the safety theorems are about worlds that exist. */
module ActionEndToEnd {
  import opened Wrappers
  import opened CanonicalEmail
  import opened ActionTables
  import opened ActionTransitions
  import opened ActionInvariant
  import opened ActionCompletionSteps
  import opened ActionAnswers
  import opened ActionExecutor
  import opened ActionWorld
  import opened ActionRuns
  import opened ActionTheorems
  import opened ActionProgress
  import opened ActionMisrecords
  import opened ActionNotices
  import opened ActionOffers

  // ----- From intake to draft --------------------------------------------------------------------------------

  /** A new email and who approves it, and the id Gmail assigns its draft. */
  datatype NewEmail = NewEmail(
    root: string, message: Email, connector: string, situation: Option<string>, draftId: string, who: Principal)

  function KeyOf(d: NewEmail): ProviderDraft {
    ProviderDraft(d.connector, d.draftId)
  }

  function IntakeOf(d: NewEmail): Event {
    Service(Intake(d.root, d.message, Origin.AgentRun, d.connector, d.situation))
  }

  /** The one circumstance a new draft needs on the Gmail side: the id Gmail assigns is new. */
  ghost predicate Unused(w: World, key: ProviderDraft) {
    key !in w.gmail && !ProviderDraftUsed(w.t, key)
  }

  /** A creation request is on file, and nothing has come of it. */
  predicate Requested(w: World, d: NewEmail) {
    && Create(d.root) in w.t.proposals && w.t.proposals[Create(d.root)].parameters == d.message
    && w.t.proposals[Create(d.root)].connector == d.connector && w.t.proposals[Create(d.root)].situation == d.situation
    && w.t.proposals[Create(d.root)].expiresAt.None? && w.t.proposals[Create(d.root)].origin.AgentRun?
    && Create(d.root) in w.t.actions && w.t.actions[Create(d.root)].status.Queued?
  }

  lemma NewRootHasNoAction(cfg: Config, w: World, d: NewEmail)
    requires Reachable(cfg, w) && Canonicalizer(cfg.canon) && Create(d.root) !in w.t.proposals
    ensures Create(d.root) !in w.t.actions
  {
    FamilyHolds(cfg, w, d.root);
  }

  lemma IntakeGoesThrough(t: Tables, p: NewProposal)
    requires p.decision.Allow? && p.capability.CreateDraft? && Create(p.root) !in t.proposals && Create(p.root) !in t.actions
    requires p.connector in t.connectors
    ensures var x := CreateAllowedAction(t, p);
            && x.Committed? && x.tables == t.(proposals := x.tables.proposals, actions := x.tables.actions)
            && Create(p.root) in x.tables.proposals && x.tables.proposals[Create(p.root)].parameters == p.message
            && x.tables.proposals[Create(p.root)].connector == p.connector
            && x.tables.proposals[Create(p.root)].situation == p.situation && x.tables.proposals[Create(p.root)].origin == p.origin
            && x.tables.proposals[Create(p.root)].expiresAt == p.expiresAt
            && Create(p.root) in x.tables.actions && x.tables.actions[Create(p.root)].status.Queued?
  {
  }

  lemma IntakeRequests(cfg: Config, w: World, d: NewEmail)
    requires Reachable(cfg, w) && Canonicalizer(cfg.canon) && cfg.canon(d.message) == Some(d.message)
    requires Create(d.root) !in w.t.proposals && d.connector in w.t.connectors
    ensures var w' := Run(cfg, w, [IntakeOf(d)]);
            && w' == w.(t := w'.t) && w'.t == w.t.(proposals := w'.t.proposals, actions := w'.t.actions)
            && Requested(w', d)
  {
    NewRootHasNoAction(cfg, w, d);
    IntakeGoesThrough(w.t, NewProposal(d.root, Capability.CreateDraft, None, Origin.AgentRun, d.message, PolicyDecision.Allow,
                                       d.connector, d.situation, None));
    RunsOne(cfg, w, IntakeOf(d), IntakeStep(cfg, w, d.root, d.message, Origin.AgentRun, d.connector, d.situation));
  }

  /** What the draft of a new email offers its user until `until`. */
  function OfferOf(d: NewEmail, until: Time): Offer {
    Offer(Send(d.root, 1), d.message, d.connector, d.situation, KeyOf(d), d.who, until)
  }

  lemma CreateGoesThrough(canon: Email -> Option<Email>, t: Tables, c: Claim, draftId: string, next: NextApproval, now: Time)
    requires Creatable(t, c.action, draftId, next) && Current(t, c) && t.actions[c.action].capability.CreateDraft?
    requires canon(t.proposals[c.action].parameters) == Some(t.proposals[c.action].parameters)
    requires c.action !in t.results && next.expiresAt > now && Send(c.action.root, 1) !in t.notices
    ensures var x := CompleteCreate(canon, t, c, draftId, next, now);
            x.Committed? && Creates(t, x.tables, c.action, draftId, next)
            && x.tables.connectors == t.connectors && x.tables.notices == t.notices[Send(c.action.root, 1) := NEW_NOTICE]
  {
  }

  /** An executor about to call Gmail to create the draft. */
  ghost predicate AtCreate(cfg: Config, w: World, e: nat, d: NewEmail) {
    && e in w.execs && w.execs[e].Started?
    && var s := w.execs[e].subject;
    && s.claim.action == Create(d.root) && Current(w.t, s.claim)
    && s.message == d.message && s.proposal.connector == d.connector && s.proposal.situation == d.situation && s.telegram == Some(d.who)
    && Create(d.root) in w.t.proposals && w.t.proposals[Create(d.root)] == s.proposal && s.proposal.parameters == d.message
    && Unused(w, KeyOf(d)) && Send(d.root, 1) !in w.t.notices
  }

  function NextFor(cfg: Config, w: World, d: NewEmail, now: Time): NextApproval {
    NextApproval(d.who, w.tokens, now + cfg.approvalTtl)
  }

  lemma StartedCreate(cfg: Config, w: World, e: nat, d: NewEmail, now: Time)
    requires Reachable(cfg, w) && Canonicalizer(cfg.canon) && AtCreate(cfg, w, e, d)
    ensures Creatable(w.t, Create(d.root), d.draftId, NextFor(cfg, w, d, now)) && Create(d.root) !in w.t.results
    ensures w.t.actions[Create(d.root)].capability.CreateDraft? && w.execs[e].subject.claim.capability.CreateDraft?
    ensures cfg.canon(d.message) == Some(d.message)
  {
    FamilyHolds(cfg, w, d.root);
    ActionHolds(cfg, w, Create(d.root));
    TokensAreNew(cfg, w);
    HoldersAction(cfg, w, e);
  }

  lemma CreatedIsDrafted(w: World, w': World, d: NewEmail, next: NextApproval)
    requires Creatable(w.t, Create(d.root), d.draftId, next) && Creates(w.t, w'.t, Create(d.root), d.draftId, next)
    requires w.t.proposals[Create(d.root)].parameters == d.message && w.t.proposals[Create(d.root)].connector == d.connector
    requires w.t.proposals[Create(d.root)].situation == d.situation
    requires w'.gmail == w.gmail[KeyOf(d) := GmailDraft(d.message, 0, true)] && next.principal == d.who
    ensures Awaits(w', OfferOf(d, next.expiresAt))
  {
  }

  /** What a stage of the way leaves alone. */
  predicate Aside(w: World, w': World, e: nat) {
    && w'.telegram == w.telegram && w'.t.connectors == w.t.connectors
    && w'.execs.Keys == w.execs.Keys + {e} && w'.workers == w.workers && w'.cards == w.cards && w'.delivered == w.delivered
  }

  lemma CreateConcludes(cfg: Config, w: World, e: nat, d: NewEmail, now: Time)
    requires Reachable(cfg, w) && Canonicalizer(cfg.canon) && cfg.approvalTtl > 0 && cfg.retryAttempts >= 1
    requires AtCreate(cfg, w, e, d)
    ensures var w', next := Run(cfg, w, Concludes(e, d.draftId, now)), NextFor(cfg, w, d, now);
            && Creatable(w.t, Create(d.root), d.draftId, next) && Creates(w.t, w'.t, Create(d.root), d.draftId, next)
            && w'.t.connectors == w.t.connectors && w'.t.notices == w.t.notices[Send(d.root, 1) := NEW_NOTICE]
            && w' == w.(t := w'.t, tokens := w.tokens + 1, log := w'.log, execs := w.execs[e := Done],
                        gmail := w.gmail[KeyOf(d) := GmailDraft(d.message, 0, true)])
  {
    var s, next := w.execs[e].subject, NextFor(cfg, w, d, now);
    StartedCreate(cfg, w, e, d, now);
    CreateGoesThrough(cfg.canon, w.t, s.claim, d.draftId, next, now);
    CallConcludes(cfg, w, e, d.draftId, now, CompleteCreate(cfg.canon, w.t, s.claim, d.draftId, next, now).tables);
  }

  lemma CreateStaysAside(cfg: Config, w: World, w1: World, w': World, e: nat, d: NewEmail, now: Time)
    requires Create(d.root) in w.t.actions && Create(d.root) in w.t.proposals && Calling(cfg, w, w1, e, Create(d.root), now)
    requires w' == w1.(t := w'.t, tokens := w1.tokens + 1, log := w'.log, execs := w1.execs[e := Done], gmail := w'.gmail)
    requires w'.t.connectors == w1.t.connectors
    ensures Aside(w, w', e)
  {
  }

  lemma CallingIsAtCreate(cfg: Config, w: World, w1: World, e: nat, d: NewEmail, now: Time)
    requires Requested(w, d) && InOrder(w, d.connector, d.who) && Unused(w, KeyOf(d)) && Send(d.root, 1) !in w.t.notices
    requires Calling(cfg, w, w1, e, Create(d.root), now)
    ensures AtCreate(cfg, w1, e, d)
  {
  }

  lemma CreateIsDrafted(cfg: Config, w: World, e: nat, d: NewEmail, now: Time)
    requires Reachable(cfg, w) && Canonicalizer(cfg.canon) && cfg.approvalTtl > 0 && cfg.retryAttempts >= 1
    requires AtCreate(cfg, w, e, d)
    ensures Awaits(Run(cfg, w, Concludes(e, d.draftId, now)), OfferOf(d, now + cfg.approvalTtl))
  {
    CreateConcludes(cfg, w, e, d, now);
    CreatedIsDrafted(w, Run(cfg, w, Concludes(e, d.draftId, now)), d, NextFor(cfg, w, d, now));
  }

  lemma CallingCreate(cfg: Config, w: World, w1: World, e: nat, d: NewEmail, now: Time)
    requires Reachable(cfg, w1) && Canonicalizer(cfg.canon) && cfg.approvalTtl > 0 && cfg.retryAttempts >= 1
    requires Requested(w, d) && InOrder(w, d.connector, d.who) && Unused(w, KeyOf(d)) && Send(d.root, 1) !in w.t.notices
    requires Calling(cfg, w, w1, e, Create(d.root), now)
    ensures var w' := Run(cfg, w1, Concludes(e, d.draftId, now));
            && Awaits(w', OfferOf(d, now + cfg.approvalTtl)) && Aside(w, w', e)
            && Send(d.root, 1) in w'.t.notices && w'.t.notices[Send(d.root, 1)] == NEW_NOTICE
  {
    var w' := Run(cfg, w1, Concludes(e, d.draftId, now));
    CallingIsAtCreate(cfg, w, w1, e, d, now);
    CreateIsDrafted(cfg, w1, e, d, now);
    CreateConcludes(cfg, w1, e, d, now);
    CreateStaysAside(cfg, w, w1, w', e, d, now);
  }

  /** A creation request on file becomes a draft that waits for approval. */
  lemma RequestIsDrafted(cfg: Config, w: World, e: nat, d: NewEmail, now: Time)
    requires Reachable(cfg, w) && Canonicalizer(cfg.canon) && cfg.approvalTtl > 0 && cfg.retryAttempts >= 1
    requires Requested(w, d) && InOrder(w, d.connector, d.who) && e !in w.execs
    requires Unused(w, KeyOf(d)) && Send(d.root, 1) !in w.t.notices
    ensures var w' := Run(cfg, w, Approaches(e, Create(d.root), now) + Concludes(e, d.draftId, now));
            && Awaits(w', OfferOf(d, now + cfg.approvalTtl)) && Aside(w, w', e)
            && Send(d.root, 1) in w'.t.notices && w'.t.notices[Send(d.root, 1)] == NEW_NOTICE
  {
    var w1 := Run(cfg, w, Approaches(e, Create(d.root), now));
    QueuedActionReachesItsCall(cfg, w, e, Create(d.root), now);
    ReachableStays(cfg, w, Approaches(e, Create(d.root), now));
    CallingCreate(cfg, w, w1, e, d, now);
    RunConcat(cfg, w, Approaches(e, Create(d.root), now), Concludes(e, d.draftId, now));
  }

  // ----- The whole way -----------------------------------------------------------------------------------------

  /** What the world must offer: the email is canonical and new, everything is in order, Gmail's id is new. */
  ghost predicate Promising(cfg: Config, w: World, d: NewEmail) {
    && cfg.canon(d.message) == Some(d.message) && cfg.approvalTtl > 0 && cfg.retryAttempts >= 1
    && Create(d.root) !in w.t.proposals && InOrder(w, d.connector, d.who) && Unused(w, KeyOf(d))
  }

  lemma NewRootHasNoNotice(cfg: Config, w: World, root: string)
    requires Reachable(cfg, w) && Canonicalizer(cfg.canon) && Create(root) !in w.t.proposals
    ensures Send(root, 1) !in w.t.notices
  {
    if Send(root, 1) in w.t.notices {
      NoticesAreForApprovals(cfg, w, Send(root, 1));
      FamilyHolds(cfg, w, root);
    }
  }

  /** Intake, executor `e` and Gmail. */
  function ToDraft(d: NewEmail, e: nat, now: Time): seq<Event> {
    [IntakeOf(d)] + (Approaches(e, Create(d.root), now) + Concludes(e, d.draftId, now))
  }

  /** The same and worker `k`. */
  function ToCard(w: World, d: NewEmail, e: nat, k: nat, now: Time): seq<Event> {
    ToDraft(d, e, now) + Shows(k, Send(d.root, 1), now, |w.cards|)
  }

  lemma AnyEmailCanBeDrafted(cfg: Config, w: World, d: NewEmail, e: nat, now: Time)
    requires Reachable(cfg, w) && Canonicalizer(cfg.canon) && Promising(cfg, w, d) && e !in w.execs
    ensures var w' := Run(cfg, w, ToDraft(d, e, now));
            && Reachable(cfg, w') && Awaits(w', OfferOf(d, now + cfg.approvalTtl)) && Aside(w, w', e)
            && Send(d.root, 1) in w'.t.notices && w'.t.notices[Send(d.root, 1)] == NEW_NOTICE
  {
    var request := [IntakeOf(d)];
    NewRootHasNoNotice(cfg, w, d.root);
    IntakeRequests(cfg, w, d);
    ReachableStays(cfg, w, request);
    RequestIsDrafted(cfg, Run(cfg, w, request), e, d, now);
    RunConcat(cfg, w, request, Approaches(e, Create(d.root), now) + Concludes(e, d.draftId, now));
    ReachableStays(cfg, w, ToDraft(d, e, now));
  }

  /** Any new email can be brought to a card that works and shows it, from any world at all. */
  lemma AnyEmailCanBeShown(cfg: Config, w: World, d: NewEmail, e: nat, k: nat, now: Time)
    requires Reachable(cfg, w) && Canonicalizer(cfg.canon) && Promising(cfg, w, d) && e !in w.execs && k !in w.workers
    ensures var w' := Run(cfg, w, ToCard(w, d, e, k, now));
            && Reachable(cfg, w') && Awaits(w', OfferOf(d, now + cfg.approvalTtl))
            && OnCard(w', |w.cards|, Send(d.root, 1)) && CardShows(w'.cards[|w.cards|].card, d.message, now + cfg.approvalTtl)
            && InOrder(w', d.connector, d.who) && w'.execs.Keys == w.execs.Keys + {e} && w'.workers.Keys == w.workers.Keys + {k}
  {
    AnyEmailCanBeDrafted(cfg, w, d, e, now);
    OfferIsShown(cfg, Run(cfg, w, ToDraft(d, e, now)), k, OfferOf(d, now + cfg.approvalTtl), now);
    RunConcat(cfg, w, ToDraft(d, e, now), Shows(k, Send(d.root, 1), now, |w.cards|));
    ReachableStays(cfg, w, ToCard(w, d, e, k, now));
  }

  /** And once its Send button is pressed, it is sent: one entry in Gmail's history with exactly the approved
      message, the action recorded SUCCEEDED and the draft SENT. */
  lemma AnyEmailCanBeSent(cfg: Config, w: World, d: NewEmail, e: nat, k: nat, f: nat, now: Time)
    requires Reachable(cfg, w) && Canonicalizer(cfg.canon) && Promising(cfg, w, d)
    requires e !in w.execs && f !in w.execs && e != f && k !in w.workers
    ensures var o := OfferOf(d, now + cfg.approvalTtl);
            Delivered(Run(cfg, w, ToCard(w, d, e, k, now) + ToGmail(|w.cards|, o, f, now)), Send(d.root, 1), d.message)
  {
    var o := OfferOf(d, now + cfg.approvalTtl);
    AnyEmailCanBeShown(cfg, w, d, e, k, now);
    OfferCanBeSent(cfg, Run(cfg, w, ToCard(w, d, e, k, now)), |w.cards|, o, f, now);
    RunConcat(cfg, w, ToCard(w, d, e, k, now), ToGmail(|w.cards|, o, f, now));
  }

  // ----- Worlds that exist -----------------------------------------------------------------------------------

  const CONNECTED: Connector := Connector(ConnectorStatus.Active, true, Some("secret"))

  /** A connector and a Telegram account, and nothing else yet. */
  function SetUp(d: NewEmail): seq<Event> {
    [Outside(SetConnector(d.connector, CONNECTED)), Outside(SetTelegram(Some(d.who)))]
  }

  lemma SetUpIsPromising(cfg: Config, d: NewEmail)
    requires cfg.canon(d.message) == Some(d.message) && cfg.approvalTtl > 0 && cfg.retryAttempts >= 1
    ensures var w := Run(cfg, EMPTY, SetUp(d));
            Reachable(cfg, w) && Promising(cfg, w, d) && w.execs == map[] && w.workers == map[]
  {
    var w1 := OutsideStep(EMPTY, SetConnector(d.connector, CONNECTED));
    RunsOne(cfg, EMPTY, Outside(SetConnector(d.connector, CONNECTED)), w1);
    RunsOne(cfg, w1, Outside(SetTelegram(Some(d.who))), w1.(telegram := Some(d.who)));
    RunConcat(cfg, EMPTY, [Outside(SetConnector(d.connector, CONNECTED))], [Outside(SetTelegram(Some(d.who)))]);
  }

  /** There is a reachable world in which an email was sent: the theorems about sent emails speak of something. */
  lemma SomethingIsSent(cfg: Config, d: NewEmail, now: Time)
    requires Canonicalizer(cfg.canon) && cfg.canon(d.message) == Some(d.message) && cfg.approvalTtl > 0 && cfg.retryAttempts >= 1
    ensures exists w :: Reachable(cfg, w) && Delivered(w, Send(d.root, 1), d.message)
  {
    var w := Run(cfg, EMPTY, SetUp(d));
    SetUpIsPromising(cfg, d);
    AnyEmailCanBeSent(cfg, w, d, 0, 0, 1, now);
    ReachableStays(cfg, w, ToCard(w, d, 0, 0, now) + ToGmail(|w.cards|, OfferOf(d, now + cfg.approvalTtl), 1, now));
  }

  /** And one in which a delete that Gmail applied is recorded FAILED. */
  lemma SomethingIsMisrecorded(cfg: Config, d: NewEmail, now: Time)
    requires Canonicalizer(cfg.canon) && cfg.canon(d.message) == Some(d.message) && cfg.approvalTtl > 0 && cfg.retryAttempts >= 2
    ensures exists w :: Reachable(cfg, w) && WronglyFailed(w, Delete(d.root))
  {
    var w := Run(cfg, EMPTY, SetUp(d));
    SetUpIsPromising(cfg, d);
    AnyEmailCanBeShown(cfg, w, d, 0, 0, now);
    var w3 := Run(cfg, w, ToCard(w, d, 0, 0, now));
    OfferedCardWorks(w3, |w.cards|, OfferOf(d, now + cfg.approvalTtl), now);
    AnyDiscardCanBeMisrecorded(cfg, w3, |w.cards|, d.who, 1, now, "");
    ReachableStays(cfg, w3, [Service(ActionWorld.Press(PressDiscard, |w.cards|, d.who, now))] + Approaches(1, Delete(d.root), now)
                            + [Outcome(1, CallGmail("", LOST_THEN_REVOKED)), Outcome(1, Recover(false))]);
  }

  // ----- As deployed -------------------------------------------------------------------------------------------

  /** The defaults of the settings, with the real validation of emails. */
  function Defaults(n: AddressNormalizer): Config {
    Config(Validator(n), 300, 86_400, 900, 6, 3)
  }

  function Plain(root: string, address: string): NewEmail {
    NewEmail(root, PlainEmail(address), "gmail", Some("situation"), "draft", Principal("user", 0))
  }

  /** Under the default settings and whatever the library does with addresses, a plain email to an address it
      leaves alone can be sent, and its draft's delete be misrecorded. */
  lemma DefaultsSendAndMisrecord(n: AddressNormalizer, address: string, root: string, now: Time)
    requires Idempotent(n) && n(address) == Some(address)
    ensures exists w :: Reachable(Defaults(n), w) && Delivered(w, Send(root, 1), PlainEmail(address))
    ensures exists w :: Reachable(Defaults(n), w) && WronglyFailed(w, Delete(root))
  {
    ValidateIsCanonicalizer(n);
    PlainEmailIsCanonical(n, address);
    SomethingIsSent(Defaults(n), Plain(root, address), now);
    SomethingIsMisrecorded(Defaults(n), Plain(root, address), now);
  }
}
