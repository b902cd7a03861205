/** `ActionExecutor.execute` and `_complete` in their own form: one statement after another against the
    repository, any of which may raise, with anything at all happening in between. Every such execution is
    proved to be a run of `ActionWorld` in which this executor takes exactly the steps of the program, in
    their order, so what is proved of all runs holds of this program. */
module ActionExecutorProgram {
  import opened Wrappers
  import opened CanonicalEmail
  import opened ActionTables
  import opened ActionTransitions
  import opened ActionInvariant
  import opened ActionExecutor
  import opened ActionWorld
  import opened ActionWorldCalls
  import opened ActionRuns
  import opened ActionProgress
  import opened ActionRepository
  import GmailClient

  // ----- The steps of one executor ------------------------------------------------------------------

  predicate TakenBy(ev: Event, e: nat) {
    (ev.Approach? || ev.Outcome?) && ev.executor == e
  }

  /** What executor `e` did in a history. */
  function Own(trace: seq<Event>, e: nat): seq<Event> {
    if trace == [] then []
    else Own(trace[..|trace| - 1], e) + if TakenBy(trace[|trace| - 1], e) then [trace[|trace| - 1]] else []
  }

  lemma OwnAppends(trace: seq<Event>, e: nat, ev: Event)
    ensures Own(trace + [ev], e) == Own(trace, e) + if TakenBy(ev, e) then [ev] else []
  {
    assert (trace + [ev])[..|trace|] == trace;
  }

  lemma RunAppends(cfg: Config, origin: World, trace: seq<Event>, ev: Event, w: World, w': World)
    requires Run(cfg, origin, trace) == w && Step(cfg, w, ev) == w'
    ensures Run(cfg, origin, trace + [ev]) == w'
  {
    RunConcat(cfg, origin, trace, [ev]);
    RunsOne(cfg, w, ev, w');
  }

  const CLAIM: nat := 0
  const READ_PROPOSAL: nat := 1
  const READ_DRAFT: nat := 2
  const AUTHORIZE: nat := 3
  const CONNECT: nat := 4
  const COMPARE: nat := 5
  const MARK: nat := 6
  const CALL: nat := 7
  const COMPLETE: nat := 8
  const STAGES: nat := 9

  const INTERRUPT: nat := 9
  const RECOVER: nat := 10
  const CRASH: nat := 11
  const OTHER: nat := 12

  /** The place of a step in the program; the last four have none. */
  function Stage(ev: Event): nat {
    match ev
    case Approach(_, ClaimWork(_, _, _)) => CLAIM
    case Approach(_, ReadProposal) => READ_PROPOSAL
    case Approach(_, ReadDraft) => READ_DRAFT
    case Approach(_, CheckAuthority(_)) => AUTHORIZE
    case Approach(_, Connect(_)) => CONNECT
    case Approach(_, Compare) => COMPARE
    case Approach(_, MarkCall(_, _)) => MARK
    case Outcome(_, CallGmail(_, _)) => CALL
    case Outcome(_, Complete(_, _)) => COMPLETE
    case Outcome(_, Interrupt(_)) => INTERRUPT
    case Outcome(_, Recover(_)) => RECOVER
    case Outcome(_, Crash) => CRASH
    case _ => OTHER
  }

  /** A step that only happens when a statement raises: instead of its effect or after it. */
  predicate Faulty(ev: Event) {
    match ev
    case Approach(_, ClaimWork(_, _, replyLost)) => replyLost
    case Approach(_, MarkCall(_, replyLost)) => replyLost
    case Outcome(_, Complete(_, replyLost)) => replyLost
    case Outcome(_, Recover(replyLost)) => replyLost
    case Outcome(_, Interrupt(_)) => true
    case Outcome(_, Crash) => true
    case _ => false
  }

  /** From `base` on, the first `n` stages one after the other. */
  predicate InOrder(steps: seq<Event>, base: nat, n: nat) {
    base + n <= |steps| && forall i :: base <= i < base + n ==> Stage(steps[i]) == i - base
  }

  /** Straight through `n` stages, and nothing else. */
  predicate Straight(steps: seq<Event>, base: nat, n: nat) {
    InOrder(steps, base, n) && |steps| == base + n
  }

  /** The next statement raised, or recording a failed comparison did. */
  predicate Breaks(ev: Event) {
    Faulty(ev) && (Stage(ev) == INTERRUPT || Stage(ev) == RECOVER)
  }

  /** Straight through `n` stages, then possibly an exception. */
  predicate Stopped(steps: seq<Event>, base: nat, n: nat) {
    Straight(steps, base, n) || (InOrder(steps, base, n) && |steps| == base + n + 1 && Breaks(steps[base + n]))
  }

  /** Stopped, and then the one step `last`. */
  predicate Closed(steps: seq<Event>, base: nat, n: nat, last: nat) {
    |steps| > 0 && Stopped(steps[..|steps| - 1], base, n) && Stage(steps[|steps| - 1]) == last
  }

  lemma OneMoreStage(steps: seq<Event>, base: nat, n: nat, ev: Event)
    requires Straight(steps, base, n)
    ensures Stage(ev) == n && n < STAGES ==> Straight(steps + [ev], base, n + 1)
    ensures Breaks(ev) ==> Stopped(steps + [ev], base, n)
  {
  }

  lemma OneLastStep(steps: seq<Event>, base: nat, n: nat, ev: Event)
    requires Stopped(steps, base, n)
    ensures Closed(steps + [ev], base, n, Stage(ev))
  {
    assert (steps + [ev])[..|steps|] == steps;
  }

  // ----- The program ------------------------------------------------------------------------------------

  /** What became of a request: `ActionExecutionOutcome`, or an exception that went through. */
  datatype Outcome = Ended | RetryLater | OutcomeUnknown | Unusable | Succeeded | Raised

  datatype Connection = Ready | GrantRefused(readAccessPreserved: bool) | Unreachable

  /** What comes back from the provider call: an answer, or one of the exceptions handled. */
  datatype Answer = Answered(draftId: string) | AuthorizationRevoked | Uncertain

  function OutcomeFor(f: Failure): Outcome {
    match f
    case Unavailable(_) => Unusable
    case Refused => Ended
    case Mismatch => Ended
    case Release => RetryLater
    case Uncertain => Outcome.OutcomeUnknown
  }

  /** The exception a completion's rollback ends in. */
  function FailureOf(r: Result<(), Error>): Option<Failure> {
    if r.Success? then None else if r.error.ValidationError? then Some(Failure.Refused) else Some(Failure.Uncertain)
  }

  /** A claim the repository answered with `r`; where it raised, only the reply is lost. */
  lemma ClaimStepIs(cfg: Config, w: World, e: nat, id: ProposalId, now: Time, replyLost: bool, t: Tables,
                    r: Result<ClaimResult, Error>)
    requires e !in w.execs
    requires var (t', answer) := ClaimAction(w.t, id, now, cfg.leaseSeconds, w.minted);
             t == t' && (r.Success? ==> r.value == answer) && (r.Failure? ==> replyLost && answer.OutcomeUnknown?)
    ensures ClaimWorkStep(cfg, w, e, id, now, replyLost) ==
              With(w.(t := t, minted := w.minted + 1), e,
                   if !replyLost && r.value.Claimed? then Holding(r.value.claim) else Done)
    ensures r.Success? && r.value.Claimed? ==> r.value.claim.action == id
  {
  }

  lemma MarkStepIs(w: World, e: nat, now: Time, replyLost: bool, t: Tables, marked: bool)
    requires e in w.execs && w.execs[e].Checked? && (t, marked) == MarkStarted(w.t, w.execs[e].subject.claim, now)
    ensures var x := w.execs[e];
            MarkCallStep(w, e, now, replyLost) ==
              With(w.(t := t), e, if replyLost then Failing(x.subject.claim, x.subject.proposal.connector, Release)
                                  else if marked then Started(x.subject, x.edits) else Done)
  {
  }

  /** A call, by what the client concludes of it. */
  lemma CallStepIs(cfg: Config, w: World, e: nat, draftId: string, made: seq<GmailClient.Try>)
    requires e in w.execs && w.execs[e].Started?
    requires Possible(w.execs[e].subject.claim.capability, made, cfg.retryAttempts)
    requires GmailClient.Applied(made) > 0 ==> Applicable(w, w.execs[e].subject, draftId)
    ensures var w', s := CallGmailStep(cfg, w, e, draftId, made), w.execs[e].subject;
            && w'.t == w.t && e in w'.execs
            && w'.execs[e] == match GmailClient.Conclusion(made)
                 case Response => Returned(s, draftId)
                 case AuthorizationRevoked => Failing(s.claim, s.proposal.connector, Failure.Unavailable(false))
                 case ProviderError => Failing(s.claim, s.proposal.connector, Failure.Uncertain)
  {
    GmailClient.RequestsAreBounded(made, cfg.retryAttempts, Repeated(w.execs[e].subject.claim.capability));
  }

  lemma CompleteStepIs(cfg: Config, w: World, e: nat, now: Time, replyLost: bool, r: Result<(), Error>, t: Tables)
    requires e in w.execs && w.execs[e].Returned?
    requires Answers(w.t, t, r, Completion(cfg, w, w.execs[e].subject, w.execs[e].draftId, now))
    ensures var s := w.execs[e].subject;
            var f := if r.Success? && replyLost then Some(Failure.Uncertain) else FailureOf(r);
            CompleteStep(cfg, w, e, now, replyLost) ==
              With(w.(t := t, tokens := w.tokens + 1), e,
                   if f.None? then Done else Failing(s.claim, s.proposal.connector, f.value))
  {
  }

  lemma CompletionSucceeds(cfg: Config, w: World, s: Subject, draftId: string, now: Time)
    ensures match Completion(cfg, w, s, draftId, now)
            case Committed(t, _) => s.claim.action in t.actions && t.actions[s.claim.action].status.Succeeded?
            case RolledBack(_) => true
  {
    if Completion(cfg, w, s, draftId, now).Committed? {
      CompletionEndsOnly(cfg, w, s, draftId, now);
    }
  }

  /** Where an executor is once a handler has written, or has raised. */
  function AfterRecord(claim: Claim, connectorId: string, f: Failure, raised: bool): Phase {
    if f.Mismatch? && raised then Failing(claim, connectorId, Release) else Done
  }

  lemma RecoverStepIs(w: World, e: nat, replyLost: bool, claim: Claim, connectorId: string, f: Failure)
    requires e in w.execs && w.execs[e] == Failing(claim, connectorId, f)
    ensures RecoverStep(w, e, replyLost) ==
              With(w.(t := Recovered(w.t, claim, connectorId, f)), e, AfterRecord(claim, connectorId, f, replyLost))
  {
  }

  lemma RecordsAll(t: Tables, claim: Claim, connectorId: string, f: Failure)
    requires f.Release? || Ending(t, claim).Success?
    ensures Records(t, Recovered(t, claim, connectorId, f), claim, connectorId, f)
  {
    RecoveryRecords(t, claim, connectorId, f);
  }

  /** What the handler of `f` writes; afterwards the claim is over, except that a release after the boundary
      leaves it. */
  predicate Records(t: Tables, t': Tables, claim: Claim, connectorId: string, f: Failure) {
    && t' == Recovered(t, claim, connectorId, f)
    && (Current(t', claim) ==> f.Release? && claim.action in t.actions && t.actions[claim.action].started.Some?)
  }

  /** `world` is everything the repository does not hold: Gmail, the Telegram account, the claim ids and
      tokens drawn so far, and where the other executors are. `trace` is everything that has happened since
      `origin`, and `steps` what this executor did of it, `base` of them before the request at hand, during
      which a statement has raised if `faulted` says so. */
  class Executor {
    const cfg: Config
    const repository: ActionRepository
    const e: nat
    ghost const origin: World
    var world: World
    ghost var trace: seq<Event>
    ghost var steps: seq<Event>
    ghost var base: nat
    ghost var faulted: bool

    constructor (cfg: Config, repository: ActionRepository, e: nat, world: World)
      requires repository.Valid() && repository.canon == cfg.canon && world.t == repository.Snapshot()
      ensures Valid() && this.cfg == cfg && this.repository == repository && this.e == e && this.world == world
      ensures this.origin == world && trace == []
    {
      this.cfg, this.repository, this.e, this.world := cfg, repository, e, world;
      this.origin, this.trace, this.steps, this.base, this.faulted := world, [], [], 0, false;
    }

    ghost predicate Valid()
      reads this, repository
    {
      && repository.Valid() && repository.canon == cfg.canon
      && world.t == repository.Snapshot() && History()
    }

    ghost predicate History()
      reads this
    {
      && world == Run(cfg, origin, trace) && steps == Own(trace, e)
      && (forall i :: base <= i < |steps| && Faulty(steps[i]) ==> faulted)
    }

    predicate At(p: Phase)
      reads this
    {
      e in world.execs && world.execs[e] == p
    }

    /** The record says the action succeeded. */
    predicate Recorded(id: ProposalId)
      reads this
    {
      id in world.t.actions && world.t.actions[id].status.Succeeded?
    }

    /** This executor takes one step, of which the repository has done its part. */
    method Take(ghost ev: Event, after: World)
      requires History() && TakenBy(ev, e) && (Faulty(ev) ==> faulted) && Step(cfg, world, ev) == after
      requires repository.Valid() && repository.canon == cfg.canon && after.t == repository.Snapshot()
      modifies this`world, this`trace, this`steps
      ensures Valid() && world == after && trace == old(trace) + [ev] && steps == old(steps) + [ev]
    {
      RunAppends(cfg, origin, trace, ev, world, after);
      OwnAppends(trace, e, ev);
      trace := trace + [ev];
      steps := steps + [ev];
      world := after;
    }

    /** The next step of the program. */
    method Proceed(ghost n: nat, ghost ev: Event, after: World)
      requires History() && TakenBy(ev, e) && (Faulty(ev) ==> faulted) && Step(cfg, world, ev) == after
      requires repository.Valid() && repository.canon == cfg.canon && after.t == repository.Snapshot()
      requires Straight(steps, base, n) && Stage(ev) == n < STAGES
      modifies this`world, this`trace, this`steps
      ensures Valid() && world == after && old(trace) <= trace && Straight(steps, base, n + 1) && steps[base + n] == ev
    {
      OneMoreStage(steps, base, n, ev);
      Take(ev, after);
    }

    /** Whatever everyone else does meanwhile. */
    method Others()
      requires Valid()
      modifies this`world, this`trace, repository
      ensures Valid() && old(trace) <= trace
      ensures e in old(world).execs <==> e in world.execs
      ensures e in world.execs ==> world.execs[e] == old(world).execs[e]
    {
    }

    /** Any clock at all. */
    method Clock() returns (now: Time)
    {
      now := 0;
    }

    /** Whether the statement at hand raises. */
    method Raises() returns (raised: bool)
      modifies this`faulted
      ensures faulted == (old(faulted) || raised)
    {
      raised := false;
    }

    /** Credentials and client construction, with any result. */
    method Connect() returns (c: Connection)
      modifies this`faulted
      ensures faulted == (old(faulted) || c.Unreachable?)
    {
      c := Unreachable;
      faulted := true;
    }

    /** What Gmail and the network do to each request of a call: anything, except that nothing is applied to
        a draft that is gone, before the call or by it, or created under an id that is taken. */
    method Gmail(s: Subject) returns (fate: nat -> GmailClient.Try, draftId: string)
      ensures var made := GmailClient.Requests(fate, 0, cfg.retryAttempts, Repeated(s.claim.capability));
              && Feasible(s.claim.capability, made)
              && (GmailClient.Applied(made) > 0 ==> Applicable(world, s, draftId))
    {
      fate, draftId := (_: nat) => GmailClient.Rejected, "";
      GmailClient.RequestsFollowFate(fate, 0, cfg.retryAttempts, Repeated(s.claim.capability));
      GmailClient.NothingApplied(GmailClient.Requests(fate, 0, cfg.retryAttempts, Repeated(s.claim.capability)));
    }

    /** The statement raises: `execute` goes to the handler. */
    method Interrupted(ghost n: nat, refused: Option<bool>, after: Phase)
      requires Valid() && Straight(steps, base, n) && faulted && InterruptStep(world, e, refused) == With(world, e, after)
      modifies this`world, this`trace, this`steps
      ensures Valid() && old(trace) <= trace && Stopped(steps, base, n) && At(after)
    {
      OneMoreStage(steps, base, n, ActionWorld.Outcome(e, Interrupt(refused)));
      Take(ActionWorld.Outcome(e, Interrupt(refused)), With(world, e, after));
    }

    // ----- The statements of `execute` ------------------------------------------------------------------

    /** `claim_action`, which may also raise, having committed or not. */
    method Claim(id: ProposalId) returns (r: Option<ClaimResult>)
      requires Valid() && e !in world.execs && Straight(steps, base, CLAIM)
      modifies this`world, this`trace, this`steps, this`faulted, repository
      ensures Valid() && old(trace) <= trace
      ensures match r
              case None =>
                && faulted
                && ((e !in world.execs && Straight(steps, base, CLAIM)) || (At(Done) && Straight(steps, base, READ_PROPOSAL)))
              case Some(x) =>
                && At(if x.Claimed? then Holding(x.claim) else Done)
                && Straight(steps, base, READ_PROPOSAL) && !Faulty(steps[base])
      ensures r.Some? && r.value.Claimed? ==> r.value.claim.action == id
    {
      var raised := Raises();
      if raised {
        return None;
      }
      r := ClaimOnce(id);
    }

    method ClaimOnce(id: ProposalId) returns (r: Option<ClaimResult>)
      requires Valid() && e !in world.execs && Straight(steps, base, CLAIM)
      modifies this`world, this`trace, this`steps, this`faulted, repository
      ensures Valid() && old(trace) <= trace && Straight(steps, base, READ_PROPOSAL)
      ensures match r
              case None => faulted && At(Done)
              case Some(x) => At(if x.Claimed? then Holding(x.claim) else Done) && !Faulty(steps[base])
      ensures r.Some? && r.value.Claimed? ==> r.value.claim.action == id
    {
      var now := Clock();
      var replyLost;
      r, replyLost := ClaimRows(id, now);
      Proceed(CLAIM, Approach(e, ClaimWork(id, now, replyLost)),
              With(world.(t := repository.Snapshot(), minted := world.minted + 1), e,
                   if r.Some? && r.value.Claimed? then Holding(r.value.claim) else Done));
    }

    method ClaimRows(id: ProposalId, now: Time) returns (r: Option<ClaimResult>, replyLost: bool)
      requires repository.Valid() && world.t == repository.Snapshot() && e !in world.execs
      modifies this`faulted, repository
      ensures repository.Valid()
      ensures r.None? <==> replyLost
      ensures faulted == (old(faulted) || replyLost)
      ensures r.Some? && r.value.Claimed? ==> r.value.claim.action == id
      ensures ClaimWorkStep(cfg, world, e, id, now, replyLost) ==
                With(world.(t := repository.Snapshot(), minted := world.minted + 1), e,
                     if r.Some? && r.value.Claimed? then Holding(r.value.claim) else Done)
    {
      replyLost := Raises();
      var result := repository.ClaimAction(id, now, cfg.leaseSeconds, world.minted);
      if result.Failure? {
        replyLost, faulted := true, true;
      }
      ClaimStepIs(cfg, world, e, id, now, replyLost, repository.Snapshot(), result);
      r := if replyLost then None else Some(result.value);
    }

    /** `load_execution_subject`: three reads, each a statement of its own. The first joins the action, its
        proposal and the connector under the claim. */
    method LoadProposal(claim: Claim) returns (loaded: Option<(Proposal, Connector)>, ghost n: nat)
      requires Valid() && At(Holding(claim)) && Straight(steps, base, READ_PROPOSAL)
      modifies this`world, this`trace, this`steps, this`faulted, repository
      ensures Valid() && old(trace) <= trace
      ensures match loaded
              case None => At(Failing(claim, "", Release)) && Stopped(steps, base, n)
              case Some((p, c)) => At(HasProposal(claim, p, c)) && Straight(steps, base, READ_DRAFT)
    {
      n := READ_PROPOSAL;
      Others();
      var raised := Raises();
      if raised {
        Interrupted(n, None, Failing(claim, "", Release));
        return None, n;
      }
      n := READ_DRAFT;
      if !Current(repository.Snapshot(), claim) || claim.action !in repository.proposals
         || repository.proposals[claim.action].connector !in repository.connectors {
        Proceed(READ_PROPOSAL, Approach(e, ReadProposal), With(world, e, Failing(claim, "", Release)));
        return None, n;
      }
      var proposal := repository.proposals[claim.action];
      var connector := repository.connectors[proposal.connector];
      Proceed(READ_PROPOSAL, Approach(e, ReadProposal), With(world, e, HasProposal(claim, proposal, connector)));
      loaded := Some((proposal, connector));
    }

    method LoadDraft(claim: Claim, p: Proposal, c: Connector) returns (managed: Option<Option<Draft>>)
      requires Valid() && At(HasProposal(claim, p, c)) && Straight(steps, base, READ_DRAFT)
      modifies this`world, this`trace, this`steps, this`faulted, repository
      ensures Valid() && old(trace) <= trace
      ensures match managed
              case None => At(Failing(claim, p.connector, Release)) && Stopped(steps, base, READ_DRAFT)
              case Some(m) => At(HasDraft(claim, p, c, m)) && Straight(steps, base, AUTHORIZE)
    {
      Others();
      var raised := Raises();
      if raised {
        Interrupted(READ_DRAFT, None, Failing(claim, p.connector, Release));
        return None;
      }
      var m := LookupDraft(repository.Snapshot(), claim, p);
      Proceed(READ_DRAFT, Approach(e, ReadDraft), With(world, e, HasDraft(claim, p, c, m)));
      managed := Some(m);
    }

    /** The last read and `_revalidate`; the exception handler to run, if it comes to that. */
    method Authorize(claim: Claim, p: Proposal, c: Connector, m: Option<Draft>)
      returns (subject: Option<Subject>, failure: Failure, ghost n: nat)
      requires Valid() && At(HasDraft(claim, p, c, m)) && Straight(steps, base, AUTHORIZE)
      modifies this`world, this`trace, this`steps, this`faulted, repository
      ensures Valid() && old(trace) <= trace
      ensures match subject
              case None => At(Failing(claim, p.connector, failure)) && !failure.Mismatch? && Stopped(steps, base, n)
              case Some(s) => At(Validated(s)) && s.claim == claim && s.proposal == p && Straight(steps, base, CONNECT)
    {
      n := AUTHORIZE;
      Others();
      var raised := Raises();
      if raised {
        subject, failure := None, Release;
        Interrupted(n, None, Failing(claim, p.connector, Release));
      } else {
        n := CONNECT;
        subject, failure := AuthorizeOnce(claim, p, c, m);
      }
    }

    method AuthorizeOnce(claim: Claim, p: Proposal, c: Connector, m: Option<Draft>) returns (subject: Option<Subject>, failure: Failure)
      requires Valid() && At(HasDraft(claim, p, c, m)) && Straight(steps, base, AUTHORIZE)
      modifies this`world, this`trace, this`steps
      ensures Valid() && old(trace) <= trace && Straight(steps, base, CONNECT)
      ensures match subject
              case None => At(Failing(claim, p.connector, failure)) && !failure.Mismatch?
              case Some(s) => At(Validated(s)) && s.claim == claim && s.proposal == p
    {
      var now := Clock();
      subject, failure := None, Release;
      var message := cfg.canon(p.parameters);
      if message.Some? {
        var s := Subject(claim, p, message.value, c, m, LookupApproval(repository.Snapshot(), claim), world.telegram);
        match Revalidate(s, now) {
          case Authorized => subject := Some(s);
          case AuthorizationUnavailable => failure := Failure.Unavailable(true);
          case Denied => failure := Failure.Refused;
        }
      }
      Proceed(AUTHORIZE, Approach(e, CheckAuthority(now)),
              With(world, e, if subject.Some? then Validated(subject.value) else Failing(claim, p.connector, failure)));
    }

    /** The credentials and the client. */
    method OpenClient(s: Subject) returns (failure: Option<Failure>, ghost n: nat)
      requires Valid() && At(Validated(s)) && Straight(steps, base, CONNECT)
      modifies this`world, this`trace, this`steps, this`faulted, repository
      ensures Valid() && old(trace) <= trace
      ensures At(if failure.None? then Connected(s) else Failing(s.claim, s.proposal.connector, failure.value))
      ensures failure.Some? ==> !failure.value.Mismatch?
      ensures if failure.None? then Straight(steps, base, COMPARE) else Stopped(steps, base, n)
    {
      Others();
      var connection := Connect();
      if connection.Unreachable? {
        n := CONNECT;
        Interrupted(n, None, Failing(s.claim, s.proposal.connector, Release));
        return Some(Release), n;
      }
      n := COMPARE;
      var refused := if connection.Ready? then None else Some(connection.readAccessPreserved);
      failure := if connection.Ready? then None else Some(Failure.Unavailable(connection.readAccessPreserved));
      Proceed(CONNECT, Approach(e, ActionWorld.Connect(refused)),
              With(world, e, if failure.None? then Connected(s) else Failing(s.claim, s.proposal.connector, failure.value)));
    }

    /** The comparison before a send, whose read of the Gmail draft may raise or find the grant gone. */
    method CompareDraft(s: Subject) returns (failure: Option<Failure>, ghost n: nat)
      requires Valid() && At(Connected(s)) && Straight(steps, base, COMPARE)
      modifies this`world, this`trace, this`steps, this`faulted, repository
      ensures Valid() && old(trace) <= trace
      ensures failure.None? ==> e in world.execs && world.execs[e].Checked? && world.execs[e].subject == s
      ensures failure.Some? ==> At(Failing(s.claim, s.proposal.connector, failure.value))
      ensures failure.Some? && failure.value.Mismatch? ==> n == MARK && Straight(steps, base, MARK)
      ensures if failure.None? then Straight(steps, base, MARK) else Stopped(steps, base, n)
    {
      n := COMPARE;
      Others();
      var raised := Raises();
      if raised {
        var revoked := Raises();
        failure := Some(if revoked then Failure.Unavailable(false) else Release);
        Interrupted(n, if revoked then Some(false) else None, Failing(s.claim, s.proposal.connector, failure.value));
      } else {
        n := MARK;
        failure := CompareOnce(s);
      }
    }

    method CompareOnce(s: Subject) returns (failure: Option<Failure>)
      requires Valid() && At(Connected(s)) && Straight(steps, base, COMPARE)
      modifies this`world, this`trace, this`steps
      ensures Valid() && old(trace) <= trace && Straight(steps, base, MARK)
      ensures failure.None? ==> e in world.execs && world.execs[e].Checked? && world.execs[e].subject == s
      ensures failure.Some? ==> At(Failing(s.claim, s.proposal.connector, failure.value))
    {
      var edits := 0;
      failure := None;
      if s.claim.capability.SendDraft? {
        if s.managed.None? {
          failure := Some(Failure.Refused);
        } else {
          var key := s.managed.value.provider;
          if key !in world.gmail || !world.gmail[key].live {
            failure := Some(Release);
          } else if world.gmail[key].content != s.message {
            failure := Some(Mismatch);
          } else {
            edits := world.gmail[key].edits;
          }
        }
      }
      Proceed(COMPARE, Approach(e, Compare),
              With(world, e, if failure.None? then Checked(s, edits) else Failing(s.claim, s.proposal.connector, failure.value)));
    }

    /** The compare-and-set of the boundary mark. If it raises, the mark may be set all the same, and the
        handler runs as if it were not. */
    method Mark(s: Subject) returns (boundaryStarted: bool, raised: bool, ghost n: nat)
      requires Valid() && e in world.execs && world.execs[e].Checked? && world.execs[e].subject == s
      requires Straight(steps, base, MARK)
      modifies this`world, this`trace, this`steps, this`faulted, repository
      ensures Valid() && old(trace) <= trace
      ensures raised ==> !boundaryStarted && At(Failing(s.claim, s.proposal.connector, Release)) && Stopped(steps, base, n)
      ensures boundaryStarted ==> e in world.execs && world.execs[e].Started? && world.execs[e].subject == s
      ensures !boundaryStarted && !raised ==> At(Done)
      ensures !raised ==> Straight(steps, base, CALL)
    {
      Others();
      raised := Raises();
      if raised {
        n, boundaryStarted := MARK, false;
        Interrupted(n, None, Failing(s.claim, s.proposal.connector, Release));
      } else {
        n := CALL;
        boundaryStarted, raised := MarkOnce(s);
      }
    }

    method MarkOnce(s: Subject) returns (boundaryStarted: bool, replyLost: bool)
      requires Valid() && e in world.execs && world.execs[e].Checked? && world.execs[e].subject == s
      requires Straight(steps, base, MARK)
      modifies this`world, this`trace, this`steps, this`faulted, repository
      ensures Valid() && old(trace) <= trace && Straight(steps, base, CALL)
      ensures replyLost ==> !boundaryStarted && At(Failing(s.claim, s.proposal.connector, Release))
      ensures boundaryStarted ==> e in world.execs && world.execs[e].Started? && world.execs[e].subject == s
      ensures !boundaryStarted && !replyLost ==> At(Done)
    {
      var now := Clock();
      replyLost := Raises();
      var edits := world.execs[e].edits;
      var marked := repository.MarkProviderCallStarted(s.claim, now);
      MarkStepIs(world, e, now, replyLost, repository.Snapshot(), marked);
      Proceed(MARK, Approach(e, MarkCall(now, replyLost)),
              With(world.(t := repository.Snapshot()), e,
                   if replyLost then Failing(s.claim, s.proposal.connector, Release)
                   else if marked then Started(s, edits) else Done));
      boundaryStarted := marked && !replyLost;
    }

    /** The one provider call, through the client's retry loop. */
    method CallProvider(s: Subject) returns (answer: Answer)
      requires Valid() && e in world.execs && world.execs[e].Started? && world.execs[e].subject == s
      requires Straight(steps, base, CALL)
      modifies this`world, this`trace, this`steps, repository
      ensures Valid() && old(trace) <= trace && Straight(steps, base, COMPLETE)
      ensures At(match answer
                 case Answered(draftId) => Returned(s, draftId)
                 case AuthorizationRevoked => Failing(s.claim, s.proposal.connector, Failure.Unavailable(false))
                 case Uncertain => Failing(s.claim, s.proposal.connector, Failure.Uncertain))
    {
      Others();
      var fate, draftId := Gmail(s);
      var made := GmailClient.Requests(fate, 0, cfg.retryAttempts, Repeated(s.claim.capability));
      assert GmailClient.Call(made, cfg.retryAttempts, Repeated(s.claim.capability)) by {
        GmailClient.RequestsFollowFate(fate, 0, cfg.retryAttempts, Repeated(s.claim.capability));
      }
      var concluded := GmailClient.Execute(fate, cfg.retryAttempts, Repeated(s.claim.capability));
      CallStepIs(cfg, world, e, draftId, made);
      Proceed(CALL, ActionWorld.Outcome(e, CallGmail(draftId, made)), CallGmailStep(cfg, world, e, draftId, made));
      answer := match concluded
        case Response => Answer.Answered(draftId)
        case AuthorizationRevoked => Answer.AuthorizationRevoked
        case ProviderError => Answer.Uncertain;
    }

    /** `_complete`: which completion, with which principal, token and deadline. */
    method CompleteRows(s: Subject, draftId: string, now: Time) returns (r: Result<(), Error>)
      requires repository.Valid() && repository.canon == cfg.canon && world.t == repository.Snapshot()
      modifies repository
      ensures repository.Valid()
      ensures Answers(world.t, repository.Snapshot(), r, Completion(cfg, world, s, draftId, now))
    {
      r := Result.Failure(RecordError);
      var approval := Next(cfg, world, s, now);
      match s.claim.capability {
        case CreateDraft =>
          if approval.Some? {
            r := repository.CompleteCreateDraft(s.claim, draftId, approval.value, now);
          }
        case UpdateDraft =>
          if approval.Some? {
            r := repository.CompleteUpdateDraft(s.claim, draftId, approval.value, now);
          }
        case DeleteDraft =>
          r := Result.Failure(ValidationError);
          if s.managed.Some? {
            r := repository.CompleteManagedAction(s.claim, s.managed.value.provider.draftId, DraftStatus.Deleted);
          }
        case SendDraft =>
          r := Result.Failure(ValidationError);
          if s.managed.Some? {
            r := repository.CompleteManagedAction(s.claim, s.managed.value.provider.draftId, DraftStatus.Sent);
          }
      }
    }

    /** The completion, which may raise before it does anything or after it committed. */
    method Complete(s: Subject, draftId: string) returns (failure: Option<Failure>, ghost n: nat)
      requires Valid() && At(Returned(s, draftId)) && Straight(steps, base, COMPLETE)
      modifies this`world, this`trace, this`steps, this`faulted, repository
      ensures Valid() && old(trace) <= trace
      ensures At(if failure.None? then Done else Failing(s.claim, s.proposal.connector, failure.value))
      ensures failure.None? ==> Recorded(s.claim.action)
      ensures failure.Some? ==> failure.value.Refused? || failure.value.Uncertain?
      ensures if failure.None? then Straight(steps, base, STAGES) else Stopped(steps, base, n)
    {
      n := COMPLETE;
      Others();
      var raised := Raises();
      if raised {
        failure := Some(Failure.Uncertain);
        Interrupted(n, None, Failing(s.claim, s.proposal.connector, Failure.Uncertain));
      } else {
        n := STAGES;
        failure := CompleteOnce(s, draftId);
      }
    }

    method CompleteOnce(s: Subject, draftId: string) returns (failure: Option<Failure>)
      requires Valid() && At(Returned(s, draftId)) && Straight(steps, base, COMPLETE)
      modifies this`world, this`trace, this`steps, this`faulted, repository
      ensures Valid() && old(trace) <= trace && Straight(steps, base, STAGES)
      ensures At(if failure.None? then Done else Failing(s.claim, s.proposal.connector, failure.value))
      ensures failure.None? ==> Recorded(s.claim.action)
      ensures failure.Some? ==> failure.value.Refused? || failure.value.Uncertain?
    {
      var now := Clock();
      var replyLost := Raises();
      CompletionSucceeds(cfg, world, s, draftId, now);
      var r := CompleteRows(s, draftId, now);
      CompleteStepIs(cfg, world, e, now, replyLost, r, repository.Snapshot());
      failure := if r.Success? && replyLost then Some(Failure.Uncertain) else FailureOf(r);
      Proceed(COMPLETE, ActionWorld.Outcome(e, ActionWorld.Complete(now, replyLost)),
              With(world.(t := repository.Snapshot(), tokens := world.tokens + 1), e,
                   if failure.None? then Done else Failing(s.claim, s.proposal.connector, failure.value)));
    }

    /** What each handler writes. */
    method Record(claim: Claim, connectorId: string, f: Failure) returns (r: Result<(), Error>)
      requires repository.Valid()
      modifies repository
      ensures repository.Valid()
      ensures repository.Snapshot() == Recovered(old(repository.Snapshot()), claim, connectorId, f)
      ensures r.Success? ==> Records(old(repository.Snapshot()), repository.Snapshot(), claim, connectorId, f)
    {
      if f.Release? || Ending(repository.Snapshot(), claim).Success? {
        RecordsAll(repository.Snapshot(), claim, connectorId, f);
      }
      r := Result.Success(());
      match f {
        case Unavailable(preserved) => r := repository.MarkExecutionUnavailable(claim, connectorId, preserved);
        case Refused => r := repository.FailValidation(claim);
        case Mismatch => r := repository.FailValidation(claim);
        case Release => repository.ReleasePreProviderFailure(claim);
        case Uncertain => r := repository.MarkExecutionUnknown(claim);
      }
    }

    method RecordRows(claim: Claim, connectorId: string, f: Failure) returns (answered: bool)
      requires repository.Valid() && world.t == repository.Snapshot() && At(Failing(claim, connectorId, f))
      modifies this`faulted, repository
      ensures repository.Valid() && faulted == (old(faulted) || !answered)
      ensures RecoverStep(world, e, !answered) ==
                With(world.(t := repository.Snapshot()), e, AfterRecord(claim, connectorId, f, !answered))
      ensures answered ==> Records(world.t, repository.Snapshot(), claim, connectorId, f)
    {
      var raised := Raises();
      var r := Record(claim, connectorId, f);
      answered := !raised && r.Success?;
      faulted := faulted || !answered;
      RecoverStepIs(world, e, !answered, claim, connectorId, f);
    }

    /** Recording a failure, which may raise after its commit. */
    method RecordOnce(ghost n: nat, claim: Claim, connectorId: string, f: Failure) returns (answered: bool)
      requires Valid() && At(Failing(claim, connectorId, f)) && Stopped(steps, base, n)
      modifies this`world, this`trace, this`steps, this`faulted, repository
      ensures Valid() && At(AfterRecord(claim, connectorId, f, !answered)) && Closed(steps, base, n, RECOVER)
      ensures trace == old(trace) + [ActionWorld.Outcome(e, Recover(!answered))]
      ensures steps == old(steps) + [ActionWorld.Outcome(e, Recover(!answered))]
      ensures if answered then Records(old(world).t, world.t, claim, connectorId, f) else faulted
    {
      answered := RecordRows(claim, connectorId, f);
      OneLastStep(steps, base, n, ActionWorld.Outcome(e, Recover(!answered)));
      Take(ActionWorld.Outcome(e, Recover(!answered)),
           With(world.(t := repository.Snapshot()), e, AfterRecord(claim, connectorId, f, !answered)));
    }

    /** The exception handlers. Unless recording raises too, the outcome is the handler's, what is recorded is
        what `Recovered` says of the world `before`, and the claim is over, except that a release after the
        boundary leaves it. */
    method Handle(ghost n: nat, claim: Claim, connectorId: string, f: Failure) returns (outcome: Outcome, ghost before: seq<Event>)
      requires Valid() && At(Failing(claim, connectorId, f)) && !f.Mismatch? && Stopped(steps, base, n)
      modifies this`world, this`trace, this`steps, this`faulted, repository
      ensures Valid() && old(trace) <= trace && At(Done)
      ensures outcome.Raised? ==> faulted && (Closed(steps, base, n, RECOVER) || Closed(steps, base, n, CRASH))
      ensures !outcome.Raised? ==>
                && outcome == OutcomeFor(f) && Closed(steps, base, n, RECOVER)
                && trace == before + [ActionWorld.Outcome(e, Recover(false))]
                && Records(Run(cfg, origin, before).t, world.t, claim, connectorId, f)
    {
      Others();
      before := trace;
      outcome := HandleOnce(n, claim, connectorId, f);
    }

    method HandleOnce(ghost n: nat, claim: Claim, connectorId: string, f: Failure) returns (outcome: Outcome)
      requires Valid() && At(Failing(claim, connectorId, f)) && !f.Mismatch? && Stopped(steps, base, n)
      modifies this`world, this`trace, this`steps, this`faulted, repository
      ensures Valid() && At(Done) && old(trace) <= trace
      ensures outcome.Raised? ==> faulted && (Closed(steps, base, n, RECOVER) || Closed(steps, base, n, CRASH))
      ensures !outcome.Raised? ==>
                && outcome == OutcomeFor(f) && Closed(steps, base, n, RECOVER)
                && trace == old(trace) + [ActionWorld.Outcome(e, Recover(false))]
                && Records(old(world).t, world.t, claim, connectorId, f)
    {
      var raised := Raises();
      if raised {
        Abandon(n);
        return Raised;
      }
      outcome := RecordAndReport(n, claim, connectorId, f);
    }

    method RecordAndReport(ghost n: nat, claim: Claim, connectorId: string, f: Failure) returns (outcome: Outcome)
      requires Valid() && At(Failing(claim, connectorId, f)) && !f.Mismatch? && Stopped(steps, base, n)
      modifies this`world, this`trace, this`steps, this`faulted, repository
      ensures Valid() && At(Done) && old(trace) <= trace && Closed(steps, base, n, RECOVER)
      ensures outcome.Raised? ==> faulted
      ensures !outcome.Raised? ==>
                && outcome == OutcomeFor(f)
                && trace == old(trace) + [ActionWorld.Outcome(e, Recover(false))]
                && Records(old(world).t, world.t, claim, connectorId, f)
    {
      var answered := RecordOnce(n, claim, connectorId, f);
      outcome := if answered then OutcomeFor(f) else Raised;
    }

    /** The handler raises before it writes anything. */
    method Abandon(ghost n: nat)
      requires Valid() && e in world.execs && Stopped(steps, base, n) && faulted
      modifies this`world, this`trace, this`steps
      ensures Valid() && At(Done) && old(trace) <= trace && Closed(steps, base, n, CRASH)
    {
      OneLastStep(steps, base, n, ActionWorld.Outcome(e, Crash));
      Take(ActionWorld.Outcome(e, Crash), With(world, e, Done));
    }

    /** Recording a failed comparison, inside the block whose handler then releases if that raises. */
    method Reject(claim: Claim, connectorId: string) returns (rejected: bool)
      requires Valid() && At(Failing(claim, connectorId, Mismatch)) && Straight(steps, base, MARK)
      modifies this`world, this`trace, this`steps, this`faulted, repository
      ensures Valid() && old(trace) <= trace
      ensures rejected ==> At(Done) && Closed(steps, base, MARK, RECOVER) && !Current(world.t, claim)
      ensures !rejected ==> faulted && At(Failing(claim, connectorId, Release)) && Stopped(steps, base, MARK)
    {
      Others();
      var raised := Raises();
      if raised {
        rejected := false;
        Interrupted(MARK, None, Failing(claim, connectorId, Release));
      } else {
        rejected := RejectOnce(claim, connectorId);
      }
    }

    method RejectOnce(claim: Claim, connectorId: string) returns (rejected: bool)
      requires Valid() && At(Failing(claim, connectorId, Mismatch)) && Straight(steps, base, MARK)
      modifies this`world, this`trace, this`steps, this`faulted, repository
      ensures Valid() && old(trace) <= trace
      ensures rejected ==> At(Done) && Closed(steps, base, MARK, RECOVER) && !Current(world.t, claim)
      ensures !rejected ==> faulted && At(Failing(claim, connectorId, Release)) && Stopped(steps, base, MARK)
    {
      ghost var before := steps;
      rejected := RecordOnce(MARK, claim, connectorId, Mismatch);
      OneMoreStage(before, base, MARK, ActionWorld.Outcome(e, Recover(!rejected)));
    }

    // ----- The whole of it --------------------------------------------------------------------------------

    /** How far a request got, by what became of it. */
    ghost predicate Finished(outcome: Outcome, n: nat)
      reads this
    {
      match outcome
      case Succeeded => Straight(steps, base, STAGES)
      case Raised =>
        faulted && (|| Straight(steps, base, CLAIM) || Straight(steps, base, READ_PROPOSAL)
                    || Closed(steps, base, n, RECOVER) || Closed(steps, base, n, CRASH))
      case Ended => NotClaimed() || Straight(steps, base, CALL) || Closed(steps, base, n, RECOVER)
      case Unusable => Closed(steps, base, n, RECOVER)
      case _ => NotClaimed() || Closed(steps, base, n, RECOVER)
    }

    /** The claim was answered, and not with a claim. */
    ghost predicate NotClaimed()
      reads this
    {
      Straight(steps, base, READ_PROPOSAL) && !Faulty(steps[base])
    }

    /** An exception met on the way is handled, and that ends the request. */
    method Settle(ghost n: nat, claim: Claim, connectorId: string, f: Failure) returns (outcome: Outcome)
      requires Valid() && At(Failing(claim, connectorId, f)) && !f.Mismatch? && Stopped(steps, base, n)
      modifies this`world, this`trace, this`steps, this`faulted, repository
      ensures Valid() && old(trace) <= trace && At(Done) && Finished(outcome, n) && !outcome.Succeeded?
    {
      ghost var before;
      outcome, before := Handle(n, claim, connectorId, f);
    }

    /** Claim, load, revalidate, connect, compare, mark, call, complete; whatever fails goes to its handler.
        This executor takes these steps in this order and no others; a request ends before the last of them
        only as `Finished` says; none of the steps was a raise unless something raised; and `Succeeded` is
        said only of an action recorded so. */
    method Execute(id: ProposalId) returns (outcome: Outcome, ghost n: nat)
      requires Valid() && e !in world.execs
      modifies this`world, this`trace, this`steps, this`base, this`faulted, repository
      ensures Valid() && old(trace) <= trace && base == |old(steps)|
      ensures Finished(outcome, n)
      ensures At(Done) || (outcome.Raised? && e !in world.execs)
      ensures outcome.Succeeded? ==> Recorded(id)
    {
      base, faulted := |steps|, false;
      n := 0;
      var r := Claim(id);
      if r.None? {
        return Raised, n;
      }
      if !r.value.Claimed? {
        outcome := if r.value.Busy? then RetryLater else if r.value.OutcomeUnknown? then Outcome.OutcomeUnknown else Ended;
        return;
      }
      outcome, n := FromProposal(r.value.claim);
    }

    method FromProposal(claim: Claim) returns (outcome: Outcome, ghost n: nat)
      requires Valid() && At(Holding(claim)) && Straight(steps, base, READ_PROPOSAL)
      modifies this`world, this`trace, this`steps, this`faulted, repository
      ensures Valid() && old(trace) <= trace && At(Done) && Finished(outcome, n)
      ensures outcome.Succeeded? ==> Recorded(claim.action)
    {
      var loaded;
      loaded, n := LoadProposal(claim);
      if loaded.None? {
        outcome := Settle(n, claim, "", Release);
      } else {
        outcome, n := FromDraft(claim, loaded.value.0, loaded.value.1);
      }
    }

    method FromDraft(claim: Claim, p: Proposal, c: Connector) returns (outcome: Outcome, ghost n: nat)
      requires Valid() && At(HasProposal(claim, p, c)) && Straight(steps, base, READ_DRAFT)
      modifies this`world, this`trace, this`steps, this`faulted, repository
      ensures Valid() && old(trace) <= trace && At(Done) && Finished(outcome, n)
      ensures outcome.Succeeded? ==> Recorded(claim.action)
    {
      var managed := LoadDraft(claim, p, c);
      if managed.None? {
        n := READ_DRAFT;
        outcome := Settle(n, claim, p.connector, Release);
      } else {
        outcome, n := FromAuthority(claim, p, c, managed.value);
      }
    }

    method FromAuthority(claim: Claim, p: Proposal, c: Connector, m: Option<Draft>) returns (outcome: Outcome, ghost n: nat)
      requires Valid() && At(HasDraft(claim, p, c, m)) && Straight(steps, base, AUTHORIZE)
      modifies this`world, this`trace, this`steps, this`faulted, repository
      ensures Valid() && old(trace) <= trace && At(Done) && Finished(outcome, n)
      ensures outcome.Succeeded? ==> Recorded(claim.action)
    {
      var subject, failure;
      subject, failure, n := Authorize(claim, p, c, m);
      if subject.None? {
        outcome := Settle(n, claim, p.connector, failure);
      } else {
        outcome, n := FromConnection(subject.value);
      }
    }

    method FromConnection(s: Subject) returns (outcome: Outcome, ghost n: nat)
      requires Valid() && At(Validated(s)) && Straight(steps, base, CONNECT)
      modifies this`world, this`trace, this`steps, this`faulted, repository
      ensures Valid() && old(trace) <= trace && At(Done) && Finished(outcome, n)
      ensures outcome.Succeeded? ==> Recorded(s.claim.action)
    {
      var failure;
      failure, n := OpenClient(s);
      if failure.Some? {
        outcome := Settle(n, s.claim, s.proposal.connector, failure.value);
      } else {
        outcome, n := FromComparison(s);
      }
    }

    method FromComparison(s: Subject) returns (outcome: Outcome, ghost n: nat)
      requires Valid() && At(Connected(s)) && Straight(steps, base, COMPARE)
      modifies this`world, this`trace, this`steps, this`faulted, repository
      ensures Valid() && old(trace) <= trace && At(Done) && Finished(outcome, n)
      ensures outcome.Succeeded? ==> Recorded(s.claim.action)
    {
      var failure;
      failure, n := CompareDraft(s);
      if failure.None? {
        outcome, n := FromMark(s);
      } else if failure.value.Mismatch? {
        outcome := FromMismatch(s);
      } else {
        outcome := Settle(n, s.claim, s.proposal.connector, failure.value);
      }
    }

    method FromMismatch(s: Subject) returns (outcome: Outcome)
      requires Valid() && At(Failing(s.claim, s.proposal.connector, Mismatch)) && Straight(steps, base, MARK)
      modifies this`world, this`trace, this`steps, this`faulted, repository
      ensures Valid() && old(trace) <= trace && At(Done) && Finished(outcome, MARK) && !outcome.Succeeded?
    {
      var rejected := Reject(s.claim, s.proposal.connector);
      if rejected {
        outcome := Ended;
      } else {
        outcome := Settle(MARK, s.claim, s.proposal.connector, Release);
      }
    }

    method FromMark(s: Subject) returns (outcome: Outcome, ghost n: nat)
      requires Valid() && e in world.execs && world.execs[e].Checked? && world.execs[e].subject == s
      requires Straight(steps, base, MARK)
      modifies this`world, this`trace, this`steps, this`faulted, repository
      ensures Valid() && old(trace) <= trace && At(Done) && Finished(outcome, n)
      ensures outcome.Succeeded? ==> Recorded(s.claim.action)
    {
      var boundaryStarted, raised;
      boundaryStarted, raised, n := Mark(s);
      if raised {
        outcome := Settle(n, s.claim, s.proposal.connector, Release);
      } else if !boundaryStarted {
        outcome := Ended;
      } else {
        outcome, n := FromCall(s);
      }
    }

    method FromCall(s: Subject) returns (outcome: Outcome, ghost n: nat)
      requires Valid() && e in world.execs && world.execs[e].Started? && world.execs[e].subject == s
      requires Straight(steps, base, CALL)
      modifies this`world, this`trace, this`steps, this`faulted, repository
      ensures Valid() && old(trace) <= trace && At(Done) && Finished(outcome, n)
      ensures outcome.Succeeded? ==> Recorded(s.claim.action)
    {
      var answer := CallProvider(s);
      if answer.Answered? {
        outcome, n := FromAnswer(s, answer.draftId);
      } else {
        n := COMPLETE;
        outcome := Settle(n, s.claim, s.proposal.connector,
                          if answer.Uncertain? then Failure.Uncertain else Failure.Unavailable(false));
      }
    }

    method FromAnswer(s: Subject, draftId: string) returns (outcome: Outcome, ghost n: nat)
      requires Valid() && At(Returned(s, draftId)) && Straight(steps, base, COMPLETE)
      modifies this`world, this`trace, this`steps, this`faulted, repository
      ensures Valid() && old(trace) <= trace && At(Done) && Finished(outcome, n)
      ensures outcome.Succeeded? ==> Recorded(s.claim.action)
    {
      var failure;
      failure, n := Complete(s, draftId);
      if failure.None? {
        outcome := Outcome.Succeeded;
      } else {
        outcome := Settle(n, s.claim, s.proposal.connector, failure.value);
      }
    }
  }

  /** Where the repository could refuse a second result for an action, no reachable world lets it: the one end
      of an action is never recorded twice, by its holder or by a claim that finds its lease over. */
  lemma ResultsNeverClash(cfg: Config, w: World, c: Claim, now: Time, claimId: nat)
    requires Reachable(cfg, w) && Canonicalizer(cfg.canon)
    ensures Ending(w.t, c).Success?
    ensures ClaimAction(w.t, c.action, now, cfg.leaseSeconds, claimId).1.OutcomeUnknown? ==> c.action !in w.t.results
  {
    ReachableOk(cfg, w);
    assert c.action in w.t.actions ==> ActionOk(w.t, c.action);
  }

  /** So every theorem about reachable worlds holds wherever such an executor stands. */
  lemma ExecutionsStayReachable(x: Executor)
    requires x.Valid() && Reachable(x.cfg, x.origin)
    ensures Reachable(x.cfg, x.world)
  {
    var before :| Run(x.cfg, EMPTY, before) == x.origin;
    RunConcat(x.cfg, EMPTY, before, x.trace);
  }
}
