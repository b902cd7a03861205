/** Outbox, publisher and event processor together (src/eva_ai/events/outbox.py,
    src/eva_ai/events/processor.py): delivery at least once, composed with a fenced commit, applies an
    event exactly once. Every message here is the one that announces the event of the same number. */
module EventDelivery {
  import opened Wrappers
  import opened OutboxRelay

  /** `handled` stands for the stage; any other stage can still be claimed. */
  datatype Processing = Processing(handled: bool, claim: Option<nat>, lease: Option<Time>, attempts: nat)

  datatype Claim = Rejected | AlreadyHandled | Busy | Taken(claim: nat)

  type Events = map<MessageId, Processing>

  // ----- The processor's transactions -----------------------------------------------------------------------

  /** `_claim` */
  function ClaimEvent(events: Events, id: MessageId, now: Time, leaseSeconds: int, claim: nat): (Events, Claim) {
    if id !in events then (events, Rejected)
    else if events[id].handled then (events, AlreadyHandled)
    else if events[id].claim.Some? && events[id].lease.Some? && events[id].lease.value > now then (events, Busy)
    else (events[id := Processing(false, Some(claim), Some(now + leaseSeconds), events[id].attempts + 1)], Taken(claim))
  }

  /** Nobody is at work on it, or nobody is any more. */
  predicate Free(p: Processing, now: Time) {
    p.claim.None? || p.lease.None? || p.lease.value <= now
  }

  /** A claim on a known event that is not handled and free is taken, with its attempt counted; any other is told why
      not. */
  predicate Claims(events: Events, events': Events, id: MessageId, now: Time, leaseSeconds: int, claim: nat, r: Claim) {
    && (r.Rejected? <==> id !in events)
    && (r.AlreadyHandled? <==> id in events && events[id].handled)
    && (r.Busy? <==> id in events && !events[id].handled && !Free(events[id], now))
    && (r.Taken? ==>
          && r.claim == claim && events'.Keys == events.Keys
          && events'[id].claim == Some(claim) && events'[id].lease == Some(now + leaseSeconds)
          && events'[id].attempts == events[id].attempts + 1 && !events'[id].handled
          && forall other :: other in events && other != id ==> events'[other] == events[other])
    && (!r.Taken? ==> events' == events)
  }

  predicate Owns(events: Events, id: MessageId, claim: nat) {
    id in events && !events[id].handled && events[id].claim == Some(claim)
  }

  function Handled(p: Processing): Processing {
    p.(handled := true, claim := None, lease := None)
  }

  /** The processing rows, and how often each event's prepared commit has been applied. */
  datatype Store = Store(events: Events, applied: map<MessageId, nat>)

  predicate Counted(s: Store) {
    && s.applied.Keys == s.events.Keys
    && (forall id :: id in s.events ==> s.applied[id] == if s.events[id].handled then 1 else 0)
  }

  function Applied(s: Store, id: MessageId): Store
    requires id in s.events && id in s.applied
  {
    Store(s.events[id := Handled(s.events[id])], s.applied[id := s.applied[id] + 1])
  }

  function Released(s: Store, id: MessageId, claim: nat): Store {
    if Owns(s.events, id, claim) then s.(events := s.events[id := s.events[id].(claim := None, lease := None)]) else s
  }

  function AfterFailure(s: Store, id: MessageId, claim: nat, release: ReleaseReply): Store {
    if release == ReleaseRaised(false) then s else Released(s, id, claim)
  }

  /** What the prepared commit comes to: refused, or applied with its answer received or lost. */
  datatype CommitReply = Refuses | Applies(answered: bool)

  /** What other processors can do while one holds, or has lost, `claim`: they keep the count, leave handled
      events alone and never come by the claim. */
  ghost predicate Tolerable(s: Store, s': Store, claim: nat) {
    && (Counted(s) ==> Counted(s'))
    && (forall id :: id in s.events ==> id in s'.events && (s.events[id].handled ==> s'.events[id] == s.events[id]))
    && (forall id :: !Owns(s.events, id, claim) ==> !Owns(s'.events, id, claim))
  }

  /** What others do while the handler prepares, and between a failure and the release. */
  datatype Interference = Interference(preparing: Store -> Store, failing: Store -> Store)

  ghost predicate Fenced(others: Interference, claim: nat) {
    && (forall s :: Tolerable(s, others.preparing(s), claim))
    && (forall s :: Tolerable(s, others.failing(s), claim))
  }

  /** The rows once an event is done with, and whether its commit took effect. */
  datatype Done = Done(store: Store, effective: bool)

  function Processed(s: Store, id: MessageId, claim: nat, prepared: bool, commit: CommitReply, release: ReleaseReply,
                     others: Interference): Done
  {
    var found := others.preparing(s);
    var effective := prepared && commit.Applies? && Owns(found.events, id, claim) && id in found.applied;
    var left := if effective then Applied(found, id) else found;
    Done(if effective && commit.answered then left else AfterFailure(others.failing(left), id, claim, release), effective)
  }

  lemma ProcessedEndsClaim(s: Store, id: MessageId, claim: nat, prepared: bool, commit: CommitReply, release: ReleaseReply,
                           others: Interference)
    requires Fenced(others, claim)
    ensures var p := Processed(s, id, claim, prepared, commit, release, others);
            Owns(p.store.events, id, claim) ==> !p.effective && release == ReleaseRaised(false)
  {
    var found := others.preparing(s);
    if prepared && commit.Applies? && Owns(found.events, id, claim) && id in found.applied {
      assert Tolerable(Applied(found, id), others.failing(Applied(found, id)), claim);
    }
  }

  class EventProcessor {
    var events: map<MessageId, Processing>
    var applied: map<MessageId, nat>
    var minted: nat

    predicate Valid()
      reads this
    {
      Counted(Store(events, applied))
    }

    constructor (ids: set<MessageId>)
      ensures Valid() && events.Keys == ids && (forall id :: id in ids ==> !events[id].handled && applied[id] == 0)
    {
      events := map id | id in ids :: Processing(false, None, None, 0);
      applied := map id | id in ids :: 0;
      minted := 0;
    }

    method ClaimFor(id: MessageId, now: Time, leaseSeconds: int) returns (r: Claim)
      requires Valid()
      modifies this`events, this`minted
      ensures Valid() && minted == old(minted) + 1
      ensures (events, r) == ClaimEvent(old(events), id, now, leaseSeconds, old(minted))
      ensures Claims(old(events), events, id, now, leaseSeconds, old(minted), r)
    {
      var claim := minted;
      minted := minted + 1;
      if id !in events {
        return Rejected;
      }
      if events[id].handled {
        return AlreadyHandled;
      }
      if events[id].claim.Some? && events[id].lease.Some? && events[id].lease.value > now {
        return Busy;
      }
      events := events[id := Processing(false, Some(claim), Some(now + leaseSeconds), events[id].attempts + 1)];
      r := Taken(claim);
    }

    /** The prepared commit and the stage change, in one transaction; `accepted` says whether the commit
        applied and named a stage it may name. If not, or if the claim is stale, nothing happened. */
    method Commit(id: MessageId, claim: nat, accepted: bool) returns (ok: bool)
      requires Valid()
      modifies this`events, this`applied
      ensures Valid()
      ensures ok == (Owns(old(events), id, claim) && accepted)
      ensures ok <==> id in old(events) && !old(events)[id].handled && old(events)[id].claim == Some(claim) && accepted
      ensures ok ==> events == old(events)[id := Handled(old(events)[id])] && applied == old(applied)[id := old(applied)[id] + 1]
      ensures ok ==> events[id] == Processing(true, None, None, old(events)[id].attempts)
      ensures !ok ==> events == old(events) && applied == old(applied)
    {
      if !Owns(events, id, claim) {
        return false;
      }
      var before := applied;
      applied := applied[id := applied[id] + 1];
      if !accepted {
        applied := before;
        return false;
      }
      events := events[id := Handled(events[id])];
      ok := true;
    }

    method ReleaseClaim(id: MessageId, claim: nat) returns (ok: bool)
      requires Valid()
      modifies this`events
      ensures Valid()
      ensures ok == Owns(old(events), id, claim)
      ensures ok <==> id in old(events) && !old(events)[id].handled && old(events)[id].claim == Some(claim)
      ensures events == if ok then old(events)[id := old(events)[id].(claim := None, lease := None)] else old(events)
    {
      ok := Owns(events, id, claim);
      if ok {
        events := events[id := events[id].(claim := None, lease := None)];
      }
    }

    /** `process`: claim, prepare, commit, and release on any failure, with others at work while the handler
        prepares and again before the release. The event counts as handled exactly when everything went well,
        the claim was still held and the commit was answered; the commit takes effect exactly once or not at
        all; and this claim is over afterwards, unless neither commit nor release took effect. */
    method Process(id: MessageId, now: Time, leaseSeconds: int, prepared: bool, commit: CommitReply, release: ReleaseReply,
                   others: Interference)
      returns (r: Claim, handled: bool)
      requires Valid() && Fenced(others, minted)
      modifies this
      ensures Valid() && minted == old(minted) + 1
      ensures r == ClaimEvent(old(events), id, now, leaseSeconds, old(minted)).1
      ensures var claimed := Store(ClaimEvent(old(events), id, now, leaseSeconds, old(minted)).0, old(applied));
              if !r.Taken? then !handled && Store(events, applied) == claimed
              else
                var p := Processed(claimed, id, r.claim, prepared, commit, release, others);
                && Store(events, applied) == p.store && handled == (p.effective && commit.answered)
                && (Owns(events, id, r.claim) ==> !p.effective && release == ReleaseRaised(false))
      ensures Claims(old(events), ClaimEvent(old(events), id, now, leaseSeconds, old(minted)).0, id, now, leaseSeconds, old(minted), r)
      ensures r.Taken? ==>
                var found := others.preparing(Store(ClaimEvent(old(events), id, now, leaseSeconds, old(minted)).0, old(applied)));
                && (handled <==> prepared && commit == Applies(true) && Owns(found.events, id, r.claim))
                && (handled ==>
                      && applied == found.applied[id := found.applied[id] + 1]
                      && events == found.events[id := Processing(true, None, None, found.events[id].attempts)])
    {
      r := ClaimFor(id, now, leaseSeconds);
      handled := false;
      if r.Taken? {
        handled := Work(id, r.claim, prepared, commit, release, others);
      }
    }

    /** From the claim on. */
    method Work(id: MessageId, claim: nat, prepared: bool, commit: CommitReply, release: ReleaseReply, others: Interference)
      returns (handled: bool)
      requires Valid() && Fenced(others, claim)
      modifies this`events, this`applied
      ensures Valid()
      ensures var p := Processed(old(Store(events, applied)), id, claim, prepared, commit, release, others);
              && Store(events, applied) == p.store && handled == (p.effective && commit.answered)
              && (Owns(events, id, claim) ==> !p.effective && release == ReleaseRaised(false))
    {
      ProcessedEndsClaim(Store(events, applied), id, claim, prepared, commit, release, others);
      var effective := PrepareAndCommit(id, claim, prepared, commit, others);
      handled := effective && commit.answered;
      if !handled {
        Fail(id, claim, release, others);
      }
    }

    method PrepareAndCommit(id: MessageId, claim: nat, prepared: bool, commit: CommitReply, others: Interference)
      returns (effective: bool)
      requires Valid() && Fenced(others, claim)
      modifies this`events, this`applied
      ensures Valid()
      ensures var found := others.preparing(old(Store(events, applied)));
              && effective == (prepared && commit.Applies? && Owns(found.events, id, claim) && id in found.applied)
              && Store(events, applied) == if effective then Applied(found, id) else found
    {
      Meanwhile(others.preparing, claim);
      effective := false;
      if prepared {
        effective := Commit(id, claim, commit.Applies?);
      }
    }

    method Fail(id: MessageId, claim: nat, release: ReleaseReply, others: Interference)
      requires Valid() && Fenced(others, claim)
      modifies this`events, this`applied
      ensures Valid()
      ensures Store(events, applied) == AfterFailure(others.failing(old(Store(events, applied))), id, claim, release)
    {
      Meanwhile(others.failing, claim);
      if release != ReleaseRaised(false) {
        var released := ReleaseClaim(id, claim);
      }
    }

    method Meanwhile(step: Store -> Store, ghost claim: nat)
      requires Valid() && forall s :: Tolerable(s, step(s), claim)
      modifies this`events, this`applied
      ensures Valid() && Store(events, applied) == step(old(Store(events, applied)))
    {
      var after := step(Store(events, applied));
      assert Tolerable(Store(events, applied), after, claim);
      events, applied := after.events, after.applied;
    }
  }

  // ----- Everything at once -----------------------------------------------------------------------------------

  datatype Relaying = Sending(c: Claimed) | Acknowledged(c: Claimed) | Refused(c: Claimed) | Stopped

  datatype Handling = Preparing(id: MessageId, claim: nat) | Ready(id: MessageId, claim: nat) | Failed(id: MessageId, claim: nat) | Finished

  /** `acks` is every acknowledgement the publisher ever gave, whether or not the relay lived to see it. */
  datatype Outbox = Outbox(rows: Rows, relays: map<nat, Relaying>, acks: seq<MessageId>, minted: nat)

  /** `applied` counts how often each event's prepared commit took effect. */
  datatype Inbox = Inbox(events: Events, handlers: map<nat, Handling>, applied: map<MessageId, nat>, minted: nat)

  datatype World = World(outbox: Outbox, inbox: Inbox)

  datatype RelayEvent =
    | Claim(id: MessageId, now: Time, leaseSeconds: int)
    | Publish(acknowledged: bool, replyLost: bool)
    | Settle
    | GiveUp
    | CrashRelay

  datatype HandlerEvent =
    | Deliver(id: MessageId, now: Time, leaseSeconds: int)   // any acknowledged message, any number of times
    | Prepare
    | Apply(accepted: bool)
    | Abandon
    | CrashHandler

  datatype Event = Relays(r: nat, relay: RelayEvent) | Handles(h: nat, handler: HandlerEvent)

  function RelayStep(o: Outbox, r: nat, ev: RelayEvent): Outbox {
    match ev
    case Claim(id, now, leaseSeconds) =>
      if r in o.relays || id !in o.rows || !Eligible(o.rows[id], now) then o
      else o.(rows := o.rows[id := ClaimRow(o.rows[id], o.minted, now, leaseSeconds)], minted := o.minted + 1,
              relays := o.relays[r := Sending(Claimed(id, o.minted))])
    case Publish(acknowledged, replyLost) =>
      if r !in o.relays || !o.relays[r].Sending? || !acknowledged then o
      else
        var o1 := o.(acks := o.acks + [o.relays[r].c.id]);
        if replyLost then o1 else o1.(relays := o.relays[r := Relaying.Acknowledged(o.relays[r].c)])
    case Settle =>
      if r !in o.relays || !o.relays[r].Acknowledged? then o
      else (match Complete(o.rows, o.relays[r].c)
            case None => o.(relays := o.relays[r := Refused(o.relays[r].c)])
            case Some(rows) => o.(rows := rows, relays := o.relays[r := Stopped]))
    case GiveUp =>
      if r !in o.relays || o.relays[r].Stopped? then o
      else (match Release(o.rows, o.relays[r].c)
            case None => o.(relays := o.relays[r := Stopped])
            case Some(rows) => o.(rows := rows, relays := o.relays[r := Stopped]))
    case CrashRelay => if r in o.relays then o.(relays := o.relays[r := Stopped]) else o
  }

  function HandlerStep(i: Inbox, h: nat, ev: HandlerEvent): Inbox {
    match ev
    case Deliver(id, now, leaseSeconds) =>
      if h in i.handlers then i
      else
        var (events, claim) := ClaimEvent(i.events, id, now, leaseSeconds, i.minted);
        i.(events := events, minted := i.minted + 1,
           handlers := i.handlers[h := if claim.Taken? then Preparing(id, i.minted) else Finished])
    case Prepare =>
      if h !in i.handlers || !i.handlers[h].Preparing? then i
      else i.(handlers := i.handlers[h := Ready(i.handlers[h].id, i.handlers[h].claim)])
    case Apply(accepted) =>
      if h !in i.handlers || !i.handlers[h].Ready? then i
      else
        var id, claim := i.handlers[h].id, i.handlers[h].claim;
        if Owns(i.events, id, claim) && id in i.applied && accepted
        then i.(events := i.events[id := Handled(i.events[id])], applied := i.applied[id := i.applied[id] + 1],
                handlers := i.handlers[h := Finished])
        else i.(handlers := i.handlers[h := Failed(id, claim)])
    case Abandon =>
      if h !in i.handlers || i.handlers[h].Finished? then i
      else
        var id, claim := i.handlers[h].id, i.handlers[h].claim;
        var events := if Owns(i.events, id, claim) then i.events[id := i.events[id].(claim := None, lease := None)] else i.events;
        i.(events := events, handlers := i.handlers[h := Finished])
    case CrashHandler => if h in i.handlers then i.(handlers := i.handlers[h := Finished]) else i
  }

  function Step(w: World, ev: Event): World {
    match ev
    case Relays(r, relay) => w.(outbox := RelayStep(w.outbox, r, relay))
    case Handles(h, handler) =>
      if handler.Deliver? && handler.id !in w.outbox.acks then w else w.(inbox := HandlerStep(w.inbox, h, handler))
  }

  function Run(w: World, events: seq<Event>): World
    decreases |events|
  {
    if events == [] then w else Run(Step(w, events[0]), events[1..])
  }

  /** Messages just stored, nothing published, nothing applied. */
  predicate Initial(w: World) {
    && w.outbox.relays == map[] && w.outbox.acks == [] && w.inbox.handlers == map[]
    && w.inbox.applied.Keys == w.inbox.events.Keys
    && (forall id :: id in w.outbox.rows ==> w.outbox.rows[id].state.Pending? && w.outbox.rows[id].claim.None?)
    && (forall id :: id in w.inbox.events ==>
          !w.inbox.events[id].handled && w.inbox.events[id].claim.None? && w.inbox.applied[id] == 0)
  }

  ghost predicate OutboxOk(o: Outbox) {
    && (forall id :: id in o.rows && o.rows[id].claim.Some? ==> o.rows[id].claim.value < o.minted)
    && (forall r :: r in o.relays && o.relays[r].Acknowledged? ==> o.relays[r].c.id in o.acks)
    && (forall id :: id in o.rows && o.rows[id].state.Published? ==> id in o.acks)
  }

  ghost predicate InboxOk(i: Inbox) {
    && i.applied.Keys == i.events.Keys
    && (forall id :: id in i.events ==> i.applied[id] == if i.events[id].handled then 1 else 0)
    && (forall id :: id in i.events && i.events[id].claim.Some? ==> i.events[id].claim.value < i.minted)
  }

  /** Acknowledgements accumulate, published rows stay as they are, and a lost claim stays lost. */
  ghost predicate OutboxForward(o: Outbox, o': Outbox) {
    && o.minted <= o'.minted && o.acks <= o'.acks
    && (forall id :: id in o.rows ==> id in o'.rows && (o.rows[id].state.Published? ==> o'.rows[id] == o.rows[id]))
    && (forall c: Claimed :: c.claim < o.minted && !Holds(o.rows, c) ==> !Holds(o'.rows, c))
  }

  ghost predicate InboxForward(i: Inbox, i': Inbox) {
    && i.minted <= i'.minted
    && (forall id :: id in i.events ==> id in i'.events && (i.events[id].handled ==> i'.events[id] == i.events[id]))
    && (forall id: MessageId, claim: nat :: claim < i.minted && id in i.events && !Owns(i.events, id, claim) ==> !Owns(i'.events, id, claim))
  }

  lemma RelayStepOk(o: Outbox, r: nat, ev: RelayEvent)
    requires OutboxOk(o)
    ensures OutboxOk(RelayStep(o, r, ev))
  {
  }

  lemma RelayStepIsForward(o: Outbox, r: nat, ev: RelayEvent)
    ensures OutboxForward(o, RelayStep(o, r, ev))
  {
  }

  lemma HandlerStepOk(i: Inbox, h: nat, ev: HandlerEvent)
    requires InboxOk(i)
    ensures InboxOk(HandlerStep(i, h, ev))
  {
  }

  lemma HandlerStepIsForward(i: Inbox, h: nat, ev: HandlerEvent)
    ensures InboxForward(i, HandlerStep(i, h, ev))
  {
  }

  /** The assumptions `PublishBatch` and `Process` make of the others hold of every step others can take
      here, once the claims at stake have been handed out. */
  lemma OthersAreHarmless(o: Outbox, r: nat, relay: RelayEvent, minted: nat, limit: nat,
                          i: Inbox, h: nat, handler: HandlerEvent, claim: nat)
    requires minted + limit <= o.minted && claim < i.minted
    ensures Foreign(o.rows, RelayStep(o, r, relay).rows, minted, limit)
    ensures var i' := HandlerStep(i, h, handler); Tolerable(Store(i.events, i.applied), Store(i'.events, i'.applied), claim)
  {
    RelayStepIsForward(o, r, relay);
    HandlerStepIsForward(i, h, handler);
  }

  lemma {:induction false} RunOk(w: World, events: seq<Event>)
    requires OutboxOk(w.outbox) && InboxOk(w.inbox)
    ensures OutboxOk(Run(w, events).outbox) && InboxOk(Run(w, events).inbox)
    decreases |events|
  {
    if events != [] {
      match events[0] {
        case Relays(r, relay) => RelayStepOk(w.outbox, r, relay);
        case Handles(h, handler) => HandlerStepOk(w.inbox, h, handler);
      }
      RunOk(Step(w, events[0]), events[1..]);
    }
  }

  lemma {:induction false} RunIsForward(w: World, events: seq<Event>)
    ensures OutboxForward(w.outbox, Run(w, events).outbox) && InboxForward(w.inbox, Run(w, events).inbox)
    decreases |events|
  {
    if events != [] {
      match events[0] {
        case Relays(r, relay) => RelayStepIsForward(w.outbox, r, relay);
        case Handles(h, handler) => HandlerStepIsForward(w.inbox, h, handler);
      }
      RunIsForward(Step(w, events[0]), events[1..]);
    }
  }

  /** However often a message is claimed, published, redelivered, prepared and abandoned, its event's commit
      is applied exactly once if the event is handled and not at all otherwise; and a message marked
      published was acknowledged by the publisher at least once. */
  lemma AppliedExactlyOnce(w: World, events: seq<Event>, id: MessageId)
    requires Initial(w)
    ensures var w' := Run(w, events);
            && (id in w.inbox.events ==>
                  && id in w'.inbox.events && id in w'.inbox.applied
                  && w'.inbox.applied[id] == if w'.inbox.events[id].handled then 1 else 0)
            && (id in w'.outbox.rows && w'.outbox.rows[id].state.Published? ==> id in w'.outbox.acks)
  {
    RunOk(w, events);
    RunIsForward(w, events);
  }

  /** Published and handled are for good. */
  lemma SettledForGood(w: World, events: seq<Event>, id: MessageId)
    ensures var w' := Run(w, events);
            && (id in w.outbox.rows && w.outbox.rows[id].state.Published? ==>
                  id in w'.outbox.rows && w'.outbox.rows[id] == w.outbox.rows[id])
            && (id in w.inbox.events && w.inbox.events[id].handled ==>
                  id in w'.inbox.events && w'.inbox.events[id] == w.inbox.events[id])
  {
    RunIsForward(w, events);
  }

  /** A claim handed out before and no longer current never becomes current again: an outbox claim can
      then neither complete nor release, and an event claim neither commit nor release. */
  lemma StaleClaimsArePowerless(w: World, events: seq<Event>, c: Claimed, id: MessageId, claim: nat)
    requires c.claim < w.outbox.minted && !Holds(w.outbox.rows, c)
    requires claim < w.inbox.minted && id in w.inbox.events && !Owns(w.inbox.events, id, claim)
    ensures var w' := Run(w, events);
            && Complete(w'.outbox.rows, c).None? && Release(w'.outbox.rows, c).None?
            && !Owns(w'.inbox.events, id, claim)
  {
    RunIsForward(w, events);
  }
}
