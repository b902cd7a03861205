/** The outbox and its relay (src/eva_ai/events/outbox.py): rows are claimed in one transaction, published
    with no lock held, and settled under the claim. */
module OutboxRelay {
  import opened Wrappers

  type MessageId = nat
  type Time = int

  datatype State = Pending | Publishing | Published

  datatype Message = Message(state: State, claim: Option<nat>, lease: Option<Time>, availableAt: Time, attempts: nat)

  type Rows = map<MessageId, Message>

  datatype Claimed = Claimed(id: MessageId, claim: nat)

  predicate Eligible(m: Message, now: Time) {
    || (m.state.Pending? && m.availableAt <= now)
    || (m.state.Publishing? && m.lease.Some? && m.lease.value <= now)
  }

  /** The claim is the row's current one. */
  predicate Holds(rows: Rows, c: Claimed) {
    c.id in rows && rows[c.id].state.Publishing? && rows[c.id].claim == Some(c.claim)
  }

  function ClaimRow(m: Message, claim: nat, now: Time, leaseSeconds: int): Message {
    m.(state := Publishing, claim := Some(claim), lease := Some(now + leaseSeconds), attempts := m.attempts + 1)
  }

  /** `complete_claim` and `release_claim`; `None` is a stale claim. */
  function Complete(rows: Rows, c: Claimed): Option<Rows> {
    if Holds(rows, c) then Some(rows[c.id := rows[c.id].(state := Published, claim := None, lease := None)]) else None
  }

  function Release(rows: Rows, c: Claimed): Option<Rows> {
    if Holds(rows, c) then Some(rows[c.id := rows[c.id].(state := Pending, claim := None, lease := None)]) else None
  }

  /** A claim still current is settled, its row in the state given, and no other claim does anything. */
  predicate Settles(rows: Rows, rows': Rows, c: Claimed, state: State, ok: bool) {
    && (ok <==> c.id in rows && rows[c.id].state.Publishing? && rows[c.id].claim == Some(c.claim))
    && (ok ==> rows' == rows[c.id := Message(state, None, None, rows[c.id].availableAt, rows[c.id].attempts)])
    && (!ok ==> rows' == rows)
  }

  /** The rows a claim takes: the first `limit` in the query's order that are eligible and not locked. */
  function Selected(rows: Rows, order: seq<MessageId>, locked: set<MessageId>, limit: nat, now: Time): seq<MessageId> {
    if order == [] then []
    else
      var earlier := Selected(rows, order[..|order| - 1], locked, limit, now);
      var id := order[|order| - 1];
      if |earlier| < limit && id in rows && id !in locked && Eligible(rows[id], now) then earlier + [id] else earlier
  }

  lemma {:induction false} SelectedFromOrder(rows: Rows, order: seq<MessageId>, locked: set<MessageId>, limit: nat, now: Time)
    ensures var s := Selected(rows, order, locked, limit, now);
            && |s| <= limit
            && (forall i :: 0 <= i < |s| ==> s[i] in order && s[i] in rows && s[i] !in locked && Eligible(rows[s[i]], now))
    ensures |Selected(rows, order, locked, limit, now)| < limit ==>
              forall id :: id in order && id in rows && id !in locked && Eligible(rows[id], now) ==> id in Selected(rows, order, locked, limit, now)
  {
    if order != [] {
      SelectedFromOrder(rows, order[..|order| - 1], locked, limit, now);
    }
  }

  /** A row is free for a relay that comes now: it waits and its time has come, or the lease on it is over. */
  predicate Due(m: Message, now: Time) {
    match m.state
    case Pending => m.availableAt <= now
    case Publishing => m.lease.Some? && m.lease.value <= now
    case Published => false
  }

  /** `chosen` are the first `limit` of `order` that are due and not locked, and in its order. */
  predicate FirstDue(rows: Rows, order: seq<MessageId>, locked: set<MessageId>, limit: nat, now: Time, chosen: seq<MessageId>) {
    && |chosen| <= limit
    && (forall i :: 0 <= i < |chosen| ==> chosen[i] in order && chosen[i] in rows && chosen[i] !in locked && Due(rows[chosen[i]], now))
    && (forall i, j :: 0 <= i < j < |chosen| ==> Earlier(order, chosen[i], chosen[j]))
    && (forall id :: id in order && id !in chosen && id in rows && id !in locked && Due(rows[id], now) ==>
          |chosen| == limit && forall i :: 0 <= i < |chosen| ==> Earlier(order, chosen[i], id))
  }

  predicate Earlier(order: seq<MessageId>, a: MessageId, b: MessageId) {
    exists i, j :: 0 <= i < j < |order| && order[i] == a && order[j] == b
  }

  lemma EarlierStays(order: seq<MessageId>, x: MessageId, a: MessageId, b: MessageId)
    requires Earlier(order, a, b)
    ensures Earlier(order + [x], a, b)
  {
    var i, j :| 0 <= i < j < |order| && order[i] == a && order[j] == b;
    assert (order + [x])[i] == a && (order + [x])[j] == b;
  }

  lemma LastIsLatest(order: seq<MessageId>, x: MessageId, a: MessageId)
    requires a in order
    ensures Earlier(order + [x], a, x)
  {
    var i :| 0 <= i < |order| && order[i] == a;
    assert (order + [x])[i] == a && (order + [x])[|order|] == x;
  }

  lemma FirstDueNext(rows: Rows, order: seq<MessageId>, locked: set<MessageId>, limit: nat, now: Time, chosen: seq<MessageId>,
                     x: MessageId)
    requires FirstDue(rows, order, locked, limit, now, chosen) && x !in order
    ensures var more := if |chosen| < limit && x in rows && x !in locked && Due(rows[x], now) then chosen + [x] else chosen;
            FirstDue(rows, order + [x], locked, limit, now, more)
  {
    var order' := order + [x];
    forall a, b | Earlier(order, a, b)
      ensures Earlier(order', a, b)
    {
      EarlierStays(order, x, a, b);
    }
    forall a | a in order
      ensures Earlier(order', a, x)
    {
      LastIsLatest(order, x, a);
    }
  }

  lemma {:induction false} SelectedAreFirstDue(rows: Rows, order: seq<MessageId>, locked: set<MessageId>, limit: nat, now: Time)
    requires forall i, j :: 0 <= i < j < |order| ==> order[i] != order[j]
    ensures FirstDue(rows, order, locked, limit, now, Selected(rows, order, locked, limit, now))
  {
    if order != [] {
      var last := |order| - 1;
      SelectedAreFirstDue(rows, order[..last], locked, limit, now);
      FirstDueNext(rows, order[..last], locked, limit, now, Selected(rows, order[..last], locked, limit, now), order[last]);
      assert order[..last] + [order[last]] == order;
    }
  }

  lemma {:induction false} SelectedIsDistinct(rows: Rows, order: seq<MessageId>, locked: set<MessageId>, limit: nat, now: Time)
    requires forall i, j :: 0 <= i < j < |order| ==> order[i] != order[j]
    ensures var s := Selected(rows, order, locked, limit, now); forall i, j :: 0 <= i < j < |s| ==> s[i] != s[j]
  {
    if order != [] {
      SelectedIsDistinct(rows, order[..|order| - 1], locked, limit, now);
      SelectedFromOrder(rows, order[..|order| - 1], locked, limit, now);
    }
  }

  /** The rows after a batch: the `k`-th chosen row under claim `minted + k`, all others as they were. */
  function ClaimAll(rows: Rows, chosen: seq<MessageId>, minted: nat, now: Time, leaseSeconds: int): Rows {
    if chosen == [] then rows
    else
      var last := |chosen| - 1;
      var earlier := ClaimAll(rows, chosen[..last], minted, now, leaseSeconds);
      if chosen[last] in rows then earlier[chosen[last] := ClaimRow(rows[chosen[last]], minted + last, now, leaseSeconds)] else earlier
  }

  /** A claim leaves each chosen row PUBLISHING under its own claim until the lease is over, its attempt counted and
      due when it was, and all others as they were. */
  predicate ClaimsRows(rows: Rows, rows': Rows, chosen: seq<MessageId>, minted: nat, now: Time, leaseSeconds: int) {
    && rows'.Keys == rows.Keys
    && (forall k :: 0 <= k < |chosen| && chosen[k] in rows ==>
          rows'[chosen[k]] == Message(Publishing, Some(minted + k), Some(now + leaseSeconds),
                                      rows[chosen[k]].availableAt, rows[chosen[k]].attempts + 1))
    && (forall id :: id in rows && id !in chosen ==> rows'[id] == rows[id])
  }

  lemma {:induction false} ClaimAllClaims(rows: Rows, chosen: seq<MessageId>, minted: nat, now: Time, leaseSeconds: int)
    requires forall i, j :: 0 <= i < j < |chosen| ==> chosen[i] != chosen[j]
    ensures ClaimsRows(rows, ClaimAll(rows, chosen, minted, now, leaseSeconds), chosen, minted, now, leaseSeconds)
  {
    if chosen != [] {
      ClaimAllClaims(rows, chosen[..|chosen| - 1], minted, now, leaseSeconds);
    }
  }

  /** What the batch method takes and makes of it: the first due rows, each claimed for the length of the lease. */
  lemma BatchTakesFirstDue(rows: Rows, order: seq<MessageId>, locked: set<MessageId>, limit: nat, minted: nat, now: Time,
                           leaseSeconds: int)
    requires forall i, j :: 0 <= i < j < |order| ==> order[i] != order[j]
    ensures var chosen := Selected(rows, order, locked, limit, now);
            && FirstDue(rows, order, locked, limit, now, chosen)
            && ClaimsRows(rows, ClaimAll(rows, chosen, minted, now, leaseSeconds), chosen, minted, now, leaseSeconds)
  {
    SelectedAreFirstDue(rows, order, locked, limit, now);
    SelectedIsDistinct(rows, order, locked, limit, now);
    ClaimAllClaims(rows, Selected(rows, order, locked, limit, now), minted, now, leaseSeconds);
  }

  /** The claims of a batch: the `k`-th chosen row's has id `minted + k`. */
  predicate Taken(batch: seq<Claimed>, chosen: seq<MessageId>, minted: nat) {
    |batch| == |chosen| && forall i :: 0 <= i < |batch| ==> batch[i] == Claimed(chosen[i], minted + i)
  }

  predicate DistinctMessages(claimed: seq<Claimed>) {
    forall i, j :: 0 <= i < j < |claimed| ==> claimed[i].id != claimed[j].id
  }

  predicate AllHeld(rows: Rows, claimed: seq<Claimed>) {
    forall i :: 0 <= i < |claimed| ==> Holds(rows, claimed[i])
  }

  /** Distinct chosen rows all end up held by their own claims. */
  lemma {:induction false} ClaimAllHolds(rows: Rows, chosen: seq<MessageId>, minted: nat, now: Time, leaseSeconds: int, k: nat)
    requires forall i, j :: 0 <= i < j < |chosen| ==> chosen[i] != chosen[j]
    requires forall i :: 0 <= i < |chosen| ==> chosen[i] in rows
    requires k < |chosen|
    ensures Holds(ClaimAll(rows, chosen, minted, now, leaseSeconds), Claimed(chosen[k], minted + k))
  {
    var last := |chosen| - 1;
    if k < last {
      ClaimAllHolds(rows, chosen[..last], minted, now, leaseSeconds, k);
    }
  }

  lemma {:induction false} ClaimAllSparesOthers(rows: Rows, chosen: seq<MessageId>, minted: nat, now: Time, leaseSeconds: int, id: MessageId)
    requires id !in chosen
    ensures id in ClaimAll(rows, chosen, minted, now, leaseSeconds) <==> id in rows
    ensures id in rows ==> ClaimAll(rows, chosen, minted, now, leaseSeconds)[id] == rows[id]
  {
    if chosen != [] {
      ClaimAllSparesOthers(rows, chosen[..|chosen| - 1], minted, now, leaseSeconds, id);
    }
  }

  // ----- One batch, and what others do meanwhile --------------------------------------------------------

  /** What came of publishing one message and then completing its claim. The completion may raise without
      having happened, or having happened. */
  datatype Publication = Undelivered | Acknowledged | CompletionRaised(committed: bool)

  /** What a release comes back with: done or found stale, which the relay takes alike, or another error, with
      the release done or not, which ends the batch. */
  datatype ReleaseReply = Answered | ReleaseRaised(committed: bool)

  /** `release` counts only where it comes to a release. */
  datatype Attempt = Attempt(publication: Publication, release: ReleaseReply)

  lemma ClaimAllOneMore(rows: Rows, chosen: seq<MessageId>, minted: nat, now: Time, leaseSeconds: int, k: nat)
    requires k < |chosen| && chosen[k] in rows && forall i, j :: 0 <= i < j < |chosen| ==> chosen[i] != chosen[j]
    ensures var taken := ClaimAll(rows, chosen[..k], minted, now, leaseSeconds);
            && chosen[k] in taken
            && ClaimAll(rows, chosen[..k + 1], minted, now, leaseSeconds) ==
                 taken[chosen[k] := ClaimRow(taken[chosen[k]], minted + k, now, leaseSeconds)]
  {
    assert chosen[..k + 1][..k] == chosen[..k];
    ClaimAllSparesOthers(rows, chosen[..k], minted, now, leaseSeconds, chosen[k]);
  }

  lemma TakenIsHeld(rows: Rows, chosen: seq<MessageId>, minted: nat, now: Time, leaseSeconds: int, batch: seq<Claimed>)
    requires forall i, j :: 0 <= i < j < |chosen| ==> chosen[i] != chosen[j]
    requires (forall i :: 0 <= i < |chosen| ==> chosen[i] in rows) && Taken(batch, chosen, minted)
    ensures AllHeld(ClaimAll(rows, chosen, minted, now, leaseSeconds), batch) && DistinctMessages(batch)
  {
    forall i | 0 <= i < |batch|
      ensures Holds(ClaimAll(rows, chosen, minted, now, leaseSeconds), batch[i])
    {
      ClaimAllHolds(rows, chosen, minted, now, leaseSeconds, i);
    }
  }

  /** What other relays can make of the rows: they delete none, leave what is PUBLISHED alone, and never
      come by one of the `limit` claims minted from `minted` on, which are this batch's. */
  ghost predicate Foreign(rows: Rows, rows': Rows, minted: nat, limit: nat) {
    && (forall id :: id in rows ==> id in rows' && (rows[id].state.Published? ==> rows'[id] == rows[id]))
    && (forall c: Claimed :: minted <= c.claim < minted + limit && !Holds(rows, c) ==> !Holds(rows', c))
  }

  /** The completion of one message, and whether the relay counts it as published. */
  function AfterCompletion(rows: Rows, c: Claimed, a: Attempt): (Rows, bool) {
    if Complete(rows, c).None? || a.publication.Undelivered? || a.publication == CompletionRaised(false) then (rows, false)
    else (Complete(rows, c).value, a.publication.Acknowledged?)
  }

  function AfterRelease(rows: Rows, c: Claimed): Rows {
    if Release(rows, c).None? then rows else Release(rows, c).value
  }

  /** What other relays make of the rows before a completion, and between one that failed and the release. */
  datatype Meddling = Meddling(before: Rows -> Rows, between: Rows -> Rows)

  /** One message: what others do, its completion, and otherwise what others do and its release. */
  function DeliverOne(rows: Rows, c: Claimed, a: Attempt, others: Meddling): (Rows, bool) {
    var (completed, counted) := AfterCompletion(others.before(rows), c, a);
    if counted then (completed, true) else (AfterRelease(others.between(completed), c), false)
  }

  /** The first `k` messages of a claimed batch: the rows afterwards, and which claims count as published.
      `publish` is what comes of each, and `others` what the other relays do meanwhile. */
  function Deliver(rows: Rows, claimed: seq<Claimed>, publish: nat -> Attempt, others: nat -> Meddling, k: nat)
    : (Rows, seq<Claimed>)
    requires k <= |claimed|
  {
    if k == 0 then (rows, [])
    else
      var (earlier, settled) := Deliver(rows, claimed, publish, others, k - 1);
      var (after, counted) := DeliverOne(earlier, claimed[k - 1], publish(k - 1), others(k - 1));
      (after, if counted then settled + [claimed[k - 1]] else settled)
  }

  ghost predicate Harmless(others: Meddling, minted: nat, limit: nat) {
    forall rows :: Foreign(rows, others.before(rows), minted, limit) && Foreign(rows, others.between(rows), minted, limit)
  }

  ghost predicate AllHarmless(others: nat -> Meddling, minted: nat, limit: nat) {
    forall k :: Harmless(others(k), minted, limit)
  }

  lemma ForeignIsTransitive(a: Rows, b: Rows, c: Rows, minted: nat, limit: nat)
    requires Foreign(a, b, minted, limit) && Foreign(b, c, minted, limit)
    ensures Foreign(a, c, minted, limit)
  {
  }

  /** Settling one message is as harmless to the others as what others do, and ends its claim. */
  lemma DeliverOneSettles(rows: Rows, c: Claimed, a: Attempt, others: Meddling, minted: nat, limit: nat)
    requires Harmless(others, minted, limit)
    ensures var (rows', counted) := DeliverOne(rows, c, a, others);
            && Foreign(rows, rows', minted, limit) && !Holds(rows', c)
            && (counted <==> a.publication.Acknowledged? && Holds(others.before(rows), c))
            && (counted ==> c.id in rows' && rows'[c.id].state.Published?)
  {
    var met := others.before(rows);
    var (completed, counted) := AfterCompletion(met, c, a);
    assert Foreign(rows, met, minted, limit);
    assert Foreign(met, completed, minted, limit);
    ForeignIsTransitive(rows, met, completed, minted, limit);
    if !counted {
      var found := others.between(completed);
      assert Foreign(completed, found, minted, limit);
      assert Foreign(found, AfterRelease(found, c), minted, limit);
      ForeignIsTransitive(rows, completed, found, minted, limit);
      ForeignIsTransitive(rows, found, AfterRelease(found, c), minted, limit);
    }
  }

  predicate Batch(claimed: seq<Claimed>, minted: nat, limit: nat) {
    |claimed| <= limit && forall i :: 0 <= i < |claimed| ==> claimed[i].claim == minted + i
  }

  predicate CountsPublished(rows: Rows, settled: seq<Claimed>) {
    forall c :: c in settled ==> c.id in rows && rows[c.id].state.Published?
  }

  predicate NoneHeld(rows: Rows, claimed: seq<Claimed>, k: nat)
    requires k <= |claimed|
  {
    forall i :: 0 <= i < k ==> !Holds(rows, claimed[i])
  }

  lemma SettlesOneMore(rows: Rows, earlier: Rows, after: Rows, claimed: seq<Claimed>, settled: seq<Claimed>, k: nat, counted: bool,
                       minted: nat, limit: nat)
    requires k < |claimed| && Batch(claimed, minted, limit)
    requires Foreign(rows, earlier, minted, limit) && NoneHeld(earlier, claimed, k) && CountsPublished(earlier, settled)
    requires Foreign(earlier, after, minted, limit) && !Holds(after, claimed[k])
    requires counted ==> claimed[k].id in after && after[claimed[k].id].state.Published?
    ensures Foreign(rows, after, minted, limit) && NoneHeld(after, claimed, k + 1)
    ensures CountsPublished(after, if counted then settled + [claimed[k]] else settled)
  {
  }

  /** After `k` messages: the claims dealt with are held no more, what was counted is PUBLISHED, and what was
      PUBLISHED before still is. */
  lemma {:induction false} DeliverSettles(rows: Rows, claimed: seq<Claimed>, publish: nat -> Attempt, others: nat -> Meddling,
                                          k: nat, minted: nat, limit: nat)
    requires k <= |claimed| && Batch(claimed, minted, limit) && AllHarmless(others, minted, limit)
    ensures var (rows', settled) := Deliver(rows, claimed, publish, others, k);
            Foreign(rows, rows', minted, limit) && NoneHeld(rows', claimed, k) && CountsPublished(rows', settled)
  {
    if k > 0 {
      var last := k - 1;
      var (earlier, settled) := Deliver(rows, claimed, publish, others, last);
      var (after, counted) := DeliverOne(earlier, claimed[last], publish(last), others(last));
      DeliverSettles(rows, claimed, publish, others, last, minted, limit);
      assert Foreign(earlier, after, minted, limit) && !Holds(after, claimed[last])
             && (counted ==> claimed[last].id in after && after[claimed[last].id].state.Published?) by {
        DeliverOneSettles(earlier, claimed[last], publish(last), others(last), minted, limit);
      }
      SettlesOneMore(rows, earlier, after, claimed, settled, last, counted, minted, limit);
    }
  }

  lemma {:induction false} CountsOnlyEarlier(rows: Rows, claimed: seq<Claimed>, publish: nat -> Attempt,
                                             others: nat -> Meddling, k: nat)
    requires k <= |claimed|
    ensures forall c :: c in Deliver(rows, claimed, publish, others, k).1 ==> c in claimed[..k]
  {
    if k > 0 {
      CountsOnlyEarlier(rows, claimed, publish, others, k - 1);
      assert claimed[..k] == claimed[..k - 1] + [claimed[k - 1]];
    }
  }

  lemma NotCountedYet(rows: Rows, claimed: seq<Claimed>, publish: nat -> Attempt, others: nat -> Meddling, k: nat,
                      minted: nat, limit: nat)
    requires k < |claimed| && Batch(claimed, minted, limit)
    ensures claimed[k] !in Deliver(rows, claimed, publish, others, k).1
  {
    CountsOnlyEarlier(rows, claimed, publish, others, k);
  }

  lemma CountedOne(rows: Rows, c: Claimed, a: Attempt, others: Meddling)
    ensures DeliverOne(rows, c, a, others).1 <==> a.publication.Acknowledged? && Holds(others.before(rows), c)
  {
  }

  /** When the relay comes to complete its `i`-th message, acknowledged, the claim is still held. */
  predicate AcknowledgedAndHeld(rows: Rows, claimed: seq<Claimed>, publish: nat -> Attempt, others: nat -> Meddling, i: nat)
    requires i < |claimed|
  {
    publish(i).publication.Acknowledged? && Holds(others(i).before(Deliver(rows, claimed, publish, others, i).0), claimed[i])
  }

  lemma CountsOneMore(rows: Rows, claimed: seq<Claimed>, publish: nat -> Attempt, others: nat -> Meddling, k: nat)
    requires k < |claimed|
    ensures Deliver(rows, claimed, publish, others, k + 1).1 ==
              Deliver(rows, claimed, publish, others, k).1
              + if AcknowledgedAndHeld(rows, claimed, publish, others, k) then [claimed[k]] else []
  {
    CountedOne(Deliver(rows, claimed, publish, others, k).0, claimed[k], publish(k), others(k));
  }

  /** A message counts as published exactly when the publisher acknowledged it, its completion went through
      and its claim was still held then. */
  lemma {:induction false} CountedIffAcknowledgedAndHeld(rows: Rows, claimed: seq<Claimed>, publish: nat -> Attempt,
                                                         others: nat -> Meddling, k: nat, minted: nat, limit: nat, i: nat)
    requires i < k <= |claimed| && Batch(claimed, minted, limit)
    ensures claimed[i] in Deliver(rows, claimed, publish, others, k).1 <==> AcknowledgedAndHeld(rows, claimed, publish, others, i)
  {
    var last := k - 1;
    CountsOneMore(rows, claimed, publish, others, last);
    if i < last {
      CountedIffAcknowledgedAndHeld(rows, claimed, publish, others, last, minted, limit, i);
      assert claimed[i] != claimed[last];
    } else {
      NotCountedYet(rows, claimed, publish, others, last, minted, limit);
    }
  }

  // ----- A release that raises ----------------------------------------------------------------------------

  /** The message whose release raises another error than a stale claim: the relay goes no further. */
  function BreakOne(rows: Rows, c: Claimed, a: Attempt, others: Meddling): Rows {
    var found := others.between(AfterCompletion(others.before(rows), c, a).0);
    if a.release == ReleaseRaised(true) then AfterRelease(found, c) else found
  }

  predicate BreaksAt(rows: Rows, claimed: seq<Claimed>, publish: nat -> Attempt, others: nat -> Meddling, i: nat)
    requires i < |claimed|
  {
    publish(i).release.ReleaseRaised? && !AcknowledgedAndHeld(rows, claimed, publish, others, i)
  }

  predicate Unbroken(rows: Rows, claimed: seq<Claimed>, publish: nat -> Attempt, others: nat -> Meddling, k: nat)
    requires k <= |claimed|
  {
    forall i :: 0 <= i < k ==> !BreaksAt(rows, claimed, publish, others, i)
  }

  /** How a batch ends: every message dealt with, or the first whose release raises is the last. */
  ghost predicate Ends(rows: Rows, claimed: seq<Claimed>, publish: nat -> Attempt, others: nat -> Meddling,
                       broken: Option<nat>, rows': Rows, settled: seq<Claimed>)
  {
    match broken
    case None =>
      && Unbroken(rows, claimed, publish, others, |claimed|)
      && (rows', settled) == Deliver(rows, claimed, publish, others, |claimed|)
    case Some(k) =>
      && k < |claimed| && BreaksAt(rows, claimed, publish, others, k)
      && Unbroken(rows, claimed, publish, others, k)
      && rows' == BreakOne(Deliver(rows, claimed, publish, others, k).0, claimed[k], publish(k), others(k))
      && settled == Deliver(rows, claimed, publish, others, k).1
  }

  lemma GoesOn(rows: Rows, claimed: seq<Claimed>, publish: nat -> Attempt, others: nat -> Meddling, k: nat,
               before: Rows, settled: seq<Claimed>, after: Rows, counted: bool)
    requires k < |claimed| && Unbroken(rows, claimed, publish, others, k)
    requires (before, settled) == Deliver(rows, claimed, publish, others, k)
    requires (after, counted) == DeliverOne(before, claimed[k], publish(k), others(k))
    requires counted || !publish(k).release.ReleaseRaised?
    ensures Unbroken(rows, claimed, publish, others, k + 1)
    ensures (after, if counted then settled + [claimed[k]] else settled) == Deliver(rows, claimed, publish, others, k + 1)
  {
    CountedOne(before, claimed[k], publish(k), others(k));
  }

  lemma Breaks(rows: Rows, claimed: seq<Claimed>, publish: nat -> Attempt, others: nat -> Meddling, k: nat,
               before: Rows, settled: seq<Claimed>)
    requires k < |claimed| && Unbroken(rows, claimed, publish, others, k)
    requires (before, settled) == Deliver(rows, claimed, publish, others, k)
    requires !DeliverOne(before, claimed[k], publish(k), others(k)).1 && publish(k).release.ReleaseRaised?
    ensures Ends(rows, claimed, publish, others, Some(k), BreakOne(before, claimed[k], publish(k), others(k)), settled)
  {
    CountedOne(before, claimed[k], publish(k), others(k));
  }

  lemma BreakOneIsForeign(rows: Rows, c: Claimed, a: Attempt, others: Meddling, minted: nat, limit: nat)
    requires Harmless(others, minted, limit)
    ensures Foreign(rows, BreakOne(rows, c, a, others), minted, limit)
  {
    var met := others.before(rows);
    var completed := AfterCompletion(met, c, a).0;
    assert Foreign(rows, met, minted, limit) && Foreign(met, completed, minted, limit);
    ForeignIsTransitive(rows, met, completed, minted, limit);
    var found := others.between(completed);
    assert Foreign(completed, found, minted, limit) && Foreign(found, AfterRelease(found, c), minted, limit);
    ForeignIsTransitive(rows, completed, found, minted, limit);
    ForeignIsTransitive(rows, found, AfterRelease(found, c), minted, limit);
  }

  lemma ForeignKeepsSettled(rows: Rows, rows': Rows, claimed: seq<Claimed>, settled: seq<Claimed>, k: nat, minted: nat, limit: nat)
    requires k <= |claimed| && Batch(claimed, minted, limit) && Foreign(rows, rows', minted, limit)
    requires NoneHeld(rows, claimed, k) && CountsPublished(rows, settled)
    ensures NoneHeld(rows', claimed, k) && CountsPublished(rows', settled)
  {
  }

  /** How far a batch got. */
  function Dealt(claimed: seq<Claimed>, broken: Option<nat>): nat {
    if broken.None? then |claimed| else broken.value
  }

  /** Of the messages dealt with no claim is held, and all counted as published are PUBLISHED. */
  lemma EndsSettled(rows: Rows, claimed: seq<Claimed>, publish: nat -> Attempt, others: nat -> Meddling,
                    broken: Option<nat>, rows': Rows, settled: seq<Claimed>, minted: nat, limit: nat)
    requires Ends(rows, claimed, publish, others, broken, rows', settled)
    requires Batch(claimed, minted, limit) && AllHarmless(others, minted, limit)
    ensures NoneHeld(rows', claimed, Dealt(claimed, broken)) && CountsPublished(rows', settled)
  {
    var k := Dealt(claimed, broken);
    DeliverSettles(rows, claimed, publish, others, k, minted, limit);
    if broken.Some? {
      var earlier := Deliver(rows, claimed, publish, others, k).0;
      assert Harmless(others(k), minted, limit);
      BreakOneIsForeign(earlier, claimed[k], publish(k), others(k), minted, limit);
      ForeignKeepsSettled(earlier, rows', claimed, settled, k, minted, limit);
    }
  }

  ghost predicate Alone(others: nat -> Meddling) {
    forall k, rows :: others(k).before(rows) == rows && others(k).between(rows) == rows
  }

  lemma DeliverOneSpares(rows: Rows, c: Claimed, a: Attempt, others: Meddling, d: Claimed)
    requires (forall r :: others.before(r) == r) && (forall r :: others.between(r) == r) && d.id != c.id
    ensures Holds(DeliverOne(rows, c, a, others).0, d) <==> Holds(rows, d)
    ensures Holds(BreakOne(rows, c, a, others), d) <==> Holds(rows, d)
  {
  }

  lemma {:induction false} DeliverSparesLater(rows: Rows, claimed: seq<Claimed>, publish: nat -> Attempt, others: nat -> Meddling,
                                              k: nat, j: nat)
    requires k <= j < |claimed| && Alone(others) && DistinctMessages(claimed)
    ensures Holds(Deliver(rows, claimed, publish, others, k).0, claimed[j]) <==> Holds(rows, claimed[j])
  {
    if k > 0 {
      DeliverSparesLater(rows, claimed, publish, others, k - 1, j);
      DeliverOneSpares(Deliver(rows, claimed, publish, others, k - 1).0, claimed[k - 1], publish(k - 1), others(k - 1), claimed[j]);
    }
  }

  /** What a release that raises leaves held, left alone: every later claim of the batch, and its own if and
      only if neither the completion nor the release took effect. They can be taken again once the lease is
      over, and not before. */
  lemma BrokenBatchLeavesHeld(rows: Rows, claimed: seq<Claimed>, publish: nat -> Attempt, others: nat -> Meddling,
                              k: nat, rows': Rows, settled: seq<Claimed>)
    requires Ends(rows, claimed, publish, others, Some(k), rows', settled) && Alone(others) && DistinctMessages(claimed)
    requires AllHeld(rows, claimed)
    ensures forall j :: k < j < |claimed| ==> Holds(rows', claimed[j])
    ensures Holds(rows', claimed[k]) <==>
              publish(k).publication != CompletionRaised(true) && publish(k).release == ReleaseRaised(false)
    ensures forall j, now :: k <= j < |claimed| && Holds(rows', claimed[j]) ==>
              (Eligible(rows'[claimed[j].id], now) <==>
                 rows'[claimed[j].id].lease.Some? && rows'[claimed[j].id].lease.value <= now)
  {
    var earlier := Deliver(rows, claimed, publish, others, k).0;
    forall j | k < j < |claimed|
      ensures Holds(rows', claimed[j])
    {
      DeliverSparesLater(rows, claimed, publish, others, k, j);
      DeliverOneSpares(earlier, claimed[k], publish(k), others(k), claimed[j]);
    }
    DeliverSparesLater(rows, claimed, publish, others, k, k);
  }

  /** `PublishBatchResult` */
  datatype Counts = Counts(claimed: nat, published: nat, failed: nat)

  predicate Tallies(result: Option<Counts>, claimed: seq<Claimed>, settled: seq<Claimed>, broken: Option<nat>) {
    if broken.Some? then result.None?
    else
      && result.Some? && result.value.claimed == |claimed| && result.value.published == |settled|
      && result.value.published + result.value.failed == |claimed|
  }

  class Relay {
    var rows: map<MessageId, Message>
    var minted: nat

    constructor (rows: map<MessageId, Message>)
      ensures this.rows == rows && minted == 0
    {
      this.rows := rows;
      minted := 0;
    }

    /** Every selected row gets a claim id of its own, never used before; unless the payload of one of them
        cannot be parsed, which undoes the whole claim. */
    method ClaimBatch(order: seq<MessageId>, locked: set<MessageId>, limit: nat, now: Time, leaseSeconds: int,
                      parses: MessageId -> bool)
      returns (claimed: Option<seq<Claimed>>)
      requires forall i, j :: 0 <= i < j < |order| ==> order[i] != order[j]
      modifies this
      ensures var chosen := Selected(old(rows), order, locked, limit, now);
              match claimed
              case None => rows == old(rows) && minted >= old(minted) && exists i :: 0 <= i < |chosen| && !parses(chosen[i])
              case Some(batch) =>
                && (forall i :: 0 <= i < |chosen| ==> parses(chosen[i]))
                && Taken(batch, chosen, old(minted)) && |batch| <= limit && minted == old(minted) + |batch|
                && AllHeld(rows, batch) && DistinctMessages(batch)
                && rows == ClaimAll(old(rows), chosen, old(minted), now, leaseSeconds)
    {
      SelectedFromOrder(rows, order, locked, limit, now);
      SelectedIsDistinct(rows, order, locked, limit, now);
      var chosen := Selected(rows, order, locked, limit, now);
      var before := rows;
      var batch: seq<Claimed> := [];
      for k := 0 to |chosen|
        invariant |batch| == k && minted == old(minted) + k
        invariant forall i :: 0 <= i < k ==> batch[i] == Claimed(chosen[i], old(minted) + i)
        invariant forall i :: 0 <= i < k ==> parses(chosen[i])
        invariant rows == ClaimAll(old(rows), chosen[..k], old(minted), now, leaseSeconds)
      {
        var id := chosen[k];
        ClaimAllOneMore(old(rows), chosen, old(minted), now, leaseSeconds, k);
        rows := rows[id := ClaimRow(rows[id], minted, now, leaseSeconds)];
        batch := batch + [Claimed(id, minted)];
        minted := minted + 1;
        if !parses(id) {
          rows := before;
          return None;
        }
      }
      assert chosen[..|chosen|] == chosen;
      TakenIsHeld(old(rows), chosen, old(minted), now, leaseSeconds, batch);
      claimed := Some(batch);
    }

    method CompleteClaim(c: Claimed) returns (ok: bool)
      modifies this`rows
      ensures ok == Complete(old(rows), c).Some?
      ensures rows == if ok then Complete(old(rows), c).value else old(rows)
      ensures Settles(old(rows), rows, c, Published, ok)
    {
      ok := Holds(rows, c);
      if ok {
        rows := rows[c.id := rows[c.id].(state := Published, claim := None, lease := None)];
      }
    }

    method ReleaseClaim(c: Claimed) returns (ok: bool)
      modifies this`rows
      ensures ok == Release(old(rows), c).Some?
      ensures rows == if ok then Release(old(rows), c).value else old(rows)
      ensures Settles(old(rows), rows, c, Pending, ok)
    {
      ok := Holds(rows, c);
      if ok {
        rows := rows[c.id := rows[c.id].(state := Pending, claim := None, lease := None)];
      }
    }

    /** Claim a batch, then publish and settle one message after another with no lock held. Whatever others
        do meanwhile, no claim of the messages dealt with is left held, a message counted as published is
        PUBLISHED and was acknowledged and completed under its claim, and any other dealt with counts as
        failed. It raises if a payload cannot be parsed, with nothing claimed, or if a release raises, and
        then the rest of the batch stays as claimed. */
    method PublishBatch(order: seq<MessageId>, locked: set<MessageId>, limit: nat, now: Time, leaseSeconds: int,
                        parses: MessageId -> bool, publish: nat -> Attempt, others: nat -> Meddling)
      returns (result: Option<Counts>, ghost claimed: seq<Claimed>, ghost settled: seq<Claimed>, ghost broken: Option<nat>)
      requires forall i, j :: 0 <= i < j < |order| ==> order[i] != order[j]
      requires AllHarmless(others, minted, limit)
      modifies this
      ensures var chosen := Selected(old(rows), order, locked, limit, now);
              if exists i :: 0 <= i < |chosen| && !parses(chosen[i]) then result.None? && rows == old(rows)
              else
                && Taken(claimed, chosen, old(minted)) && DistinctMessages(claimed)
                && Ends(ClaimAll(old(rows), chosen, old(minted), now, leaseSeconds), claimed, publish, others, broken, rows, settled)
                && NoneHeld(rows, claimed, Dealt(claimed, broken)) && CountsPublished(rows, settled)
                && Tallies(result, claimed, settled, broken)
    {
      settled, broken := [], None;
      var batch := ClaimBatch(order, locked, limit, now, leaseSeconds, parses);
      if batch.None? {
        return None, [], settled, broken;
      }
      claimed := batch.value;
      ghost var start := rows;
      result, settled, broken := PublishAll(batch.value, publish, others);
      EndsSettled(start, claimed, publish, others, broken, rows, settled, old(minted), limit);
    }

    method PublishAll(claimed: seq<Claimed>, publish: nat -> Attempt, others: nat -> Meddling)
      returns (result: Option<Counts>, ghost settled: seq<Claimed>, ghost broken: Option<nat>)
      modifies this`rows
      ensures Ends(old(rows), claimed, publish, others, broken, rows, settled)
      ensures Tallies(result, claimed, settled, broken)
    {
      settled, broken := [], None;
      var published, failed := 0, 0;
      for k := 0 to |claimed|
        invariant k == published + failed && published == |settled|
        invariant (rows, settled) == Deliver(old(rows), claimed, publish, others, k)
        invariant Unbroken(old(rows), claimed, publish, others, k)
      {
        ghost var before, was := rows, settled;
        var reply := PublishOne(claimed[k], publish(k), others(k));
        if reply.None? {
          Breaks(old(rows), claimed, publish, others, k, before, settled);
          return None, settled, Some(k);
        }
        GoesOn(old(rows), claimed, publish, others, k, before, was, rows, reply.value);
        if reply.value {
          published := published + 1;
          settled := settled + [claimed[k]];
        } else {
          failed := failed + 1;
        }
      }
      result := Some(Counts(|claimed|, published, failed));
    }

    /** Whether the message counts as published; `None` if its release raised. */
    method PublishOne(c: Claimed, attempt: Attempt, others: Meddling) returns (counted: Option<bool>)
      modifies this`rows
      ensures var (after, published) := DeliverOne(old(rows), c, attempt, others);
              if !published && attempt.release.ReleaseRaised? then counted.None? && rows == BreakOne(old(rows), c, attempt, others)
              else counted == Some(published) && rows == after
    {
      rows := others.before(rows);
      var completed := false;
      if attempt.publication.Acknowledged? || attempt.publication == CompletionRaised(true) {
        completed := CompleteClaim(c);
      }
      if completed && attempt.publication.Acknowledged? {
        return Some(true);
      }
      rows := others.between(rows);
      if attempt.release != ReleaseRaised(false) {
        var released := ReleaseClaim(c);
      }
      counted := if attempt.release.Answered? then Some(false) else None;
    }
  }
}
