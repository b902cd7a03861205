/** The Gmail history cursor of one connector (src/eva_ai/connectors/repository.py): moved only by the
    holder of the sync lease, and never backwards. */
module SyncCursor {
  import opened Wrappers

  type Time = int

  datatype Status = Connecting | Active | ReauthorizationRequired | Disabled | InError

  datatype Connector = Connector(status: Status, hasSecret: bool, connectedAt: Option<Time>)

  /** `historyId` is stored as text; the empty text counts as absent where Python asks for its truth. */
  datatype Sync = Sync(historyId: Option<string>, claim: Option<nat>, lease: Option<Time>, lastNotification: Option<Time>)

  datatype State = State(connector: Connector, sync: Sync)

  datatype Error = MissingSecret | MissingBoundary | NotNumeric

  // ----- Decimal text -------------------------------------------------------------------------------------

  /** `isdecimal()`, for the ASCII digits Gmail uses. */
  predicate Decimal(s: string) {
    s != "" && forall i :: 0 <= i < |s| ==> '0' <= s[i] <= '9'
  }

  function Value(s: string): nat
    requires forall i :: 0 <= i < |s| ==> '0' <= s[i] <= '9'
  {
    if s == "" then 0 else 10 * Value(s[..|s| - 1]) + (s[|s| - 1] as int - '0' as int)
  }

  // ----- The transactions as functions ----------------------------------------------------------------------

  function ReserveConnector(s: State): State {
    if s.connector.status.InError? then s.(connector := s.connector.(status := Connecting)) else s
  }

  /** `prepare_initial_watch`: the first boundary stays. */
  function PrepareInitialWatch(s: State, historyId: string, at: Time): Result<State, Error> {
    if !s.connector.hasSecret then Failure(MissingSecret)
    else
      var connectedAt := if s.connector.connectedAt.None? then Some(at) else s.connector.connectedAt;
      var cursor := if s.sync.historyId.None? || s.sync.historyId.value == "" then Some(historyId) else s.sync.historyId;
      Success(State(s.connector.(connectedAt := connectedAt), s.sync.(historyId := cursor)))
  }

  function ActivateInitialWatch(s: State): Result<State, Error> {
    if s.connector.status.Disabled? || s.connector.status.InError? then Success(s)
    else if !s.connector.hasSecret then Failure(MissingSecret)
    else if s.connector.connectedAt.None? || s.sync.historyId.None? then Failure(MissingBoundary)
    else Success(s.(connector := s.connector.(status := Active)))
  }

  function RecordNotification(s: State, at: Time): State {
    if s.sync.lastNotification.None? || s.sync.lastNotification.value < at
    then s.(sync := s.sync.(lastNotification := Some(at)))
    else s
  }

  function ClaimSync(s: State, now: Time, leaseSeconds: int, claimId: nat): (State, bool) {
    if s.connector.status.Active? && (s.sync.claim.None? || s.sync.lease.None? || s.sync.lease.value <= now)
    then (s.(sync := s.sync.(claim := Some(claimId), lease := Some(now + leaseSeconds))), true)
    else (s, false)
  }

  /** `complete_sync` and `complete_recovery`: casting a stored cursor that is not a number is an error. */
  function MoveCursor(s: State, claimId: nat, historyId: string): Result<(State, bool), Error> {
    if !Decimal(historyId) || s.sync.claim != Some(claimId) then Success((s, false))
    else if s.sync.historyId.Some? && !Decimal(s.sync.historyId.value) then Failure(NotNumeric)
    else if s.sync.historyId.Some? && Value(s.sync.historyId.value) > Value(historyId) then Success((s, false))
    else Success((s.(sync := s.sync.(historyId := Some(historyId), claim := None, lease := None)), true))
  }

  /** `release_sync` and `record_watch_renewal`: neither touches the cursor. */
  function ReleaseSync(s: State, claimId: nat): (State, bool) {
    if s.sync.claim == Some(claimId) then (s.(sync := s.sync.(claim := None, lease := None)), true) else (s, false)
  }

  /** `mark_reauthorization_required` and `mark_error`: the lease is cleared whoever holds it. */
  function Mark(s: State, status: Status): State {
    State(s.connector.(status := status), s.sync.(claim := None, lease := None))
  }

  // ----- When a completion goes through ---------------------------------------------------------------------

  /** The claim is current, the text a number, and no larger one is stored. */
  predicate MayMove(s: Sync, claimId: nat, historyId: string) {
    && Decimal(historyId) && s.claim == Some(claimId)
    && (s.historyId.Some? ==> Decimal(s.historyId.value) && Value(s.historyId.value) <= Value(historyId))
  }

  /** The comparison itself raises: what is stored is not a number. */
  predicate Unreadable(s: Sync, claimId: nat, historyId: string) {
    Decimal(historyId) && s.claim == Some(claimId) && s.historyId.Some? && !Decimal(s.historyId.value)
  }

  /** A completion answers true exactly then, and stores exactly the text given; any other changes nothing. */
  lemma CompletionsMoveTheCursor(s: State, claimId: nat, historyId: string)
    ensures var r := MoveCursor(s, claimId, historyId);
            && (r.Failure? <==> Unreadable(s.sync, claimId, historyId))
            && (r.Success? ==> (r.value.1 <==> MayMove(s.sync, claimId, historyId)))
            && (r.Success? && r.value.1 ==>
                  && r.value.0.sync == Sync(Some(historyId), None, None, s.sync.lastNotification)
                  && r.value.0.connector == s.connector)
            && (r.Success? && !r.value.1 ==> r.value.0 == s)
  {
  }

  /** `a` comes before `b` at the first digit where they differ. */
  predicate Precedes(a: string, b: string)
    requires |a| == |b|
  {
    exists k :: 0 <= k < |a| && a[..k] == b[..k] && a[k] < b[k]
  }

  lemma PrecedesLast(a: string, b: string)
    requires |a| == |b| && a != ""
    ensures var m := |a| - 1;
            Precedes(a, b) <==> Precedes(a[..m], b[..m]) || (a[..m] == b[..m] && a[m] < b[m])
  {
    var m := |a| - 1;
    if Precedes(a, b) {
      var k :| 0 <= k < |a| && a[..k] == b[..k] && a[k] < b[k];
      assert k < m ==> a[..m][..k] == a[..k] && b[..m][..k] == b[..k] && a[..m][k] < b[..m][k];
    }
    if Precedes(a[..m], b[..m]) {
      var k :| 0 <= k < m && a[..m][..k] == b[..m][..k] && a[..m][k] < b[..m][k];
      assert a[..k] == a[..m][..k] && b[..k] == b[..m][..k];
    }
  }

  lemma LastDigitWeighsLeast(x: nat, y: nat, d: nat, e: nat)
    requires d <= 9 && e <= 9
    ensures 10 * x + d < 10 * y + e <==> x < y || (x == y && d < e)
    ensures 10 * x + d == 10 * y + e <==> x == y && d == e
  {
  }

  lemma LastDigitDecides(a: string, b: string, x: nat, y: nat)
    requires Decimal(a) && Decimal(b) && |a| == |b|
    requires x == Value(a[..|a| - 1]) && y == Value(b[..|b| - 1])
    ensures var m := |a| - 1;
            && (Value(a) < Value(b) <==> x < y || (x == y && a[m] < b[m]))
            && (Value(a) == Value(b) <==> x == y && a[m] == b[m])
  {
    var m := |a| - 1;
    LastDigitWeighsLeast(x, y, a[m] as int - '0' as int, b[m] as int - '0' as int);
  }

  /** Cursors are compared as numbers: of two texts of one length by the first digit that differs ... */
  lemma {:induction false} SameLengthOrder(a: string, b: string)
    requires Decimal(a) && Decimal(b) && |a| == |b|
    ensures Value(a) < Value(b) <==> Precedes(a, b)
    ensures Value(a) == Value(b) <==> a == b
  {
    var m := |a| - 1;
    LastDigitDecides(a, b, Value(a[..m]), Value(b[..m]));
    PrecedesLast(a, b);
    assert a == b <==> a[..m] == b[..m] && a[m] == b[m] by {
      assert a == a[..m] + [a[m]] && b == b[..m] + [b[m]];
    }
    if m > 0 {
      SameLengthOrder(a[..m], b[..m]);
    } else {
      assert !Precedes(a[..m], b[..m]) && a[..m] == "" == b[..m];
    }
  }

  /** ... and otherwise, leading zeros apart, by length. */
  lemma {:induction false} ShorterIsSmaller(a: string, b: string)
    requires Decimal(a) && Decimal(b) && |a| < |b| && b[0] != '0'
    ensures Value(a) < Value(b)
  {
    var a', b' := a[..|a| - 1], b[..|b| - 1];
    if a' == "" {
      NoLeadingZeroIsPositive(b');
    } else {
      ShorterIsSmaller(a', b');
    }
  }

  lemma {:induction false} NoLeadingZeroIsPositive(s: string)
    requires Decimal(s) && s[0] != '0'
    ensures Value(s) > 0
  {
    if |s| > 1 {
      NoLeadingZeroIsPositive(s[..|s| - 1]);
    }
  }

  // ----- The connector's own life -----------------------------------------------------------------------------

  /** A connector becomes, or stays, active by an activation exactly when it is not switched off, has a secret and
      has the boundary its first watch set; a failed one is reserved anew as connecting; and neither does more. */
  lemma ActivationNeedsBoundary(s: State)
    ensures var r, c := ActivateInitialWatch(s), s.connector;
            && (r.Success? && r.value.connector.status.Active? <==>
                  (c.status.Connecting? || c.status.ReauthorizationRequired? || c.status.Active?)
                  && c.hasSecret && c.connectedAt.Some? && s.sync.historyId.Some?)
            && (r.Success? ==>
                  && r.value.sync == s.sync && r.value.connector.(status := c.status) == c
                  && (r.value.connector.status.Active? || r.value == s))
    ensures ReserveConnector(s).sync == s.sync && !ReserveConnector(s).connector.status.InError?
    ensures ReserveConnector(s).connector == s.connector || ReserveConnector(s).connector == s.connector.(status := Connecting)
    ensures s.connector.status.InError? || ReserveConnector(s) == s
  {
  }

  /** The latest observation is kept, whichever order they come in. */
  lemma NotificationsKeepTheLatest(s: State, at: Time, later: Time)
    ensures RecordNotification(s, at).connector == s.connector
    ensures RecordNotification(s, at).sync == s.sync.(lastNotification := RecordNotification(s, at).sync.lastNotification)
    ensures var kept := RecordNotification(s, at).sync.lastNotification;
            && kept.Some? && kept.value >= at && (kept == Some(at) || kept == s.sync.lastNotification)
            && (s.sync.lastNotification.Some? ==> s.sync.lastNotification.value <= kept.value)
    ensures RecordNotification(RecordNotification(s, at), later) == RecordNotification(RecordNotification(s, later), at)
  {
  }

  // ----- The repository -----------------------------------------------------------------------------------------

  class ConnectorRepository {
    var state: State
    var minted: nat

    constructor (hasSecret: bool)
      ensures state == State(Connector(Connecting, hasSecret, None), Sync(None, None, None, None)) && minted == 0
    {
      state := State(Connector(Connecting, hasSecret, None), Sync(None, None, None, None));
      minted := 0;
    }

    method InitialWatch(historyId: string, at: Time) returns (ok: bool)
      modifies this`state
      ensures ok == PrepareInitialWatch(old(state), historyId, at).Success?
      ensures state == if ok then PrepareInitialWatch(old(state), historyId, at).value else old(state)
      ensures ok == old(state).connector.hasSecret && (!ok ==> state == old(state))
      ensures ok && (old(state).sync.historyId.None? || old(state).sync.historyId.value == "") ==> state.sync.historyId == Some(historyId)
      ensures old(state).sync.historyId.Some? && old(state).sync.historyId.value != "" ==> state.sync.historyId == old(state).sync.historyId
      ensures ok ==> state.connector.connectedAt.Some? && (old(state).connector.connectedAt.None? ==> state.connector.connectedAt == Some(at))
    {
      if !state.connector.hasSecret {
        return false;
      }
      if state.connector.connectedAt.None? {
        state := state.(connector := state.connector.(connectedAt := Some(at)));
      }
      if state.sync.historyId.None? || state.sync.historyId.value == "" {
        state := state.(sync := state.sync.(historyId := Some(historyId)));
      }
      ok := true;
    }

    /** Every claim gets an id never handed out before. */
    method Claim(now: Time, leaseSeconds: int) returns (claim: Option<nat>)
      modifies this
      ensures minted == old(minted) + 1
      ensures (state, claim.Some?) == ClaimSync(old(state), now, leaseSeconds, old(minted))
      ensures claim.Some? ==> claim.value == old(minted)
      ensures claim.Some? <==> old(state).connector.status.Active?
                               && (old(state).sync.claim.None? || old(state).sync.lease.None? || old(state).sync.lease.value <= now)
      ensures claim.Some? ==> state.sync.claim == claim && state.sync.lease == Some(now + leaseSeconds)
      ensures state.sync.historyId == old(state).sync.historyId && state.connector == old(state).connector
    {
      var id := minted;
      minted := minted + 1;
      if !state.connector.status.Active? {
        return None;
      }
      if state.sync.claim.Some? && state.sync.lease.Some? && state.sync.lease.value > now {
        return None;
      }
      state := state.(sync := state.sync.(claim := Some(id), lease := Some(now + leaseSeconds)));
      claim := Some(id);
    }

    method CompleteSync(claimId: nat, historyId: string) returns (r: Result<bool, Error>)
      modifies this`state
      ensures match MoveCursor(old(state), claimId, historyId)
              case Success((s, moved)) => r == Success(moved) && state == s
              case Failure(e) => r == Failure(e) && state == old(state)
      ensures r == Success(true) <==> MayMove(old(state).sync, claimId, historyId)
      ensures r == Success(true) ==>
                state.sync.historyId == Some(historyId) && state.sync.claim.None? && state.sync.lease.None?
                && state.connector == old(state).connector && state.sync.lastNotification == old(state).sync.lastNotification
      ensures r != Success(true) ==> state == old(state)
      ensures r.Failure? <==> Unreadable(old(state).sync, claimId, historyId)
    {
      if !Decimal(historyId) || state.sync.claim != Some(claimId) {
        return Success(false);
      }
      match state.sync.historyId {
        case None =>
        case Some(stored) =>
          if !Decimal(stored) {
            return Failure(NotNumeric);
          }
          if Value(stored) > Value(historyId) {
            return Success(false);
          }
      }
      state := state.(sync := state.sync.(historyId := Some(historyId), claim := None, lease := None));
      r := Success(true);
    }

    method Release(claimId: nat) returns (updated: bool)
      modifies this`state
      ensures (state, updated) == ReleaseSync(old(state), claimId)
      ensures updated == (old(state).sync.claim == Some(claimId)) && (!updated ==> state == old(state))
      ensures updated ==> state.sync.claim.None? && state.sync.lease.None?
      ensures state.sync.historyId == old(state).sync.historyId && state.connector == old(state).connector
    {
      updated := state.sync.claim == Some(claimId);
      if updated {
        state := state.(sync := state.sync.(claim := None, lease := None));
      }
    }

    /** Connector first, then the lease, in one transaction. */
    method MarkFailed(status: Status)
      modifies this`state
      ensures state == Mark(old(state), status)
      ensures state.connector.status == status && state.sync.claim.None? && state.sync.lease.None?
      ensures state.sync.historyId == old(state).sync.historyId
    {
      state := state.(connector := state.connector.(status := status));
      state := state.(sync := state.sync.(claim := None, lease := None));
    }
  }

  // ----- Every interleaving --------------------------------------------------------------------------------------

  datatype Event =
    | Reserve
    | AttachSecret
    | Prepare(historyId: string, at: Time)
    | Activate
    | Notify(at: Time)
    | Claim(now: Time, leaseSeconds: int)
    | Move(claimId: nat, historyId: string)
    | Release(claimId: nat)
    | MarkAs(status: Status)

  /** `minted` counts the claim ids handed out. */
  datatype World = World(state: State, minted: nat)

  /** A transaction that raises leaves things as they were. */
  function Or<T>(r: Result<T, Error>, current: T): T {
    if r.Success? then r.value else current
  }

  function Step(w: World, ev: Event): World {
    match ev
    case Reserve => w.(state := ReserveConnector(w.state))
    case AttachSecret => w.(state := w.state.(connector := w.state.connector.(hasSecret := true)))
    case Prepare(historyId, at) => w.(state := Or(PrepareInitialWatch(w.state, historyId, at), w.state))
    case Activate => w.(state := Or(ActivateInitialWatch(w.state), w.state))
    case Notify(at) => w.(state := RecordNotification(w.state, at))
    case Claim(now, leaseSeconds) => World(ClaimSync(w.state, now, leaseSeconds, w.minted).0, w.minted + 1)
    case Move(claimId, historyId) => w.(state := Or(MoveCursor(w.state, claimId, historyId), (w.state, false)).0)
    case Release(claimId) => w.(state := ReleaseSync(w.state, claimId).0)
    case MarkAs(status) => w.(state := Mark(w.state, status))
  }

  function Run(w: World, events: seq<Event>): World
    decreases |events|
  {
    if events == [] then w else Run(Step(w, events[0]), events[1..])
  }

  /** The cursor did not go back, an established boundary did not change, and observations only grew. */
  predicate Forward(s: State, s': State) {
    && (s.sync.historyId.Some? && s.sync.historyId.value != "" ==>
          && s'.sync.historyId.Some? && s'.sync.historyId.value != ""
          && (Decimal(s.sync.historyId.value) ==>
                Decimal(s'.sync.historyId.value) && Value(s.sync.historyId.value) <= Value(s'.sync.historyId.value))
          && (!Decimal(s.sync.historyId.value) ==> s'.sync.historyId == s.sync.historyId))
    && (s.connector.connectedAt.Some? ==> s'.connector.connectedAt == s.connector.connectedAt)
    && (s.sync.lastNotification.Some? ==>
          s'.sync.lastNotification.Some? && s.sync.lastNotification.value <= s'.sync.lastNotification.value)
  }

  lemma StepIsForward(w: World, ev: Event)
    ensures Forward(w.state, Step(w, ev).state) && w.minted <= Step(w, ev).minted
  {
  }

  /** Over any interleaving of syncs, recoveries, renewals, error marks and repeated bootstraps the numeric
      cursor never decreases and the first cutover boundary is never replaced. */
  lemma {:induction false} CursorNeverGoesBack(w: World, events: seq<Event>)
    ensures Forward(w.state, Run(w, events).state)
    decreases |events|
  {
    if events != [] {
      StepIsForward(w, events[0]);
      CursorNeverGoesBack(Step(w, events[0]), events[1..]);
    }
  }

  /** What a completion stored under its claim is never undercut: in every later world the cursor is a number at
      least as large. */
  lemma CompletedCursorStays(w: World, claimId: nat, historyId: string, events: seq<Event>)
    requires MayMove(w.state.sync, claimId, historyId)
    ensures Step(w, Move(claimId, historyId)).state.sync.historyId == Some(historyId)
    ensures var sync := Run(Step(w, Move(claimId, historyId)), events).state.sync;
            sync.historyId.Some? && Decimal(sync.historyId.value) && Value(historyId) <= Value(sync.historyId.value)
  {
    CursorNeverGoesBack(Step(w, Move(claimId, historyId)), events);
  }

  /** The lease of `claimId` was taken over or cleared: it is not current, and not one to be handed out. */
  predicate Lost(w: World, claimId: nat) {
    claimId < w.minted && w.state.sync.claim != Some(claimId)
  }

  /** A lease once lost stays lost, and its holder can neither move the cursor nor touch the lease. */
  lemma {:induction false} LostLeaseIsPowerless(w: World, events: seq<Event>, claimId: nat, historyId: string)
    requires Lost(w, claimId)
    ensures var w' := Run(w, events);
            && Lost(w', claimId)
            && Step(w', Move(claimId, historyId)) == w' && Step(w', Release(claimId)) == w'
            && MoveCursor(w'.state, claimId, historyId) == Success((w'.state, false))
    decreases |events|
  {
    if events != [] {
      LostLeaseIsPowerless(Step(w, events[0]), events[1..], claimId, historyId);
    }
  }

  /** The cursor changes only by its holder's completion, or when a bootstrap fills an empty one. */
  lemma OnlyTheHolderMovesTheCursor(w: World, ev: Event)
    requires Step(w, ev).state.sync.historyId != w.state.sync.historyId
    ensures (ev.Move? && w.state.sync.claim == Some(ev.claimId) && Step(w, ev).state.sync.claim.None?)
            || (ev.Prepare? && (w.state.sync.historyId.None? || w.state.sync.historyId == Some("")))
  {
  }
}
