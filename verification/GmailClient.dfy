/** One call of the Gmail client and its retries (src/eva_ai/integrations/gmail/api.py). The world's provider
    calls are these calls. */
module GmailClient {
  /** What one request did. A token refresh happens before Gmail accepts anything; a transport or server
      error leaves open whether Gmail applied the request; other HTTP errors mean it did not; and an answer
      the client cannot read is an error about something Gmail did. */
  datatype Try =
    | Answered
    | Unreadable
    | InvalidGrant
    | RefreshFailed
    | Transient(applied: bool)
    | Rejected

  datatype Outcome = Response | AuthorizationRevoked | ProviderError

  predicate Applies(t: Try) {
    t.Answered? || t.Unreadable? || (t.Transient? && t.applied)
  }

  function Retryable(t: Try, retryTransient: bool): bool {
    t.RefreshFailed? || (retryTransient && t.Transient?)
  }

  function OutcomeOf(t: Try): Outcome {
    match t
    case Answered => Response
    case InvalidGrant => AuthorizationRevoked
    case _ => ProviderError
  }

  /** How many requests of `tries` Gmail applied. */
  function Applied(tries: seq<Try>): nat {
    if tries == [] then 0 else Applied(tries[..|tries| - 1]) + if Applies(tries[|tries| - 1]) then 1 else 0
  }

  lemma {:induction false} NothingApplied(tries: seq<Try>)
    requires forall i :: 0 <= i < |tries| ==> !Applies(tries[i])
    ensures Applied(tries) == 0
  {
    if tries != [] {
      NothingApplied(tries[..|tries| - 1]);
    }
  }

  lemma {:induction false} SomethingApplied(tries: seq<Try>, i: nat)
    requires i < |tries| && Applies(tries[i])
    ensures Applied(tries) >= 1
  {
    if i < |tries| - 1 {
      SomethingApplied(tries[..|tries| - 1], i);
    }
  }

  lemma {:induction false} AppliedIsBounded(tries: seq<Try>)
    ensures Applied(tries) <= |tries|
  {
    if tries != [] {
      AppliedIsBounded(tries[..|tries| - 1]);
    }
  }

  lemma {:induction false} AllApplied(tries: seq<Try>)
    requires forall i :: 0 <= i < |tries| ==> Applies(tries[i])
    ensures Applied(tries) == |tries|
  {
    if tries != [] {
      AllApplied(tries[..|tries| - 1]);
    }
  }

  lemma {:induction false} AppliedOnceIfNeverTwice(tries: seq<Try>)
    requires forall i, j :: 0 <= i < j < |tries| ==> !Applies(tries[i]) || !Applies(tries[j])
    ensures Applied(tries) <= 1
  {
    if tries != [] {
      if Applies(tries[|tries| - 1]) {
        NothingApplied(tries[..|tries| - 1]);
      } else {
        AppliedOnceIfNeverTwice(tries[..|tries| - 1]);
      }
    }
  }

  /** Nothing was applied exactly when no request was answered, readably or not, nor failed after taking effect. */
  lemma NothingAppliedIff(tries: seq<Try>)
    ensures Applied(tries) == 0 <==>
              forall t :: t in tries ==> t.InvalidGrant? || t.RefreshFailed? || t.Rejected? || t == Transient(false)
  {
    if i :| 0 <= i < |tries| && Applies(tries[i]) {
      assert tries[i] in tries;
      SomethingApplied(tries, i);
    } else {
      NothingApplied(tries);
    }
  }

  // ----- The retry loop ---------------------------------------------------------------------------------

  /** The requests made from attempt `k` on, if `fate` decides what each one does. */
  function Requests(fate: nat -> Try, k: nat, retryAttempts: nat, retryTransient: bool): seq<Try>
    decreases retryAttempts - k
  {
    if k >= retryAttempts then []
    else if Retryable(fate(k), retryTransient) then [fate(k)] + Requests(fate, k + 1, retryAttempts, retryTransient)
    else [fate(k)]
  }

  /** What the caller is told: the last request speaks for all. */
  function Conclusion(made: seq<Try>): Outcome {
    if made == [] then ProviderError else OutcomeOf(made[|made| - 1])
  }

  method Execute(fate: nat -> Try, retryAttempts: nat, retryTransient: bool) returns (outcome: Outcome)
    ensures outcome == Conclusion(Requests(fate, 0, retryAttempts, retryTransient))
  {
    outcome := ProviderError;
    ghost var made := [];
    for attempt := 0 to retryAttempts
      invariant made + Requests(fate, attempt, retryAttempts, retryTransient) == Requests(fate, 0, retryAttempts, retryTransient)
      invariant outcome == Conclusion(made)
    {
      var result := fate(attempt);
      made := made + [result];
      outcome := OutcomeOf(result);
      if !Retryable(result, retryTransient) {
        return;
      }
    }
  }

  /** What a call can look like: no more requests than allowed, each but the last retryable, and the last one
      not, unless the attempts ran out. */
  predicate Call(made: seq<Try>, retryAttempts: nat, retryTransient: bool) {
    && |made| <= retryAttempts
    && (forall i :: 0 <= i < |made| - 1 ==> Retryable(made[i], retryTransient))
    && (|made| < retryAttempts ==> made != [] && !Retryable(made[|made| - 1], retryTransient))
  }

  lemma {:induction false} RequestsFollowFate(fate: nat -> Try, k: nat, retryAttempts: nat, retryTransient: bool)
    requires k <= retryAttempts
    ensures var made := Requests(fate, k, retryAttempts, retryTransient);
            Call(made, retryAttempts - k, retryTransient) && forall i :: 0 <= i < |made| ==> made[i] == fate(k + i)
    decreases retryAttempts - k
  {
    if k < retryAttempts && Retryable(fate(k), retryTransient) {
      RequestsFollowFate(fate, k + 1, retryAttempts, retryTransient);
    }
  }

  lemma {:induction false} FateFollowsRequests(fate: nat -> Try, made: seq<Try>, k: nat, retryAttempts: nat, retryTransient: bool)
    requires k <= |made| && Call(made, retryAttempts, retryTransient) && (k == |made| ==> k == retryAttempts)
    requires forall i :: 0 <= i < |made| ==> fate(i) == made[i]
    ensures Requests(fate, k, retryAttempts, retryTransient) == made[k..]
    decreases |made| - k
  {
    if k < |made| {
      assert made[k..] == [made[k]] + made[k + 1..];
      if k < |made| - 1 || |made| == retryAttempts {
        FateFollowsRequests(fate, made, k + 1, retryAttempts, retryTransient);
      }
    }
  }

  /** Exactly the sequences described are what the loop can do. */
  lemma CallsAreWhatTheLoopMakes(made: seq<Try>, retryAttempts: nat, retryTransient: bool)
    ensures Call(made, retryAttempts, retryTransient) <==>
              exists fate: nat -> Try :: Requests(fate, 0, retryAttempts, retryTransient) == made
  {
    if Call(made, retryAttempts, retryTransient) {
      var fate: nat -> Try := (i: nat) => if i < |made| then made[i] else Rejected;
      FateFollowsRequests(fate, made, 0, retryAttempts, retryTransient);
      assert made[0..] == made;
    }
    if fate: nat -> Try :| Requests(fate, 0, retryAttempts, retryTransient) == made {
      RequestsFollowFate(fate, 0, retryAttempts, retryTransient);
    }
  }

  /** A request after which the loop goes on: its token could not be refreshed, or, for a call that may be repeated, a
      transport or server error. */
  predicate GoesOn(t: Try, retryTransient: bool) {
    match t
    case RefreshFailed => true
    case Transient(_) => retryTransient
    case _ => false
  }

  /** The loop asks `fate` request by request, goes on only after a request it may repeat and only within the
      attempts, and tells the caller what the last one says. */
  predicate Asks(fate: nat -> Try, made: seq<Try>, retryAttempts: nat, retryTransient: bool, outcome: Outcome) {
    && |made| <= retryAttempts && (forall i :: 0 <= i < |made| ==> made[i] == fate(i))
    && (forall i :: 0 <= i < |made| - 1 ==> GoesOn(made[i], retryTransient))
    && (|made| < retryAttempts ==> made != [] && !GoesOn(made[|made| - 1], retryTransient))
    && (outcome.Response? <==> made != [] && made[|made| - 1].Answered?)
    && (outcome.AuthorizationRevoked? <==> made != [] && made[|made| - 1].InvalidGrant?)
  }

  lemma LoopAsks(fate: nat -> Try, retryAttempts: nat, retryTransient: bool)
    ensures var made := Requests(fate, 0, retryAttempts, retryTransient);
            Asks(fate, made, retryAttempts, retryTransient, Conclusion(made))
  {
    var made := Requests(fate, 0, retryAttempts, retryTransient);
    RequestsFollowFate(fate, 0, retryAttempts, retryTransient);
    forall i | 0 <= i < |made|
      ensures made[i] == fate(i)
    {
      assert made[i] == fate(0 + i);
    }
    CallAsks(fate, made, retryAttempts, retryTransient);
  }

  lemma CallAsks(fate: nat -> Try, made: seq<Try>, retryAttempts: nat, retryTransient: bool)
    requires Call(made, retryAttempts, retryTransient) && forall i :: 0 <= i < |made| ==> made[i] == fate(i)
    ensures Asks(fate, made, retryAttempts, retryTransient, Conclusion(made))
  {
    forall i | 0 <= i < |made| - 1
      ensures GoesOn(made[i], retryTransient)
    {
      assert Retryable(made[i], retryTransient);
    }
  }

  // ----- How often Gmail applies a call ------------------------------------------------------------------

  /** A create or send is never repeated once Gmail may have seen it: Gmail applies it at most once, a
      response means exactly once, and a revoked grant means not at all. */
  lemma CreateAndSendApplyAtMostOnce(made: seq<Try>, retryAttempts: nat)
    requires Call(made, retryAttempts, false)
    ensures Applied(made) <= 1
    ensures Conclusion(made).Response? ==> Applied(made) == 1
    ensures Conclusion(made).AuthorizationRevoked? ==> Applied(made) == 0
  {
    if made != [] {
      NothingApplied(made[..|made| - 1]);
    }
  }

  lemma RequestsAreBounded(made: seq<Try>, retryAttempts: nat, retryTransient: bool)
    requires Call(made, retryAttempts, retryTransient)
    ensures Applied(made) <= |made| <= retryAttempts
    ensures Conclusion(made).Response? ==> Applied(made) >= 1
  {
    AppliedIsBounded(made);
  }

  /** An update is: applied, its answer lost, applied again, and the caller told of one success. */
  lemma UpdateCanApplyTwice(retryAttempts: nat)
    requires retryAttempts >= 2
    ensures Call([Transient(true), Answered], retryAttempts, true)
    ensures Conclusion([Transient(true), Answered]) == Response && Applied([Transient(true), Answered]) == 2
  {
    AllApplied([Transient(true), Answered]);
  }

  /** `n` applications of one call, the last of them answered. */
  function AppliedTimes(n: nat): seq<Try>
    requires n > 0
  {
    seq(n - 1, _ => Transient(true)) + [Answered]
  }

  /** Every number of applications within the attempts can happen, and end in a response. */
  lemma EveryCountCanHappen(n: nat, retryAttempts: nat)
    requires 0 < n <= retryAttempts
    ensures Call(AppliedTimes(n), retryAttempts, true) && Conclusion(AppliedTimes(n)) == Response && Applied(AppliedTimes(n)) == n
  {
    AllApplied(AppliedTimes(n));
  }

  /** The loop itself excludes a second application, whatever becomes of its requests, if and only if the
      client may not repeat the call. */
  lemma AtMostOnceIffNotRepeated(retryAttempts: nat, retryTransient: bool)
    ensures (forall fate: nat -> Try :: Applied(Requests(fate, 0, retryAttempts, retryTransient)) <= 1)
            <==> retryAttempts <= 1 || !retryTransient
  {
    forall fate: nat -> Try | retryAttempts <= 1 || !retryTransient
      ensures Applied(Requests(fate, 0, retryAttempts, retryTransient)) <= 1
    {
      var made := Requests(fate, 0, retryAttempts, retryTransient);
      RequestsFollowFate(fate, 0, retryAttempts, retryTransient);
      AppliedIsBounded(made);
      if !retryTransient {
        CreateAndSendApplyAtMostOnce(made, retryAttempts);
      }
    }
    if retryAttempts > 1 && retryTransient {
      EveryCountCanHappen(2, retryAttempts);
      CallsAreWhatTheLoopMakes(AppliedTimes(2), retryAttempts, true);
      var fate: nat -> Try :| Requests(fate, 0, retryAttempts, true) == AppliedTimes(2);
      assert Applied(Requests(fate, 0, retryAttempts, retryTransient)) == 2;
    }
  }

  /** For a call that is repeated a revoked grant does not mean that nothing was applied: something was exactly
      when some earlier request of the call was a transient failure that Gmail had applied. */
  lemma RevokedUpdateMayHaveApplied(made: seq<Try>, retryAttempts: nat)
    requires Call(made, retryAttempts, true) && Conclusion(made).AuthorizationRevoked?
    ensures Applied(made) > 0 <==> exists i :: 0 <= i < |made| - 1 && made[i] == Transient(true)
  {
    if i :| 0 <= i < |made| - 1 && made[i] == Transient(true) {
      SomethingApplied(made, i);
    } else {
      forall i | 0 <= i < |made|
        ensures !Applies(made[i])
      {
        assert i < |made| - 1 ==> Retryable(made[i], true);
      }
      NothingApplied(made);
    }
  }

  /** Such a call: the first request is applied and its answer lost, the retry finds the grant revoked. */
  lemma RevokedAfterApplied(retryAttempts: nat)
    requires retryAttempts >= 2
    ensures Call([Transient(true), InvalidGrant], retryAttempts, true)
    ensures Conclusion([Transient(true), InvalidGrant]).AuthorizationRevoked? && Applied([Transient(true), InvalidGrant]) == 1
  {
    var made := [Transient(true), InvalidGrant];
    assert made[..1] == [Transient(true)] && made[..1][..0] == [];
  }
}
