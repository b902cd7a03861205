/** The classifier's attempt ledger and the runs that spend from it (src/eva_ai/relevance/classifier.py,
    src/eva_ai/relevance/repository.py), for one evaluation key and a fixed limit. */
module AttemptLedger {
  import opened Wrappers

  datatype Status = Started | Succeeded | RetryableFailure | PermanentFailure

  datatype Attempt = Attempt(number: nat, status: Status)

  /** The rows of the key, in the order they were inserted. */
  type Rows = seq<Attempt>

  predicate HasNumber(rows: Rows, n: nat) {
    exists i :: 0 <= i < |rows| && rows[i].number == n
  }

  /** `start_attempt`: the unique constraint on key and number refuses a second row. */
  function Start(rows: Rows, n: nat): Option<Rows> {
    if n == 0 || HasNumber(rows, n) then None else Some(rows + [Attempt(n, Started)])
  }

  /** `interrupt_started_attempts` */
  function Interrupt(rows: Rows): (r: Rows)
    ensures |r| == |rows|
  {
    if rows == [] then []
    else
      var last := rows[|rows| - 1];
      Interrupt(rows[..|rows| - 1]) + [if last.status.Started? then last.(status := RetryableFailure) else last]
  }

  /** `finish_attempt`: only a row still marked started can be finished. */
  function Finish(rows: Rows, n: nat, s: Status): Option<Rows> {
    if rows == [] then None
    else
      var last := |rows| - 1;
      if rows[last].number == n then (if rows[last].status.Started? then Some(rows[last := Attempt(n, s)]) else None)
      else match Finish(rows[..last], n, s)
        case None => None
        case Some(earlier) => Some(earlier + [rows[last]])
  }

  function MaxNumber(rows: Rows): nat {
    if rows == [] then 0
    else
      var earlier := MaxNumber(rows[..|rows| - 1]);
      if rows[|rows| - 1].number > earlier then rows[|rows| - 1].number else earlier
  }

  /** Attempt numbers are exactly 1 to k, in order. */
  predicate Numbered(rows: Rows) {
    forall i :: 0 <= i < |rows| ==> rows[i].number == i + 1
  }

  lemma {:induction false} MaxIsLength(rows: Rows)
    requires Numbered(rows)
    ensures MaxNumber(rows) == |rows|
  {
    if rows != [] {
      MaxIsLength(rows[..|rows| - 1]);
    }
  }

  /** Every attempt that was left started counts as a failure that may be tried again; all others stay. */
  predicate Interrupted(before: Rows, after: Rows) {
    && |after| == |before|
    && forall i :: 0 <= i < |before| ==>
         after[i] == if before[i].status.Started? then Attempt(before[i].number, RetryableFailure) else before[i]
  }

  lemma {:induction false} InterruptEndsStarted(rows: Rows)
    ensures Interrupted(rows, Interrupt(rows))
  {
    if rows != [] {
      InterruptEndsStarted(rows[..|rows| - 1]);
    }
  }

  lemma {:induction false} FinishKeepsNumbers(rows: Rows, n: nat, s: Status)
    requires Finish(rows, n, s).Some?
    ensures var rows' := Finish(rows, n, s).value;
            |rows'| == |rows| && HasNumber(rows, n) && forall i :: 0 <= i < |rows| ==> rows'[i].number == rows[i].number
  {
    var last := |rows| - 1;
    if rows[last].number != n {
      FinishKeepsNumbers(rows[..last], n, s);
      var i :| 0 <= i < last && rows[..last][i].number == n;
      assert rows[i].number == n;
    }
  }

  /** The classifier answers, or fails in a way that may be tried again. */
  datatype Verdict = Answer | Failure

  // ----- Any number of runs at once -----------------------------------------------------------------------

  /** Where a run is. `Listed` holds the next number to try. */
  datatype Pc = Opened | Listed(next: nat) | Inserted(n: nat) | Answered(n: nat, success: bool) | Over

  datatype World = World(rows: Rows, runs: map<nat, Pc>, calls: seq<nat>)

  datatype Event =
    | Open(r: nat)                    // interrupt whatever was left started
    | List(r: nat, latest: nat)       // read the history; `latest` is the row the sort puts last
    | Insert(r: nat)
    | Classify(r: nat, success: bool)
    | Record(r: nat)
    | Crash(r: nat)

  function To(w: World, r: nat, pc: Pc): World {
    w.(runs := w.runs[r := pc])
  }

  function Step(limit: nat, w: World, ev: Event): World {
    match ev
    case Open(r) => if r in w.runs then w else To(w.(rows := Interrupt(w.rows)), r, Opened)
    case List(r, latest) =>
      if r !in w.runs || !w.runs[r].Opened? then w
      else if latest < |w.rows| && w.rows[latest].status.PermanentFailure? then To(w, r, Over)
      else To(w, r, Listed(MaxNumber(w.rows) + 1))
    case Insert(r) =>
      if r !in w.runs || !w.runs[r].Listed? then w
      else
        var n := w.runs[r].next;
        if n > limit then To(w, r, Over)
        else (match Start(w.rows, n)
              case None => To(w, r, Over)
              case Some(rows) => To(w.(rows := rows), r, Inserted(n)))
    case Classify(r, success) =>
      if r !in w.runs || !w.runs[r].Inserted? then w
      else To(w.(calls := w.calls + [w.runs[r].n]), r, Answered(w.runs[r].n, success))
    case Record(r) =>
      if r !in w.runs || !w.runs[r].Answered? then w
      else
        var n, success := w.runs[r].n, w.runs[r].success;
        var status := StatusFor(if success then Answer else Verdict.Failure, n, limit);
        (match Finish(w.rows, n, status)
         case None => To(w, r, Over)
         case Some(rows) => To(w.(rows := rows), r, if success || n >= limit then Over else Listed(n + 1)))
    case Crash(r) => if r in w.runs then To(w, r, Over) else w
  }

  function Run(limit: nat, w: World, events: seq<Event>): World
    decreases |events|
  {
    if events == [] then w else Run(limit, Step(limit, w, events[0]), events[1..])
  }

  const EMPTY: World := World([], map[], [])

  ghost predicate PcOk(w: World, r: nat)
    requires r in w.runs
  {
    match w.runs[r]
    case Listed(next) => 1 <= next <= |w.rows| + 1
    case Inserted(n) =>
      && 1 <= n <= |w.rows| && n !in w.calls
      && (forall q :: q in w.runs && q != r && w.runs[q].Inserted? ==> w.runs[q].n != n)
    case Answered(n, _) => 1 <= n <= |w.rows|
    case _ => true
  }

  ghost predicate WorldOk(limit: nat, w: World) {
    && Numbered(w.rows) && |w.rows| <= limit
    && (forall i :: 0 <= i < |w.calls| ==> 1 <= w.calls[i] <= |w.rows|)
    && (forall i, j :: 0 <= i < j < |w.calls| ==> w.calls[i] != w.calls[j])
    && (forall r :: r in w.runs ==> PcOk(w, r))
  }

  /** A number that can be inserted next is the one after the last. */
  lemma NextNumber(rows: Rows, n: nat)
    requires Numbered(rows) && 1 <= n <= |rows| + 1
    ensures HasNumber(rows, n) <==> n <= |rows|
  {
    if n <= |rows| {
      assert rows[n - 1].number == n;
    }
  }

  lemma InsertOk(limit: nat, w: World, r: nat)
    requires WorldOk(limit, w)
    ensures WorldOk(limit, Step(limit, w, Insert(r)))
  {
    var w' := Step(limit, w, Insert(r));
    if r in w.runs && w.runs[r].Listed? {
      assert PcOk(w, r);
      NextNumber(w.rows, w.runs[r].next);
    }
    forall q | q in w'.runs
      ensures PcOk(w', q)
    {
      assert q in w.runs ==> PcOk(w, q);
    }
  }

  lemma RecordOk(limit: nat, w: World, r: nat)
    requires WorldOk(limit, w)
    ensures WorldOk(limit, Step(limit, w, Record(r)))
  {
    var w' := Step(limit, w, Record(r));
    if r in w.runs && w.runs[r].Answered? {
      var n := w.runs[r].n;
      var status := StatusFor(if w.runs[r].success then Answer else Verdict.Failure, n, limit);
      assert PcOk(w, r);
      if Finish(w.rows, n, status).Some? {
        FinishKeepsNumbers(w.rows, n, status);
      }
    }
    forall q | q in w'.runs
      ensures PcOk(w', q)
    {
      assert q in w.runs ==> PcOk(w, q);
    }
  }

  lemma StepOk(limit: nat, w: World, ev: Event)
    requires WorldOk(limit, w)
    ensures WorldOk(limit, Step(limit, w, ev))
  {
    if ev.Insert? {
      InsertOk(limit, w, ev.r);
    } else if ev.Record? {
      RecordOk(limit, w, ev.r);
    } else {
      var w' := Step(limit, w, ev);
      InterruptEndsStarted(w.rows);
      MaxIsLength(w.rows);
      forall q | q in w'.runs
        ensures PcOk(w', q)
      {
        assert q in w.runs ==> PcOk(w, q);
      }
      assert ev.r in w.runs ==> PcOk(w, ev.r);
    }
  }

  lemma {:induction false} RunOk(limit: nat, w: World, events: seq<Event>)
    requires WorldOk(limit, w)
    ensures WorldOk(limit, Run(limit, w, events))
    decreases |events|
  {
    if events != [] {
      StepOk(limit, w, events[0]);
      RunOk(limit, Step(limit, w, events[0]), events[1..]);
    }
  }

  lemma {:induction false} DistinctFitsIn(s: seq<nat>, k: nat)
    requires forall i :: 0 <= i < |s| ==> 1 <= s[i] <= k
    requires forall i, j :: 0 <= i < j < |s| ==> s[i] != s[j]
    ensures |s| <= k
    decreases k
  {
    if s != [] {
      assert 1 <= s[0] <= k;
      if i :| 0 <= i < |s| && s[i] == k {
        var rest := s[..i] + s[i + 1..];
        forall a | 0 <= a < |rest|
          ensures 1 <= rest[a] <= k - 1
        {
          assert rest[a] == if a < i then s[a] else s[a + 1];
        }
        forall a, b | 0 <= a < b < |rest|
          ensures rest[a] != rest[b]
        {
          assert rest[a] == s[if a < i then a else a + 1] && rest[b] == s[if b < i then b else b + 1];
        }
        DistinctFitsIn(rest, k - 1);
      } else {
        DistinctFitsIn(s, k - 1);
      }
    }
  }

  /** Over any number of crashed, restarted or racing runs the attempt numbers are exactly 1 to k with k
      within the limit, and the classifier was called at most k times in all. */
  lemma BudgetSurvivesEverything(limit: nat, events: seq<Event>)
    ensures var w := Run(limit, EMPTY, events);
            && (forall i :: 0 <= i < |w.rows| ==> w.rows[i].number == i + 1)
            && |w.calls| <= |w.rows| <= limit
  {
    RunOk(limit, EMPTY, events);
    DistinctFitsIn(Run(limit, EMPTY, events).calls, |Run(limit, EMPTY, events).rows|);
  }

  // ----- One run, in its own form -----------------------------------------------------------------------------

  datatype Outcome = Classified(attempt: nat) | ReviewRequired

  class Ledger {
    var rows: seq<Attempt>
    ghost var calls: nat

    ghost predicate Valid()
      reads this
    {
      Numbered(rows)
    }

    constructor ()
      ensures Valid() && rows == [] && calls == 0
    {
      rows := [];
      calls := 0;
    }

    method StartAttempt(n: nat) returns (ok: bool)
      modifies this`rows
      ensures ok == Start(old(rows), n).Some?
      ensures rows == if ok then Start(old(rows), n).value else old(rows)
      ensures ok <==> n > 0 && forall i :: 0 <= i < |old(rows)| ==> old(rows)[i].number != n
      ensures ok ==> rows == old(rows) + [Attempt(n, Started)]
    {
      ok := n > 0;
      for i := 0 to |rows|
        invariant ok == (n > 0 && forall j :: 0 <= j < i ==> rows[j].number != n)
      {
        if rows[i].number == n {
          ok := false;
        }
      }
      if ok {
        rows := rows + [Attempt(n, Started)];
      }
    }

    method FinishAttempt(n: nat, s: Status) returns (ok: bool)
      modifies this`rows
      ensures ok == Finish(old(rows), n, s).Some?
      ensures rows == if ok then Finish(old(rows), n, s).value else old(rows)
      ensures !ok ==> rows == old(rows)
      ensures |rows| == |old(rows)|
      ensures ok ==> exists i :: 0 <= i < |rows| && old(rows)[i] == Attempt(n, Started) && rows == old(rows)[i := Attempt(n, s)]
      ensures Numbered(old(rows)) ==> (ok <==> 1 <= n <= |rows| && old(rows)[n - 1].status.Started?)
    {
      var i := |rows|;
      while i > 0 && rows[i - 1].number != n
        invariant 0 <= i <= |rows|
        invariant forall j :: i <= j < |rows| ==> rows[j].number != n
      {
        i := i - 1;
      }
      FinishAt(rows, i, n, s);
      ok := i > 0 && rows[i - 1].status.Started?;
      if ok {
        rows := rows[i - 1 := Attempt(n, s)];
      }
    }

    method InterruptStartedAttempts()
      modifies this`rows
      ensures rows == Interrupt(old(rows)) && Interrupted(old(rows), rows)
    {
      for i := 0 to |rows|
        invariant |rows| == |old(rows)|
        invariant rows[..i] == Interrupt(old(rows)[..i]) && rows[i..] == old(rows)[i..]
      {
        assert old(rows)[..i + 1][..i] == old(rows)[..i];
        assert rows[i] == rows[i..][0] == old(rows)[i];
        if rows[i].status.Started? {
          rows := rows[i := rows[i].(status := RetryableFailure)];
        }
        assert rows[..i + 1] == rows[..i] + [rows[i]];
      }
      assert rows[..|rows|] == rows && old(rows)[..|rows|] == old(rows);
      InterruptEndsStarted(old(rows));
    }

    /** One attempt: its row is inserted before the classifier is asked, and finished with the verdict. */
    method TryOnce(n: nat, limit: nat, verdict: Verdict)
      requires Valid() && n == |rows| + 1
      modifies this
      ensures Valid() && calls == old(calls) + 1
      ensures rows == old(rows) + [Attempt(n, StatusFor(verdict, n, limit))]
    {
      NextNumber(rows, n);
      var ok := StartAttempt(n);
      calls := calls + 1;
      FinishAt(rows, |rows|, n, StatusFor(verdict, n, limit));
      ok := FinishAttempt(n, StatusFor(verdict, n, limit));
    }

    /** `RelevanceClassifierRunner.run` with the ledger to itself; `judge` answers each classifier call. */
    method RunClassifier(limit: nat, judge: nat -> Verdict) returns (outcome: Outcome)
      requires Valid()
      modifies this
      ensures Valid() && calls - old(calls) == |rows| - |old(rows)|
      ensures (rows, outcome) == if Closed(Interrupt(old(rows))) then (Interrupt(old(rows)), ReviewRequired)
                                 else Tries(Interrupt(old(rows)), limit, judge)
      ensures |rows| >= |old(rows)| && Interrupted(old(rows), rows[..|old(rows)|])
      ensures Spent(rows, |old(rows)|, limit, judge)
      ensures (calls > old(calls) <==> |old(rows)| < limit && !FailedForGood(old(rows)))
              && (outcome.Classified? <==> calls > old(calls) && judge(|rows|).Answer?)
              && (outcome.Classified? ==> outcome.attempt == |rows|)
    {
      ghost var before := rows;
      InterruptStartedAttempts();
      ClosesOnFailure(before);
      if Closed(rows) {
        return ReviewRequired;
      }
      TriesAreRecorded(rows, limit, judge);
      outcome := KeepTrying(limit, judge);
    }

    /** One attempt after another from the number after the highest on. */
    method KeepTrying(limit: nat, judge: nat -> Verdict) returns (outcome: Outcome)
      requires Valid()
      modifies this
      ensures Valid() && calls - old(calls) == |rows| - |old(rows)|
      ensures (rows, outcome) == Tries(old(rows), limit, judge)
    {
      MaxIsLength(rows);
      var next := MaxNumber(rows) + 1;
      while next <= limit
        invariant Numbered(rows) && next == |rows| + 1
        invariant calls - old(calls) == |rows| - |old(rows)|
        invariant Tries(rows, limit, judge) == Tries(old(rows), limit, judge)
        decreases limit + 1 - next
      {
        var verdict := judge(next);
        TryOnce(next, limit, verdict);
        if verdict.Answer? {
          return Classified(next);
        }
        if next >= limit {
          return ReviewRequired;
        }
        next := next + 1;
      }
      outcome := ReviewRequired;
    }
  }

  /** The attempts a run makes from `rows` on when nobody interferes. */
  function Tries(rows: Rows, limit: nat, judge: nat -> Verdict): (Rows, Outcome)
    decreases limit - |rows|
  {
    var n := |rows| + 1;
    if n > limit then (rows, ReviewRequired)
    else
      var tried := rows + [Attempt(n, StatusFor(judge(n), n, limit))];
      if judge(n).Answer? then (tried, Classified(n))
      else if n >= limit then (tried, ReviewRequired)
      else Tries(tried, limit, judge)
  }

  /** The attempts after the first `k` are numbered on, each recorded as it ended: the first answer SUCCEEDED and
      last, the one at the limit PERMANENT_FAILURE, every other RETRYABLE_FAILURE. */
  predicate Spent(rows: Rows, k: nat, limit: nat, judge: nat -> Verdict)
    requires k <= |rows|
  {
    forall i :: k <= i < |rows| ==>
      && rows[i] == Attempt(i + 1, if judge(i + 1).Answer? then Succeeded else if i + 1 == limit then PermanentFailure else RetryableFailure)
      && (judge(i + 1).Answer? || i + 1 == limit ==> i + 1 == |rows|)
  }

  lemma SpentFromBefore(tried: Rows, rows: Rows, limit: nat, judge: nat -> Verdict)
    requires tried != [] && tried <= rows && |tried| < limit && !judge(|tried|).Answer?
    requires tried[|tried| - 1] == Attempt(|tried|, RetryableFailure) && Spent(rows, |tried|, limit, judge)
    ensures Spent(rows, |tried| - 1, limit, judge)
  {
    assert rows[|tried| - 1] == tried[|tried| - 1];
  }

  lemma {:induction false} TriesAreRecorded(rows: Rows, limit: nat, judge: nat -> Verdict)
    ensures var (rows', outcome) := Tries(rows, limit, judge);
            && rows <= rows' && Spent(rows', |rows|, limit, judge)
            && (|rows'| > |rows| <==> |rows| < limit)
            && (outcome.Classified? <==> |rows'| > |rows| && judge(|rows'|).Answer?)
            && (outcome.Classified? ==> outcome.attempt == |rows'|)
    decreases limit - |rows|
  {
    var n := |rows| + 1;
    if n < limit && !judge(n).Answer? {
      var tried := rows + [Attempt(n, StatusFor(judge(n), n, limit))];
      TriesAreRecorded(tried, limit, judge);
      SpentFromBefore(tried, Tries(tried, limit, judge).0, limit, judge);
    }
  }

  /** It goes on exactly until the first answer within the limit, and never past the limit. */
  lemma {:induction false} TriesStopAtFirstAnswer(rows: Rows, limit: nat, judge: nat -> Verdict)
    ensures var (rows', outcome) := Tries(rows, limit, judge);
            && rows <= rows' && (|rows'| <= limit || rows' == rows)
            && (outcome.Classified? <==> exists n :: |rows| < n <= limit && judge(n).Answer?)
            && (outcome.Classified? ==>
                  && outcome.attempt == |rows'| > |rows| && judge(|rows'|).Answer?
                  && rows'[|rows'| - 1].status.Succeeded?
                  && forall n :: |rows| < n < |rows'| ==> !judge(n).Answer?)
            && (outcome.ReviewRequired? ==> |rows'| >= limit)
    decreases limit - |rows|
  {
    var n := |rows| + 1;
    if n < limit && !judge(n).Answer? {
      TriesStopAtFirstAnswer(rows + [Attempt(n, StatusFor(judge(n), n, limit))], limit, judge);
    }
  }

  /** The key's last attempt failed for good. */
  predicate Closed(rows: Rows) {
    rows != [] && rows[|rows| - 1].status.PermanentFailure?
  }

  predicate FailedForGood(rows: Rows) {
    exists i :: i == |rows| - 1 && 0 <= i && rows[i] == Attempt(rows[i].number, PermanentFailure)
  }

  lemma ClosesOnFailure(rows: Rows)
    ensures Closed(Interrupt(rows)) <==> FailedForGood(rows)
  {
    InterruptEndsStarted(rows);
  }

  function StatusFor(v: Verdict, n: nat, limit: nat): Status {
    if v.Answer? then Succeeded else if n >= limit then PermanentFailure else RetryableFailure
  }

  /** Finishing finds the last row with the number. */
  lemma {:induction false} FinishAt(rows: Rows, i: nat, n: nat, s: Status)
    requires i <= |rows| && (i > 0 ==> rows[i - 1].number == n)
    requires forall j :: i <= j < |rows| ==> rows[j].number != n
    ensures Finish(rows, n, s) == if i > 0 && rows[i - 1].status.Started? then Some(rows[i - 1 := Attempt(n, s)]) else None
    decreases |rows|
  {
    if rows != [] && i < |rows| {
      var last := |rows| - 1;
      FinishAt(rows[..last], i, n, s);
      if i > 0 && rows[i - 1].status.Started? {
        assert rows[..last][i - 1 := Attempt(n, s)] + [rows[last]] == rows[i - 1 := Attempt(n, s)];
      }
    }
  }

  // ----- The same run among others ------------------------------------------------------------------------------

  /** What a run does from attempt `n` on when nobody interferes. */
  function Alone(r: nat, n: nat, limit: nat, judge: nat -> Verdict): seq<Event>
    decreases limit - n
  {
    if n > limit then [Insert(r)]
    else if judge(n).Answer? || n >= limit then [Insert(r), Classify(r, judge(n).Answer?), Record(r)]
    else [Insert(r), Classify(r, judge(n).Answer?), Record(r)] + Alone(r, n + 1, limit, judge)
  }

  lemma {:induction false} RunConcat(limit: nat, w: World, xs: seq<Event>, ys: seq<Event>)
    ensures Run(limit, w, xs + ys) == Run(limit, Run(limit, w, xs), ys)
    decreases |xs|
  {
    if xs == [] {
      assert xs + ys == ys;
    } else {
      assert (xs + ys)[0] == xs[0] && (xs + ys)[1..] == xs[1..] + ys;
      RunConcat(limit, Step(limit, w, xs[0]), xs[1..], ys);
    }
  }

  lemma RunsThree(limit: nat, w: World, x: Event, y: Event, z: Event)
    ensures Run(limit, w, [x, y, z]) == Step(limit, Step(limit, Step(limit, w, x), y), z)
  {
    var w1 := Step(limit, w, x);
    assert [x, y, z][1..] == [y, z] && [y, z][1..] == [z] && [z][1..] == [];
    assert Run(limit, w, [x, y, z]) == Run(limit, w1, [y, z]);
    assert Run(limit, w1, [y, z]) == Run(limit, Step(limit, w1, y), [z]);
  }

  /** One attempt of a run: its row inserted, the classifier asked once, the row finished with the verdict. */
  lemma OneAttempt(limit: nat, w: World, r: nat, verdict: Verdict)
    requires r in w.runs && Numbered(w.rows) && w.runs[r] == Listed(|w.rows| + 1) && |w.rows| < limit
    ensures var n := |w.rows| + 1;
            Run(limit, w, [Insert(r), Classify(r, verdict.Answer?), Record(r)]) ==
              World(w.rows + [Attempt(n, StatusFor(verdict, n, limit))],
                    w.runs[r := if verdict.Answer? || n >= limit then Over else Listed(n + 1)], w.calls + [n])
  {
    var n := |w.rows| + 1;
    NextNumber(w.rows, n);
    var rows := w.rows + [Attempt(n, Started)];
    var w1 := To(w.(rows := rows), r, Inserted(n));
    assert Step(limit, w, Insert(r)) == w1;
    var w2 := To(w1.(calls := w.calls + [n]), r, Answered(n, verdict.Answer?));
    assert Step(limit, w1, Classify(r, verdict.Answer?)) == w2;
    var status := StatusFor(verdict, n, limit);
    FinishAt(rows, n, n, status);
    assert rows[n - 1 := Attempt(n, status)] == w.rows + [Attempt(n, status)];
    RunsThree(limit, w, Insert(r), Classify(r, verdict.Answer?), Record(r));
  }

  /** So left alone a run among others leaves the very rows the method leaves, and asks as often. */
  lemma {:induction false} AloneIsTries(limit: nat, w: World, r: nat, judge: nat -> Verdict)
    requires r in w.runs && Numbered(w.rows) && w.runs[r] == Listed(|w.rows| + 1)
    ensures var w' := Run(limit, w, Alone(r, |w.rows| + 1, limit, judge));
            && w'.rows == Tries(w.rows, limit, judge).0 && w'.runs == w.runs[r := Over]
            && |w'.calls| - |w.calls| == |w'.rows| - |w.rows|
    decreases limit - |w.rows|
  {
    var n := |w.rows| + 1;
    if n > limit {
      assert [Insert(r)][1..] == [];
      assert Run(limit, w, [Insert(r)]) == Run(limit, Step(limit, w, Insert(r)), []);
    } else {
      var attempt := [Insert(r), Classify(r, judge(n).Answer?), Record(r)];
      OneAttempt(limit, w, r, judge(n));
      var w1 := Run(limit, w, attempt);
      if !judge(n).Answer? && n < limit {
        AloneIsTries(limit, w1, r, judge);
        RunConcat(limit, w, attempt, Alone(r, n + 1, limit, judge));
      }
    }
  }

  lemma Opens(limit: nat, w: World, r: nat, latest: nat)
    requires r !in w.runs && Numbered(w.rows)
    ensures var rows := Interrupt(w.rows);
            Run(limit, w, [Open(r), List(r, latest)]) ==
              World(rows, w.runs[r := if latest < |rows| && rows[latest].status.PermanentFailure? then Over else Listed(|rows| + 1)], w.calls)
  {
    InterruptEndsStarted(w.rows);
    MaxIsLength(Interrupt(w.rows));
    var w1 := Step(limit, w, Open(r));
    var pc := if latest < |w1.rows| && w1.rows[latest].status.PermanentFailure? then Over else Listed(|w1.rows| + 1);
    assert w.runs[r := Opened][r := pc] == w.runs[r := pc];
    assert Step(limit, w1, List(r, latest)) == World(w1.rows, w.runs[r := pc], w.calls);
    assert [Open(r), List(r, latest)][1..] == [List(r, latest)] && [List(r, latest)][1..] == [];
    assert Run(limit, w, [Open(r), List(r, latest)]) == Run(limit, w1, [List(r, latest)]);
    assert Run(limit, w1, [List(r, latest)]) == Run(limit, Step(limit, w1, List(r, latest)), []);
  }

  /** `Ledger.RunClassifier` is a run of the concurrent ledger that nobody disturbs. */
  lemma UndisturbedRun(limit: nat, w: World, r: nat, judge: nat -> Verdict)
    requires r !in w.runs && Numbered(w.rows)
    ensures var rows, latest := Interrupt(w.rows), if w.rows == [] then 0 else |w.rows| - 1;
            if Closed(rows) then Run(limit, w, [Open(r), List(r, latest)]).rows == rows
            else Run(limit, w, [Open(r), List(r, latest)] + Alone(r, |rows| + 1, limit, judge)).rows == Tries(rows, limit, judge).0
  {
    var rows, latest := Interrupt(w.rows), if w.rows == [] then 0 else |w.rows| - 1;
    InterruptEndsStarted(w.rows);
    Opens(limit, w, r, latest);
    if !Closed(rows) {
      AloneIsTries(limit, Run(limit, w, [Open(r), List(r, latest)]), r, judge);
      RunConcat(limit, w, [Open(r), List(r, latest)], Alone(r, |rows| + 1, limit, judge));
    }
  }

  // ----- Backoff ------------------------------------------------------------------------------------------------

  function Power(k: nat): real {
    if k == 0 then 1.0 else 2.0 * Power(k - 1)
  }

  function Min(a: real, b: real): real {
    if a <= b then a else b
  }

  /** `_delay`, over exact reals; `sample` is the random value. */
  function Delay(n: nat, initial: real, max: real, jitter: real, sample: real): real
    requires n > 0
  {
    var base := Min(max, initial * Power(n - 1));
    var delay := Min(max, base * (1.0 + jitter * (2.0 * sample - 1.0)));
    if delay < 0.0 then 0.0 else delay
  }

  /** With jitter off the delay doubles from one attempt to the next until it meets the ceiling, and with
      any jitter it never leaves the interval from zero to the ceiling. */
  lemma DelayDoublesToCeiling(n: nat, initial: real, max: real, jitter: real, sample: real)
    requires n > 0 && 0.0 <= initial && 0.0 <= max
    ensures 0.0 <= Delay(n, initial, max, jitter, sample) <= max
    ensures Delay(n + 1, initial, max, 0.0, sample) == Min(max, 2.0 * Delay(n, initial, max, 0.0, sample))
    ensures Delay(1, initial, max, 0.0, sample) == if initial <= max then initial else max
  {
    assert Power(0) == 1.0 && initial * Power(0) == initial;
    PowerIsPositive(n - 1);
    assert Power(n) == 2.0 * Power(n - 1);
    assert initial * Power(n) == 2.0 * (initial * Power(n - 1));
    assert initial * Power(n - 1) >= 0.0;
  }

  lemma NotNegative(a: real, b: real)
    requires 0.0 <= a && 0.0 <= b
    ensures a * b >= 0.0
  {
  }

  lemma Spread(base: real, jitter: real, sample: real)
    requires 0.0 <= base && 0.0 <= jitter <= 1.0 && 0.0 <= sample <= 1.0
    ensures base * (1.0 + jitter * (2.0 * sample - 1.0)) == base + (2.0 * sample - 1.0) * (jitter * base) >= 0.0
  {
    var x := 2.0 * sample - 1.0;
    assert jitter * x >= -1.0 by {
      NotNegative(jitter, x + 1.0);
      assert jitter * (x + 1.0) == jitter * x + jitter;
    }
    NotNegative(base, 1.0 + jitter * x);
    assert base * (1.0 + jitter * x) == base + base * (jitter * x);
    assert base * (jitter * x) == x * (jitter * base);
  }

  /** Jitter moves the delay by at most its part of the delay without, up or down in proportion to the sample's
      distance from the middle, and never past the ceiling. */
  lemma JitterIsProportional(n: nat, initial: real, max: real, jitter: real, sample: real)
    requires n > 0 && 0.0 <= initial && 0.0 <= max && 0.0 <= jitter <= 1.0 && 0.0 <= sample <= 1.0
    ensures var plain := Delay(n, initial, max, 0.0, sample);
            Delay(n, initial, max, jitter, sample) == Min(max, plain + (2.0 * sample - 1.0) * (jitter * plain))
  {
    PowerIsPositive(n - 1);
    assert initial * Power(n - 1) >= 0.0;
    var base := Min(max, initial * Power(n - 1));
    Spread(base, 0.0, sample);
    assert 0.0 * base == 0.0 && (2.0 * sample - 1.0) * 0.0 == 0.0;
    Spread(base, jitter, sample);
  }

  lemma {:induction false} PowerIsPositive(k: nat)
    ensures Power(k) > 0.0
  {
    if k > 0 {
      PowerIsPositive(k - 1);
    }
  }
}
