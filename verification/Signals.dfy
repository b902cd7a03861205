/** The versioned signals of one event (src/eva_ai/relevance/repository.py): each evaluation that is not a
    repeat takes over from the current signal. The event row is locked, so writes are serial. */
module Signals {
  import opened Wrappers

  type SignalId = nat

  /** `payload` is everything about the evaluation that the store does not look at. */
  datatype Signal = Signal(evaluationKey: nat, payload: string, supersedes: Option<SignalId>, isCurrent: bool)

  /** `inScope` says whether the attempt, situation and goals the draft names exist in its scope. */
  datatype Draft = Draft(id: SignalId, evaluationKey: nat, payload: string, inScope: bool)

  datatype Error = ScopeError | IntegrityError

  type Rows = map<SignalId, Signal>

  predicate HasKey(rows: Rows, key: nat) {
    exists i :: i in rows && rows[i].evaluationKey == key
  }

  ghost function ByKey(rows: Rows, key: nat): SignalId
    requires HasKey(rows, key)
  {
    var i :| i in rows && rows[i].evaluationKey == key; i
  }

  predicate HasCurrent(rows: Rows) {
    exists i :: i in rows && rows[i].isCurrent
  }

  ghost function Current(rows: Rows): SignalId
    requires HasCurrent(rows)
  {
    var i :| i in rows && rows[i].isCurrent; i
  }

  function NewSignal(d: Draft, predecessor: Option<SignalId>): Signal {
    Signal(d.evaluationKey, d.payload, predecessor, true)
  }

  /** `persist_signal_in_session` */
  ghost function Persist(rows: Rows, d: Draft): (Rows, Result<SignalId, Error>) {
    if HasKey(rows, d.evaluationKey) then (rows, Success(ByKey(rows, d.evaluationKey)))
    else if !d.inScope then (rows, Failure(ScopeError))
    else if d.id in rows then (rows, Failure(IntegrityError))
    else if !HasCurrent(rows) then (rows[d.id := NewSignal(d, None)], Success(d.id))
    else
      var c := Current(rows);
      (rows[c := rows[c].(isCurrent := false)][d.id := NewSignal(d, Some(c))], Success(d.id))
  }

  // ----- The invariant ------------------------------------------------------------------------------------

  /** `order` lists every signal of the event once, oldest first: each supersedes the one before it, and
      only the last is current. */
  ghost predicate Chained(rows: Rows, order: seq<SignalId>) {
    && (forall i :: i in rows <==> i in order)
    && (forall i, j :: 0 <= i < j < |order| ==> order[i] != order[j])
    && (forall i :: 0 <= i < |order| ==> LinkAt(rows, order, i))
  }

  predicate LinkAt(rows: Rows, order: seq<SignalId>, i: nat)
    requires i < |order|
  {
    && order[i] in rows
    && rows[order[i]].supersedes == (if i == 0 then None else Some(order[i - 1]))
    && rows[order[i]].isCurrent == (i == |order| - 1)
  }

  ghost predicate UniqueKeys(rows: Rows) {
    forall i, j :: i in rows && j in rows && rows[i].evaluationKey == rows[j].evaluationKey ==> i == j
  }

  lemma CurrentIsLast(rows: Rows, order: seq<SignalId>)
    requires Chained(rows, order)
    ensures HasCurrent(rows) <==> order != []
    ensures order != [] ==> Current(rows) == order[|order| - 1]
  {
    if order != [] {
      assert LinkAt(rows, order, |order| - 1);
    }
    forall i | i in rows && rows[i].isCurrent
      ensures order != [] && i == order[|order| - 1]
    {
      var k :| 0 <= k < |order| && order[k] == i;
      assert LinkAt(rows, order, k);
    }
  }

  /** The order after a write: unchanged for a repeat or a refusal, one longer otherwise. */
  ghost function OrderAfter(rows: Rows, order: seq<SignalId>, d: Draft): seq<SignalId> {
    if Persist(rows, d).0 == rows then order else order + [d.id]
  }

  lemma AppendChained(rows: Rows, rows': Rows, order: seq<SignalId>, d: Draft)
    requires Chained(rows, order) && d.id !in rows
    requires rows' == if order == [] then rows[d.id := NewSignal(d, None)]
                      else rows[order[|order| - 1] := rows[order[|order| - 1]].(isCurrent := false)][d.id := NewSignal(d, Some(order[|order| - 1]))]
    requires order != [] ==> order[|order| - 1] in rows
    ensures Chained(rows', order + [d.id])
  {
    var order' := order + [d.id];
    forall i | 0 <= i < |order'|
      ensures LinkAt(rows', order', i)
    {
      if i < |order| {
        assert LinkAt(rows, order, i);
        assert order'[i] == order[i] && (i > 0 ==> order'[i - 1] == order[i - 1]);
        assert i < |order| - 1 ==> order[i] != order[|order| - 1];
      }
    }
    assert order'[|order|] == d.id;
    assert forall i :: i in order' <==> i in order || i == d.id;
  }

  lemma PersistOk(rows: Rows, order: seq<SignalId>, d: Draft)
    requires Chained(rows, order) && UniqueKeys(rows)
    ensures Chained(Persist(rows, d).0, OrderAfter(rows, order, d)) && UniqueKeys(Persist(rows, d).0)
  {
    if !HasKey(rows, d.evaluationKey) && d.inScope && d.id !in rows {
      CurrentIsLast(rows, order);
      if order != [] {
        assert LinkAt(rows, order, |order| - 1);
      }
      AppendChained(rows, Persist(rows, d).0, order, d);
      assert d.id in Persist(rows, d).0;
    }
  }

  // ----- What a write does ---------------------------------------------------------------------------------

  lemma CurrentIsOnly(rows: Rows, order: seq<SignalId>, c: SignalId)
    requires Chained(rows, order) && c in rows && rows[c].isCurrent
    ensures HasCurrent(rows) && Current(rows) == c
  {
    CurrentIsLast(rows, order);
    var k :| 0 <= k < |order| && order[k] == c;
    assert LinkAt(rows, order, k);
  }

  /** What a write does, row by row. A stored key answers with its signal and changes nothing; a new signal is stored
      as asked for, current, after the one that was current, which is so no more. */
  predicate PersistDoes(rows: Rows, d: Draft, rows': Rows, r: Result<SignalId, Error>) {
    && (forall i :: i in rows && rows[i].evaluationKey == d.evaluationKey ==> r == Success(i) && rows' == rows)
    && (HasKey(rows, d.evaluationKey) ||
        if !d.inScope then r == Failure(ScopeError) && rows' == rows
        else if d.id in rows then r == Failure(IntegrityError) && rows' == rows
        else r == Success(d.id) && StoredIn(rows, d, rows'))
  }

  predicate StoredIn(rows: Rows, d: Draft, rows': Rows) {
    && rows'.Keys == rows.Keys + {d.id}
    && rows'[d.id].evaluationKey == d.evaluationKey && rows'[d.id].payload == d.payload && rows'[d.id].isCurrent
    && (rows'[d.id].supersedes.Some? ==> rows'[d.id].supersedes.value in rows && rows[rows'[d.id].supersedes.value].isCurrent)
    && (forall i :: i in rows && i != d.id ==>
          && rows'[i] == rows[i].(isCurrent := false)
          && (rows[i].isCurrent ==> rows'[d.id].supersedes == Some(i)))
  }

  lemma PersistIsSo(rows: Rows, order: seq<SignalId>, d: Draft)
    requires Chained(rows, order) && UniqueKeys(rows)
    ensures var (rows', r) := Persist(rows, d); PersistDoes(rows, d, rows', r)
  {
    forall i | i in rows && rows[i].isCurrent
      ensures HasCurrent(rows) && i == Current(rows)
    {
      CurrentIsOnly(rows, order, i);
    }
  }

  // ----- The store ------------------------------------------------------------------------------------------

  class SignalStore {
    var rows: map<SignalId, Signal>
    ghost var order: seq<SignalId>

    ghost predicate Valid()
      reads this
    {
      Chained(rows, order) && UniqueKeys(rows)
    }

    constructor ()
      ensures Valid() && rows == map[] && order == []
    {
      rows := map[];
      order := [];
    }

    method PersistSignal(d: Draft) returns (r: Result<SignalId, Error>)
      requires Valid()
      modifies this
      ensures Valid()
      ensures (rows, r) == Persist(old(rows), d)
      ensures PersistDoes(old(rows), d, rows, r)
      ensures old(order) <= order <= old(order) + [d.id]
    {
      PersistOk(rows, order, d);
      PersistIsSo(rows, order, d);
      if i :| i in rows && rows[i].evaluationKey == d.evaluationKey {
        assert HasKey(rows, d.evaluationKey) && ByKey(rows, d.evaluationKey) == i;
        return Success(i);
      }
      if !d.inScope {
        return Failure(ScopeError);
      }
      var before := rows;
      var predecessor: Option<SignalId> := None;
      CurrentIsLast(rows, order);
      if c :| c in rows && rows[c].isCurrent {
        CurrentIsOnly(rows, order, c);
        rows := rows[c := rows[c].(isCurrent := false)];
        predecessor := Some(c);
      }
      if d.id in rows {
        rows := before;
        return Failure(IntegrityError);
      }
      rows := rows[d.id := NewSignal(d, predecessor)];
      order := OrderAfter(before, order, d);
      r := Success(d.id);
    }
  }

  // ----- Every history ----------------------------------------------------------------------------------------

  ghost function Run(rows: Rows, drafts: seq<Draft>): Rows
    decreases |drafts|
  {
    if drafts == [] then rows else Run(Persist(rows, drafts[0]).0, drafts[1..])
  }

  /** The signal `steps` links back from `id`, if there are as many. */
  function Back(rows: Rows, id: SignalId, steps: nat): Option<SignalId>
    decreases steps
  {
    if id !in rows then None
    else if steps == 0 then Some(id)
    else if rows[id].supersedes.None? then None
    else Back(rows, rows[id].supersedes.value, steps - 1)
  }

  lemma {:induction false} BackWalksTheOrder(rows: Rows, order: seq<SignalId>, k: nat, steps: nat)
    requires Chained(rows, order) && k < |order|
    ensures Back(rows, order[k], steps) == if steps <= k then Some(order[k - steps]) else None
    decreases steps
  {
    assert LinkAt(rows, order, k);
    if steps > 0 && k > 0 {
      BackWalksTheOrder(rows, order, k - 1, steps - 1);
    }
  }

  lemma {:induction false} RunOk(rows: Rows, order: seq<SignalId>, drafts: seq<Draft>) returns (order': seq<SignalId>)
    requires Chained(rows, order) && UniqueKeys(rows)
    ensures Chained(Run(rows, drafts), order') && UniqueKeys(Run(rows, drafts)) && order <= order'
    decreases |drafts|
  {
    order' := order;
    if drafts != [] {
      PersistOk(rows, order, drafts[0]);
      order' := RunOk(Persist(rows, drafts[0]).0, OrderAfter(rows, order, drafts[0]), drafts[1..]);
    }
  }

  ghost predicate OnlyCurrent(rows: Rows) {
    HasCurrent(rows) && forall i :: i in rows && rows[i].isCurrent ==> i == Current(rows)
  }

  /** Every signal is some number of links back from the current one, and no number comes back to it. */
  ghost predicate VisitsAllOnce(rows: Rows)
    requires HasCurrent(rows)
  {
    && (forall i :: i in rows ==> exists steps: nat :: Back(rows, Current(rows), steps) == Some(i))
    && (forall m: nat, n: nat :: Back(rows, Current(rows), m).Some? && Back(rows, Current(rows), m) == Back(rows, Current(rows), n) ==> m == n)
  }

  lemma ChainedVisitsAllOnce(rows: Rows, order: seq<SignalId>)
    requires Chained(rows, order) && order != []
    ensures HasCurrent(rows) && VisitsAllOnce(rows)
  {
    CurrentIsLast(rows, order);
    var last := |order| - 1;
    forall i | i in rows
      ensures exists steps: nat :: Back(rows, Current(rows), steps) == Some(i)
    {
      var k :| 0 <= k < |order| && order[k] == i;
      BackWalksTheOrder(rows, order, last, last - k);
      assert Back(rows, Current(rows), last - k) == Some(i);
    }
    forall m: nat, n: nat | Back(rows, Current(rows), m).Some? && Back(rows, Current(rows), m) == Back(rows, Current(rows), n)
      ensures m == n
    {
      BackWalksTheOrder(rows, order, last, m);
      BackWalksTheOrder(rows, order, last, n);
    }
  }

  /** After any history exactly one signal is current, if there is one at all, and following supersedes
      links from it visits every signal of the event exactly once. */
  lemma CurrentReachesAllOnce(drafts: seq<Draft>)
    ensures var rows := Run(map[], drafts);
            rows.Keys != {} ==> OnlyCurrent(rows) && VisitsAllOnce(rows)
  {
    var rows := Run(map[], drafts);
    var order := RunOk(map[], [], drafts);
    if some :| some in rows {
      assert some in order;
      ChainedVisitsAllOnce(rows, order);
      forall i | i in rows && rows[i].isCurrent
        ensures i == Current(rows)
      {
        CurrentIsOnly(rows, order, i);
      }
    }
  }

  lemma StepKeepsKeys(rows: Rows, d: Draft, id: SignalId)
    requires id in rows
    ensures var rows' := Persist(rows, d).0;
            id in rows' && rows'[id] == rows[id].(isCurrent := rows'[id].isCurrent)
  {
  }

  lemma {:induction false} RunKeepsKeys(rows: Rows, drafts: seq<Draft>, id: SignalId)
    requires id in rows
    ensures var rows' := Run(rows, drafts);
            id in rows' && rows'[id] == rows[id].(isCurrent := rows'[id].isCurrent)
    decreases |drafts|
  {
    if drafts != [] {
      StepKeepsKeys(rows, drafts[0], id);
      RunKeepsKeys(Persist(rows, drafts[0]).0, drafts[1..], id);
    }
  }

  /** An evaluation key is spent once: repeating it, however much later and with whatever else in the
      draft, changes nothing and answers with the signal it first stored. */
  lemma RepeatChangesNothing(rows: Rows, order: seq<SignalId>, d: Draft, drafts: seq<Draft>, again: Draft)
    requires Chained(rows, order) && UniqueKeys(rows) && Persist(rows, d).1.Success? && again.evaluationKey == d.evaluationKey
    ensures var later := Run(Persist(rows, d).0, drafts);
            Persist(later, again) == (later, Persist(rows, d).1)
  {
    var stored, id := Persist(rows, d).0, Persist(rows, d).1.value;
    PersistOk(rows, order, d);
    var order' := RunOk(stored, OrderAfter(rows, order, d), drafts);
    assert id in stored && stored[id].evaluationKey == d.evaluationKey;
    RunKeepsKeys(stored, drafts, id);
  }
}
