/** The versioned store of memory facts (src/eva_ai/memory/repository.py), for one workspace and user:
    a fact is never changed but superseded or retracted, under idempotent writes. */
module MemoryFacts {
  import opened Wrappers

  type FactId = nat
  type Time = int

  /** Namespace, key and scope: the place a fact is about. At most one fact is active in it. */
  datatype Scope = Workspace | Goal(goal: nat) | Situation(situation: nat)
  datatype Slot = Slot(namespace: string, key: string, scope: Scope)

  datatype Status = Active | Superseded | Retracted

  /** `content` is the value with its source, source reference and confidence. */
  datatype Draft = Draft(id: FactId, slot: Slot, content: string, idempotencyKey: string, validFrom: Time, validUntil: Option<Time>)

  datatype Fact = Fact(
    slot: Slot, content: string, idempotencyKey: string, status: Status,
    validFrom: Time, validUntil: Option<Time>, supersedes: Option<FactId>)

  datatype Error = Conflict | ScopeError | NotFound

  type Facts = map<FactId, Fact>

  /** `_same_fact_request` */
  predicate SameRequest(f: Fact, d: Draft) {
    f.slot == d.slot && f.content == d.content && f.validFrom == d.validFrom && f.validUntil == d.validUntil
  }

  // ----- The transactions as functions ------------------------------------------------------------------

  predicate HasKey(facts: Facts, key: string) {
    exists i :: i in facts && facts[i].idempotencyKey == key
  }

  predicate HasActive(facts: Facts, slot: Slot) {
    exists i :: i in facts && facts[i].slot == slot && facts[i].status.Active?
  }

  /** The row with this idempotency key, unique by a constraint of the table. */
  ghost function ByKey(facts: Facts, key: string): FactId
    requires HasKey(facts, key)
  {
    var i :| i in facts && facts[i].idempotencyKey == key; i
  }

  /** The active row of a slot, unique by a partial index. */
  ghost function ActiveIn(facts: Facts, slot: Slot): FactId
    requires HasActive(facts, slot)
  {
    var i :| i in facts && facts[i].slot == slot && facts[i].status.Active?; i
  }

  function NewFact(d: Draft, predecessor: Option<FactId>): Fact {
    Fact(d.slot, d.content, d.idempotencyKey, Active, d.validFrom, d.validUntil, predecessor)
  }

  /** `put_fact`: a repeated key changes nothing; otherwise the active fact of the slot ends where the new
      one begins. `known` says whether the draft's goal or situation exists. */
  ghost function Put(facts: Facts, d: Draft, known: bool): (Facts, Result<FactId, Error>) {
    if HasKey(facts, d.idempotencyKey) then
      var i := ByKey(facts, d.idempotencyKey);
      (facts, if SameRequest(facts[i], d) then Success(i) else Failure(Conflict))
    else if !known then (facts, Failure(ScopeError))
    else if !HasActive(facts, d.slot) then
      if d.id in facts then (facts, Failure(Conflict))
      else (facts[d.id := NewFact(d, None)], Success(d.id))
    else
      var i := ActiveIn(facts, d.slot);
      if d.validFrom <= facts[i].validFrom || d.id in facts then (facts, Failure(Conflict))
      else
        var ended := facts[i].(status := Superseded, validUntil := Some(d.validFrom));
        (facts[i := ended][d.id := NewFact(d, Some(i))], Success(d.id))
  }

  function Retract(facts: Facts, id: FactId, at: Time): (Facts, Result<(), Error>) {
    if id !in facts || !facts[id].status.Active? then (facts, Failure(NotFound))
    else if at <= facts[id].validFrom then (facts, Failure(Conflict))
    else (facts[id := facts[id].(status := Retracted, validUntil := Some(at))], Success(()))
  }

  // ----- The invariant ------------------------------------------------------------------------------------

  ghost predicate UniqueKeys(facts: Facts) {
    forall i, j :: i in facts && j in facts && facts[i].idempotencyKey == facts[j].idempotencyKey ==> i == j
  }

  ghost predicate OneActivePerSlot(facts: Facts) {
    forall i, j ::
      (i in facts && j in facts && facts[i].slot == facts[j].slot && facts[i].status.Active? && facts[j].status.Active?) ==> i == j
  }

  /** `j` took over from `i`: same slot, the window of `i` ends exactly where that of `j` begins. */
  predicate Succeeds(facts: Facts, i: FactId, j: FactId)
    requires j in facts
  {
    && i in facts && facts[i].slot == facts[j].slot && facts[i].status.Superseded?
    && facts[i].validUntil == Some(facts[j].validFrom) && facts[i].validFrom < facts[j].validFrom
  }

  ghost predicate LinksOk(facts: Facts) {
    && (forall j :: j in facts && facts[j].supersedes.Some? ==> Succeeds(facts, facts[j].supersedes.value, j))
    && (forall i, j :: i in facts && j in facts && facts[i].supersedes.Some? && facts[i].supersedes == facts[j].supersedes ==> i == j)
    && (forall i {:trigger HasSuccessor(facts, i)} :: i in facts && facts[i].status.Superseded? ==> HasSuccessor(facts, i))
  }

  predicate HasSuccessor(facts: Facts, i: FactId) {
    exists j :: j in facts && facts[j].supersedes == Some(i)
  }

  ghost predicate FactsOk(facts: Facts) {
    UniqueKeys(facts) && OneActivePerSlot(facts) && LinksOk(facts)
  }

  lemma ByKeyIsUnique(facts: Facts, i: FactId)
    requires UniqueKeys(facts) && i in facts
    ensures HasKey(facts, facts[i].idempotencyKey) && ByKey(facts, facts[i].idempotencyKey) == i
  {
  }

  lemma ActiveIsUnique(facts: Facts, i: FactId)
    requires OneActivePerSlot(facts) && i in facts && facts[i].status.Active?
    ensures HasActive(facts, facts[i].slot) && ActiveIn(facts, facts[i].slot) == i
  {
  }

  lemma InsertOk(facts: Facts, d: Draft)
    requires FactsOk(facts) && d.id !in facts && !HasKey(facts, d.idempotencyKey) && !HasActive(facts, d.slot)
    ensures FactsOk(facts[d.id := NewFact(d, None)])
  {
    var facts' := facts[d.id := NewFact(d, None)];
    forall i | i in facts' && facts'[i].status.Superseded?
      ensures HasSuccessor(facts', i)
    {
      assert HasSuccessor(facts, i);
      var j :| j in facts && facts[j].supersedes == Some(i);
      assert facts'[j].supersedes == Some(i);
    }
  }

  /** The predecessor `i` ended and the draft's fact inserted after it. */
  predicate Supersedes(facts: Facts, facts': Facts, d: Draft, i: FactId) {
    && i in facts && facts[i].status.Active? && facts[i].slot == d.slot && facts[i].validFrom < d.validFrom
    && d.id !in facts
    && facts' == facts[i := facts[i].(status := Superseded, validUntil := Some(d.validFrom))][d.id := NewFact(d, Some(i))]
  }

  lemma SupersedeUnique(facts: Facts, facts': Facts, d: Draft, i: FactId)
    requires UniqueKeys(facts) && OneActivePerSlot(facts) && !HasKey(facts, d.idempotencyKey) && Supersedes(facts, facts', d, i)
    ensures UniqueKeys(facts') && OneActivePerSlot(facts')
  {
  }

  lemma SupersedeJoins(facts: Facts, facts': Facts, d: Draft, i: FactId)
    requires LinksOk(facts) && Supersedes(facts, facts', d, i)
    ensures forall j :: j in facts' && facts'[j].supersedes.Some? ==> Succeeds(facts', facts'[j].supersedes.value, j)
    ensures forall j :: j in facts ==> facts[j].supersedes != Some(i)
  {
    forall j | j in facts' && facts'[j].supersedes.Some?
      ensures Succeeds(facts', facts'[j].supersedes.value, j)
    {
      assert j in facts ==> Succeeds(facts, facts[j].supersedes.value, j);
    }
  }

  lemma SupersededHaveSuccessors(facts: Facts, facts': Facts, d: Draft, i: FactId, k: FactId)
    requires LinksOk(facts) && Supersedes(facts, facts', d, i) && k in facts' && facts'[k].status.Superseded?
    ensures HasSuccessor(facts', k)
  {
    if k == i {
      assert facts'[d.id].supersedes == Some(i);
    } else {
      assert HasSuccessor(facts, k);
      var j :| j in facts && facts[j].supersedes == Some(k);
      assert facts'[j].supersedes == Some(k);
    }
  }

  lemma SupersedeLinks(facts: Facts, facts': Facts, d: Draft, i: FactId)
    requires LinksOk(facts) && Supersedes(facts, facts', d, i)
    ensures LinksOk(facts')
  {
    SupersedeJoins(facts, facts', d, i);
    forall k | k in facts' && facts'[k].status.Superseded?
      ensures HasSuccessor(facts', k)
    {
      SupersededHaveSuccessors(facts, facts', d, i, k);
    }
  }

  lemma PutOk(facts: Facts, d: Draft, known: bool)
    requires FactsOk(facts)
    ensures FactsOk(Put(facts, d, known).0)
  {
    if Put(facts, d, known).1.Success? && !HasKey(facts, d.idempotencyKey) {
      if HasActive(facts, d.slot) {
        SupersedeUnique(facts, Put(facts, d, known).0, d, ActiveIn(facts, d.slot));
        SupersedeLinks(facts, Put(facts, d, known).0, d, ActiveIn(facts, d.slot));
      } else {
        InsertOk(facts, d);
      }
    }
  }

  lemma RetractOk(facts: Facts, id: FactId, at: Time)
    requires FactsOk(facts)
    ensures FactsOk(Retract(facts, id, at).0)
  {
    if id in facts && facts[id].status.Active? {
      EndOk(facts, facts[id := facts[id].(status := Retracted, validUntil := Some(at))], id, at);
    }
  }

  lemma EndOk(facts: Facts, facts': Facts, id: FactId, at: Time)
    requires FactsOk(facts) && id in facts && facts[id].status.Active?
    requires facts' == facts[id := facts[id].(status := Retracted, validUntil := Some(at))]
    ensures FactsOk(facts')
  {
    forall k | k in facts' && facts'[k].status.Superseded?
      ensures HasSuccessor(facts', k)
    {
      assert HasSuccessor(facts, k);
      var j :| j in facts && facts[j].supersedes == Some(k);
      assert facts'[j].supersedes == Some(k);
    }
  }

  // ----- What a put does -----------------------------------------------------------------------------------

  /** What a put does, row by row. A stored key answers with its fact if everything asked for is as stored, and
      changes nothing. A new fact is stored as asked for, and ends the one that was active in its slot, if that began
      before it. */
  predicate PutDoes(facts: Facts, d: Draft, known: bool, facts': Facts, r: Result<FactId, Error>) {
    && (forall i :: i in facts && facts[i].idempotencyKey == d.idempotencyKey ==>
          && facts' == facts
          && r == if facts[i].slot == d.slot && facts[i].content == d.content
                     && facts[i].validFrom == d.validFrom && facts[i].validUntil == d.validUntil
                  then Success(i) else Failure(Conflict))
    && (HasKey(facts, d.idempotencyKey) ||
        if !known then r == Failure(ScopeError) && facts' == facts
        else if d.id in facts || !CanFollow(facts, d) then r == Failure(Conflict) && facts' == facts
        else r == Success(d.id) && PutIn(facts, d, facts'))
  }

  /** Whatever is active in the slot began earlier. */
  predicate CanFollow(facts: Facts, d: Draft) {
    forall i :: i in facts && facts[i].slot == d.slot && facts[i].status.Active? ==> facts[i].validFrom < d.validFrom
  }

  predicate PutIn(facts: Facts, d: Draft, facts': Facts) {
    && facts'.Keys == facts.Keys + {d.id}
    && facts'[d.id].(supersedes := None) == Fact(d.slot, d.content, d.idempotencyKey, Active, d.validFrom, d.validUntil, None)
    && (facts'[d.id].supersedes.Some? ==> facts'[d.id].supersedes.value in facts && Ends(facts, d, facts'[d.id].supersedes.value))
    && (forall i :: i in facts && i != d.id ==>
          && (Ends(facts, d, i) ==>
                && facts'[i] == facts[i].(status := Superseded, validUntil := Some(d.validFrom))
                && facts'[d.id].supersedes == Some(i))
          && (!Ends(facts, d, i) ==> facts'[i] == facts[i]))
  }

  /** `i` is the active fact of the draft's slot. */
  predicate Ends(facts: Facts, d: Draft, i: FactId)
    requires i in facts
  {
    facts[i].slot == d.slot && facts[i].status.Active?
  }

  lemma InsertPutsIn(facts: Facts, d: Draft, facts': Facts)
    requires d.id !in facts && !HasActive(facts, d.slot) && facts' == facts[d.id := NewFact(d, None)]
    ensures PutIn(facts, d, facts')
  {
  }

  lemma SupersedePutsIn(facts: Facts, d: Draft, i: FactId, facts': Facts)
    requires d.id !in facts && i in facts && forall j :: j in facts ==> (Ends(facts, d, j) <==> j == i)
    requires facts' == facts[i := facts[i].(status := Superseded, validUntil := Some(d.validFrom))][d.id := NewFact(d, Some(i))]
    ensures PutIn(facts, d, facts')
  {
  }

  lemma FollowsIff(facts: Facts, d: Draft)
    requires OneActivePerSlot(facts)
    ensures CanFollow(facts, d) <==> HasActive(facts, d.slot) ==> facts[ActiveIn(facts, d.slot)].validFrom < d.validFrom
  {
  }

  lemma PutIsSo(facts: Facts, d: Draft, known: bool)
    requires FactsOk(facts)
    ensures var (facts', r) := Put(facts, d, known); PutDoes(facts, d, known, facts', r)
  {
    if !HasKey(facts, d.idempotencyKey) && known && d.id !in facts {
      FollowsIff(facts, d);
      NewPutIsSo(facts, d);
    }
  }

  lemma NewPutIsSo(facts: Facts, d: Draft)
    requires OneActivePerSlot(facts) && !HasKey(facts, d.idempotencyKey) && d.id !in facts
    ensures var (facts', r) := Put(facts, d, true);
            if HasActive(facts, d.slot) && d.validFrom <= facts[ActiveIn(facts, d.slot)].validFrom
            then r == Failure(Conflict) && facts' == facts
            else r == Success(d.id) && PutIn(facts, d, facts')
  {
    var facts' := Put(facts, d, true).0;
    if !HasActive(facts, d.slot) {
      InsertPutsIn(facts, d, facts');
    } else if d.validFrom > facts[ActiveIn(facts, d.slot)].validFrom {
      SupersedePutsIn(facts, d, ActiveIn(facts, d.slot), facts');
    }
  }

  // ----- The store itself -----------------------------------------------------------------------------------

  class MemoryRepository {
    var facts: map<FactId, Fact>

    ghost predicate Valid()
      reads this
    {
      FactsOk(facts)
    }

    constructor ()
      ensures Valid() && facts == map[]
    {
      facts := map[];
    }

    /** The predecessor is ended and flushed first, then the new row inserted; a duplicate id undoes both. */
    method PutFact(d: Draft, known: bool) returns (r: Result<FactId, Error>)
      requires Valid()
      modifies this
      ensures Valid()
      ensures (facts, r) == Put(old(facts), d, known)
      ensures PutDoes(old(facts), d, known, facts, r)
    {
      PutOk(facts, d, known);
      PutIsSo(facts, d, known);
      if i :| i in facts && facts[i].idempotencyKey == d.idempotencyKey {
        ByKeyIsUnique(facts, i);
        return if SameRequest(facts[i], d) then Success(i) else Failure(Conflict);
      }
      if !known {
        return Failure(ScopeError);
      }
      var before := facts;
      var predecessor: Option<FactId> := None;
      if i :| i in facts && facts[i].slot == d.slot && facts[i].status.Active? {
        ActiveIsUnique(facts, i);
        if d.validFrom <= facts[i].validFrom {
          return Failure(Conflict);
        }
        facts := facts[i := facts[i].(status := Superseded, validUntil := Some(d.validFrom))];
        predecessor := Some(i);
      }
      if d.id in facts {
        facts := before;
        return Failure(Conflict);
      }
      facts := facts[d.id := NewFact(d, predecessor)];
      r := Success(d.id);
    }

    method RetractFact(id: FactId, at: Time) returns (r: Result<(), Error>)
      requires Valid()
      modifies this
      ensures Valid()
      ensures (facts, r) == Retract(old(facts), id, at)
      ensures r == Failure(NotFound) <==> id !in old(facts) || !old(facts)[id].status.Active?
      ensures r == Failure(Conflict) <==> id in old(facts) && old(facts)[id].status.Active? && at <= old(facts)[id].validFrom
      ensures r.Success? ==> facts == old(facts)[id := old(facts)[id].(status := Retracted, validUntil := Some(at))]
      ensures r.Failure? ==> facts == old(facts)
    {
      RetractOk(facts, id, at);
      if id !in facts || !facts[id].status.Active? {
        return Failure(NotFound);
      }
      if at <= facts[id].validFrom {
        return Failure(Conflict);
      }
      facts := facts[id := facts[id].(status := Retracted, validUntil := Some(at))];
      r := Success(());
    }
  }

  // ----- Every history ----------------------------------------------------------------------------------------

  datatype Event = PutEvent(draft: Draft, known: bool) | RetractEvent(id: FactId, at: Time)

  ghost function Step(facts: Facts, ev: Event): Facts {
    match ev
    case PutEvent(d, known) => Put(facts, d, known).0
    case RetractEvent(id, at) => Retract(facts, id, at).0
  }

  ghost function Run(facts: Facts, events: seq<Event>): Facts
    decreases |events|
  {
    if events == [] then facts else Run(Step(facts, events[0]), events[1..])
  }

  lemma StepOk(facts: Facts, ev: Event)
    requires FactsOk(facts)
    ensures FactsOk(Step(facts, ev))
  {
    match ev
    case PutEvent(d, known) => PutOk(facts, d, known);
    case RetractEvent(id, at) => RetractOk(facts, id, at);
  }

  /** In every reachable store each slot has at most one active fact and the supersession links stay in
      the slot, are injective, and join windows end to start with strictly increasing starts. */
  lemma {:induction false} RunOk(facts: Facts, events: seq<Event>)
    requires FactsOk(facts)
    ensures FactsOk(Run(facts, events))
    decreases |events|
  {
    if events != [] {
      StepOk(facts, events[0]);
      RunOk(Step(facts, events[0]), events[1..]);
    }
  }

  /** The fact `steps` supersession links back from `id`, if there are as many. */
  function Ancestor(facts: Facts, id: FactId, steps: nat): Option<FactId>
    decreases steps
  {
    if id !in facts then None
    else if steps == 0 then Some(id)
    else if facts[id].supersedes.None? then None
    else Ancestor(facts, facts[id].supersedes.value, steps - 1)
  }

  /** Links never lead back: every ancestor is an older, superseded fact of the same slot. */
  lemma {:induction false} ChainsAreAcyclic(facts: Facts, id: FactId, steps: nat)
    requires FactsOk(facts) && steps > 0 && Ancestor(facts, id, steps).Some?
    ensures var a := Ancestor(facts, id, steps).value;
            && a != id && a in facts && id in facts
            && facts[a].slot == facts[id].slot && facts[a].status.Superseded?
            && facts[a].validFrom < facts[id].validFrom
            && facts[a].validUntil.Some? && facts[a].validUntil.value <= facts[id].validFrom
    decreases steps
  {
    var p := facts[id].supersedes.value;
    assert Succeeds(facts, p, id);
    if steps > 1 {
      ChainsAreAcyclic(facts, p, steps - 1);
    }
  }

  // ----- Replays ------------------------------------------------------------------------------------------------

  /** What never changes about a stored fact; its window's end changes only when it stops being active. */
  predicate Kept(f: Fact, f': Fact) {
    && f' == f.(status := f'.status, validUntil := f'.validUntil)
    && (f'.status == f.status ==> f'.validUntil == f.validUntil)
    && (f'.status.Active? ==> f.status.Active?)
  }

  lemma StepKeeps(facts: Facts, ev: Event, id: FactId)
    requires id in facts
    ensures id in Step(facts, ev) && Kept(facts[id], Step(facts, ev)[id])
  {
  }

  lemma {:induction false} RunKeeps(facts: Facts, events: seq<Event>, id: FactId)
    requires id in facts
    ensures id in Run(facts, events)
    ensures var f, f' := facts[id], Run(facts, events)[id];
            f' == f.(status := f'.status, validUntil := f'.validUntil) && (f'.status.Active? ==> f' == f)
    decreases |events|
  {
    if events != [] {
      StepKeeps(facts, events[0], id);
      RunKeeps(Step(facts, events[0]), events[1..], id);
    }
  }

  /** Repeating a request, however much later, never changes the store; and it answers with the fact it
      first stored exactly while that fact's window still ends where the request said, which it does at
      least as long as the fact is active. */
  lemma ReplayChangesNothing(facts: Facts, d: Draft, events: seq<Event>, known: bool)
    requires FactsOk(facts) && !HasKey(facts, d.idempotencyKey) && Put(facts, d, true).1.Success?
    ensures var now := Run(Put(facts, d, true).0, events);
            && d.id in now
            && Put(now, d, known).0 == now
            && (Put(now, d, known).1 == Success(d.id) <==> now[d.id].validUntil == d.validUntil)
            && (now[d.id].status.Active? ==> now[d.id].validUntil == d.validUntil)
            && (now[d.id].validUntil != d.validUntil ==> Put(now, d, known).1 == Failure(Conflict))
  {
    var stored := Put(facts, d, true).0;
    var now := Run(stored, events);
    PutOk(facts, d, true);
    RunOk(stored, events);
    assert d.id in stored && stored[d.id].idempotencyKey == d.idempotencyKey && stored[d.id].validUntil == d.validUntil;
    RunKeeps(stored, events, d.id);
    ByKeyIsUnique(now, d.id);
  }

  /** So a replay after supersession is refused: store a fact without an end, supersede it, repeat. */
  lemma ReplayAfterSupersessionIsRefused()
    ensures var slot := Slot("profile", "city", Workspace);
            var first, second := Draft(1, slot, "Oslo", "a", 0, None), Draft(2, slot, "Bergen", "b", 5, None);
            var once := Put(map[], first, true).0;
            var twice := Put(once, second, true).0;
            Put(once, first, true).1 == Success(1) && Put(twice, first, true).1 == Failure(Conflict)
  {
    var slot := Slot("profile", "city", Workspace);
    var first, second := Draft(1, slot, "Oslo", "a", 0, None), Draft(2, slot, "Bergen", "b", 5, None);
    var once := Put(map[], first, true).0;
    assert once[1].idempotencyKey == "a" && "a" != "b";
    assert forall i :: i in once ==> i == 1;
    assert HasActive(once, slot) && ActiveIn(once, slot) == 1;
    var twice := Put(once, second, true).0;
    assert twice[1].idempotencyKey == "a" && forall i :: i in twice && twice[i].idempotencyKey == "a" ==> i == 1;
  }
}
