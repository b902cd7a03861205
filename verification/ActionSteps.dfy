/** `Keeps`, for claims, the boundary mark, releases and failures. */
module ActionSteps {
  import opened Wrappers
  import opened CanonicalEmail
  import opened ActionTables
  import opened ActionTransitions
  import opened ActionInvariant
  import opened ActionPreservation

  // ----- Claims, boundaries and failures ------------------------------------------------------------

  lemma TypedFromFamily(canon: Email -> Option<Email>, t: Tables, id: ProposalId)
    requires FamilyOk(canon, t, id.root) && id in t.actions
    ensures Typed(t, id)
  {
    if id.Update? {
      assert UpdateTerms(canon, t, id.root, id.version);
    }
    if id.Send? {
      assert SendTerms(canon, t, id.root, id.version);
    }
  }

  /** Terms survive a change of statuses only. */
  lemma SteadyTerms(canon: Email -> Option<Email>, t: Tables, t': Tables, r: string)
    requires Roster(t, r) && Roster(t', r) && Terms(canon, t, r) && SteadyRoot(t, t', r)
    requires forall id: ProposalId :: id.root == r && id in t'.proposals ==> id in t.proposals
    requires forall id: ProposalId :: id.root == r && id in t'.actions && id !in t.actions ==>
               id in t.proposals && t'.actions[id].capability == t.proposals[id].capability
    requires r in t'.drafts ==>
               r in t.drafts && t'.drafts[r] == t.drafts[r].(status := t'.drafts[r].status)
    ensures Terms(canon, t', r)
  {
    if Create(r) in t.proposals {
      if r in t'.drafts {
        assert SendTerms(canon, t, r, t.drafts[r].version);
      }
      TermsCarry(canon, t, t', r);
    }
  }

  lemma SetActionElsewhere(t: Tables, id: ProposalId, a: Action)
    ensures Elsewhere(t, SetAction(t, id, a), id.root)
  {
  }

  lemma SetActionSteady(t: Tables, id: ProposalId, a: Action)
    requires id in t.actions && a.capability == t.actions[id].capability
    ensures SteadyRoot(t, SetAction(t, id, a), id.root)
  {
  }

  lemma LiveActionFamily(canon: Email -> Option<Email>, t: Tables, id: ProposalId, a: Action)
    requires FamilyOk(canon, t, id.root)
    requires id in t.actions && !Terminal(t.actions[id].status)
    requires !Terminal(a.status) && a.capability == t.actions[id].capability
    ensures FamilyOk(canon, SetAction(t, id, a), id.root)
  {
    LiveActionLockstep(t, id, a);
    SetActionSteady(t, id, a);
    SteadyTerms(canon, t, SetAction(t, id, a), id.root);
  }

  lemma RootRowsFromRows(t: Tables, r: string)
    requires RowsOk(t)
    ensures RootRowsOk(t, r)
  {
  }

  lemma SetActionRootRows(t: Tables, id: ProposalId, a: Action)
    requires RootRowsOk(t, id.root) && id in t.actions && id !in t.results && !Terminal(a.status)
    requires (a.status.Running? <==> a.claim.Some?) && (a.status.Running? <==> a.lease.Some?) && (a.status.Queued? ==> a.started.None?)
    ensures RootRowsOk(SetAction(t, id, a), id.root)
  {
    var t', r := SetAction(t, id, a), id.root;
    forall i | i in t'.actions && i.root == r
      ensures ActionOk(t', i)
    {
      assert i != id ==> ActionOk(t, i);
    }
  }

  lemma OnlyLiveAction(t: Tables, id: ProposalId)
    requires Roster(t, id.root) && Lockstep(t, id.root)
    requires id in t.actions && !Terminal(t.actions[id].status)
    ensures forall i :: i in t.actions && i.root == id.root && t.actions[i].status.Running? ==> i == id
  {
    forall i | i in t.actions && i.root == id.root && t.actions[i].status.Running?
      ensures i == id
    {
      OneLiveAction(t, i, id);
    }
  }

  lemma SetActionEvolves(t: Tables, id: ProposalId, a: Action, actor: Option<nat>, minted: nat)
    requires id in t.actions && ActionEvolves(t.actions[id], a, minted)
    requires t.actions[id].status.Running? && t.actions[id].claim != actor ==> Overtaken(t.actions[id], a, minted)
    requires forall i :: i in t.actions && i.root == id.root && t.actions[i].status.Running? ==> i == id
    requires RootRowsOk(t, id.root)
    ensures RootEvolves(t, SetAction(t, id, a), id.root, actor, minted)
  {
    SetActionSteady(t, id, a);
    var t' := SetAction(t, id, a);
    forall i | i in t.actions && i.root == id.root && t.actions[i].status.Running? && t.actions[i].claim != actor
      ensures Overtaken(t.actions[i], t'.actions[i], minted)
    {
      assert i == id;
    }
  }

  lemma LiveActionKeeps(canon: Email -> Option<Email>, t: Tables, id: ProposalId, a: Action, actor: Option<nat>, minted: nat)
    requires TablesOk(canon, t)
    requires id in t.actions && !Terminal(t.actions[id].status) && !Terminal(a.status)
    requires ActionEvolves(t.actions[id], a, minted)
    requires (a.status.Running? <==> a.claim.Some?) && (a.status.Running? <==> a.lease.Some?) && (a.status.Queued? ==> a.started.None?)
    requires t.actions[id].status.Running? && t.actions[id].claim != actor ==> Overtaken(t.actions[id], a, minted)
    ensures Keeps(canon, t, SetAction(t, id, a), actor, minted)
  {
    var t', r := SetAction(t, id, a), id.root;
    assert FamilyOk(canon, t, r) && ActionOk(t, id);
    LiveActionFamily(canon, t, id, a);
    RootRowsFromRows(t, r);
    SetActionElsewhere(t, id, a);
    SetActionRootRows(t, id, a);
    OnlyLiveAction(t, id);
    SetActionEvolves(t, id, a, actor, minted);
    OneRoot(canon, t, t', r, actor, minted);
  }

  lemma EndsElsewhere(t: Tables, t': Tables, id: ProposalId, s: ActionStatus)
    requires id in t.actions && id in t.proposals && Ends(t, t', id, s)
    ensures Elsewhere(t, t', id.root)
  {
    RowAside(t.proposals, t'.proposals, id, t'.proposals[id]);
    RowAside(t.actions, t'.actions, id, t'.actions[id]);
    RowAside(t.results, t'.results, id, s);
    if !id.Create? {
      DraftAside(t.drafts, t'.drafts, id.root, t'.drafts[id.root]);
    }
  }

  lemma EndsFamily(canon: Email -> Option<Email>, t: Tables, t': Tables, id: ProposalId, s: ActionStatus)
    requires FamilyOk(canon, t, id.root) && Typed(t, id)
    requires !Terminal(t.actions[id].status)
    requires Terminal(s) && (s.Succeeded? ==> id.Send? || id.Delete?)
    requires Ends(t, t', id, s)
    ensures FamilyOk(canon, t', id.root)
  {
    EndsLockstep(t, t', id, s);
    EndsSteady(t, t', id, s);
    SteadyTerms(canon, t, t', id.root);
  }

  lemma EndsRootRows(t: Tables, t': Tables, id: ProposalId, s: ActionStatus)
    requires RootRowsOk(t, id.root) && id in t.actions && id in t.proposals && Terminal(s)
    requires Ends(t, t', id, s)
    ensures RootRowsOk(t', id.root)
  {
    forall i | i in t'.actions && i.root == id.root
      ensures ActionOk(t', i)
    {
      assert i != id ==> ActionOk(t, i);
    }
  }

  lemma EndsSteady(t: Tables, t': Tables, id: ProposalId, s: ActionStatus)
    requires id in t.actions && id in t.proposals && Ends(t, t', id, s)
    ensures SteadyRoot(t, t', id.root)
  {
  }

  lemma EndsEvolves(t: Tables, t': Tables, id: ProposalId, s: ActionStatus, actor: Option<nat>, minted: nat)
    requires id in t.actions && id in t.proposals && t.actions[id].status.Running? && Terminal(s)
    requires t.actions[id].claim == actor || (s.Unknown? && t.actions[id].started.Some?)
    requires forall i :: i in t.actions && i.root == id.root && t.actions[i].status.Running? ==> i == id
    requires Ends(t, t', id, s)
    ensures RootEvolves(t, t', id.root, actor, minted)
  {
    EndsSteady(t, t', id, s);
  }

  lemma EndsUnique(t: Tables, t': Tables, id: ProposalId, s: ActionStatus)
    requires id in t.actions && id in t.proposals && Ends(t, t', id, s)
    requires UniqueTokens(t) && UniqueProviderDrafts(t) && OneActiveSession(t)
    ensures UniqueTokens(t') && UniqueProviderDrafts(t') && OneActiveSession(t')
  {
  }

  lemma SettledKeeps(canon: Email -> Option<Email>, t: Tables, id: ProposalId, s: ActionStatus, actor: Option<nat>, minted: nat)
    requires TablesOk(canon, t)
    requires id in t.actions && t.actions[id].status.Running?
    requires Terminal(s) && (s.Succeeded? ==> id.Send? || id.Delete?)
    requires t.actions[id].claim == actor || (s.Unknown? && t.actions[id].started.Some?)
    ensures Keeps(canon, t, Settled(t, id, s), actor, minted)
  {
    var t', r := Settled(t, id, s), id.root;
    assert FamilyOk(canon, t, r) && ActionOk(t, id);
    TypedFromFamily(canon, t, id);
    LiveActionIsNewest(t, id);
    SettledEnds(t, id, s);
    EndsFamily(canon, t, t', id, s);
    RootRowsFromRows(t, r);
    EndsElsewhere(t, t', id, s);
    EndsRootRows(t, t', id, s);
    OnlyLiveAction(t, id);
    EndsEvolves(t, t', id, s, actor, minted);
    EndsUnique(t, t', id, s);
    OneRoot(canon, t, t', r, actor, minted);
  }

  lemma CloseFailedIsSettled(canon: Email -> Option<Email>, t: Tables, id: ProposalId, s: ActionStatus)
    requires TablesOk(canon, t)
    requires id in t.actions && !Terminal(t.actions[id].status)
    requires s.Failed? || s.Unknown?
    ensures CloseFailed(t, id, s, if s.Unknown? then DraftStatus.Unknown else DraftStatus.Ready) == Settled(t, id, s)
  {
    assert FamilyOk(canon, t, id.root) && ActionOk(t, id);
    ManagedForIsNewest(canon, t, id);
  }

  /** The row of a claimed action. */
  function Taken(a: Action, now: Time, lease: int, minted: nat): Action {
    a.(status := ActionStatus.Running, claim := Some(minted), lease := Some(now + lease), attempts := a.attempts + 1)
  }

  lemma ClaimTakes(t: Tables, id: ProposalId, now: Time, lease: int, minted: nat)
    requires ClaimAction(t, id, now, lease, minted).1.Claimed? && ActionOk(t, id)
    ensures ClaimAction(t, id, now, lease, minted).0 == SetAction(t, id, Taken(t.actions[id], now, lease, minted))
    ensures !Terminal(t.actions[id].status) && t.actions[id].started.None?
  {
  }

  lemma TakenKeeps(canon: Email -> Option<Email>, t: Tables, id: ProposalId, now: Time, lease: int, minted: nat)
    requires TablesOk(canon, t) && id in t.actions && !Terminal(t.actions[id].status) && t.actions[id].started.None?
    ensures Keeps(canon, t, SetAction(t, id, Taken(t.actions[id], now, lease, minted)), None, minted)
  {
    LiveActionKeeps(canon, t, id, Taken(t.actions[id], now, lease, minted), None, minted);
  }

  lemma UnknownKeeps(canon: Email -> Option<Email>, t: Tables, id: ProposalId, minted: nat)
    requires TablesOk(canon, t) && id in t.actions && t.actions[id].status.Running? && t.actions[id].started.Some?
    ensures Keeps(canon, t, CloseFailed(t, id, ActionStatus.Unknown, DraftStatus.Unknown), None, minted)
  {
    CloseFailedIsSettled(canon, t, id, ActionStatus.Unknown);
    SettledKeeps(canon, t, id, ActionStatus.Unknown, None, minted);
  }

  lemma ClaimedKeeps(canon: Email -> Option<Email>, t: Tables, id: ProposalId, now: Time, lease: int, minted: nat)
    requires TablesOk(canon, t) && ClaimAction(t, id, now, lease, minted).1.Claimed?
    ensures Keeps(canon, t, ClaimAction(t, id, now, lease, minted).0, None, minted)
  {
    assert ActionOk(t, id);
    ClaimTakes(t, id, now, lease, minted);
    TakenKeeps(canon, t, id, now, lease, minted);
  }

  lemma ClaimActionKeeps(canon: Email -> Option<Email>, t: Tables, id: ProposalId, now: Time, lease: int, minted: nat)
    requires TablesOk(canon, t)
    ensures Keeps(canon, t, ClaimAction(t, id, now, lease, minted).0, None, minted)
  {
    match ClaimAction(t, id, now, lease, minted).1
    case NothingToDo => NothingKeeps(canon, t, None, minted);
    case Busy => NothingKeeps(canon, t, None, minted);
    case OutcomeUnknown => UnknownKeeps(canon, t, id, minted);
    case Claimed(_) => ClaimedKeeps(canon, t, id, now, lease, minted);
  }

  lemma ClosedRows(t: Tables, id: ProposalId, s: ActionStatus, p: ProposalStatus)
    requires id in t.actions && id !in t.results
    ensures var t' := Close(t, id, s, p);
            id in t'.actions && id in t'.results && t'.actions[id].status == s && t'.results[id] == s
  {
  }

  lemma ClosedFailedRows(t: Tables, id: ProposalId, s: ActionStatus, d: DraftStatus)
    requires id in t.actions && id !in t.results
    ensures var t' := CloseFailed(t, id, s, d);
            id in t'.actions && id in t'.results && t'.actions[id].status == s && t'.results[id] == s
  {
    ClosedRows(t, id, s, ProposalStatus.Failed);
  }

  /** Who may take a running action over, and when: nobody while its lease runs, anybody afterwards as long
      as the provider call has not been marked. */
  lemma TakeoverNeedsExpiredLease(t: Tables, id: ProposalId, now: Time, lease: int, minted: nat)
    requires id in t.actions && ActionOk(t, id) && t.actions[id].status.Running?
    ensures var (t', r) := ClaimAction(t, id, now, lease, minted);
            && (t.actions[id].lease.value > now <==> r.Busy?)
            && (r.Busy? ==> t' == t)
            && (r.Claimed? <==> t.actions[id].lease.value <= now && t.actions[id].started.None?)
            && (r.Claimed? ==>
                  r.claim.action == id && Current(t', r.claim)
                  && t'.actions[id].lease == Some(now + lease) && t'.actions[id].started.None?)
            && (r.OutcomeUnknown? <==> t.actions[id].lease.value <= now && t.actions[id].started.Some?)
            && (r.OutcomeUnknown? ==>
                  id in t'.actions && id in t'.results && t'.actions[id].status.Unknown? && t'.results[id].Unknown?)
  {
    ClosedFailedRows(t, id, ActionStatus.Unknown, DraftStatus.Unknown);
  }

  lemma MarkStartedKeeps(canon: Email -> Option<Email>, t: Tables, c: Claim, now: Time, minted: nat)
    requires TablesOk(canon, t)
    ensures Keeps(canon, t, MarkStarted(t, c, now).0, Some(c.id), minted)
  {
    if MarkStarted(t, c, now).1 {
      var a := t.actions[c.action].(started := Some(now));
      assert ActionOk(t, c.action) && MarkStarted(t, c, now).0 == SetAction(t, c.action, a);
      LiveActionKeeps(canon, t, c.action, a, Some(c.id), minted);
    }
  }

  lemma ReleaseKeeps(canon: Email -> Option<Email>, t: Tables, c: Claim, minted: nat)
    requires TablesOk(canon, t)
    ensures Keeps(canon, t, ReleaseBeforeProvider(t, c), Some(c.id), minted)
  {
    if Current(t, c) && t.actions[c.action].started.None? {
      var a := t.actions[c.action].(status := ActionStatus.Queued, claim := None, lease := None);
      assert ReleaseBeforeProvider(t, c) == SetAction(t, c.action, a);
      LiveActionKeeps(canon, t, c.action, a, Some(c.id), minted);
    }
  }

  lemma FailValidationKeeps(canon: Email -> Option<Email>, t: Tables, c: Claim, minted: nat)
    requires TablesOk(canon, t)
    ensures Keeps(canon, t, FailValidation(t, c), Some(c.id), minted)
  {
    if Current(t, c) {
      CloseFailedIsSettled(canon, t, c.action, ActionStatus.Failed);
      SettledKeeps(canon, t, c.action, ActionStatus.Failed, Some(c.id), minted);
    }
  }

  lemma MarkUnknownKeeps(canon: Email -> Option<Email>, t: Tables, c: Claim, minted: nat)
    requires TablesOk(canon, t)
    ensures Keeps(canon, t, MarkUnknown(t, c), Some(c.id), minted)
  {
    if Current(t, c) {
      CloseFailedIsSettled(canon, t, c.action, ActionStatus.Unknown);
      SettledKeeps(canon, t, c.action, ActionStatus.Unknown, Some(c.id), minted);
    }
  }

  /** Connectors, notices, callback tokens and sessions that lapse are no part of any root's story. */
  ghost predicate Aside(t: Tables, t': Tables) {
    && t'.proposals == t.proposals && t'.actions == t.actions && t'.results == t.results && t'.drafts == t.drafts
    && t'.approvals == t.approvals && t'.sessions == t.sessions
  }

  lemma AsideFamilies(canon: Email -> Option<Email>, t: Tables, t': Tables)
    requires (forall r: string :: FamilyOk(canon, t, r)) && Aside(t, t')
    ensures forall r: string :: FamilyOk(canon, t', r)
  {
    forall r: string
      ensures FamilyOk(canon, t', r)
    {
      assert FamilyOk(canon, t, r);
      AgreeKeepsFamily(canon, t, t', r);
    }
  }

  lemma AsideRows(t: Tables, t': Tables)
    requires RowsOk(t) && Aside(t, t')
    ensures RowsOk(t')
  {
    forall id | id in t'.actions
      ensures ActionOk(t', id)
    {
      assert ActionOk(t, id);
    }
  }

  lemma AsideEvolves(t: Tables, t1: Tables, t': Tables, actor: Option<nat>, minted: nat)
    requires Evolves(t, t1, actor, minted) && Aside(t1, t')
    ensures Evolves(t, t', actor, minted)
  {
    forall id | id in t.actions && t.actions[id].status.Running? && t.actions[id].claim != actor
      ensures Untouched(t, t', id.root) || Overtaken(t.actions[id], t'.actions[id], minted)
    {
      if Untouched(t, t1, id.root) {
        assert Untouched(t, t', id.root);
      }
    }
  }

  lemma AsideKeeps(canon: Email -> Option<Email>, t: Tables, t1: Tables, t': Tables, actor: Option<nat>, minted: nat)
    requires Keeps(canon, t, t1, actor, minted) && Aside(t1, t')
    ensures Keeps(canon, t, t', actor, minted)
  {
    AsideFamilies(canon, t1, t');
    AsideRows(t1, t');
    AsideEvolves(t, t1, t', actor, minted);
  }

  lemma MarkUnavailableIsAside(t: Tables, c: Claim, connector: string, preserved: bool)
    ensures Aside(FailValidation(t, c), MarkUnavailable(t, c, connector, preserved))
  {
  }

  lemma MarkUnavailableKeeps(canon: Email -> Option<Email>, t: Tables, c: Claim, connector: string, preserved: bool, minted: nat)
    requires TablesOk(canon, t)
    ensures Keeps(canon, t, MarkUnavailable(t, c, connector, preserved), Some(c.id), minted)
  {
    FailValidationKeeps(canon, t, c, minted);
    MarkUnavailableIsAside(t, c, connector, preserved);
    AsideKeeps(canon, t, FailValidation(t, c), MarkUnavailable(t, c, connector, preserved), Some(c.id), minted);
  }
}
