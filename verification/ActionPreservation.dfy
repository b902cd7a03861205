/** Every transaction keeps `TablesOk`, and disturbs only what it may. */
module ActionPreservation {
  import opened Wrappers
  import opened CanonicalEmail
  import opened ActionTables
  import opened ActionTransitions
  import opened ActionInvariant

  // ----- What one transaction may do ----------------------------------------------------------------

  /** The rows an executor reads for an action of root `r` are exactly as they were. */
  ghost predicate Untouched(t: Tables, t': Tables, r: string) {
    && (forall id: ProposalId :: id.root == r ==>
          && (id in t.proposals <==> id in t'.proposals)
          && (id in t.proposals ==> t'.proposals[id] == t.proposals[id]))
    && (forall id: ProposalId :: id.root == r ==>
          && (id in t.actions <==> id in t'.actions)
          && (id in t.actions ==> t'.actions[id] == t.actions[id]))
    && (forall id: ProposalId :: id.root == r ==>
          && (id in t.approvals <==> id in t'.approvals)
          && (id in t.approvals ==> t'.approvals[id] == t.approvals[id]))
    && (r in t.drafts <==> r in t'.drafts)
    && (r in t.drafts ==> t'.drafts[r] == t.drafts[r])
  }

  predicate SameProposalTerms(p: Proposal, p': Proposal) {
    p' == p.(status := p'.status)
  }

  predicate SameApprovalTerms(a: Approval, a': Approval) {
    && a' == a.(status := a'.status, token := a'.token)
    && (!a.status.Pending? ==> a'.status == a.status)
  }

  /** A running action lost its claim: to a new claim if no provider call had started, else for good. */
  predicate Overtaken(a: Action, a': Action, minted: nat) {
    || (a'.status.Running? && a'.claim == Some(minted) && a.started.None? && a'.started.None?)
    || (a'.status.Unknown? && a.started.Some? && a'.started == a.started)
  }

  predicate ActionEvolves(a: Action, a': Action, minted: nat) {
    && a'.capability == a.capability
    && (a'.claim == a.claim || a'.claim == None || a'.claim == Some(minted))
    && (Terminal(a.status) ==> a' == a)
    && (a.started.Some? ==> a'.started == a.started)
    && (a.status.Queued? ==>
          && a'.started == a.started
          && (a'.status.Queued? || (a'.status.Running? && a'.claim == Some(minted))))
  }

  /** One transaction, made under claim `actor` if any, with `minted` the claim id it may hand out. */
  ghost predicate Evolves(t: Tables, t': Tables, actor: Option<nat>, minted: nat) {
    && (forall id :: id in t.proposals ==> id in t'.proposals && SameProposalTerms(t.proposals[id], t'.proposals[id]))
    && (forall id :: id in t.approvals ==> id in t'.approvals && SameApprovalTerms(t.approvals[id], t'.approvals[id]))
    && (forall r :: r in t.drafts ==> r in t'.drafts && t'.drafts[r].provider == t.drafts[r].provider)
    && (forall id :: id in t.actions ==> id in t'.actions && ActionEvolves(t.actions[id], t'.actions[id], minted))
    && (forall id :: id in t'.actions && id !in t.actions ==> t'.actions[id].status.Queued? && t'.actions[id].started.None?)
    && (forall id :: id in t.actions && t.actions[id].status.Running? && t.actions[id].claim != actor ==>
          Untouched(t, t', id.root) || Overtaken(t.actions[id], t'.actions[id], minted))
  }

  /** The two obligations of every transaction. */
  ghost predicate Keeps(canon: Email -> Option<Email>, t: Tables, t': Tables, actor: Option<nat>, minted: nat) {
    TablesOk(canon, t') && Evolves(t, t', actor, minted)
  }

  lemma NothingKeeps(canon: Email -> Option<Email>, t: Tables, actor: Option<nat>, minted: nat)
    requires TablesOk(canon, t)
    ensures Keeps(canon, t, t, actor, minted)
  {
  }

  // ----- Terms --------------------------------------------------------------------------------------

  /** Rows of root `r` may change status only. */
  ghost predicate SteadyRoot(t: Tables, t': Tables, r: string) {
    && (forall id: ProposalId :: id.root == r && id in t.proposals ==>
          id in t'.proposals && SameProposalTerms(t.proposals[id], t'.proposals[id]))
    && (forall id: ProposalId :: id.root == r && id in t.approvals ==>
          id in t'.approvals && SameApprovalTerms(t.approvals[id], t'.approvals[id]))
    && (forall id: ProposalId :: id.root == r && id in t.actions ==>
          id in t'.actions && t'.actions[id].capability == t.actions[id].capability)
    && (r in t.drafts ==> r in t'.drafts && t'.drafts[r].provider == t.drafts[r].provider)
  }

  /** Terms survive such a change once the new rows and the draft's new head have been checked. */
  lemma TermsCarry(canon: Email -> Option<Email>, t: Tables, t': Tables, r: string)
    requires Roster(t, r) && Roster(t', r) && Terms(canon, t, r) && SteadyRoot(t, t', r)
    requires Create(r) in t.proposals
    requires Create(r) in t'.actions ==> Create(r) in t.actions
    requires r in t'.drafts ==>
               && t'.drafts[r].active == Send(r, t'.drafts[r].version)
               && t'.drafts[r].hash == t'.proposals[Send(r, t'.drafts[r].version)].hash
               && t'.drafts[r].provider.connector == t.proposals[Create(r)].connector
    requires forall k: nat :: Send(r, k) in t'.proposals && Send(r, k) !in t.proposals ==> SendTerms(canon, t', r, k)
    requires forall k: nat :: Send(r, k) in t'.actions && Send(r, k) !in t.actions ==> t'.actions[Send(r, k)].capability.SendDraft?
    requires forall k: nat :: Update(r, k) in t'.proposals && Update(r, k) !in t.proposals ==> UpdateTerms(canon, t', r, k)
    requires Delete(r) in t'.proposals ==>
               && r in t'.drafts
               && if Delete(r) in t.proposals then t'.drafts[r].version == t.drafts[r].version else DeleteTerms(canon, t', r)
    ensures Terms(canon, t', r)
  {
    forall k: nat | Send(r, k) in t'.proposals && r in t'.drafts
      ensures SendTerms(canon, t', r, k)
    {
      if Send(r, k) in t.proposals {
        assert SendTerms(canon, t, r, k);
      }
    }
    forall k: nat | Update(r, k) in t'.proposals && r in t'.drafts
      ensures UpdateTerms(canon, t', r, k)
    {
      if Update(r, k) in t.proposals {
        assert UpdateTerms(canon, t, r, k);
      }
    }
  }

  // ----- A live action stays live -------------------------------------------------------------------

  /** Replacing a queued or running action row by another queued or running one changes no story. */
  lemma LiveActionLockstep(t: Tables, id: ProposalId, a: Action)
    requires Roster(t, id.root) && Lockstep(t, id.root)
    requires id in t.actions && !Terminal(t.actions[id].status)
    requires !Terminal(a.status) && a.capability == t.actions[id].capability
    ensures Roster(SetAction(t, id, a), id.root) && Lockstep(SetAction(t, id, a), id.root)
  {
    var t', r := SetAction(t, id, a), id.root;
    assert Roster(t', r);
    forall k: nat | r in t.drafts && 1 <= k < t.drafts[r].version
      ensures PastVersion(t', r, k)
    {
      assert PastVersion(t, r, k);
    }
  }

  // ----- Lockstep, transaction by transaction -------------------------------------------------------

  lemma ManagedForIsNewest(canon: Email -> Option<Email>, t: Tables, id: ProposalId)
    requires FamilyOk(canon, t, id.root)
    requires id in t.actions && !Terminal(t.actions[id].status)
    ensures id in t.proposals
    ensures ManagedFor(t, id, t.proposals[id].capability, t.proposals[id].supersedes) == if id.Create? then None else Some(id.root)
  {
    LiveActionIsNewest(t, id);
    if id.Update? {
      assert UpdateTerms(canon, t, id.root, id.version);
    }
    if id.Send? {
      assert SendTerms(canon, t, id.root, id.version);
    }
  }

  /** An action that ended with status `s`, its result, its proposal and its draft. */
  function Settled(t: Tables, id: ProposalId, s: ActionStatus): Tables
    requires id in t.actions
  {
    SetDraftStatus(Close(t, id, s, if s.Succeeded? then ProposalStatus.Completed else ProposalStatus.Failed),
                   if id.Create? then None else Some(id.root),
                   DraftStatusUnder(t.actions[id].capability, s))
  }

  /** The same, table by table. */
  predicate Ends(t: Tables, t': Tables, id: ProposalId, s: ActionStatus)
    requires id in t.actions && id in t.proposals
  {
    && t'.actions == t.actions[id := t.actions[id].(status := s, claim := None, lease := None)]
    && t'.results == t.results[id := s]
    && t'.proposals == t.proposals[id := t.proposals[id].(
         status := if s.Succeeded? then ProposalStatus.Completed else ProposalStatus.Failed)]
    && t'.approvals == t.approvals && t'.sessions == t.sessions
    && (id.Create? ==> t'.drafts == t.drafts)
    && (!id.Create? ==>
          && id.root in t.drafts
          && t'.drafts == t.drafts[id.root := t.drafts[id.root].(
               status := DraftStatusUnder(t.actions[id].capability, s))])
  }

  lemma SettledEnds(t: Tables, id: ProposalId, s: ActionStatus)
    requires id in t.actions && id in t.proposals && id !in t.results
    requires id.Create? || id.root in t.drafts
    ensures Ends(t, Settled(t, id, s), id, s)
  {
  }

  /** Which capability an id has, and that its proposal exists. */
  predicate Typed(t: Tables, id: ProposalId) {
    && id in t.actions && id in t.proposals
    && match id
       case Create(_) => t.actions[id].capability.CreateDraft?
       case Send(_, _) => t.actions[id].capability.SendDraft?
       case Update(_, _) => t.actions[id].capability.UpdateDraft?
       case Delete(_) => t.actions[id].capability.DeleteDraft?
  }

  lemma EndsRoster(t: Tables, t': Tables, id: ProposalId, s: ActionStatus)
    requires Roster(t, id.root) && Typed(t, id) && (id.Create? ==> id.root !in t.drafts)
    requires s.Succeeded? ==> id.Send? || id.Delete?
    requires Ends(t, t', id, s)
    ensures Roster(t', id.root)
  {
  }

  lemma EndsLockstep(t: Tables, t': Tables, id: ProposalId, s: ActionStatus)
    requires Roster(t, id.root) && Lockstep(t, id.root) && Typed(t, id)
    requires !Terminal(t.actions[id].status)
    requires Terminal(s) && (s.Succeeded? ==> id.Send? || id.Delete?)
    requires Ends(t, t', id, s)
    ensures Roster(t', id.root) && Lockstep(t', id.root)
  {
    LiveActionIsNewest(t, id);
    EndsRoster(t, t', id, s);
    forall k: nat | id.root in t.drafts && 1 <= k < t.drafts[id.root].version
      ensures PastVersion(t', id.root, k)
    {
      assert PastVersion(t, id.root, k);
    }
  }

  // ----- Putting one transaction together ----------------------------------------------------------

  /** One table's rows of every root but `r` are as they were. */
  ghost predicate RowsElsewhere<V>(m: map<ProposalId, V>, m': map<ProposalId, V>, r: string) {
    forall id: ProposalId :: id.root != r ==> (id in m <==> id in m') && (id in m ==> m'[id] == m[id])
  }

  ghost predicate DraftsElsewhere(m: map<string, Draft>, m': map<string, Draft>, r: string) {
    forall q: string :: q != r ==> (q in m <==> q in m') && (q in m ==> m'[q] == m[q])
  }

  /** Rows of every root but `r` are as they were, up to sessions that lapsed. */
  ghost predicate Elsewhere(t: Tables, t': Tables, r: string) {
    && RowsElsewhere(t.proposals, t'.proposals, r)
    && RowsElsewhere(t.actions, t'.actions, r)
    && RowsElsewhere(t.approvals, t'.approvals, r)
    && RowsElsewhere(t.results, t'.results, r)
    && DraftsElsewhere(t.drafts, t'.drafts, r)
    && (forall id: ProposalId :: id.root != r ==>
          && (id in t.sessions <==> id in t'.sessions)
          && (id in t.sessions ==> SessionClosed(t.sessions[id], t'.sessions[id])))
  }

  /** Writing one row leaves the rows of other roots alone. */
  lemma RowAside<V>(m: map<ProposalId, V>, m': map<ProposalId, V>, i: ProposalId, v: V)
    requires m' == m[i := v]
    ensures RowsElsewhere(m, m', i.root)
  {
  }

  lemma TwoRowsAside<V>(m: map<ProposalId, V>, m': map<ProposalId, V>, i: ProposalId, j: ProposalId, v: V, w: V)
    requires i.root == j.root && m' == m[i := v][j := w]
    ensures RowsElsewhere(m, m', i.root)
  {
  }

  lemma DraftAside(m: map<string, Draft>, m': map<string, Draft>, r: string, d: Draft)
    requires m' == m[r := d]
    ensures DraftsElsewhere(m, m', r)
  {
  }

  /** Two proposals, one action, one approval and one draft of a root were written, and no more. */
  lemma TwoRowsElsewhere(t: Tables, t': Tables, i: ProposalId, j: ProposalId, k: ProposalId, l: ProposalId,
                         p: Proposal, q: Proposal, x: Action, a: Approval, d: Draft)
    requires i.root == j.root == k.root == l.root
    requires t'.proposals == t.proposals[i := p][j := q]
    requires t'.actions == t.actions[k := x]
    requires t'.approvals == t.approvals[l := a]
    requires t'.drafts == t.drafts[i.root := d]
    requires t'.sessions == t.sessions
    requires t'.results == t.results || t'.results == t.results[k := x.status]
    ensures Elsewhere(t, t', i.root)
  {
    TwoRowsAside(t.proposals, t'.proposals, i, j, p, q);
    RowAside(t.actions, t'.actions, k, x);
    RowAside(t.approvals, t'.approvals, l, a);
    DraftAside(t.drafts, t'.drafts, i.root, d);
    if t'.results != t.results {
      RowAside(t.results, t'.results, k, x.status);
    }
  }

  lemma FamiliesCarry(canon: Email -> Option<Email>, t: Tables, t': Tables, r: string)
    requires forall q: string :: FamilyOk(canon, t, q)
    requires Elsewhere(t, t', r) && FamilyOk(canon, t', r)
    ensures forall q: string :: FamilyOk(canon, t', q)
  {
    forall q: string
      ensures FamilyOk(canon, t', q)
    {
      if q != r {
        assert FamilyOk(canon, t, q);
        AgreeKeepsFamily(canon, t, t', q);
      }
    }
  }

  /** The rows of root `r` taken on their own. */
  ghost predicate RootRowsOk(t: Tables, r: string) {
    && (forall id :: id in t.actions && id.root == r ==> ActionOk(t, id))
    && (forall id :: id in t.approvals && id.root == r ==> id.Send?)
    && (forall id :: id in t.sessions && id.root == r ==> id.Send?)
    && (forall id :: id in t.results && id.root == r ==> id in t.actions)
  }

  lemma RowsCarry(t: Tables, t': Tables, r: string)
    requires RowsOk(t) && Elsewhere(t, t', r) && RootRowsOk(t', r)
    requires UniqueTokens(t') && UniqueProviderDrafts(t') && OneActiveSession(t')
    ensures RowsOk(t')
  {
    forall id | id in t'.actions
      ensures ActionOk(t', id)
    {
      if id.root != r {
        assert ActionOk(t, id);
      }
    }
  }

  ghost predicate RootEvolves(t: Tables, t': Tables, r: string, actor: Option<nat>, minted: nat) {
    && SteadyRoot(t, t', r)
    && (forall id :: id in t.actions && id.root == r ==> id in t'.actions && ActionEvolves(t.actions[id], t'.actions[id], minted))
    && (forall id :: id in t'.actions && id.root == r && id !in t.actions ==>
          t'.actions[id].status.Queued? && t'.actions[id].started.None?)
    && (forall id :: id in t.actions && id.root == r && t.actions[id].status.Running? && t.actions[id].claim != actor ==>
          Untouched(t, t', r) || Overtaken(t.actions[id], t'.actions[id], minted))
  }

  lemma ActionsElsewhere(t: Tables, t': Tables, r: string, minted: nat, id: ProposalId)
    requires Elsewhere(t, t', r) && id.root != r
    ensures id in t.actions ==> id in t'.actions && ActionEvolves(t.actions[id], t'.actions[id], minted)
    ensures id in t'.actions ==> id in t.actions
    ensures Untouched(t, t', id.root)
  {
  }

  lemma EvolutionCarries(t: Tables, t': Tables, r: string, actor: Option<nat>, minted: nat)
    requires Elsewhere(t, t', r) && RootEvolves(t, t', r, actor, minted)
    ensures Evolves(t, t', actor, minted)
  {
    forall id | id in t.actions
      ensures id in t'.actions && ActionEvolves(t.actions[id], t'.actions[id], minted)
      ensures t.actions[id].status.Running? && t.actions[id].claim != actor ==>
                Untouched(t, t', id.root) || Overtaken(t.actions[id], t'.actions[id], minted)
    {
      if id.root != r {
        ActionsElsewhere(t, t', r, minted, id);
      }
    }
    forall id | id in t'.actions && id !in t.actions
      ensures t'.actions[id].status.Queued? && t'.actions[id].started.None?
    {
      if id.root != r {
        ActionsElsewhere(t, t', r, minted, id);
      }
    }
  }

  lemma OneRoot(canon: Email -> Option<Email>, t: Tables, t': Tables, r: string, actor: Option<nat>, minted: nat)
    requires TablesOk(canon, t)
    requires Elsewhere(t, t', r) && FamilyOk(canon, t', r) && RootRowsOk(t', r) && RootEvolves(t, t', r, actor, minted)
    requires UniqueTokens(t') && UniqueProviderDrafts(t') && OneActiveSession(t')
    ensures Keeps(canon, t, t', actor, minted)
  {
    FamiliesCarry(canon, t, t', r);
    RowsCarry(t, t', r);
    EvolutionCarries(t, t', r, actor, minted);
  }
}
