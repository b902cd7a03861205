/** That the safety theorems are not bought by standing still: a queued action does reach Gmail. */
module ActionProgress {
  import opened Wrappers
  import opened CanonicalEmail
  import opened ActionTables
  import opened ActionTransitions
  import opened ActionInvariant
  import opened ActionSteps
  import opened ActionExecutor
  import opened ActionValidation
  import opened ActionWorld
  import opened ActionWorldSteps
  import opened ActionRuns

  // ----- From the queue to the call -----------------------------------------------------------------

  /** What an executor `e` does when nothing gets in its way, all at one instant. */
  function Approaches(e: nat, id: ProposalId, now: Time): seq<Event> {
    [Approach(e, ClaimWork(id, now, false))] + Loads(e, now) + Calls(e, now)
  }

  function Loads(e: nat, now: Time): seq<Event> {
    [Approach(e, ReadProposal), Approach(e, ReadDraft), Approach(e, CheckAuthority(now))]
  }

  function Calls(e: nat, now: Time): seq<Event> {
    [Approach(e, Connect(None)), Approach(e, Compare), Approach(e, MarkCall(now, false))]
  }

  lemma {:induction false} RunConcat(cfg: Config, w: World, xs: seq<Event>, ys: seq<Event>)
    ensures Run(cfg, w, xs + ys) == Run(cfg, Run(cfg, w, xs), ys)
    decreases |xs|
  {
    if xs == [] {
      assert xs + ys == ys;
    } else {
      assert (xs + ys)[0] == xs[0] && (xs + ys)[1..] == xs[1..] + ys;
      RunConcat(cfg, Step(cfg, w, xs[0]), xs[1..], ys);
    }
  }

  lemma RunsOne(cfg: Config, w: World, ev: Event, w': World)
    requires Step(cfg, w, ev) == w'
    ensures Run(cfg, w, [ev]) == w'
  {
    assert [ev][1..] == [];
  }

  lemma RunsThree(cfg: Config, w: World, x: Event, y: Event, z: Event, w1: World, w2: World, w3: World)
    requires Step(cfg, w, x) == w1 && Step(cfg, w1, y) == w2 && Step(cfg, w2, z) == w3
    ensures Run(cfg, w, [x, y, z]) == w3
  {
    RunsOne(cfg, w, x, w1);
    RunsOne(cfg, w1, y, w2);
    RunsOne(cfg, w2, z, w3);
    RunConcat(cfg, w, [x], [y] + [z]);
    RunConcat(cfg, w1, [y], [z]);
    assert [x, y, z] == [x] + ([y] + [z]);
  }

  /** The circumstances outside the action tables under which it should get through. */
  predicate Favourable(w: World, id: ProposalId, now: Time)
    requires id in w.t.actions && id in w.t.proposals
  {
    var p := w.t.proposals[id];
    && p.connector in w.t.connectors && ConnectorUsable(w.t.connectors[p.connector])
    && (p.expiresAt.None? || now < p.expiresAt.value)
    && (id.Create? || id.Update? ==> w.telegram.Some?)
    && (id.Send? ==>
          && id.root in w.t.drafts
          && var key := w.t.drafts[id.root].provider;
             key in w.gmail && w.gmail[key].live && w.gmail[key].content == p.parameters)
  }

  /** Queued, or left running by an executor whose lease is over and who never called Gmail. */
  predicate Claimable(a: Action, now: Time) {
    a.status.Queued? || (a.status.Running? && a.started.None? && (a.lease.None? || a.lease.value <= now))
  }

  lemma ClaimIsTaken(t: Tables, id: ProposalId, now: Time, lease: int, minted: nat)
    requires id in t.actions && ActionOk(t, id) && Claimable(t.actions[id], now)
    ensures ClaimAction(t, id, now, lease, minted) ==
              (SetAction(t, id, t.actions[id].(status := ActionStatus.Running, claim := Some(minted), lease := Some(now + lease),
                                               attempts := t.actions[id].attempts + 1)),
               Claimed(Claim(id, minted, t.actions[id].capability)))
  {
  }

  /** Right after the claim nothing else has changed. */
  predicate JustClaimed(cfg: Config, w: World, w1: World, e: nat, id: ProposalId, now: Time)
    requires id in w.t.actions
  {
    && e in w1.execs && w1.execs[e] == Holding(Claim(id, w.minted, w.t.actions[id].capability))
    && w1 == w.(t := w1.t, minted := w.minted + 1, execs := w.execs[e := w1.execs[e]])
    && w1.t == SetAction(w.t, id, w.t.actions[id].(status := ActionStatus.Running, claim := Some(w.minted),
                           lease := Some(now + cfg.leaseSeconds), attempts := w.t.actions[id].attempts + 1))
  }

  lemma ClaimsIt(cfg: Config, w: World, e: nat, id: ProposalId, now: Time)
    requires e !in w.execs && id in w.t.actions && ActionOk(w.t, id) && Claimable(w.t.actions[id], now)
    ensures JustClaimed(cfg, w, ClaimWorkStep(cfg, w, e, id, now, false), e, id, now)
  {
    ClaimIsTaken(w.t, id, now, cfg.leaseSeconds, w.minted);
  }

  /** The subject the reads assemble while nobody interferes. */
  function Loaded(w: World, c: Claim): Subject
    requires c.action in w.t.proposals && w.t.proposals[c.action].connector in w.t.connectors
  {
    var p := w.t.proposals[c.action];
    Subject(c, p, p.parameters, w.t.connectors[p.connector], LookupDraft(w.t, c, p), LookupApproval(w.t, c), w.telegram)
  }

  lemma LoadsIt(cfg: Config, w: World, e: nat, now: Time)
    requires e in w.execs && w.execs[e].Holding? && Current(w.t, w.execs[e].claim)
    requires var c := w.execs[e].claim;
             && c.action in w.t.proposals && w.t.proposals[c.action].connector in w.t.connectors
             && cfg.canon(w.t.proposals[c.action].parameters) == Some(w.t.proposals[c.action].parameters)
             && Revalidate(Loaded(w, c), now).Authorized?
    ensures Run(cfg, w, Loads(e, now)) == With(w, e, Validated(Loaded(w, w.execs[e].claim)))
  {
    var c := w.execs[e].claim;
    var s := Loaded(w, c);
    var w1 := With(w, e, HasProposal(c, s.proposal, s.connector));
    var w2 := With(w, e, HasDraft(c, s.proposal, s.connector, s.managed));
    assert ReadProposalStep(w, e) == w1;
    assert ReadDraftStep(w1, e) == w2;
    assert CheckAuthorityStep(cfg, w2, e, now) == With(w, e, Validated(s));
    RunsThree(cfg, w, Approach(e, ReadProposal), Approach(e, ReadDraft), Approach(e, CheckAuthority(now)), w1, w2, With(w, e, Validated(s)));
  }

  lemma CallsIt(cfg: Config, w: World, e: nat, now: Time)
    requires e in w.execs && w.execs[e].Validated?
    requires var s := w.execs[e].subject;
             && Current(w.t, s.claim) && w.t.actions[s.claim.action].started.None?
             && (s.claim.capability.SendDraft? ==>
                   && s.managed.Some? && s.managed.value.provider in w.gmail && w.gmail[s.managed.value.provider].live
                   && w.gmail[s.managed.value.provider].content == s.message)
    ensures var w', s := Run(cfg, w, Calls(e, now)), w.execs[e].subject;
            && e in w'.execs && w'.execs[e].Started? && w'.execs[e].subject == s
            && MarkStarted(w.t, s.claim, now).1
            && w' == With(w.(t := MarkStarted(w.t, s.claim, now).0), e, w'.execs[e])
  {
    var s := w.execs[e].subject;
    var edits := if s.claim.capability.SendDraft? then w.gmail[s.managed.value.provider].edits else 0;
    var w1, w2 := With(w, e, Connected(s)), With(w, e, Checked(s, edits));
    var w3 := With(w.(t := MarkStarted(w.t, s.claim, now).0), e, Started(s, edits));
    assert ConnectStep(w, e, None) == w1;
    assert CompareStep(w1, e) == w2;
    assert MarkCallStep(w2, e, now, false) == w3;
    RunsThree(cfg, w, Approach(e, Connect(None)), Approach(e, Compare), Approach(e, MarkCall(now, false)), w1, w2, w3);
  }

  /** The action as the executor that got through has left it. */
  function UnderWay(a: Action, now: Time, leaseSeconds: int, claim: nat): Action {
    a.(status := ActionStatus.Running, claim := Some(claim), lease := Some(now + leaseSeconds), attempts := a.attempts + 1,
       started := Some(now))
  }

  /** What the executor read is what the tables said before it began. */
  predicate ReadFrom(w: World, id: ProposalId, s: Subject)
    requires id in w.t.actions && id in w.t.proposals
  {
    && s.claim == Claim(id, w.minted, w.t.actions[id].capability)
    && s.proposal == w.t.proposals[id] && s.message == w.t.proposals[id].parameters && s.telegram == w.telegram
    && (s.claim.capability.SendDraft? ==> id.root in w.t.drafts && s.managed == Some(w.t.drafts[id.root]))
  }

  /** The executor is past the boundary with what it needs, and nothing else has changed. */
  predicate Calling(cfg: Config, w: World, w': World, e: nat, id: ProposalId, now: Time)
    requires id in w.t.actions && id in w.t.proposals
  {
    && e in w'.execs && w'.execs[e].Started? && ReadFrom(w, id, w'.execs[e].subject)
    && w' == w.(t := SetAction(w.t, id, UnderWay(w.t.actions[id], now, cfg.leaseSeconds, w.minted)), minted := w.minted + 1,
                execs := w.execs[e := w'.execs[e]])
  }

  lemma MarkedTables(t: Tables, t1: Tables, id: ProposalId, now: Time, lease: int, minted: nat, c: Claim)
    requires id in t.actions && c == Claim(id, minted, t.actions[id].capability)
    requires t1 == SetAction(t, id, t.actions[id].(status := ActionStatus.Running, claim := Some(minted), lease := Some(now + lease),
                                                   attempts := t.actions[id].attempts + 1))
    requires MarkStarted(t1, c, now).1
    ensures MarkStarted(t1, c, now).0 == SetAction(t, id, UnderWay(t.actions[id], now, lease, minted))
  {
    assert MarkStarted(t1, c, now).0.actions == t.actions[id := UnderWay(t.actions[id], now, lease, minted)];
  }

  lemma RunApproaches(cfg: Config, w: World, e: nat, id: ProposalId, now: Time, w1: World, w2: World)
    requires ClaimWorkStep(cfg, w, e, id, now, false) == w1 && Run(cfg, w1, Loads(e, now)) == w2
    ensures Run(cfg, w, Approaches(e, id, now)) == Run(cfg, w2, Calls(e, now))
  {
    RunsOne(cfg, w, Approach(e, ClaimWork(id, now, false)), w1);
    RunConcat(cfg, w, [Approach(e, ClaimWork(id, now, false))] + Loads(e, now), Calls(e, now));
    RunConcat(cfg, w, [Approach(e, ClaimWork(id, now, false))], Loads(e, now));
  }

  lemma LoadedReads(cfg: Config, w: World, w1: World, e: nat, id: ProposalId, now: Time)
    requires id in w.t.actions && id in w.t.proposals && JustClaimed(cfg, w, w1, e, id, now)
    requires CanGoOn(cfg, w, w1, w1.execs[e].claim, now)
    ensures ReadFrom(w, id, Loaded(w1, w1.execs[e].claim))
  {
  }

  lemma MarkedIsCalling(cfg: Config, w: World, w1: World, w': World, e: nat, id: ProposalId, now: Time, s: Subject)
    requires id in w.t.actions && id in w.t.proposals && JustClaimed(cfg, w, w1, e, id, now) && ReadFrom(w, id, s)
    requires e in w'.execs && w'.execs[e].Started? && w'.execs[e].subject == s && MarkStarted(w1.t, s.claim, now).1
    requires w' == With(With(w1, e, Validated(s)).(t := MarkStarted(w1.t, s.claim, now).0), e, w'.execs[e])
    ensures Calling(cfg, w, w', e, id, now)
  {
    MarkedTables(w.t, w1.t, id, now, cfg.leaseSeconds, w.minted, s.claim);
  }

  lemma CallsOn(cfg: Config, w: World, w1: World, e: nat, id: ProposalId, now: Time)
    requires id in w.t.actions && id in w.t.proposals && JustClaimed(cfg, w, w1, e, id, now)
    requires CanGoOn(cfg, w, w1, w1.execs[e].claim, now) && Favourable(w, id, now)
    ensures Calling(cfg, w, Run(cfg, With(w1, e, Validated(Loaded(w1, w1.execs[e].claim))), Calls(e, now)), e, id, now)
  {
    var s := Loaded(w1, w1.execs[e].claim);
    LoadedReads(cfg, w, w1, e, id, now);
    CallsIt(cfg, With(w1, e, Validated(s)), e, now);
    MarkedIsCalling(cfg, w, w1, Run(cfg, With(w1, e, Validated(s)), Calls(e, now)), e, id, now, s);
  }

  /** The tables never stand in the way: whatever happened before, an action that may be claimed reaches
      its Gmail call with its boundary marked, if only the circumstances are favourable. */
  lemma QueuedActionReachesItsCall(cfg: Config, w: World, e: nat, id: ProposalId, now: Time)
    requires Reachable(cfg, w) && Canonicalizer(cfg.canon)
    requires e !in w.execs && id in w.t.actions && Claimable(w.t.actions[id], now)
    requires id in w.t.proposals && Favourable(w, id, now)
    ensures Calling(cfg, w, Run(cfg, w, Approaches(e, id, now)), e, id, now)
  {
    var w1 := ClaimWorkStep(cfg, w, e, id, now, false);
    ClaimedCanGoOn(cfg, w, e, id, now);
    LoadsIt(cfg, w1, e, now);
    RunApproaches(cfg, w, e, id, now, w1, With(w1, e, Validated(Loaded(w1, w1.execs[e].claim))));
    CallsOn(cfg, w, w1, e, id, now);
  }

  /** Right after the claim, the check will pass. */
  predicate CanGoOn(cfg: Config, w: World, w1: World, c: Claim, now: Time) {
    && Current(w1.t, c) && w1.t.actions[c.action].started.None?
    && c.action in w.t.proposals
    && c.action in w1.t.proposals && w1.t.proposals[c.action] == w.t.proposals[c.action]
    && w1.t.proposals[c.action].connector in w1.t.connectors
    && cfg.canon(w1.t.proposals[c.action].parameters) == Some(w1.t.proposals[c.action].parameters)
    && Revalidate(Loaded(w1, c), now).Authorized?
    && (c.capability.SendDraft? ==>
          && c.action.Send? && c.action.root in w1.t.drafts
          && Loaded(w1, c).managed == Some(w1.t.drafts[c.action.root]))
  }

  lemma ClaimedCanGoOn(cfg: Config, w: World, e: nat, id: ProposalId, now: Time)
    requires Reachable(cfg, w) && Canonicalizer(cfg.canon)
    requires e !in w.execs && id in w.t.actions && Claimable(w.t.actions[id], now)
    requires id in w.t.proposals && Favourable(w, id, now)
    ensures var w1 := ClaimWorkStep(cfg, w, e, id, now, false);
            && JustClaimed(cfg, w, w1, e, id, now)
            && CanGoOn(cfg, w, w1, w1.execs[e].claim, now)
  {
    ClaimedTables(cfg, w, id, now);
    ClaimsIt(cfg, w, e, id, now);
    ClaimedGoesOn(cfg, w, ClaimWorkStep(cfg, w, e, id, now, false), Claim(id, w.minted, w.t.actions[id].capability), now);
  }

  lemma ClaimedTables(cfg: Config, w: World, id: ProposalId, now: Time)
    requires Reachable(cfg, w) && Canonicalizer(cfg.canon) && id in w.t.actions
    ensures ActionOk(w.t, id) && TablesOk(cfg.canon, ClaimAction(w.t, id, now, cfg.leaseSeconds, w.minted).0)
  {
    ReachableOk(cfg, w);
    ClaimActionKeeps(cfg.canon, w.t, id, now, cfg.leaseSeconds, w.minted);
  }

  lemma ClaimedGoesOn(cfg: Config, w: World, w1: World, c: Claim, now: Time)
    requires TablesOk(cfg.canon, w1.t) && c.action in w.t.actions && Claimable(w.t.actions[c.action], now) && ActionOk(w.t, c.action)
    requires c.action in w.t.proposals && Favourable(w, c.action, now)
    requires w1 == w.(t := w1.t, minted := w1.minted, execs := w1.execs)
    requires Current(w1.t, c) && w1.t == SetAction(w.t, c.action, w1.t.actions[c.action])
    requires w1.t.actions[c.action].started == w.t.actions[c.action].started
    requires c.capability == w1.t.actions[c.action].capability
    ensures CanGoOn(cfg, w, w1, c, now)
  {
    assert Favourable(w1, c.action, now);
    IsAuthorized(cfg, w1, c, now);
  }

  lemma IsAuthorized(cfg: Config, w: World, c: Claim, now: Time)
    requires TablesOk(cfg.canon, w.t) && Current(w.t, c) && c.capability == w.t.actions[c.action].capability
    requires c.action in w.t.proposals && Favourable(w, c.action, now)
    ensures cfg.canon(w.t.proposals[c.action].parameters) == Some(w.t.proposals[c.action].parameters)
    ensures Revalidate(Loaded(w, c), now).Authorized?
    ensures c.capability.SendDraft? ==>
              c.action.Send? && c.action.root in w.t.drafts && Loaded(w, c).managed == Some(w.t.drafts[c.action.root])
  {
    SupersedesOwnRoot(cfg, w.t, c.action);
    assert FamilyOk(cfg.canon, w.t, c.action.root);
    TypedFromFamily(cfg.canon, w.t, c.action);
    AuthorizedIffCircumstancesAllow(cfg.canon, w.t, Loaded(w, c), now);
    LiveActionIsNewest(w.t, c.action);
  }
}
