# Verification model of Eva's approval-gated Gmail actions

Eva drafts email, shows each draft to its user on a Telegram card, and sends it only after the user pressed
Send on that card. Drafts, approvals and actions live in a database; any number of executors claim actions
under leases, check their authority again, mark the boundary after which a repetition would be unsafe, call
Gmail, and record the outcome under the claim. Everything can crash, be overtaken, or lose the reply to
something that did happen. This project models that protocol as the code runs it, and proves what it
promises for every history: at most one provider call per action, at most one send or delete per draft, nothing
sent that was not shown and approved exactly, and records that tell the truth about Gmail. It also proves that
the way is open: from any of those histories a new email can be drafted, shown, changed, approved and sent.

`dafny verify dfyconfig.toml` checks everything.

## How the model is laid out

| file | what it is about |
|---|---|
| `CanonicalEmail.dfy` | the normal form an approval authorises, and that it survives store round trips |
| `EmailNormalization.dfy` | what the normalisers make of any input, by laws that fix each of them |
| `ActionTables.dfy`, `ActionTransitions.dfy` | the rows, and every repository transaction as a function on them |
| `ActionRepository.dfy` | the repository as a class, row by row, proved to do what those functions say |
| `ActionAnswers.dfy` | what each transaction answers and exactly when, and the rows it leaves, said of the tables alone |
| `ActionInvariant.dfy` | what holds of the tables: the roster, the terms and the lockstep of one draft's rows |
| `ActionPreservation.dfy`, `ActionSteps.dfy`, `ActionDecisionSteps.dfy`, `ActionCompletionSteps.dfy` | every transaction keeps it, and disturbs no running executor but by taking its claim away |
| `ActionPolicy.dfy`, `ActionExecutor.dfy`, `ActionValidation.dfy` | policy, authority check, and that the tables alone never make it fail |
| `ActionWorld.dfy` | executors, users, notification workers and Gmail over the tables, one event at a time |
| `ActionExecutorProgram.dfy` | the executor's own program, proved to take the steps of that state machine in its order |
| `ActionWorldInvariant.dfy`, `ActionWorldSteps.dfy`, `ActionWorldCalls.dfy`, `ActionCards.dfy`, `ActionRuns.dfy` | the invariant of every run |
| `ActionTheorems.dfy` | the promises themselves |
| `ActionMisrecords.dfy` | where they end: what is recorded FAILED though Gmail applied it, and what is applied more than once |
| `ActionProgress.dfy`, `ActionOffers.dfy`, `ActionEndToEnd.dfy`, `ActionRevisions.dfy` | that a queued action reaches Gmail, a draft its card, a new email its recipients, and a changed one its new card |
| `ActionNotices.dfy` | the notices that carry the cards, over every run |
| `GmailClient.dfy` | the client's retry loop; every provider call of the state machine is one of its calls |
| `MemoryFacts.dfy`, `Signals.dfy`, `AttemptLedger.dfy`, `SyncCursor.dfy`, `OutboxRelay.dfy`, `EventDelivery.dfy`, `TextSplitter.dfy` | the smaller protocols |

How things are represented:

- Row ids in the source are UUIDv5 digests of names; the model uses the names. A draft and everything about
  it share the `root` of the creation request, so `Send(root, 3)` is the send proposal of version 3.
- SHA-256 is an injective constructor over the email it digests.
- A transaction is one step. An exception inside it leaves no trace, so a status written before a raise does
  not persist.
- Claim ids and callback tokens are drawn from counters, so they are never drawn twice. Times are integers,
  and every step brings a clock reading of its own.
- The library functions behind address normalisation are one function, assumed only to leave its own results
  alone.
- `Reachable` means: after any finite list of events from the empty store.

Three promises do not hold of the code as they are usually put, and are stated with the exact condition:

- Gmail does not always apply an update at most once. It applies at most one call per action, and of a create,
  send or delete exactly one request. An update is repeated after a transient failure and can be applied again,
  so one call can be applied any number of times up to the client's attempts, three by default
  (`UpdateCanBeAppliedAnyNumberOfTimes`); a call is applied at most once, whatever happens, if and only if it is
  no update or the client has one attempt (`AtMostOnceIffNotUpdate`). A delete is repeated as well, but the
  draft is gone by then, so a success means that the answered request was the one applied
  (`SuccessWasAnswered`).
- A recorded FAILED does not always mean that Gmail did nothing. For a send or a create it does. For an
  update or delete it fails exactly when the client's retry met a revoked grant after a lost answer, or Gmail
  answered an update with another draft's id (`OutcomesAreTruthful` one way, `RevokedRetryIsRecordedFailed`,
  `StrangeUpdateIsRecordedFailed` and `AnyDiscardCanBeMisrecorded` the other, and `DefaultsSendAndMisrecord`
  under the default settings).
- Replaying a memory fact's idempotency key does not always return the stored fact: supersession and
  retraction overwrite the end of its window, which the replay compares. It returns the fact exactly while
  that end is still the one requested, and is refused as a conflict otherwise (`ReplayChangesNothing`,
  `ReplayAfterSupersessionIsRefused`).

## Model

| member | source | states |
|---|---|---|
| `ActionTheorems.AtMostOneMutation` | src/eva_ai/actions/repository.py:282-296 | in every run Gmail applies at most one provider call per action, exactly one request of a create's, send's or delete's, and of an update's at least one and no more than the client's attempts; every such call is one the client's loop can make and Gmail can answer so; at most one executor per action is past the boundary |
| `ActionTheorems.SuccessWasAnswered` | src/eva_ai/integrations/gmail/api.py:435-458 | an action recorded SUCCEEDED took effect by the request Gmail answered, and by that one alone unless it is an update |
| `ActionTheorems.HistoryIsFinal` | src/eva_ai/actions/repository.py:183-280 | whatever happens next, the boundary mark stays as first set and a terminal action and its result never change |
| `ActionTheorems.OneDecisionPerDraft` | src/eva_ai/actions/repository.py:997-1113 | over a draft's whole history one send or delete action at most is ever queued, and at any moment one action at most is under way |
| `ActionTheorems.SentAtMostOnce` | src/eva_ai/actions/executor.py:180-199 | Gmail sends or deletes a draft at most once in all, and no two stored drafts are one Gmail draft |
| `ActionTheorems.OnlyApprovedContentIsSent` | src/eva_ai/actions/executor.py:235-290 | every email ever sent has a GRANTED approval whose hash is that of the proposal, of the message and of the draft; its bound user pressed Send before the approval expired, on the delivered, newest card, which showed mode, every recipient, subject, both bodies and the expiry as they are; and it left as approved unless edited in Gmail between comparison and call |
| `ActionTheorems.GrantsWerePressedInTime` | src/eva_ai/actions/repository.py:1046-1064 | in every reachable world each granted approval was pressed by its bound user before it expired, on such a card |
| `ActionTheorems.AuthorityHoldsAtTheCall` | src/eva_ai/actions/executor.py:375-390 | what the authority check established when the subject was loaded still holds in the tables when the provider call is made |
| `ActionTheorems.OutcomesAreTruthful` | src/eva_ai/actions/executor.py:180-227 | QUEUED means no mutation, SUCCEEDED exactly one acknowledged one, FAILED none for a send or create, and for an update or delete only the two excused kinds |
| `ActionTheorems.PendingIsFresh` | src/eva_ai/actions/repository.py:652-714 | a pending approval's proposal waits for it and is the active send proposal of exactly one draft, and the three stored hashes agree |
| `ActionTheorems.StaleBranchesNeverFire` | src/eva_ai/actions/repository.py:1073-1086 | no Send, Change or Discard press is ever answered with the stale-draft branch |
| `ActionTheorems.NeverWronglyDenied` | src/eva_ai/actions/executor.py:235-290 | an executor holding its claim passes the check if and only if connector, expiry and Telegram account allow it, whatever happened before; otherwise a connector that is no use is reported without being marked, and anything else is refused |
| `ActionTheorems.StatusesMoveInLockstep` | src/eva_ai/actions/repository.py:433-592 | action, proposal, approval and draft statuses correspond for each capability, and an action is terminal exactly when it has a result, equal to its status |
| `ActionTheorems.VersionsHaveNoGap` | src/eva_ai/actions/repository.py:806-859 | the send proposals of a draft are versions 1 to n without gap, n is active, earlier ones were superseded by completed updates, and all keep the draft's thread |
| `ActionProgress.QueuedActionReachesItsCall` | src/eva_ai/actions/executor.py:119-199 | from any reachable world a claimable action gets to its marked Gmail call if the circumstances outside the tables are favourable |
| `ActionMisrecords.RevokedRetryIsRecordedFailed` | src/eva_ai/actions/executor.py:207-214 | any call whose last request met a revoked grant after Gmail applied an earlier one is recorded FAILED |
| `ActionMisrecords.StrangeUpdateIsRecordedFailed` | src/eva_ai/actions/repository.py:771-785 | an applied update that Gmail answers with another draft id is recorded FAILED |
| `ActionMisrecords.UpdateCanBeAppliedAnyNumberOfTimes` | src/eva_ai/integrations/gmail/api.py:485-537 | any update at its boundary can be applied any number of times within the attempts and be answered as one success |
| `ActionMisrecords.AtMostOnceIffNotUpdate` | src/eva_ai/integrations/gmail/api.py:423-537 | Gmail can apply a call more than once if and only if it is an update and the client has more than one attempt |
| `ActionMisrecords.AnyDiscardCanBeMisrecorded` | src/eva_ai/actions/repository.py:1472-1632 | from any reachable world with a working card, if the client may try twice, a Discard press leads to a delete that Gmail applied and the record calls FAILED |
| `ActionEndToEnd.AnyEmailCanBeShown` | src/eva_ai/actions/repository.py:594-731 | from any reachable world, a new canonical email reaches a delivered card that works and shows all of it, if connector and account are in order and Gmail gives a new id |
| `ActionEndToEnd.AnyEmailCanBeSent` | src/eva_ai/actions/executor.py:119-233 | and once that card's Send is pressed Gmail sends exactly that message, recorded SUCCEEDED with the draft SENT |
| `ActionEndToEnd.DefaultsSendAndMisrecord` | src/eva_ai/config.py:53-154 | under the default settings and the real validation both a sent email and a misrecorded delete occur in a reachable world |
| `ActionRevisions.AnyCardsUpdateIsQueued` | src/eva_ai/actions/repository.py:1374-1470 | from any reachable world with a working card, a Change press, its session loaded in time and an accepted reply in time queue an update whose parameters and hash are the replacement's |
| `ActionRevisions.AnyCardCanBeRevised` | src/eva_ai/actions/service.py:68-128 | and once Gmail has made the update a new card works and shows the replacement in full, with the draft in Gmail holding exactly that; and that card can be changed in its turn |
| `ActionRevisions.AnyRevisionCanBeSent` | src/eva_ai/actions/service.py:174-214 | and once its Send is pressed the replacement is what Gmail sends, recorded SUCCEEDED |
| `ActionRevisions.DefaultsRevise` | src/eva_ai/config.py:53-154 | under the default settings and the real validation a second version is sent in some reachable world |
| `ActionOffers.OfferCanBeSent` | src/eva_ai/actions/executor.py:119-233 | any version that waits on a working card, whatever came before it, is sent as it is once Send is pressed |
| `ActionNotices.NoticesMoveOnlySo` | src/eva_ai/notifications/repository.py:153-432 | a notice is claimed when due, finished by its current holder, put back by an operator, and never changed or removed by anything else |
| `ActionNotices.LostNoticeClaimIsPowerless` | src/eva_ai/notifications/repository.py:295-351 | a notice claim once lost can never mark it sent, fail it or prepare its card, whatever happens after |
| `ActionNotices.SentIsForGood` | src/eva_ai/notifications/repository.py:295-321 | a SENT notice never changes again |
| `ActionNotices.OneWorkerWithinTheLimit` | src/eva_ai/notifications/repository.py:323-351 | one worker at most can still finish a notice, and its failure is retried exactly if retryable with the stored attempts below the limit |
| `ActionNotices.NoticesCanBeFinished` | src/eva_ai/notifications/repository.py:295-321 | what a worker delivered under a current claim is recorded as SENT, and a failed notice put back waits again |
| `ActionNotices.NoticesAreForApprovals` | src/eva_ai/actions/repository.py:1781-1809 | no notice is ever on file before the approval it is to show |
| `ActionRuns.ReachableOk` | src/eva_ai/actions/repository.py:71-1824 | the joint invariant of tables, executors, Gmail, cards and presses holds after any history |
| `ActionRuns.RunOk` | src/eva_ai/actions/executor.py:119-233 | every run keeps the invariant and rewrites no history |
| `ActionWorldCalls.CallsAnswerWithinBounds` | src/eva_ai/integrations/gmail/api.py:423-537 | of a call Gmail applied, one request exactly was for all but an update, and a revoked grant follows exactly when an earlier request of an update or delete was applied and its answer lost |
| `ActionWorldCalls.CallGmailStepOk` | src/eva_ai/actions/executor.py:292-314 | every provider call, however the client's loop ends, keeps the invariant: one entry at most per action, with the approved message, and nobody's comparison spoiled |
| `ActionWorldCalls.RecoveryRecords` | src/eva_ai/actions/executor.py:199-227 | each handler ends a current claim with FAILED, UNKNOWN or back in the queue, except that a release after the boundary leaves it, and records nothing under a lost claim |
| `ActionWorldCalls.OnlyStrangeUpdatesAreRefused` | src/eva_ai/actions/repository.py:945-956 | after the boundary the validation failure is reachable for an update answered with another draft id and for nothing else |
| `ActionWorldSteps.MarkCallStepOk` | src/eva_ai/actions/executor.py:189-197 | only the executor whose update set the mark goes on, and nothing of its action is in Gmail's history then |
| `ActionWorldInvariant.ClaimCarries` | src/eva_ai/actions/repository.py:1843-1851 | nobody else's transaction makes a claim current again or changes what its holder has read |
| `ActionCards.PrepareCardOk` | src/eva_ai/notifications/repository.py:229-293 | a new card takes an unused token, shows mode, every recipient, subject and both bodies of the stored message and when its approval expires, and ends the older cards of its approval |
| `ActionCards.PressSendCards` | src/eva_ai/actions/service.py:174-214 | every grant goes back to a press by the bound user on the newest delivered card |
| `ActionExecutorProgram.Executor.Execute` | src/eva_ai/actions/executor.py:119-233 | with anything at all happening in between, this executor takes exactly the program's steps in order, stops before the end only where its outcome says, shows a raise only if a statement raised, and says success only of an action recorded SUCCEEDED |
| `ActionExecutorProgram.Executor.Mark` | src/eva_ai/actions/executor.py:189-195 | the call goes ahead only for the executor that set the mark; if the statement raises, set or not, the handler runs as before the boundary |
| `ActionExecutorProgram.Executor.CallProvider` | src/eva_ai/actions/executor.py:292-314 | one provider call through the client's loop, answered with its draft id, a revoked grant or an error |
| `ActionExecutorProgram.Executor.CompleteRows` | src/eva_ai/actions/executor.py:316-368 | the completion chosen by capability, with the principal read before, a token drawn now and the approval lifetime |
| `ActionExecutorProgram.Executor.Complete` | src/eva_ai/actions/executor.py:198-222 | without a failure the action is recorded SUCCEEDED; a refusal, a raise or a lost reply goes to the handler of a refusal or of an uncertain outcome |
| `ActionExecutorProgram.Executor.Handle` | src/eva_ai/actions/executor.py:199-227 | the outcome of each handler, what it records in the world it finds, and that the claim is over then, but for a release after the boundary; it raises only if recording did |
| `ActionExecutorProgram.Executor.Reject` | src/eva_ai/actions/executor.py:182-188 | a failed comparison is recorded and the claim over, or recording it raised and the release handler is next |
| `ActionExecutorProgram.ResultsNeverClash` | src/eva_ai/actions/repository.py:515-592 | in no reachable world does recording an action's end meet a result already there |
| `ActionExecutorProgram.ExecutionsStayReachable` | src/eva_ai/actions/executor.py:119-233 | whatever is proved of reachable worlds holds wherever the program stands |
| `ActionValidation.AuthorizedIffCircumstancesAllow` | src/eva_ai/actions/executor.py:235-290 | for a subject read from sound tables the check succeeds if and only if the outside circumstances allow it |
| `ActionValidation.CheckedExactly` | src/eva_ai/actions/executor.py:235-290 | of any subject whatever, the check authorises exactly what matches its proposal's capability, hash, decision, status, expiry and connector and, for a send, has an exact grant in time; it reports exactly an unusable connector as unavailable |
| `ActionPolicy.PolicyIsClosed` | src/eva_ai/actions/policy.py:17-40 | no context lets a send through without approval, and only a create goes without a managed draft; exactly what is allowed and what needs approval |
| `ActionExecutor.ReplacementKeepsThread` | src/eva_ai/actions/service.py:83-108 | an accepted revision is canonical and keeps mode, thread, in-reply-to and references |
| `ActionExecutor.ReplacementIsTheCandidate` | src/eva_ai/actions/service.py:83-108 | what is validated is the candidate's recipients, subject and bodies in the current thread, and nothing if the candidate claims another mode or thread or an attachment |
| `ActionSteps.ClaimActionKeeps` | src/eva_ai/actions/repository.py:183-280 | claiming keeps the tables sound and overtakes a running action only by a new claim before the mark or as UNKNOWN after it |
| `ActionSteps.TakeoverNeedsExpiredLease` | src/eva_ai/actions/repository.py:199-257 | a running action is taken over if and only if its lease is over and its mark unset, turned UNKNOWN if and only if the lease is over and the mark set, and left alone while the lease lasts |
| `ActionSteps.MarkStartedKeeps` | src/eva_ai/actions/repository.py:282-296 | setting the mark keeps the tables sound and touches nobody else |
| `ActionSteps.ReleaseKeeps` | src/eva_ai/actions/repository.py:391-411 | releasing before the boundary does so too |
| `ActionSteps.FailValidationKeeps` | src/eva_ai/actions/repository.py:413-421 | so does a validation failure |
| `ActionSteps.MarkUnknownKeeps` | src/eva_ai/actions/repository.py:423-431 | so does an unknown outcome |
| `ActionSteps.MarkUnavailableKeeps` | src/eva_ai/actions/repository.py:433-513 | so does a lost authorization, which may also mark the connector |
| `ActionSteps.CloseFailedIsSettled` | src/eva_ai/actions/repository.py:1725-1747 | the draft a failure settles is the action's own, found from its proposal |
| `ActionDecisionSteps.GrantKeeps` | src/eva_ai/actions/repository.py:997-1113 | a Send press keeps the tables sound in each of its five answers |
| `ActionDecisionSteps.SupersedeKeeps` | src/eva_ai/actions/repository.py:1115-1154 | so does superseding an approval |
| `ActionDecisionSteps.OpenRevisionKeeps` | src/eva_ai/actions/repository.py:1156-1312 | so does a Change press, which leaves its account one active session |
| `ActionDecisionSteps.LoadRevisionKeeps` | src/eva_ai/actions/repository.py:1314-1372 | so does loading a revision, which may expire it |
| `ActionDecisionSteps.CompleteRevisionKeeps` | src/eva_ai/actions/repository.py:1374-1470 | so does completing one, given a canonical replacement in the same thread |
| `ActionDecisionSteps.DiscardKeeps` | src/eva_ai/actions/repository.py:1472-1632 | so does a Discard press |
| `ActionCompletionSteps.IntakeKeeps` | src/eva_ai/actions/repository.py:100-181 | a repeated source key changes nothing; a new one keeps the tables sound if and only if it is a create as the service passes on |
| `ActionCompletionSteps.CompleteCreateKeeps` | src/eva_ai/actions/repository.py:594-731 | so does a completed create, which makes the draft and its first version |
| `ActionCompletionSteps.CompleteUpdateKeeps` | src/eva_ai/actions/repository.py:733-872 | so does a completed update, which makes the next version |
| `ActionCompletionSteps.CompleteManagedKeeps` | src/eva_ai/actions/repository.py:908-995 | so does a completed send or delete |
| `ActionCompletionSteps.PrepareCardKeeps` | src/eva_ai/notifications/repository.py:229-293 | so does preparing a card, which replaces a token of an idle draft only |
| `ActionInvariant.PendingIsNewestAndIdle` | src/eva_ai/actions/repository.py:1026-1098 | a pending approval belongs to the newest version and nothing of its draft is under way |
| `ActionInvariant.FindDraftFindsActive` | src/eva_ai/actions/repository.py:325-347 | looking a draft up by its active send proposal finds the one draft that has it |
| `ActionAnswers.IntakeIsAnswered` | src/eva_ai/actions/repository.py:100-181 | which of the five answers a request gets, and the exact rows of a new one |
| `ActionAnswers.SendIsAnswered` | src/eva_ai/actions/repository.py:1026-1113 | an addressed Send press is too late if and only if the approval is pending and its expiry has come, and then approval and proposal are EXPIRED and nothing else changes; accepted if and only if pending, in time, unchanged and not queued yet, with exactly the rows of a grant; and so on for each answer |
| `ActionAnswers.SupersedeIsAnswered` | src/eva_ai/actions/repository.py:1115-1154 | exactly a pending approval and its proposal become SUPERSEDED |
| `ActionAnswers.ChangeIsAnswered` | src/eva_ai/actions/repository.py:1178-1312 | the same for a Change press, which also needs a situation and no session yet; accepted, it cancels exactly the account's active sessions and opens one for the lifetime given |
| `ActionAnswers.DiscardIsAnswered` | src/eva_ai/actions/repository.py:1500-1632 | the same for a Discard press; accepted, it queues the deletion of what was shown |
| `ActionAnswers.LoadIsAnswered` | src/eva_ai/actions/repository.py:1314-1372 | an open session expires if and only if its time has come; in time it answers with the message its draft still carries |
| `ActionAnswers.RevisionIsAnswered` | src/eva_ai/actions/repository.py:1374-1470 | a reply is taken if and only if the session is active and in time, the draft still carries the session's send proposal and hash, and no update of that version is on file; and the exact rows it leaves |
| `ActionAnswers.OnlyRevokedGrantsMark` | src/eva_ai/actions/repository.py:433-513 | a lost authorization under a current claim marks exactly its connector, unless reading is preserved; no other end of an action touches one |
| `ActionAnswers.CreateIsCompleted` | src/eva_ai/actions/repository.py:594-731 | exactly when a completed create commits, and every row it leaves: origin, connector, situation, hash, principal, token, expiry and notice of the first version |
| `ActionAnswers.UpdateIsCompleted` | src/eva_ai/actions/repository.py:733-872 | the same for an update and the next version |
| `ActionAnswers.ManagedIsCompleted` | src/eva_ai/actions/repository.py:908-995 | the same for a send or delete |
| `ActionAnswers.CardIsAnswered` | src/eva_ai/notifications/repository.py:229-293 | a card is prepared if and only if its notice is held, the approval pending, in time and unchanged, and the token new; and it shows the stored message and expiry field by field |
| `ActionAnswers.EqualCardsShowOneEmail` | src/eva_ai/notifications/service.py:148-171 | two canonical emails shown on equal cards differ in their thread fields at most |
| `ActionAnswers.NoticesAreClaimed` | src/eva_ai/notifications/repository.py:153-203 | a notice is claimed if and only if it is due, for the length of the lease and with its attempt counted |
| `ActionAnswers.NoticesAreWoundUp` | src/eva_ai/notifications/repository.py:295-432 | the exact rows of a notice sent, failed or put back, and when each is refused |
| `ActionRepository.ActionRepository.CreateAllowedAction` | src/eva_ai/actions/repository.py:100-181 | proposal first, then action, undone together; a repeated source key answers with the stored action |
| `ActionRepository.ActionRepository.ClaimAction` | src/eva_ai/actions/repository.py:183-280 | the claim, the busy and terminal answers, and the turn to UNKNOWN of an expired lease past the boundary |
| `ActionRepository.ActionRepository.MarkProviderCallStarted` | src/eva_ai/actions/repository.py:282-296 | true for the one caller whose update found the mark unset under a current claim |
| `ActionRepository.ActionRepository.ReleasePreProviderFailure` | src/eva_ai/actions/repository.py:391-411 | back to QUEUED, under the claim and before the mark only |
| `ActionRepository.ActionRepository.EndWithoutSuccess` | src/eva_ai/actions/repository.py:515-592 | action, proposal, draft and result settled together; a second result is refused and leaves everything as it was |
| `ActionRepository.ActionRepository.MarkExecutionUnavailable` | src/eva_ai/actions/repository.py:433-513 | the same, and the connector marked unless reading is preserved |
| `ActionRepository.ActionRepository.CompleteCreateDraft` | src/eva_ai/actions/repository.py:594-731 | result, draft, first send proposal, approval and notice, or nothing |
| `ActionRepository.ActionRepository.CompleteUpdateDraft` | src/eva_ai/actions/repository.py:733-872 | result, next send proposal, approval, notice and moved draft, or nothing |
| `ActionRepository.ActionRepository.CompleteManagedAction` | src/eva_ai/actions/repository.py:908-995 | result and draft settled, if the draft is the action's and its Gmail id matches |
| `ActionRepository.ActionRepository.GrantAndQueueSend` | src/eva_ai/actions/repository.py:997-1113 | grant, action and draft together, or the answer that says why not, each exactly when it is due (`ActionAnswers.SendPressed`) |
| `ActionRepository.ActionRepository.SupersedeSendApproval` | src/eva_ai/actions/repository.py:1115-1154 | a pending approval and its proposal superseded, anything else left |
| `ActionRepository.ActionRepository.OpenRevision` | src/eva_ai/actions/repository.py:1156-1312 | the account's session cancelled, the approval superseded and the new session opened, together, or the answer that says why not (`ActionAnswers.ChangePressed`) |
| `ActionRepository.ActionRepository.LoadRevision` | src/eva_ai/actions/repository.py:1314-1372 | the account's one active session, expired when due, with the message it revises |
| `ActionRepository.ActionRepository.CompleteRevision` | src/eva_ai/actions/repository.py:1374-1470 | update proposal, action, draft and session together, exactly when the session is active and in time and the draft still carries what it is about; the expiry written before the raise is undone |
| `ActionRepository.ActionRepository.DiscardAndQueueDelete` | src/eva_ai/actions/repository.py:1472-1632 | rejection, delete proposal, action and draft together, or the answer that says why not, each exactly when it is due (`ActionAnswers.DiscardPressed`) |
| `ActionRepository.ActionRepository.PrepareApprovalCard` | src/eva_ai/notifications/repository.py:229-293 | the card of a fresh pending approval, under a token not yet on file, with mode, recipients, subject, bodies and expiry each as stored |
| `ActionRepository.ActionRepository.ClaimNotice` | src/eva_ai/notifications/repository.py:153-203 | a due notice claimed under a new claim, its attempt counted; what that is worth is proved in `ActionNotices` |
| `ActionRepository.ActionRepository.MarkNoticeSent` | src/eva_ai/notifications/repository.py:295-321 | sent, under the claim only |
| `ActionRepository.ActionRepository.FailNotice` | src/eva_ai/notifications/repository.py:323-351 | retried while retryable and within the attempts, else failed for good |
| `ActionRepository.ActionRepository.RetryNotice` | src/eva_ai/notifications/repository.py:378-432 | a failed notice put back in line, any other left |
| `CanonicalEmail.NormalizeAddresses` | src/eva_ai/actions/canonical.py:23-36 | recipients normalised and listed by their first occurrences, in order, none lost and none twice; refused if and only if one is refused |
| `CanonicalEmail.SingleSpacedIsFixed` | src/eva_ai/actions/canonical.py:39-45 | a subject with single inner spaces and no outer ones is left alone |
| `CanonicalEmail.SettledBodyIsFixed` | src/eva_ai/actions/canonical.py:48-54 | a trimmed body without carriage returns is left alone |
| `CanonicalEmail.ValidateYieldsCanonical` | src/eva_ai/actions/canonical.py:57-115 | whatever validation accepts has the described normal form |
| `CanonicalEmail.CanonicalIffFixed` | src/eva_ai/actions/canonical.py:57-115 | the normal forms are exactly the emails validation gives back unchanged |
| `CanonicalEmail.RoundTripsKeepHash` | src/eva_ai/actions/canonical.py:118-126 | an accepted email, and so its hash, survives any number of store round trips |
| `CanonicalEmail.ValidateIsCanonicalizer` | src/eva_ai/actions/canonical.py:57-115 | validation has the two properties the protocol relies on |
| `EmailNormalization.BreaksAreFolded` | src/eva_ai/actions/canonical.py:48-54 | in a body every `\r\n` and every other `\r` becomes exactly one `\n`, wherever it stands |
| `EmailNormalization.BodyIsFoldedAndTrimmed` | src/eva_ai/actions/canonical.py:48-54 | a body is that text between its outer whitespace, with every character but line breaks kept in order, and blank exactly if the input is |
| `EmailNormalization.RunsBecomeOneSpace` | src/eva_ai/actions/canonical.py:39-45 | in a subject words stay, outer whitespace goes, and a run of it between words becomes one space |
| `EmailNormalization.TrimsIsStrip` | src/eva_ai/actions/canonical.py:75-89 | trimming gives the one slice that starts and ends in no whitespace and leaves only whitespace outside |
| `EmailNormalization.StripOptionalTrims` | src/eva_ai/actions/canonical.py:75-89 | an optional field is kept, trimmed, exactly if it is not blank |
| `EmailNormalization.ReferencesAreTrimmed` | src/eva_ai/actions/canonical.py:91-96 | references are trimmed one by one in order and blank ones dropped |
| `EmailNormalization.AcceptedIffSendable` | src/eva_ai/actions/canonical.py:57-115 | validation accepts exactly what has a recipient and none refused, a subject and a body that are not blank, no attachment, the thread fields its mode asks for, and lengths within the limits |
| `EmailNormalization.AcceptedIsNormalized` | src/eva_ai/actions/canonical.py:57-115 | and then keeps the mode and normalises every field as described |
| `GmailClient.Execute` | src/eva_ai/integrations/gmail/api.py:485-537 | the call is told what the last request says, of exactly the requests the loop makes |
| `GmailClient.CallsAreWhatTheLoopMakes` | src/eva_ai/integrations/gmail/api.py:485-537 | the sequences of requests the loop can make are exactly those within the attempts whose every request but the last may be repeated |
| `GmailClient.LoopAsks` | src/eva_ai/integrations/gmail/api.py:485-537 | a request follows only one whose token refresh failed or, if the call may be repeated, a transport or server error, and never past the attempts; the caller is told of a response or a revoked grant exactly if the last request met it |
| `GmailClient.AtMostOnceIffNotRepeated` | src/eva_ai/integrations/gmail/api.py:485-537 | the loop alone excludes a second application, whatever becomes of its requests, if and only if there is one attempt at most or transient failures are not retried |
| `GmailClient.RequestsAreBounded` | src/eva_ai/integrations/gmail/api.py:485-537 | Gmail applies no more requests than are made, and no more are made than attempts allowed |
| `GmailClient.UpdateCanApplyTwice` | src/eva_ai/integrations/gmail/api.py:435-458 | a concrete update applied twice and answered as one success |
| `GmailClient.CreateAndSendApplyAtMostOnce` | src/eva_ai/integrations/gmail/api.py:423-433 | a create or send is applied at most once, a response means once, a revoked grant not at all |
| `GmailClient.RevokedUpdateMayHaveApplied` | src/eva_ai/integrations/gmail/api.py:435-458 | for a repeated call a revoked grant hides an applied request exactly when an earlier one was applied and lost |
| `MemoryFacts.MemoryRepository.PutFact` | src/eva_ai/memory/repository.py:49-99 | predecessor ended where the successor begins and the successor stored as asked for, together, or nothing; and which error when |
| `MemoryFacts.PutIsSo` | src/eva_ai/memory/repository.py:49-99 | every answer of a put and every field of the rows it leaves, said without the transaction |
| `MemoryFacts.MemoryRepository.RetractFact` | src/eva_ai/memory/repository.py:137-164 | exactly an active fact retracted at a later time, which becomes the end of its window, and nothing else |
| `MemoryFacts.RunOk` | src/eva_ai/memory/repository.py:49-99 | after any history each slot has one active fact at most, and supersession links stay in the slot, are injective and join windows end to start |
| `MemoryFacts.ChainsAreAcyclic` | src/eva_ai/memory/repository.py:550-561 | every ancestor is an older, superseded fact of the slot whose window ended before |
| `MemoryFacts.ReplayChangesNothing` | src/eva_ai/memory/repository.py:626-642 | a replay never changes the store, and returns the stored fact exactly while its window ends where requested |
| `MemoryFacts.ReplayAfterSupersessionIsRefused` | src/eva_ai/memory/repository.py:53-62 | a concrete replay that is refused after supersession |
| `Signals.SignalStore.PersistSignal` | src/eva_ai/relevance/repository.py:259-385 | the current signal flipped and the new one linked to it, or nothing |
| `Signals.PersistIsSo` | src/eva_ai/relevance/repository.py:259-385 | every answer of a write and every field of the rows it leaves, said without the transaction |
| `Signals.CurrentReachesAllOnce` | src/eva_ai/relevance/repository.py:324-366 | after any history exactly one signal is current and following the links from it visits every signal exactly once |
| `Signals.RepeatChangesNothing` | src/eva_ai/relevance/repository.py:279-288 | a repeated evaluation key changes nothing and answers with the signal first stored |
| `AttemptLedger.BudgetSurvivesEverything` | src/eva_ai/relevance/classifier.py:130-204 | over any crashed, restarted or racing runs attempt numbers are 1 to k within the limit, and the classifier is called at most k times |
| `AttemptLedger.Ledger.RunClassifier` | src/eva_ai/relevance/classifier.py:130-204 | one undisturbed run: interrupted rows first, then, unless the last attempt failed for good, attempts to the first answer or the limit, each recorded as it ended |
| `AttemptLedger.TriesStopAtFirstAnswer` | src/eva_ai/relevance/classifier.py:148-204 | it classifies if and only if an attempt within the limit gets an answer, and stops at the first |
| `AttemptLedger.UndisturbedRun` | src/eva_ai/relevance/classifier.py:130-204 | such a run is one of the racing runs that nobody disturbs: it leaves the same rows and asks as often |
| `AttemptLedger.Ledger.InterruptStartedAttempts` | src/eva_ai/relevance/repository.py:97-126 | every started attempt becomes a retryable failure under its number, all others stay |
| `AttemptLedger.DelayDoublesToCeiling` | src/eva_ai/relevance/classifier.py:206-209 | the delay stays between zero and the ceiling, starts at the initial backoff, and without jitter doubles until it meets the ceiling |
| `AttemptLedger.JitterIsProportional` | src/eva_ai/relevance/classifier.py:206-209 | jitter moves the delay by at most its part of it, in proportion to the sample's distance from the middle, and not past the ceiling |
| `OutboxRelay.Relay.ClaimBatch` | src/eva_ai/events/outbox.py:55-102 | the first eligible unlocked rows within the limit, each under a claim id of its own; or nothing at all if one of their payloads cannot be parsed |
| `OutboxRelay.BatchTakesFirstDue` | src/eva_ai/events/outbox.py:55-102 | those rows are the first within the limit, in the query's order, that wait with their time come or whose lease is over, and each is PUBLISHING for the length of the lease with its attempt counted |
| `OutboxRelay.Relay.CompleteClaim` | src/eva_ai/events/outbox.py:104-132 | PUBLISHED exactly under the current claim |
| `OutboxRelay.Relay.ReleaseClaim` | src/eva_ai/events/outbox.py:134-160 | back to PENDING exactly under the current claim |
| `OutboxRelay.Relay.PublishBatch` | src/eva_ai/events/outbox.py:162-196 | a batch claimed and settled message by message as described, whatever other relays do meanwhile: of the messages dealt with no claim is left held, all counted as published are PUBLISHED, the rest count as failed; it raises if a payload cannot be parsed or a release raises |
| `OutboxRelay.BrokenBatchLeavesHeld` | src/eva_ai/events/outbox.py:179-189 | after a release that raised, every later claim of the batch is still held, its own if and only if neither completion nor release took effect, and all until their leases are over |
| `OutboxRelay.CountedIffAcknowledgedAndHeld` | src/eva_ai/events/outbox.py:162-196 | a message counts as published if and only if it was acknowledged, its completion answered, and its claim still held then |
| `EventDelivery.EventProcessor.Process` | src/eva_ai/events/processor.py:223-245 | with others at work in between, the commit takes effect if and only if it was prepared and accepted under a claim still held, handled means its answer came too, and the claim is over unless neither commit nor release took effect |
| `EventDelivery.EventProcessor.ClaimFor` | src/eva_ai/events/processor.py:71-122 | taken exactly if known, not handled and free of any running lease, for the length of the lease |
| `EventDelivery.OthersAreHarmless` | src/eva_ai/events/outbox.py:104-160 | every step other relays and processors can take meets what the batch and the processor assume of them |
| `EventDelivery.AppliedExactlyOnce` | src/eva_ai/events/processor.py:124-153 | however often delivered, an event's commit is applied once if handled and never otherwise; PUBLISHED implies an acknowledgement |
| `EventDelivery.SettledForGood` | src/eva_ai/events/outbox.py:104-132 | PUBLISHED and HANDLED rows never change |
| `EventDelivery.StaleClaimsArePowerless` | src/eva_ai/events/outbox.py:134-160 | a claim once lost can never complete, release or commit |
| `SyncCursor.CursorNeverGoesBack` | src/eva_ai/connectors/repository.py:248-313 | over any interleaving the numeric cursor never decreases and the first boundary is never replaced |
| `SyncCursor.LostLeaseIsPowerless` | src/eva_ai/connectors/repository.py:204-246 | a holder whose lease was taken over or cleared can never move the cursor or touch the lease |
| `SyncCursor.OnlyTheHolderMovesTheCursor` | src/eva_ai/connectors/repository.py:106-126 | the cursor changes by its holder's completion or by filling an empty one, and by nothing else |
| `SyncCursor.CompletionsMoveTheCursor` | src/eva_ai/connectors/repository.py:248-278 | a completion answers true if and only if the text is decimal, the claim current and no larger cursor stored; then the cursor is exactly the text and the lease over; and it raises exactly over a stored cursor that is no number |
| `SyncCursor.CompletedCursorStays` | src/eva_ai/connectors/repository.py:248-313 | after a completion that answered true the cursor's value is at least that one's in every later world |
| `SyncCursor.SameLengthOrder` | src/eva_ai/connectors/repository.py:255-263 | cursors of one length are compared by the first digit that differs |
| `SyncCursor.ShorterIsSmaller` | src/eva_ai/connectors/repository.py:255-263 | and of different lengths, leading zeros apart, by length, as numbers are and texts are not |
| `SyncCursor.ActivationNeedsBoundary` | src/eva_ai/connectors/repository.py:128-164 | a connector becomes active exactly with a secret, the time of its connection and a cursor, and never out of being disabled or in error |
| `SyncCursor.NotificationsKeepTheLatest` | src/eva_ai/connectors/repository.py:183-202 | the latest notification is kept, in whatever order they come |
| `SyncCursor.ConnectorRepository.InitialWatch` | src/eva_ai/connectors/repository.py:106-126 | a repeated bootstrap keeps the cursor and the time of the first |
| `SyncCursor.ConnectorRepository.Claim` | src/eva_ai/connectors/repository.py:204-246 | a lease on an active connector if and only if none is running, under a new claim id and for the time given |
| `SyncCursor.ConnectorRepository.CompleteSync` | src/eva_ai/connectors/repository.py:248-278 | the cursor moved under the claim to exactly the decimal number given, if and only if none larger is stored; otherwise nothing |
| `TextSplitter.SplitTelegramText` | src/eva_ai/notifications/service.py:195-207 | the segments are the text, each within 4000 UTF-16 units, none empty, and no other such split is shorter |

## Left out

- ActionRuns.ReachableOk: the runs create proposals for CREATE_DRAFT only, which is all the proposal service passes on; the function for the intake itself takes any capability.
- ActionTheorems.AtMostOneMutation: not at most one request for an update, because the client repeats it and Gmail takes it again; the exact bound is stated, and reached (`ActionMisrecords.UpdateCanBeAppliedAnyNumberOfTimes`).
- ActionTheorems.OnlyApprovedContentIsSent: Gmail has no compare-and-send, so an edit made in Gmail between the comparison and the call is sent; the theorem says so with the edit counts. The comparison of MIME projections is equality of the email they project.
- ActionExecutorProgram.Executor.Execute: other executors and users, the clock, the credentials and Gmail answer arbitrarily within the contracts of `Others`, `Clock`, `Raises`, `Connect` and `Gmail`; a cancellation is an executor that stops, or the same handler as any other failure.
- ActionWorld.OutsideStep: the user can edit a draft in Gmail but not send or delete it there, and a request cannot take effect after its executor has recorded the outcome.
- OutboxRelay.Relay.PublishBatch: logging and the error text stored on release are not modelled; a relay that ends anywhere else is the crash in `EventDelivery`.
- SyncCursor.CursorNeverGoesBack: history ids are ASCII digits; other Unicode decimals, which the code would accept before its cast, are not.
- AttemptLedger.DelayDoublesToCeiling: exact reals instead of floating point.
- Tenancy: one workspace and user; scope columns and the checks on them are not modelled, apart from the drafts and events they select.
- Bookkeeping: creation and finish times, descriptions, risk levels, failure texts, provenance columns, conversation rows and the outbox rows written beside an action.
- Status notifications and their wording; only the notice that carries an approval card is modelled.
- Finding recipients, reply context and subjects for a new draft, and the text layout of the card.
- MIME building and parsing, `parseaddr` and the address pattern.
- Row locks are the atomicity of steps; SQL, migrations, HTTP routes, settings and process wiring are not modelled.
- Episodic memories, embeddings, goals, situations and agent runs.
- Abandoned drafts: opening a second revision cancels the first without restoring its approval, so not every draft can still be decided.
