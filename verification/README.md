# A verified model of the decision layer

AfraSOC takes detections from security tools, groups them into situations, analyses each
situation once, and lets people (and, on precedent, the machine) approve what is done about it.
This project models the parts of its orchestrator that keep state, and proves what they keep over
every run.

| files | part of the system | form |
|---|---|---|
| `Detections`, `Risk`, `RiskLaws` | what two detections are joined on; the risk score | pure functions, with the source's loops as methods |
| `Situations`, `SituationFacts`, `SituationInvariant`, `SituationStep`, `SituationRuns`, `SituationChoice`, `SituationLaws` | correlation and merging as a step on the tables, and what every run keeps | state machine and lemmas |
| `SituationStore` | the same tables updated in place by `correlate`, `merge_situations`, `recompute` | class |
| `AnalysisQueue`, `QueueLaws`, `JobTable` | the job queue: claims, backoff, dead letters, restarts | state machine; class |
| `HumanSessions`, `HumanSessionFacts`, `HumanSessionRuns`, `HumanSessionLaws`, `SessionTables` | sign-in, eviction, timeouts, refresh rotation, administration | state machine; lemmas; class |
| `Precedent`, `PrecedentLaws`, `PrecedentRuns`, `PrecedentCases` | similarity, retrieval and the gate on machine approvals | functions and loops; state machine; runs that show where it fails |
| `CaseFile`, `CaseLaws`, `CaseRuns`, `CaseTables` | a case, its timeline and its ticket | functions; state machine; class |
| `Delivery` | idempotency keys and the retry loop | functions and a class for the wire |
| `Cef` | the escaped-pipe splitter | loop and its inverse |

Each state machine is a datatype of tables, a datatype of events, `Enabled` and `Apply` for one
atomic step, and `Run` for a sequence of them. Events carry whatever the database, the clock, the
random source or an outside system decides: an order among ties, a fresh id or token, a new trust
weight, the outcome of a handler or a call. A theorem about `Run` therefore holds for each of
those choices and for every interleaving. The classes hold the same tables as fields; every method
is proved to change them exactly as the event does, so the theorems are about the classes too.
The modules whose names end in `Laws` say what the steps do without the steps' own definitions: by
counting, by the fields of the rows, by the words a caller writes. Settings read from the environment
are constants of which only the admitted range is known.

## Where the code falls short of its own words

Each is proved: the exact condition under which the promise holds, then an input or a run on which
it fails.

- A detection's own key matches the entity graph built from it exactly when the value was not cut at
  255 characters right after a blank, because the graph cleans values a second time
  (`OwnGraphMatches`, `OverlongUserIsMissed`).
- Inputs alone decide the winner exactly when the best match is untied in shared keys and age;
  otherwise the database's order does (`WinnerIsDeterminedIff`, `TieIsReachable`).
- `retry_job` keeps one outstanding job per situation exactly when that situation has none
  outstanding (`RetryIsExclusiveIffGuarded`, `RetryCanDouble`).
- The gate's documentation asks for cases a person confirmed with the same verdict. Of the cases the
  gate counts, those a person stands behind (approving or writing the verdict was the last they did)
  are exactly those not rejected (`CountedIsStoodByIff`, `PromiseIsKeptIff`). Rejections open the
  gate, whether or not an edit that kept the verdict came first (`RefusalsOpenTheGate`).
- A correction is called the strongest confirmation there is. It counts for the corrected verdict
  exactly when it left the verdict alone and the case is recent and unreversed
  (`CorrectedCountsIff`); one that changed the verdict closes the gate for every verdict
  (`ChangedVerdictBlocks`, `CorrectionsCloseTheGate`).
- Every pushed revision stays recognisable throughout a run exactly when each push's answer finds
  the row not yet past the revision pushed (`AlwaysStampedIff`, and for one answer
  `PushKeepsStampsIff`). A manual push overlapping the background one can make the row fall back,
  and an echo is then applied as news (`OverlapLetsAnEchoIn`).
- A change is dropped exactly when it quotes a revision the row has reached (`DroppedIff`), so an
  echo that overtakes the answer to its own push is applied as news (`EarlyEchoIsNews`,
  `EarlyEchoIsReachable`).
- What an inbound change writes on the timeline is marked as the ticketing system's exactly when it
  does not reassign the case; a reassignment is recorded as a person's (`InboundIsMarkedIff`,
  `ReassignmentReadsAsAPersons`).
- A key stands for one action in one direction exactly when no action's id is another's followed by
  `:rollback` (`KeysAgreeIff`, `TwoActionsOneKey`).

Three things no one promised, but worth knowing: a bad credential given while an account is locked
locks it anew under the policy then in force, which can end the lock sooner (`LockStandsIff`); a detection from a source trusted less than the
situation's mean can lower the score (`DistrustedDetectionCanLower`), and a request refused because
its token names another operator still renews the session's idle deadline
(`WrongSubjectStillRenews`).

## Model

| member | source | states |
|---|---|---|
| `Detections.CleaningTwice` | orchestrator/detection.py:193-198 | Cleaning an entity twice equals cleaning it once exactly when the cut at 255 characters does not land after a blank. |
| `Detections.CleaningKeeps` | orchestrator/detection.py:193-198 | Cleaning keeps the first 255 characters of the trimmed value, and nothing exactly of a blank or a placeholder. |
| `Detections.NamespacedIsExact` | orchestrator/detection.py:263-273 | The pairs listed are the non-empty fields, each exactly once up to case, the first spelling kept. |
| `Detections.CollectNamespaced` | orchestrator/detection.py:263-273 | The loop over the nine fields computes that listing. |
| `Detections.FirstSpellingIsKept` | orchestrator/detection.py:263-273 | A pair is listed exactly when it is populated and no earlier field folds to the same. |
| `Detections.KeysByField` | orchestrator/detection.py:263-280 | A key stands for a populated field of its namespace, any of three for an address, whatever the case. |
| `Detections.JoinKeysAre` | orchestrator/detection.py:275-280 | A key is joined on exactly when it is a case-folded value of a joinable namespace. |
| `Detections.MaxSeverityIsUnique` | orchestrator/detection.py:184-190 | The severity chosen is the only one that no listed value outranks. |
| `Detections.FindMaxSeverity` | orchestrator/detection.py:184-190 | The loop finds that severity, LOW for no values. |
| `Risk.ScoreSituation` | orchestrator/situation.py:250-348 | The score is in 0..100, its factor points sum to the unclamped total, and the severity is the score's. |
| `Risk.CountFactors` | orchestrator/situation.py:266-329 | The factors listed account for every point of the unweighted total. |
| `RiskLaws.PointsByCounting` | orchestrator/situation.py:266-329 | The unweighted score by counting the members' gravest severity, tools, number, named hosts and accounts, and techniques. |
| `RiskLaws.WhatOneMoreEarns` | orchestrator/situation.py:266-329 | Exactly what one more detection adds to it, and when. |
| `RiskLaws.TrustScales` | orchestrator/situation.py:331-346 | The mean of the tools' weights, 1.0 for a tool without one, scales the score once it is off by more than 0.001. |
| `RiskLaws.OneToolsTrust` | orchestrator/situation.py:334-335 | A tool weighs what it was given, or 1.0. |
| `RiskLaws.LoneDetectionKeepsItsSeverity` | orchestrator/situation.py:346-348 | A fully trusted detection alone, asserting at most one technique, keeps its own severity. |
| `Risk.SumTrust` | orchestrator/situation.py:334-335 | The trust weights are summed independently of the order the sources are taken in. |
| `Risk.ScoreIgnoresOrder` | orchestrator/situation.py:250-348 | Two listings of the same members, of the same length, score alike. |
| `Risk.MeanHoldsIff` | orchestrator/situation.py:334-335 | One more detection keeps the mean trust from falling exactly when its source is already among the members or is trusted no less than the mean. |
| `Risk.AnotherDetectionHoldsTheScore` | orchestrator/situation.py:250-348 | Under that condition, for any weights not negative, one more detection lowers neither the score nor the severity. |
| `Risk.AnotherDetectionNeverLowers` | orchestrator/situation.py:250-348 | In particular with every trust weight 1.0. |
| `Risk.DistrustedDetectionCanLower` | orchestrator/situation.py:331-346 | Two detections and trust weights for which the second lowers the score. |
| `SituationFacts.GraphAgrees` | orchestrator/situation.py:371-388 | The entity graph carries a key exactly when some member contributes it. |
| `SituationFacts.GraphHasNoDuplicates` | orchestrator/situation.py:371-388 | No bucket of the graph holds one value in two spellings. |
| `SituationFacts.MembersAreSorted` | orchestrator/situation.py:465-473 | The members are read in time order. |
| `SituationInvariant.ResolvesOnce` | orchestrator/situation.py:575-646 | Following `merged_into` from an id ends in at most one way. |
| `SituationInvariant.AgreesGivesBounds` | orchestrator/situation.py:814-836 | A recomputed row's first and last seen are the least and greatest member times, both attained, and its count is the number of members. |
| `SituationInvariant.AgreesGivesIndex` | orchestrator/situation.py:690-700 | Matching the stored graph on a key is the same as some member contributing the key. |
| `SituationStep.ChainedUnion` | orchestrator/situation.py:676-727 | Joining the matched situations through the new detection keeps every gap within the window. |
| `SituationStep.ConnectedUnion` | orchestrator/situation.py:690-727 | Joining them keeps any two members tied by a chain of shared keys. |
| `SituationStep.WinnerFits` | orchestrator/situation.py:713-727 | The budget keeps the combined situation within the member cap. |
| `SituationStep.ResolvesAfter` | orchestrator/situation.py:614-622 | After a merge each id resolves to its old root, or to the winner if the old root was absorbed. |
| `SituationStep.BystanderIsUntouched` | orchestrator/situation.py:649-783 | A situation neither chosen nor absorbed keeps its row and members. |
| `SituationStep.CorrelateKeepsInv` | orchestrator/situation.py:649-783 | One `correlate`, with its merge and recompute, keeps the whole invariant. |
| `SituationRuns.EveryRunKeepsInv` | orchestrator/situation.py:575-849 | The invariant holds after any run in which decisions, alerts and trust change freely. |
| `SituationRuns.GapsAreBounded` | orchestrator/situation.py:657-758 | Consecutive members are at most one window apart. |
| `SituationRuns.SpanIsBounded` | orchestrator/situation.py:814-836 | In every reachable store `last_seen - first_seen <= window * (members - 1) <= window * (cap - 1)`. |
| `SituationRuns.DetectionsFollowTheForest` | orchestrator/situation.py:575-646 | Whatever situation a detection was ever in resolves, in every later store, to the OPEN one that holds it now. |
| `SituationRuns.ForestHasOneRoot` | orchestrator/situation.py:614-622 | From every id `merged_into` leads to exactly one OPEN situation. |
| `SituationRuns.OpenSituationsPartition` | orchestrator/situation.py:786-849 | OPEN situations partition all detections, have 1 to the cap members and rows that equal what the members derive; MERGED ones are empty. |
| `SituationRuns.StableLinkIsSharedKey` | orchestrator/detection.py:275-280 | For values that survive cleaning, a link is a shared joinable key. |
| `SituationRuns.MembersAreConnected` | orchestrator/situation.py:690-725 | Any two members of a situation are tied by a path of members, each linked to the next. |
| `SituationRuns.OwnGraphMatches` | orchestrator/situation.py:371-388 | Whatever the record, any of its nine values matches the graph built from it exactly when that value's cut was clean. |
| `SituationRuns.OverlongUserIsMissed` | orchestrator/detection.py:193-198 | A user value of 256 characters whose key the graph of its own detection does not carry. |
| `SituationRuns.FrozenIsUntouched` | orchestrator/situation.py:533-572 | A settled or human-sourced situation keeps its row, members and decision through any `correlate`. |
| `SituationLaws.ScoredIff` | orchestrator/situation.py:666-705 | The model's open matches are the rows that are open, have room, lie within a window of the detection, hold one of its keys and are undecided. |
| `SituationLaws.DecidedIsUntouched` | orchestrator/situation.py:564-572 | A situation whose decision is past PENDING or a person's keeps its row, members and decision, and neither wins nor is absorbed. |
| `SituationStore.DecidedIsRelated` | orchestrator/situation.py:699-700 | If it is in reach and shares a key it is named among the related. |
| `SituationLaws.JoinsIff` | orchestrator/situation.py:668-731 | The detection joins a situation already there exactly when one in reach that shares a key is undecided. |
| `SituationLaws.WinnerIsBest` | orchestrator/situation.py:707-711 | The one joined shares the most keys and is the oldest of those that share as many. |
| `SituationLaws.LeftApartWouldNotFit` | orchestrator/situation.py:713-727 | Every other such match is absorbed by it, or the two together would exceed the cap. |
| `SituationLaws.RowShowsItsMembers` | orchestrator/situation.py:814-836 | A row's tools are its members', and its severity is its score's. |
| `SituationRuns.OnlyMachineProposalsAreSuperseded` | orchestrator/situation.py:607-637 | A decision changes only from a PENDING machine proposal of an absorbed situation to SUPERSEDED, and none absorbed is left PENDING. |
| `SituationChoice.WinnerIsDeterminedIff` | orchestrator/situation.py:680-711 | Every listing the database may return puts the same situation first exactly when no other match ties with it. |
| `SituationChoice.TieIsReachable` | orchestrator/situation.py:680-711 | Two detections after which a third has two winners to choose from. |
| `SituationStore.BuildEntityGraph` | orchestrator/situation.py:371-388 | The loop builds the graph the facts above are about. |
| `SituationStore.TimeBounds` | orchestrator/situation.py:814-836 | The loop finds the least and greatest member time. |
| `SituationStore.ThoseAre` | orchestrator/situation.py:533-572 | The two sides hold what belongs there and together list every candidate as often as it was listed. |
| `SituationStore.SituationTables.PartitionCandidates` | orchestrator/situation.py:533-572 | The listed candidates split, each side in their order, into open ones and those a decision freezes. |
| `SituationStore.SituationTables.MergeSituations` | orchestrator/situation.py:575-646 | The loop absorbs exactly the OPEN targets other than the winner, as one step. |
| `SituationStore.SituationTables.Recompute` | orchestrator/situation.py:786-849 | The row becomes what its members derive; an empty or unknown one is left alone. |
| `SituationStore.SituationTables.RankCandidates` | orchestrator/situation.py:676-711 | The open matches are listed best first and the frozen ones set aside. |
| `SituationStore.SituationTables.ChoosePlace` | orchestrator/situation.py:666-727 | The winner, those to absorb within the budget, and the related ones left alone. |
| `SituationStore.SituationTables.Correlate` | orchestrator/situation.py:649-783 | The tables end as the correlation step says; the outcome names the winner, what was merged and what is related. |
| `AnalysisQueue.BackoffIsCappedAndGrows` | orchestrator/analysis_queue.py:98-100 | The wait never shrinks with attempts, doubles until the cap, and stays within it. |
| `AnalysisQueue.RunKeepsInv` | orchestrator/analysis_queue.py:122-496 | Accounts balance and each RUNNING job has at most one owner after any run. |
| `AnalysisQueue.AttemptsAddUp` | orchestrator/analysis_queue.py:183-232 | Attempts are failures, interruptions and the one in flight or successful; they exceed the budget by at most the interruptions; FAILED means spent. |
| `AnalysisQueue.DeadLettersExactlyAtBudget` | orchestrator/analysis_queue.py:209-232 | Uninterrupted, a failing job dead-letters exactly on its last budgeted attempt, and otherwise waits its backoff. |
| `AnalysisQueue.RetryIsExclusiveIffGuarded` | orchestrator/analysis_queue.py:469-496 | Retrying keeps one outstanding job per situation exactly when it has none outstanding. |
| `AnalysisQueue.RetryCanDouble` | orchestrator/analysis_queue.py:469-496 | A dead letter, a fresh arrival and a retry, after which two jobs wait for one situation. |
| `AnalysisQueue.OwnJobStaysRunning` | orchestrator/analysis_queue.py:249-260 | Until its caller settles it, or the process restarts, a claimed job stays RUNNING and its caller's through any steps of the others. |
| `AnalysisQueue.RunKeepsExclusive` | orchestrator/analysis_queue.py:122-161 | With that guard on retries, every run keeps one outstanding job per situation. |
| `AnalysisQueue.AtMostOneAnalysisInFlight` | orchestrator/analysis_queue.py:249-342 | Two callers running at once run different jobs of different situations. |
| `AnalysisQueue.ClaimNeverSkips` | orchestrator/analysis_queue.py:167-195 | A claim takes a waiting job or one ahead of it, and takes something if it is due. |
| `AnalysisQueue.AheadShrinks` | orchestrator/analysis_queue.py:167-232 | Past a job's due time no step puts another ahead of it, and each claim of another removes one. |
| `AnalysisQueue.OvertakingIsBounded` | orchestrator/analysis_queue.py:167-195 | A job past due stays PENDING through at most as many claims as there were jobs ahead. |
| `QueueLaws.FreshJobIsDue` | orchestrator/analysis_queue.py:122-161 | With nothing PENDING or RUNNING for the situation one job is added, PENDING, untried and due at once, and every later claim finds a job. |
| `QueueLaws.SecondJobIsNotMade` | orchestrator/analysis_queue.py:122-161 | With one outstanding nothing is added and nothing moves. |
| `QueueLaws.ReadiedIsEligible` | orchestrator/analysis_queue.py:167-195 | A job enqueued, recovered or retried is due from that moment; while it waits no claim comes back empty. |
| `QueueLaws.SettlesThatRow` | orchestrator/analysis_queue.py:198-232 | A settlement makes its row DONE, FAILED once the attempts are spent, or PENDING after the backoff, and touches no other. |
| `AnalysisQueue.ProgressUsesWork` | orchestrator/analysis_queue.py:183-232 | Every claim that finds a job and every settlement lowers the remaining work. |
| `AnalysisQueue.DrainingTerminates` | orchestrator/analysis_queue.py:348-369 | Left alone, workers stop after a number of steps the queue determines, whatever fails. |
| `JobTable.Table.Enqueue` | orchestrator/analysis_queue.py:122-161 | A second job for a situation with one outstanding is never made; the outstanding one is returned. |
| `JobTable.Table.EnqueueRunning` | orchestrator/analysis_queue.py:308-342 | The already-claimed insert, or nothing when one is outstanding. |
| `JobTable.Table.ClaimNext` | orchestrator/analysis_queue.py:167-195 | The scan takes the due job least by due time and row. |
| `JobTable.Table.SettleFailure` | orchestrator/analysis_queue.py:209-232 | A failure reschedules or dead-letters as the step says. |
| `JobTable.Table.PendingDepth` | orchestrator/analysis_queue.py:417-424 | The depth is the number of PENDING rows. |
| `JobTable.Table.Admit` | orchestrator/analysis_queue.py:263-305 | Before the handler: the job is claimed for an inline answer exactly when that is allowed, the queue is not over the high-water mark and nothing is outstanding; otherwise one is queued. |
| `JobTable.Table.RunJob` | orchestrator/analysis_queue.py:249-260 | After the handler, whenever that is: the job is settled by its outcome. |
| `JobTable.Table.Submit` | orchestrator/analysis_queue.py:263-305 | Both, when the handler answers before anything else happens. |
| `JobTable.Table.RecoverOrphans` | orchestrator/analysis_queue.py:387-411 | Every RUNNING row becomes PENDING, and the number of them is returned. |
| `JobTable.Table.RetryJob` | orchestrator/analysis_queue.py:469-496 | Only a dead letter is requeued, with a fresh budget. |
| `HumanSessionFacts.RoomIsMade` | orchestrator/human_auth.py:829-873 | Making room leaves at most the cap less one, all live. |
| `HumanSessionFacts.EvictedAreOldest` | orchestrator/human_auth.py:866-873 | No session evicted for the cap was seen more recently than one kept. |
| `HumanSessionLaws.RoomIsNotOvermade` | orchestrator/human_auth.py:829-873 | Sign-in evicts no more than it must: every live session stays, up to the cap less one, and no one else's is touched. |
| `HumanSessionLaws.RoomReasons` | orchestrator/human_auth.py:848-873 | Each session ended for room carries the first reason that applies. |
| `HumanSessionFacts.RunKeepsInv` | orchestrator/human_auth.py:829-1264 | Caps, closed accounts and token bookkeeping hold after any run. |
| `HumanSessionFacts.SessionCapHolds` | orchestrator/human_auth.py:829-900 | An operator's unrevoked sessions number at most the cap in force at the last sign-in. |
| `HumanSessionLaws.SignInOpensIff` | orchestrator/human_auth.py:1003-1017 | A correct credential opens a session exactly for an operator who exists, is enabled and is not locked now; otherwise nothing changes. |
| `HumanSessionLaws.LockedCannotSignIn` | orchestrator/human_auth.py:1103-1113 | While `locked_until` lies ahead a sign-in adds no session and leaves the operator as it was. |
| `HumanSessionLaws.LocksIff` | orchestrator/human_auth.py:620-657 | A bad credential locks exactly at the live threshold, for the live duration, and then ends every session of that operator. |
| `HumanSessionLaws.FailuresAddUp` | orchestrator/human_auth.py:620-637 | Over any run the count grows by one with each bad credential until something starts it again. |
| `HumanSessionLaws.LockStandsIff` | orchestrator/human_auth.py:540-542 | Before its time a lock is cut short exactly by an unlock, a reset, or a bad credential that locks anew for a shorter time. |
| `HumanSessionLaws.LockoutHolds` | orchestrator/human_auth.py:620-657 | After as many bad credentials as the threshold, no sign-in opens a session for the lock's duration, whatever else happens, unless the lock is cut short so. |
| `HumanSessionLaws.SamePolicyNeverShortens` | orchestrator/human_auth.py:632-634 | Under an unchanged policy no bad credential cuts a lock short. |
| `HumanSessionFacts.ClosedAccountsHaveNoSessions` | orchestrator/human_auth.py:1474-1516 | A disabled operator, or one whose lock still lasts, has no unrevoked session. |
| `HumanSessionFacts.RefreshTokensWorkOnce` | orchestrator/human_auth.py:1201-1264 | No refresh token is accepted twice in a run, and only issued ones are. |
| `HumanSessionFacts.AcceptedIsLogged` | orchestrator/human_auth.py:1219-1262 | The tokens recorded as accepted are exactly those a refresh let through. |
| `HumanSessionLaws.PresentedIff` | orchestrator/human_auth.py:1215-1228 | A token stands for a session exactly when it is not blank, is the one handed out last, and the session is unrevoked and the principal's. |
| `HumanSessionLaws.RefreshRotates` | orchestrator/human_auth.py:1231-1239 | An accepted refresh makes the old token worth nothing and the new one the session's, and touches no other session. |
| `HumanSessionRuns.StampsLast` | orchestrator/human_auth.py:876-900 | In any run the operator, start and stamped deadline of a session stay what its sign-in made them. |
| `HumanSessionRuns.SeenLast` | orchestrator/human_auth.py:1173-1177 | In any run its last-seen time is that of the last step that touched it. |
| `HumanSessionRuns.AcceptedIffInsideDeadlines` | orchestrator/human_auth.py:1143-1264 | In any run a request or refresh is let through exactly when it presents an unrevoked session of an enabled operator before the deadline stamped at its sign-in, the live one counted from it, and the live idle gap since the last touch. |
| `HumanSessionRuns.NoneOutlivesItsDeadlines` | orchestrator/human_auth.py:491-495 | Every acceptance has a sign-in and a last touch behind it, and comes before all three deadlines they set. |
| `HumanSessionLaws.RefusalReasons` | orchestrator/human_auth.py:1143-1172 | A refusal ends the session when a deadline is past, saying which, and otherwise changes nothing. |
| `HumanSessionRuns.WrongSubjectStillRenews` | orchestrator/human_auth.py:1185-1198 | A request refused for its subject leaves the store exactly as an accepted one does, idle deadline included. |
| `HumanSessionFacts.RevocationIsPermanent` | orchestrator/human_auth.py:556-590 | A revocation keeps its time and reason for ever and the session is never let through again. |
| `HumanSessionRuns.TimedOutStaysDead` | orchestrator/human_auth.py:423-442 | A session that a request, a refresh or a sign-in finds timed out is refused ever after, whatever the policy becomes, because the finding is committed. |
| `HumanSessionFacts.AnAdminRemains` | orchestrator/human_auth.py:1421-1428 | Once there is an enabled administrator there always is one. |
| `HumanSessionLaws.DisableIff` | orchestrator/human_auth.py:1474-1516 | Disabling is refused for the last enabled administrator and for nobody else, and ends the operator's sessions. |
| `HumanSessionLaws.DemoteIff` | orchestrator/human_auth.py:1421-1471 | The administrator role is kept exactly by the last enabled administrator. |
| `HumanSessionLaws.UnlockLetsIn` | orchestrator/human_auth.py:1519-1600 | After an unlock or a reset an enabled operator's next correct credential opens a session. |
| `HumanSessionLaws.LogoutEnds` | orchestrator/human_auth.py:1267-1280 | Signing out ends that session and no other. |
| `HumanSessionLaws.PasswordSteps` | orchestrator/human_auth.py:1334-1600 | A reset ends every session and lifts the lock; a password changed by its owner ends none and leaves the lock. |
| `HumanSessionLaws.PolicyIsTakenIff` | orchestrator/human_auth.py:463-488 | A policy is stored exactly when every setting is within its bounds and the idle time within the absolute one. |
| `SessionTables.Tables.MakeRoomForSession` | orchestrator/human_auth.py:829-873 | The loops revoke the expired and then the oldest past the cap, as the step says. |
| `SessionTables.Tables.OpenSession` | orchestrator/human_auth.py:876-920 | Sign-in updates the tables as the step says. |
| `SessionTables.Tables.RevokeOperatorSessions` | orchestrator/human_auth.py:593-617 | The loop revokes every unrevoked session of the operator and no other. |
| `SessionTables.Tables.RegisterFailure` | orchestrator/human_auth.py:620-657 | A failed credential counts, and at the threshold locks the account and ends its sessions. |
| `SessionTables.Tables.EnforceSession` | orchestrator/human_auth.py:1143-1179 | The check answers and commits as the step says. |
| `SessionTables.Tables.RefreshToken` | orchestrator/human_auth.py:1201-1264 | A refresh rotates the digest exactly when the token, the principal and the deadlines allow. |
| `SessionTables.Tables.SetDisabled` | orchestrator/human_auth.py:1474-1516 | Disabling revokes the operator's sessions and is refused for the last administrator. |
| `Precedent.SimilarityIsAPercentage` | orchestrator/precedent.py:224-260 | Similarity is within 0..100, symmetric, and 100 for a fully described twin. |
| `Precedent.TermsStayWithinTheirWeights` | orchestrator/precedent.py:102-111 | Each property earns at most its own weight and nothing where nothing is shared, and the weights sum to 100. |
| `Precedent.ScoreSimilarity` | orchestrator/precedent.py:224-260 | The accumulating loop computes it, with its terms. |
| `PrecedentLaws.TechniquesAndValuesByContainment` | orchestrator/precedent.py:154-163 | Techniques and entity values earn the rounded share of what is common in the smaller side. |
| `PrecedentLaws.ContainmentIsFullMarks` | orchestrator/precedent.py:154-163 | So a side contained in the other earns full marks, whichever it is. |
| `PrecedentLaws.TheRestByCommonShare` | orchestrator/precedent.py:147-151 | Text, tools and shape earn the rounded share of what is common among everything either side has. |
| `PrecedentLaws.DifferenceCosts` | orchestrator/precedent.py:147-151 | So anything only one side has costs points, unless so much is common that it rounds away. |
| `PrecedentLaws.SeverityEarns` | orchestrator/precedent.py:254-258 | Severity earns 10, 6.7, 3.3 or 0 points at a distance of none, one, two or three classes. |
| `PrecedentLaws.SimilarityIsTheSum` | orchestrator/precedent.py:224-260 | The similarity is the sum of the six terms rounded to a point. |
| `Precedent.InsertBestRanks` | orchestrator/precedent.py:435-436 | Ranking keeps every case and orders them by similarity, then age. |
| `Precedent.FindPrecedents` | orchestrator/precedent.py:378-441 | The result is the best cases of the pool at or above the floor, of the verdict asked for if any, none better left out, at most as many as asked. |
| `PrecedentLaws.RetrievedInOrder` | orchestrator/precedent.py:366-441 | What comes back is unmerged, settled, not the situation itself, and listed by falling similarity, the younger first among equals. |
| `PrecedentLaws.RowsAreRead` | orchestrator/precedent.py:266-281 | Who is behind a case, the verdict that stood, whether it went wrong and whether it is recent, said of the row's fields. |
| `Precedent.SelectIs` | orchestrator/precedent.py:481-490 | A filter keeps exactly the cases it describes, without repeats. |
| `Precedent.AutopilotPrecedent` | orchestrator/precedent.py:481-539 | The gate opens exactly when no retrieved human-confirmed case is contrary or reversed and enough matching ones are recent. |
| `PrecedentLaws.GateOpensIff` | orchestrator/precedent.py:481-539 | The same said of the rows' fields and by counting cases. |
| `Precedent.ConsultGate` | orchestrator/precedent.py:447-539 | Retrieval at the gate's own floor and limit, then that judgement. |
| `PrecedentRuns.RunKeepsInv` | orchestrator/precedent.py:266-281 | A settled, human-confirmed row always has a person's act behind it with the row's verdict. |
| `PrecedentRuns.EveryApprovalIsBacked` | orchestrator/precedent.py:476-538 | In every run each approval on precedent rests, at that moment, on enough distinct, unmerged, recent, similar, unreversed cases of that verdict a person judged, none of them an unedited machine approval. |
| `PrecedentRuns.NoBootstrap` | orchestrator/precedent.py:33-39 | In a run where people judged fewer cases of a verdict than required, the machine never approves it on precedent. |
| `PrecedentRuns.MachineApprovalIsNeverPrecedent` | orchestrator/precedent.py:266-281 | A row the machine approved unedited is never human-confirmed afterwards, gated or not. |
| `PrecedentRuns.CountedIsStoodByIff` | orchestrator/precedent.py:390-395 | Of the cases the gate counts, a person's last act was to approve or write the verdict exactly on those not rejected. |
| `PrecedentRuns.PromiseIsKeptIff` | orchestrator/precedent.py:447-461 | Enough people stand behind what the gate counts exactly when enough of it was not rejected. |
| `PrecedentRuns.CorrectedCountsIff` | orchestrator/precedent.py:390-419 | A retrieved corrected case counts for its corrected verdict exactly when the edit left the verdict alone, no outcome reverses it and it is recent. |
| `PrecedentCases.RefusalsOpenTheGate` | orchestrator/precedent.py:274-276 | Two runs of rejections, without and with an edit before each, after which the machine may approve a verdict no one stands behind. |
| `PrecedentRuns.ChangedVerdictBlocks` | orchestrator/precedent.py:414-419 | A retrieved case whose verdict a person changed closes the gate for every verdict. |
| `PrecedentCases.CorrectionsCloseTheGate` | orchestrator/precedent.py:414-419 | A run in which enough people corrected to a verdict and approved it, after which the gate refuses it. |
| `CaseRuns.AppendIsLawful` | orchestrator/cases.py:175-201 | A row appended after the highest number keeps the timeline numbered 1..n and replayable. |
| `CaseRuns.RunKeepsInv` | orchestrator/cases.py:281-524 | The timeline determines the row after any run, accepted and refused operations alike. |
| `CaseRuns.TheLogDeterminesTheCase` | orchestrator/cases.py:363-503 | From opening on: replay gives state, assignee, tier and revision; numbers are 1..n; moves are listed ones; the tier never falls; `closed_at` is set exactly when CLOSED. |
| `CaseRuns.TimelineWalksTheMachine` | orchestrator/cases.py:67-75 | Between any two points of a timeline the tier does not fall, each escalation raises it, and each state change is listed. |
| `CaseLaws.MovesGoForward` | orchestrator/cases.py:67-75 | A move is listed exactly when it goes forward, takes an escalated case up again, or reopens a finished one. |
| `CaseLaws.WordsNameStates` | orchestrator/cases.py:50-58 | The seven words and the seven states name each other one to one. |
| `CaseLaws.AskingToClose` | orchestrator/cases.py:410-439 | Asking for CLOSED, however spelled, closes and stamps the case, and nothing else does. |
| `CaseLaws.AskingToReopen` | orchestrator/cases.py:429-433 | Reopening a closed case forgets its closure. |
| `CaseLaws.EveryChangeIsSigned` | orchestrator/cases.py:186-201 | Each change adds one row with the highest number, what changed, and who made it. |
| `CaseLaws.PriorityFollowsSeverity` | orchestrator/cases.py:89-115 | The four severities give the four priorities in order, and any other the third. |
| `CaseRuns.TimelineOnlyGrows` | orchestrator/cases.py:175-201 | No run rewrites or removes a timeline row. |
| `CaseRuns.PriorityIsTheirs` | orchestrator/cases.py:301-312 | A case that has left NEW never returns to it, and its priority never changes again. |
| `CaseRuns.InboundIsARun` | orchestrator/case_sync.py:377-458 | An inbound change with nothing in between does what its transactions do one after another; each is an event of its own. |
| `CaseRuns.InboundOwnsOnlyTheWorkflow` | orchestrator/case_sync.py:377-458 | No sequence of inbound changes, nor of the transactions they are made of, alters title, severity, priority, alert, tier or revision. |
| `CaseRuns.InboundIsMarkedIff` | orchestrator/case_sync.py:397-408 | What an inbound change writes is marked as the ticketing system's exactly when it does not reassign the case. |
| `CaseLaws.TicketClosesCase` | orchestrator/case_sync.py:409-422 | A ticket reported closed closes its case from any other state, unless the site gave the word another meaning. |
| `CaseLaws.TicketHandsOver` | orchestrator/case_sync.py:396-407 | A ticket handed over hands the case over unless it is closed. |
| `CaseLaws.SwitchesBar` | orchestrator/case_sync.py:73-74 | With a switch off the ticket cannot touch what it governs. |
| `CaseRuns.ReassignmentReadsAsAPersons` | orchestrator/case_sync.py:397-408 | A pushed case whose ticket hands it over: the timeline says a person did. |
| `CaseRuns.SerialPushesCount` | orchestrator/case_sync.py:306-352 | Without overlapping pushes the successful revisions are exactly 1, 2, and so on, and the row holds the last. |
| `CaseRuns.AlwaysStampedIff` | orchestrator/case_sync.py:306-352 | Throughout a run no pushed revision is ahead of the row exactly when every successful answer finds the row not past its own revision. |
| `CaseRuns.SerialIsCurrent` | orchestrator/case_sync.py:306-352 | Pushes that do not overlap meet that condition. |
| `CaseRuns.EchoesAreDropped` | orchestrator/case_sync.py:386-390 | Under that condition a change quoting any revision whose push was answered changes nothing, at any later time. |
| `CaseRuns.DroppedIff` | orchestrator/case_sync.py:386-390 | A change for the case changes nothing exactly when it quotes a revision the row has reached. |
| `CaseRuns.EarlyEchoIsNews` | orchestrator/case_sync.py:306-352 | An echo that arrives before the answer to its own push is applied. |
| `CaseRuns.EarlyEchoIsReachable` | orchestrator/case_sync.py:306-352 | A run of one answered push and a second one sent in which that can happen. |
| `CaseRuns.RowHoldsAPushedRevision` | orchestrator/case_sync.py:338-352 | Overlapping or not, the row's revision was pushed, or nothing was. |
| `CaseRuns.PushKeepsStampsIff` | orchestrator/case_sync.py:306-352 | A push's answer keeps every pushed revision recognisable exactly when the row had not moved past it. |
| `CaseRuns.OverlapLetsAnEchoIn` | orchestrator/case_sync.py:306-352 | Overlapping pushes after which a change quoting a pushed revision is applied. |
| `CaseTables.CaseRecord.constructor` | orchestrator/cases.py:324-345 | A situation's case is opened NEW with its first timeline row. |
| `CaseTables.CaseRecord.HighestNumber` | orchestrator/cases.py:186-191 | The scan finds the highest number on the timeline. |
| `CaseTables.CaseRecord.EnsureCase` | orchestrator/cases.py:301-322 | Only what the case is about is refreshed; priority follows severity only on an untouched case. |
| `CaseLaws.GrowingTwice` | orchestrator/cases.py:301-322 | Refreshing a case again with the same facts changes nothing. |
| `CaseTables.CaseRecord.AssignCase` | orchestrator/cases.py:363-397 | Assignment is refused exactly when CLOSED, and picking up a NEW case starts it. |
| `CaseTables.CaseRecord.SetCaseState` | orchestrator/cases.py:400-448 | A move is accepted exactly when the state is known and is the current one or a listed successor. |
| `CaseTables.CaseRecord.EscalateCase` | orchestrator/cases.py:451-503 | Escalation is accepted exactly for a higher tier of 1..9 on a case not CLOSED. |
| `CaseTables.CaseRecord.AddCaseNote` | orchestrator/cases.py:506-524 | A note is refused exactly when blank. |
| `CaseTables.CaseRecord.FinishPush` | orchestrator/case_sync.py:323-359 | A failed push changes only the sync status; a successful one stamps the revision it was sent with. |
| `CaseTables.CaseRecord.PushCase` | orchestrator/case_sync.py:288-362 | With nothing in between, the revision grows by one and the timeline by one row exactly on success. |
| `CaseTables.CaseRecord.ApplyInbound` | orchestrator/case_sync.py:377-458 | Assignee, state, note and closing row are applied in turn, and the row reports what was applied and refused. |
| `Delivery.KeysAgreeIff` | orchestrator/response.py:167-174 | Two requests share a key exactly when they are the same action in the same direction, or one is named like the other's undoing. |
| `Delivery.TwoActionsOneKey` | orchestrator/response.py:167-174 | Undoing an action and doing one named like it with `:rollback` appended have one key. |
| `Delivery.DigitsReadBack` | orchestrator/response.py:167-169 | The number in a key is the decision's, read from its digits. |
| `Delivery.RoutesAre` | orchestrator/response.py:333-335 | A class goes to its own connector if it has a route and to the fallback's if not, however it is spelled. |
| `Delivery.SendsIff` | orchestrator/response.py:378-407 | A call goes out exactly when not in a dry run and a configured connector performs the class and, for an undoing, can undo. |
| `Delivery.StatusWords` | orchestrator/response.py:437-437 | A reply's word is the receipt's status exactly when it is one of the four; any other is a failure. |
| `Delivery.CallsAre` | orchestrator/response.py:414-435 | Every call but the last was answered by silence, and fewer than the limit means the last was not. |
| `Delivery.Wire.DeliverAction` | orchestrator/response.py:370-468 | What is sent, how often and under which key and id, and the status of the receipt in every case; DONE means the last call said so. |
| `Delivery.DeliveryIsOneAction` | orchestrator/response.py:409-435 | In any run of deliveries each one sends at most the limit, under one key and execution id, a repeat only after silence. |
| `Delivery.PerformedKeys` | orchestrator/response.py:171-174 | An executor that performs each key once performs distinct keys, and a request with the key of each that arrives. |
| `Delivery.AtMostOnce` | orchestrator/response.py:171-174 | It performs each decision's action, in each direction, at most once. |
| `Delivery.RunActsOnce` | orchestrator/response.py:370-468 | Over any run of deliveries, with any calls lost, only delivered actions are performed and none twice. |
| `Delivery.ServedIff` | orchestrator/response.py:156-161 | Every arriving action is performed as itself exactly when no arriving action is named like the undoing of another. |
| `Cef.SplitHeader` | orchestrator/adapters/cef.py:49-64 | The scanning loop computes the split, of 1 to `limit` fields. |
| `Cef.SplitKeepsEverything` | orchestrator/adapters/cef.py:49-64 | The fields with a pipe between each two are the line less its escaping backslashes. |
| `Cef.BarePipesSplit` | orchestrator/adapters/cef.py:49-64 | There is one field more than bare pipes, up to the limit. |
| `Cef.EscapedIsKept` | orchestrator/adapters/cef.py:53-57 | A backslash makes any character its field's own and is dropped; at the end of the line it is lost. |
| `Cef.SplitUndoesJoin` | orchestrator/adapters/cef.py:49-64 | Splitting the joined, escaped fields returns them, for any 1 to `limit` fields. |
| `Cef.BareLastFieldIff` | orchestrator/adapters/cef.py:42-46 | With the last field's pipes bare the fields come back exactly when the header is full or that field has no pipe. |
| `Cef.EveryLineHasACanonicalForm` | orchestrator/adapters/cef.py:49-64 | Re-escaping and re-splitting what any line was split into changes nothing. |

## Left out

- SituationStep.CorrelateKeepsInv: takes `correlate`, its merge and its recompute as one step; the code commits in between, and what another call may see there is not modelled.
- Risk.AnotherDetectionHoldsTheScore: one way only; when the mean does fall, more members, hosts or tools, rounding and the cap at 100 can each make up for it, and which of them does is only known by computing the score.
- Risk.ScoreSituation: trust weights and their mean are real numbers, so binary rounding of the mean near a half is not modelled.
- Detections.CleaningTwice: case folding is that of the ASCII letters and blanks are space, tab, newline and carriage return.
- SituationRuns.MembersAreConnected: a link compares a member's values cleaned once with the other's cleaned twice, as the code does; for values that survive cleaning it is plain sharing (`StableLinkIsSharedKey`).
- AnalysisQueue.AtMostOneAnalysisInFlight: the check and insert of `enqueue` are one step, and so is a claim; that a cancelled handler stops working is taken for granted.
- AnalysisQueue.OvertakingIsBounded: needs the due time strictly past, since a job of an earlier row that is retried or recovered at the very instant of the due time does get ahead.
- HumanSessionLaws.LockoutHolds: the credential check and the step it leads to are one; a check begun before a lock is judged again when the session is opened, as in the code.
- HumanSessionFacts.RefreshTokensWorkOnce: digests are without collisions and random tokens are new; access tokens and their lifetime are not modelled.
- PrecedentRuns.EveryApprovalIsBacked: the gate and the approval are one step; a proposal edited between them is not modelled. With the gate switched off by configuration approvals are separate events, which never count as precedent.
- PrecedentRuns.CountedIsStoodByIff: an edit saved with its verdict unchanged is taken as a person writing that verdict, as the code takes it, whatever the edit was about.
- PrecedentRuns.NoBootstrap: "judged" includes rejections, because the code counts them; what that lets through is `RefusalsOpenTheGate`.
- Precedent.FindPrecedents: contrary cases outside the newest pool or below the cut are not seen, as in the code; similarity ratios are real numbers.
- CaseRuns.EchoesAreDropped: a revision counts as pushed once its answer is recorded; before that see `EarlyEchoIsNews`.
- CaseTables.CaseRecord.ApplyInbound: applies its transactions without another in between; with others in between they are runs of the single events (`InboundIsARun`).
- JobTable.Table.Submit: takes the handler to answer before anything else happens; otherwise `Admit` and `RunJob` stand for its two ends, with any steps of others between them.
- Delivery.ServedIff: the executor is one that performs each key once; which requests reach it is arbitrary, and waits between attempts are not modelled.
- Cases other than the one modelled, and the look-up of a case by ticket reference, which takes the first match.
- Titles, message texts, timestamps other than those properties depend on, audit rows, metrics, logging, JSON storage and SQL.
- Password hashing, one-time codes, captcha, signed access tokens and mail.
- Building plans, editing actions, dispatch by the executor and rollback claims in `orchestrator/tier2`; decisions change as an arbitrary environment.
- Feature extraction for similarity from stored rows and free text; features are given.
- Language models, threat feeds, HTTP connectors, vendor adapters other than the CEF header, the CEF extension, and the user interface.
