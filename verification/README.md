# Verified model of the AI operations command engine

This project models the backend's transactional core and proves what it promises. It has three parts.

**The command engine.** Public intake creates service requests. Start AI creates one logical operation, its
first attempt, a callback credential and their evidence rows. Claim/start moves an attempt from Pending to
Running. A callback verifier proves authority over a Running attempt. Both commands are wrapped by a
reserve/complete idempotency layer.

- `model.dfy`, `session.dfy`: the rows, the database as one map per table, the CHECK and unique constraints, and
  the session whose fields the services update in place.
- `command_idempotency.dfy`, `commands.dfy`, `start_ai.dfy`, `attempt_start.dfy`, `intake.dfy`,
  `command_execution.dfy`: the services as methods on a session, each proved equal to a specification function of
  the old tables.
- `credential_history.dfy`, `callback_verifier.dfy`: credential histories and the verifier.
- `evidence.dfy`, `invariants.dfy`, `preservation.dfy`: what every committed database satisfies.
- `engine.dfy` and the `engine_*.dfy` files: a world of concurrent calls. An event begins a call, advances one call by
  one statement, or aborts one. `now` is fixed when the call begins and may be anything, so clocks need not
  follow the commit order. Every statement reads the committed rows; a statement that needs a row lock
  or a unique key another open transaction holds is disabled; private writes appear at commit. The reply is a
  further event after the commit. An abort before the commit is a rollback; after it the reply is lost, because the
  connection ended or because the acknowledgement of the commit failed and the caller was told 503. `log` holds the
  outcomes in commit order, `received` the positions of those whose reply arrived. The callback verifier is a call too:
  it reads and locks its rows one statement at a time and keeps the locks until the transaction of its caller ends, which
  is an abort because the verifier writes nothing. A run is any sequence of events, so the theorems quantify over every
  interleaving of any number of calls, with aborts anywhere.

**The signed-request canonicaliser.** `utf8.dfy`, `canonicalization.dfy`, `lexicographic_sort.dfy`,
`canonical_query.dfy` and `signing.dfy`: percent escapes (RFC 3986 sections 2.1 and 6.2.2.1, unreserved bytes of section 2.3), strict UTF-8
(RFC 3629 sections 3 and 4), `+` as a space (section 5.1 of the WHATWG URL Standard), the sorted query and the signing bytes.

**Smaller cores.** `machine_auth.dfy` and `nonce_runs.dfy` (credential-version selection and single-use nonces),
`snapshots.dfy` (the recursive snapshot filter) and `schema_resolution.dfy` (the recursive schema dereferencer).

These properties hold only under a condition, which is proved exact:

- A command is atomic at its commit unless its target appeared after it was found missing (`CommitIsAtomic`): a row that does not
  exist cannot be locked. `TargetCanAppear` gives the run. Intake has one analogous case (`SubmissionIsAtomic`, with
  the run in `KeyCanAppear`), and the verifier a third (`AnswerIsCurrent`). `RunIsSerial` composes the first two over
  whole runs and adds the exact case in which a failed call would not have failed alone.
- Schema resolution ends on every schema exactly when the definitions can be settled in some order (`EndsIffSettleable`).
  Acyclic definitions suffice; they are necessary when every referenced name is defined (`EndsIffAcyclic`), and not
  otherwise (`MissingNameCutsCycle`).
- A resolved schema is free of local references exactly when no nameable definition is itself the text of a reference
  (`CleanIffProper`, with the schema in `ReferenceFromText`).

The functions that specify the services are in turn tied to definitions in independent terms, such as columns, characters,
states of rows or earlier outcomes (the members ending in `Exact`, and `engine_decisions.dfy` and `engine_answers.dfy`).

`dafny verify dfyconfig.toml` checks the whole project.

## Model

| member | source | states |
|---|---|---|
| EngineRuns.RunKeepsInv | backend/src/ai_operations_automation/start_ai/service.py:59-127 | the invariant of every reachable world (sound tables, what each open call knows, disjoint locks, truthful replies) survives any further events, and rows only evolve |
| EngineRuns.StepKeepsInv | backend/src/ai_operations_automation/attempt_start/service.py:54-103 | one statement, commit or abort of one call keeps that invariant |
| EngineTheorems.NoStructuralFailure | backend/src/ai_operations_automation/attempt_start/service.py:141-307 | in every world reachable by any interleaving of intake, Start AI and claim/start the execution graph is sound, so no open call can decide a structural RuntimeError and none was ever reported |
| EngineTheorems.OneExecutionPerKey | backend/src/ai_operations_automation/command_idempotency/service.py:31-83 | at most one execution per command, actor, target and key digest ever commits and a stored record marks exactly one; every other answer to that call is the stored one for the same body, and a 409 conflict only for a different body |
| Commands.ScopeExact | backend/src/ai_operations_automation/command_idempotency/service.py:155-162 | two commands meet the same record exactly when they agree on kind, machine identity, target and key digest |
| EngineAnswers.AnswersHaveWinners | backend/src/ai_operations_automation/command_idempotency/service.py:168-202 | in every run a replay or a 409 key conflict comes after the first execution of the same command, actor, target and key: a replay repeats its status, command id and snapshot and has its body, a conflict has another; so a fresh key is never answered from another one |
| EngineDecisions.CommitIsDecided | backend/src/ai_operations_automation/attempt_start/service.py:116-432 | what a committing command answers on the database of its commit, written out: the refusal of the first of its questions that fails, or the 202 with the new identifiers, the bumped version, the plaintext and the deadline the configured seconds after the call began, or the 200 of the attempt Running from then |
| EngineDecisions.RaiseIsDecided | backend/src/ai_operations_automation/start_ai/service.py:187-260 | an execution that raises was a granted Start AI: 503 without a usable token, and otherwise 500, and then a column is unfit or its rows collide |
| EngineDecisions.StartIsDecidedByItsPast | backend/src/ai_operations_automation/start_ai/service.py:169-185 | on a request at the expected version Start AI is refused as already active exactly when a Start AI of that request with the same six settings has succeeded before, by whatever caller and key; any other configuration is granted |
| EngineDecisions.StartsAreAsConfigured | backend/src/ai_operations_automation/start_ai/service.py:187-252 | the rows a first 202 names stay those its command asked for: request, input and configuration hash, the six settings, the caller's service and environment, and a deadline and expiry the configured number of seconds after creation and issue |
| EngineGuarantees.ReplayStable | backend/src/ai_operations_automation/command_idempotency/service.py:168-202 | after a commit and any later events, a call under the same key receives the stored command id, status and snapshot for the same body and 409 for any other, and changes no row |
| EngineDelivery.RetryAfterLostReply | backend/src/ai_operations_automation/start_ai/service.py:105-110 | when the reply of a committed command is lost, a retry of it at any later time receives the stored status, command id and snapshot, marked as a replay and without plaintext, changes no row, and the lost plaintext never arrives by any later run |
| EngineDelivery.PlaintextReceivedAtMostOnce | backend/src/ai_operations_automation/start_ai/service.py:69-110 | for each credential at most one received reply carries its plaintext, and none ever does once the reply that carries it is lost |
| EngineDelivery.RepliesArriveAtMostOnce | backend/src/ai_operations_automation/attempt_start/service.py:54-89 | a reply is received at most once and only after the commit of its outcome; a lost reply stays lost whatever runs later |
| EngineGuarantees.LoserMeetsWinner | backend/src/ai_operations_automation/command_idempotency/service.py:64-75 | a caller that lost the insert race re-reads the winner, once nobody else has it locked, and ends with the same answer as a later caller |
| EngineGuarantees.AbortFreesKey | backend/src/ai_operations_automation/command_idempotency/service.py:64-83 | while a winner is open a second insert of its key is blocked; when the winner rolls back no row of it remains and the blocked insert succeeds |
| EngineAtomicity.CommitIsAtomic | backend/src/ai_operations_automation/start_ai/service.py:129-374 | a committing command answers and writes what one uninterrupted execution on the commit-time database would, if and only if its target has not appeared since it was found missing |
| EngineAtomicity.TargetCanAppear | backend/src/ai_operations_automation/start_ai/service.py:140-150 | the exception is reachable: a concrete run in which Start AI is about to commit a 404 for a request that now exists |
| EngineSolo.SoloCallIsExecute | backend/src/ai_operations_automation/start_ai/service.py:59-127 | from any reachable world with nothing open, a command that runs alone through its statements and row locks ends with exactly the reply and tables of one call of the service method |
| EngineSolo.WorkAlone | backend/src/ai_operations_automation/attempt_start/service.py:105-401 | the statement-by-statement part of it: reads in lock order until a decision, then inserts and commit, equal to one execution |
| EngineAtomicity.SubmissionIsAtomic | backend/src/ai_operations_automation/intake/service.py:42-139 | a recorded submission, failed or not, answers and writes what one uninterrupted run of it would, if and only if no key under which its delivery could be recorded was accepted after its lookup found none; a failed submission writes nothing |
| EngineAtomicity.KeyCanAppear | backend/src/ai_operations_automation/intake/service.py:82-139 | that exception is reachable: an unusable submission finds no key, a valid one is accepted under it, and the first is about to record Invalid |
| EngineAnswers.SubmissionsAreAnswered | backend/src/ai_operations_automation/intake/service.py:42-139 | a valid submission that does not fail is a 201 exactly when none was accepted under its key before, a 200 replay of that acceptance, at version 1, exactly when the payload hash is the accepted one, and a 409 exactly when it is not; an unusable one is refused when none was accepted and conflicts only when one was |
| EngineSerial.RunIsSerial | backend/src/ai_operations_automation/start_ai/service.py:59-127 | the database and outcomes of any run are those of its ended calls one after another in commit order: each, successful or failed, does on the database its predecessors leave exactly what the same call with the same draws does alone, except exactly where what it did not find (its target, the record of its key, the accepted key of its submission) was committed before it ended |
| EngineTheorems.AllOrNothing | backend/src/ai_operations_automation/start_ai/service.py:71-127 | every event changes the committed database by nothing or by one whole unit (a Completed guard record, the full success graph with its record, or an intake unit); no run commits a Processing record |
| EngineTheorems.CommitIsWhole | backend/src/ai_operations_automation/attempt_start/service.py:323-432 | the unit a call commits, in terms of the rows of the database it commits to |
| EngineTheorems.OneStartPerAttempt | backend/src/ai_operations_automation/attempt_start/service.py:317-321 | an attempt is Running, at version 2, exactly when one 200 execution over all keys, callers and interleavings has committed for it, and there is never a second one |
| EngineHistory.StartTouchesOneAttempt | backend/src/ai_operations_automation/attempt_start/service.py:317-401 | the only step that ever changes an attempt row takes it from version 1 Pending to Running and leaves requests, operations, credentials and every other attempt alone |
| EngineHistory.RowsAreFrozen | backend/src/ai_operations_automation/attempt_start/service.py:183-190 | Running rows never change again, operations and credentials are immutable, requests change only in version |
| EngineTheorems.OnePlaintextPerCredential | backend/src/ai_operations_automation/start_ai/service.py:193-252 | each committed credential has its plaintext in exactly one outcome, a first 202, and it hashes to the stored hash; no replay carries one |
| EngineTheorems.RunAccounted | backend/src/ai_operations_automation/start_ai/service.py:253-374 | every stored record, Running attempt, credential and accepted key is the work of an outcome that committed, whether or not its reply arrived |
| EngineHistory.OneOperationPerIdentity | backend/src/ai_operations_automation/start_ai/service.py:169-185 | at most one operation per request and configuration hash: the input hash adds nothing, because a request keeps its input |
| EngineHistory.AuditIsGapless | backend/src/ai_operations_automation/start_ai/service.py:261-339 | for every request, attempt and delivery at version v the audit log holds versions 1..v once each and in order, folding the events of any aggregate gives its current state, and the outbox is the log without the interpretation-started events, each message with the name, aggregate, version, id, correlation and command of its event |
| EngineHistory.IntakeIsConserved | backend/src/ai_operations_automation/intake/service.py:150-363 | accepted keys, contacts, requests and New deliveries are in bijection, one per key digest; replays name the winner; intake events and intake messages each equal deliveries plus New deliveries |
| EngineHistory.OneCreationPerKey | backend/src/ai_operations_automation/intake/service.py:42-80 | at most one 201 per key digest commits, a key is accepted exactly when one did, and every 200 names that request and delivery |
| EngineVerifier.VerifierIsDecided | backend/src/ai_operations_automation/attempt_callback_auth/verifier.py:91-244 | on every reachable database the callback verifier never fails internally, and succeeds exactly for a Running attempt of the caller with the stored digest inside the issue-to-expiry window |
| EngineVerifier.PlaintextVerifies | backend/src/ai_operations_automation/start_ai/service.py:193-252 | the plaintext a 202 carries is what the verifier accepts: for the attempt that outcome names, exactly when it is the caller's and Running and the clock lies between issue and the announced expiry, and with that credential |
| EngineVerifier.AnswerIsCurrent | backend/src/ai_operations_automation/attempt_callback_auth/verifier.py:99-163 | a verification that reads and locks row by row among other calls answers what it would answer all at once on the database of that moment, for as long as its transaction is open, if and only if an attempt it found missing has not appeared; it is never an internal error |
| EngineVerifier.AuthorityLasts | backend/src/ai_operations_automation/attempt_callback_auth/models.py:27-35 | until the verifying transaction ends, whatever other calls do, every row its authority rests on stays as read: the attempt stays Running and the credential the one verified |
| EngineVerifier.SoloVerification | backend/src/ai_operations_automation/attempt_callback_auth/verifier.py:50-75 | from any reachable world with nothing open, a verification that runs alone through its statements and locks answers what the verifier method answers, and writes nothing |
| EngineLifecycle.LifeRuns | backend/src/ai_operations_automation/start_ai/service.py:187-374 | the whole life is reachable: from the empty database a submission is accepted, Start AI hands out its plaintext, the claim sets the attempt Running, and a check with that plaintext at any time up to the deadline is verified |
| EngineSteps.NeverBroken | backend/src/ai_operations_automation/attempt_start/service.py:141-307 | a decision taken on locked rows of a sound database is never a structural failure, whatever part of the rows has been read |
| EngineSteps.VerdictMonotone | backend/src/ai_operations_automation/attempt_start/service.py:116-315 | a verdict reached on part of the rows is the verdict on all of them |
| EngineSteps.ProcessKeeps | backend/src/ai_operations_automation/start_ai/service.py:129-374 | one step of one call keeps what the call knows about the committed rows |
| EngineProcesses.ProcessStable | backend/src/ai_operations_automation/attempt_start/service.py:116-178 | a commit elsewhere that respects the held locks takes nothing a call knows away |
| EngineFrames.CommitIsStable | backend/src/ai_operations_automation/attempt_start/service.py:116-178 | a commit leaves the rows behind every lock and unique key it does not hold unchanged |
| EngineCommits.CommitKeepsSound | backend/src/ai_operations_automation/start_ai/service.py:187-374 | every commit keeps records, graph, intake rows and evidence sound |
| EngineReplies.AnswersAreTrue | backend/src/ai_operations_automation/start_ai/service.py:341-374 | every answer, first or replayed, stays true of every later database: the rows a snapshot names exist, belong to one another and are as the command asked, the record keeps correlation and secret delivery, and the audit log has the named events of the caller under the command and correlation ids; intake replies name deliveries that record the submission, with its payload and events |
| Invariants.ClaimDecided | backend/src/ai_operations_automation/attempt_start/service.py:116-315 | on a sound database the whole claim/start guard chain collapses to four questions (caller, version, not Running, deadline) with their exact refusals |
| Invariants.StartDecided | backend/src/ai_operations_automation/start_ai/service.py:140-185 | on a sound database Start AI decides exactly by existence, version and whether an operation exists for this input and configuration |
| AttemptStart.GrantedExact | backend/src/ai_operations_automation/attempt_start/service.py:116-315 | on every database that meets the table constraints, with any siblings and credential history, the guard chain grants a claim exactly when the attempt is the caller's, at the version, Pending, alone in its operation, owned consistently, on an unchanged request in triage, with an open credential before the deadline |
| AttemptStart.RefusedExact | backend/src/ai_operations_automation/attempt_start/service.py:116-315 | on the same databases: 404 exactly for an attempt that is not the caller's, the version conflict exactly on another version and with the version found, and the state refusal exactly for an attempt not Pending, a request out of triage or changed, or a passed deadline, with nothing else out of order |
| StartAiInterpretationCommand.DecisionExact | backend/src/ai_operations_automation/start_ai/service.py:141-189 | on every database whose operations have distinct identities: 404 exactly without the request, then the version conflict exactly on another version and with the version found, then the state refusal exactly out of triage, a grant exactly when no operation exists for the input and configuration, and otherwise that operation's refusal |
| StartAiInterpretationCommand.ExistingOperationExact | backend/src/ai_operations_automation/start_ai/service.py:377-411 | which refusal an existing operation gives, by the states of its attempts and its success reference |
| Preservation.GraphAfterStart | backend/src/ai_operations_automation/db/models/ai_execution.py:38-235 | inserting a success graph keeps all CHECK, unique and partial-unique constraints and the one-to-one links |
| Preservation.GraphAfterClaim | backend/src/ai_operations_automation/attempt_start/service.py:317-321 | the transition keeps the execution graph |
| Preservation.EvidenceAfterStart | backend/src/ai_operations_automation/start_ai/service.py:261-339 | the evidence rows of Start AI extend the audit history and the outbox consistently |
| Preservation.EvidenceAfterClaim | backend/src/ai_operations_automation/attempt_start/service.py:323-379 | the evidence rows of claim/start extend them consistently |
| Preservation.IntakeAfterCreate | backend/src/ai_operations_automation/intake/service.py:150-265 | an accepted submission keeps the intake bijection and counts |
| Preservation.IntakeAfterDelivery | backend/src/ai_operations_automation/intake/service.py:267-363 | a replayed, conflicting or rejected delivery keeps them |
| Evidence.Gapless | backend/src/ai_operations_automation/start_ai/service.py:261-310 | a history whose fold succeeds has the versions 1..v once each and in order |
| CommandExecution.Execute | backend/src/ai_operations_automation/attempt_start/service.py:44-103 | the service method (begin, reserve, replay or execute, commit or roll back): its reply and the tables it leaves, with the reservation never left behind |
| CommandExecution.ExecuteOrRollBack | backend/src/ai_operations_automation/start_ai/service.py:71-127 | under an open reservation a failure restores the rows without the reservation |
| CommandExecution.CallTwice | backend/src/ai_operations_automation/start_ai/service.py:69-110 | a second call under the key changes nothing and gets the first outcome as a replay without plaintext, or 409 for another body |
| CommandExecution.ReservationOverwritten | backend/src/ai_operations_automation/command_idempotency/service.py:107-140 | an execution fails exactly when it writes nothing, and one that is answered overwrites its Processing row |
| CommandIdempotency.Reserve | backend/src/ai_operations_automation/command_idempotency/service.py:31-83 | reserve inside an outer transaction: classify an existing record, insert in a savepoint, re-read the winner when the insert loses |
| CommandIdempotency.Complete | backend/src/ai_operations_automation/command_idempotency/service.py:85-140 | complete updates exactly the reserved Processing record, only for the transaction that reserved it; the flush fails exactly when the completed row violates its CHECK constraints |
| CommandIdempotency.ReplayOfCompleted | backend/src/ai_operations_automation/command_idempotency/service.py:168-202 | a completed record replays exactly to its own body and marks a delivered secret as already issued |
| CommandIdempotency.UnfinishedIsInternal | backend/src/ai_operations_automation/command_idempotency/service.py:168-180 | a record that was never completed answers the same body with a 500 and any other with the conflict |
| CommandIdempotency.IdentifierClash | backend/src/ai_operations_automation/db/models/command_idempotency.py:25-109 | finds a taken record id or command id |
| Commands.CompleteGuard | backend/src/ai_operations_automation/attempt_start/service.py:403-432 | a domain guard completes the reservation and writes nothing else |
| StartAiInterpretationCommand.ExecuteNew | backend/src/ai_operations_automation/start_ai/service.py:129-374 | one Start AI execution equals its specification on the old tables: reply and every table written |
| StartAiInterpretationCommand.Decide | backend/src/ai_operations_automation/start_ai/service.py:140-185 | the guards in source order |
| StartAiInterpretationCommand.SelectOperation | backend/src/ai_operations_automation/start_ai/service.py:169-179 | finds the operation with the identity, if there is one |
| StartAiInterpretationCommand.InsertableExact | backend/src/ai_operations_automation/db/models/ai_execution.py:38-235 | the check the three flushes make passes exactly when their primary keys are free and the tables with the three rows satisfy every CHECK, unique and partial-unique constraint |
| StartAiInterpretationCommand.InsertsExact | backend/src/ai_operations_automation/start_ai/service.py:212-260 | the three inserts pass exactly when the deadline lies ahead, no setting and no caller column is blank, and no identifier, credential hash or operation identity is taken |
| StartAiInterpretationCommand.Create | backend/src/ai_operations_automation/start_ai/service.py:210-374 | the inserts, the version bump, the evidence rows and the completed record |
| StartAiInterpretationCommand.TokenExact | backend/src/ai_operations_automation/start_ai/service.py:193-206 | a token is usable exactly when it has 43 to 256 characters of the URL-safe alphabet |
| AttemptStart.ExecuteNew | backend/src/ai_operations_automation/attempt_start/service.py:105-401 | one claim/start execution equals its specification on the old tables |
| AttemptStart.Decide | backend/src/ai_operations_automation/attempt_start/service.py:116-315 | reads and guards in source order |
| AttemptStart.DecideCredentials | backend/src/ai_operations_automation/attempt_start/service.py:242-315 | the credential checks, from the active row to its expiry |
| AttemptStart.CheckHistory | backend/src/ai_operations_automation/attempt_start/service.py:254-291 | the loop over the history accepts exactly when every row but the active one is valid history |
| AttemptStart.Transition | backend/src/ai_operations_automation/attempt_start/service.py:317-401 | the in-place transition with its audit event, message and completed record |
| AttemptStart.TablesAfterClaim | backend/src/ai_operations_automation/attempt_start/service.py:317-321 | on any constrained database a claim changes at most its own Pending row |
| AttemptStart.ClaimKeepsConstraints | backend/src/ai_operations_automation/db/models/ai_execution.py:94-153 | a claim keeps every CHECK, unique and partial-unique constraint, from any constrained database |
| CredentialHistory.HistoryWellFounded | backend/src/ai_operations_automation/attempt_start/service.py:242-291 | in an accepted history replacement links are injective and never cycle, every chain ends within the version gap at a row that is not Replaced, and the Active row is the unique maximum |
| CredentialHistory.FollowRaisesVersion | backend/src/ai_operations_automation/attempt_start/service.py:258-266 | following n links raises the version by exactly n |
| CredentialHistory.ChainEnds | backend/src/ai_operations_automation/attempt_callback_auth/verifier.py:186-224 | a chain ends after at most max version minus version steps |
| CredentialHistory.HistorySize | backend/src/ai_operations_automation/attempt_start/service.py:243-252 | an accepted history has at most as many rows as the Active version |
| CallbackVerifier.ClaimEnablesVerification | backend/src/ai_operations_automation/attempt_callback_auth/verifier.py:140-228 | after a claim granted on any constrained database, with any credential history, a later verification of the unchanged rows succeeds exactly for the Active hash before expiry and is forbidden otherwise, never an internal error |
| CallbackVerifier.VerifiedExact | backend/src/ai_operations_automation/attempt_callback_auth/verifier.py:91-244 | on every database that meets the table constraints, with any siblings and credential history, the verifier succeeds with a credential exactly when the attempt is the caller's, Running, alone in its operation and owned consistently, and that credential opens it, has the digest, and was issued, like all others, by now, before the deadline |
| CallbackVerifier.RefusedExact | backend/src/ai_operations_automation/attempt_callback_auth/verifier.py:91-244 | on the same databases: 404 exactly for an attempt that is not the caller's, and 403 exactly when nothing is out of order and the attempt is not Running, has no Active credential, its newest is outside its time, or the digest is another one; all else is an internal error |
| CallbackVerifier.ClaimWithReplacedCredential | backend/src/ai_operations_automation/attempt_start/service.py:254-266 | a concrete constrained database with a replaced credential on which a claim is granted |
| CallbackVerifier.GrantedHistory | backend/src/ai_operations_automation/attempt_start/service.py:242-315 | a granted claim accepted the whole credential history |
| CallbackVerifier.Verify | backend/src/ai_operations_automation/attempt_callback_auth/verifier.py:91-244 | the verifier changes no row; a context is returned exactly on success, bound to the transaction, and its machine, attempt, operation, request and credential fields are those of the caller and of the verified rows |
| CallbackVerifier.VerifyCredentials | backend/src/ai_operations_automation/attempt_callback_auth/verifier.py:158-228 | the credential part in source order |
| CallbackVerifier.CheckHistory | backend/src/ai_operations_automation/attempt_callback_auth/verifier.py:186-224 | the history loop of the verifier, which also checks issue times |
| CallbackVerifier.MatchingCallbackCredentials | backend/src/ai_operations_automation/attempt_callback_auth/verifier.py:32-41 | collects exactly the credentials with the digest |
| Intake.Process | backend/src/ai_operations_automation/intake/service.py:42-139 | one submission against the tables, with a lost race resolved against the winner |
| Intake.CreateNew | backend/src/ai_operations_automation/intake/service.py:150-265 | the rows of an accepted submission, with the delivery fields set after insertion |
| Intake.ResolveAgainst | backend/src/ai_operations_automation/intake/service.py:267-363 | replay or conflict against an accepted key |
| Intake.AddEvent | backend/src/ai_operations_automation/intake/service.py:396-440 | one audit event and the message that mirrors it |
| Intake.RecordDelivery | backend/src/ai_operations_automation/intake/service.py:95-132 | one delivery with its event and message |
| Sessions.Session.constructor | backend/src/ai_operations_automation/start_ai/service.py:71-73 | a new session sees the committed tables |
| Sessions.Session.Rollback | backend/src/ai_operations_automation/attempt_start/service.py:56-57 | a rollback restores every table |
| CanonicalQueries.CanonicalQueryExact | backend/src/ai_operations_automation/machine_auth/canonicalization.py:71-83 | two accepted raw queries have the same canonical form exactly when their decoded pairs are equal as multisets |
| CanonicalQueries.CanonicalQueryShape | backend/src/ai_operations_automation/machine_auth/canonicalization.py:74-83 | the canonical form lists the decoded pairs in ascending code-point order of key, then of value, each as quoted key, equals sign and quoted value |
| CanonicalQueries.BareKey | backend/src/ai_operations_automation/machine_auth/canonicalization.py:76-78 | a key that stands alone reads as the key with an empty value |
| CanonicalQueries.CanonicalQueryIdempotent | backend/src/ai_operations_automation/machine_auth/canonicalization.py:71-83 | the canonical form is accepted and is its own canonical form, empty fields included |
| CanonicalQueries.FieldOrderIrrelevant | backend/src/ai_operations_automation/machine_auth/canonicalization.py:74-80 | reordering fields changes neither acceptance nor the canonical form |
| CanonicalQueries.ParseOfRender | backend/src/ai_operations_automation/machine_auth/canonicalization.py:74-83 | parsing undoes rendering for every list of pairs |
| CanonicalQueries.EmptyQueries | backend/src/ai_operations_automation/machine_auth/canonicalization.py:71-73 | only the empty query is canonically empty |
| CanonicalQueries.ComputeCanonicalQuery | backend/src/ai_operations_automation/machine_auth/canonicalization.py:71-83 | the field loop, the sort and the join compute the canonical query or fail |
| CanonicalQueries.RenderPairs | backend/src/ai_operations_automation/machine_auth/canonicalization.py:81-83 | the joining of the quoted pairs |
| CanonicalQueries.SplitOfJoin | backend/src/ai_operations_automation/machine_auth/canonicalization.py:75 | splitting undoes joining when no field holds the separator |
| CanonicalQueries.PartitionAt | backend/src/ai_operations_automation/machine_auth/canonicalization.py:76 | partition cuts at the first equals sign |
| Canonicalization.DecodeOfQuote | backend/src/ai_operations_automation/machine_auth/canonicalization.py:49-83 | decoding undoes quoting for every string of scalar values; the quoted form holds only unreserved bytes and well-formed escapes |
| Canonicalization.QuoteExact | backend/src/ai_operations_automation/machine_auth/canonicalization.py:81-83 | each byte of the UTF-8 form stands for itself when it is a letter, a digit or one of the four unreserved marks, and is a percent sign with two upper-case hexadecimal digits otherwise |
| Canonicalization.PlusIsSpace | backend/src/ai_operations_automation/machine_auth/canonicalization.py:57-59 | a plus sign anywhere in a component reads as an escaped space |
| Canonicalization.DecodeQueryComponent | backend/src/ai_operations_automation/machine_auth/canonicalization.py:49-68 | the decoding loop computes the decoded component or fails |
| Canonicalization.RejectMalformedPercent | backend/src/ai_operations_automation/machine_auth/canonicalization.py:12-22 | accepts exactly the byte strings in which every percent sign starts an escape |
| Canonicalization.CanonicalPathExact | backend/src/ai_operations_automation/machine_auth/canonicalization.py:25-33 | canonical paths are equal exactly when the token sequences are, write each token out with its escape in upper case, and are idempotent |
| Signing.SigningInjective | backend/src/ai_operations_automation/machine_auth/canonicalization.py:92-102 | two accepted requests sign the same bytes exactly when upper-case method, canonical path, query-pair multiset, timestamp, nonce and body digest agree |
| Signing.SigningLines | backend/src/ai_operations_automation/machine_auth/canonicalization.py:86-102 | the signed text is five lines in this order: upper-case method, path with question mark and canonical query exactly when there is a query, timestamp, nonce, body digest |
| Signing.TargetInjective | backend/src/ai_operations_automation/machine_auth/canonicalization.py:36-46 | equal targets have equal paths and equal queries |
| LexicographicSort.SortIffSameElements | backend/src/ai_operations_automation/machine_auth/canonicalization.py:80 | two lists sort alike exactly when they are permutations of each other |
| LexicographicSort.LexExact | backend/src/ai_operations_automation/machine_auth/canonicalization.py:80 | the recursive comparison is the order by the first difference in code points, proper prefixes first |
| LexicographicSort.EncodingKeepsOrder | backend/src/ai_operations_automation/machine_auth/canonicalization.py:80 | that order is the order of the UTF-8 bytes |
| Utf8.DecodeEncoded | backend/src/ai_operations_automation/machine_auth/canonicalization.py:63-68 | strict decoding undoes encoding |
| Utf8.EncodedDecoded | backend/src/ai_operations_automation/machine_auth/canonicalization.py:63-68 | only encodings are accepted: overlong forms, surrogates and truncated sequences are not |
| NonceRuns.NonceUsedOnce | backend/src/ai_operations_automation/machine_auth/authenticator.py:87-191 | over any run, with identities and credential versions changing between any two statements and calls failing anywhere, at most one authentication succeeds per identity, environment and nonce digest; each success was a well-formed request of an active identity, signed with its only version that signs it among those current or previous up to the end of their grace, and left exactly its nonce row |
| NonceRuns.CorrectRequestSucceeds | backend/src/ai_operations_automation/machine_auth/authenticator.py:87-191 | from any world a well-formed request of the one matching identity, signed with its only usable signing version under a free nonce, succeeds and stores its nonce row for the retention time |
| NonceRuns.ReplayRejected | backend/src/ai_operations_automation/db/models/machine.py:134-148 | two successes of one identity and environment never carry the same nonce |
| NonceRuns.RunKeepsAuthInv | backend/src/ai_operations_automation/machine_auth/authenticator.py:168-191 | the invariant behind it holds after every event |
| MachineAuth.ChoiceExact | backend/src/ai_operations_automation/machine_auth/authenticator.py:142-167 | a version is chosen exactly when the set is well formed, every effective secret resolves and it is the sole effective signer; 503 exactly when an effective secret does not resolve |
| MachineAuth.HeadersExact | backend/src/ai_operations_automation/machine_auth/authenticator.py:33-60 | the header checks pass exactly for well-formed requests, character by character, with a timestamp no further from the clock than the skew, bounds included |
| MachineAuth.DecimalIsPositional | backend/src/ai_operations_automation/machine_auth/authenticator.py:44-47 | the digits of a timestamp denote a positional decimal number |
| MachineAuth.ChooseCredential | backend/src/ai_operations_automation/machine_auth/authenticator.py:142-167 | the loops over versions and candidates |
| MachineAuth.MatchCandidates | backend/src/ai_operations_automation/machine_auth/authenticator.py:153-166 | the loop over the candidates collects the signers, and stops at a secret that cannot be resolved |
| MachineAuth.FilterStatus | backend/src/ai_operations_automation/machine_auth/authenticator.py:142-143 | the comprehension over one status |
| Snapshots.SafeSnapshotExact | backend/src/ai_operations_automation/command_idempotency/snapshots.py:27-54 | a snapshot is accepted exactly when it is an object of at most 16384 bytes with no plaintext, digest, secret or bearer key at any depth, and validation is idempotent |
| Snapshots.CommandSnapshotsAreSafe | backend/src/ai_operations_automation/start_ai/service.py:341-357 | no snapshot either command stores is refused for its keys |
| SchemaResolution.EndsIffSettleable | backend/src/ai_operations_automation/api/intake.py:75-90 | resolution ends on every schema exactly when the definitions can be settled in some order: each resolves through earlier ones or is cut short by the first of its names that is undefined or itself cut short |
| SchemaResolution.EndsIffAcyclic | backend/src/ai_operations_automation/api/intake.py:75-90 | acyclic definitions always suffice, and where every referenced name is defined they are also necessary |
| SchemaResolution.ResolveExact | backend/src/ai_operations_automation/api/intake.py:79-88 | resolution gives exactly the dereferenced schema: every local reference replaced by what its definition resolves to, lists with the same items in order, objects with the same keys in order, everything else unchanged |
| SchemaResolution.CleanResolvesToItself | backend/src/ai_operations_automation/api/intake.py:79-88 | a schema without local references is its own result, so resolving a clean result again changes nothing |
| SchemaResolution.ReferenceExact | backend/src/ai_operations_automation/api/intake.py:81-85 | a local reference is exactly an object whose $ref is a text that begins with #/$defs/, and it names what follows |
| SchemaResolution.MissingNameCutsCycle | backend/src/ai_operations_automation/api/intake.py:79-88 | a cyclic definition on which resolution still ends, because an undefined name raises before the cycle is entered |
| SchemaResolution.ResolveFollows | backend/src/ai_operations_automation/api/intake.py:79-88 | resolving fares exactly as following the referenced names in document order |
| SchemaResolution.SettledFate | backend/src/ai_operations_automation/api/intake.py:79-88 | a settled definition resolves or raises as its classification says, within its rank |
| SchemaResolution.MoreHopsAgree | backend/src/ai_operations_automation/api/intake.py:79-88 | the cut-off never changes a fate that did not reach it |
| SchemaResolution.CleanIffProper | backend/src/ai_operations_automation/api/intake.py:79-88 | every resolved schema is free of local references exactly when no definition a reference can name is itself the text of a local reference; object definitions satisfy this |
| SchemaResolution.ReferenceFromText | backend/src/ai_operations_automation/api/intake.py:79-88 | the concrete schema that shows the condition is needed |

## Left out

- HTTP routing, headers other than those of machine authentication, content types and error envelopes: one-branch decisions.
- SQLAlchemy and PostgreSQL internals: only commit, rollback, unique keys, row locks and the constraints of the modelled tables are kept. Each statement is one step; Start AI's three inserts, the four flushes of an accepted submission, and a locked set of siblings or credentials are each taken in one step.
- Deadlock freedom and liveness: the commands lock in different orders. A blocked statement is a disabled step and every call may abort at any point, which covers a deadlock victim.
- SHA-256, HMAC, token generation, secret storage and constant-time comparison: uninterpreted functions. No injectivity is assumed anywhere.
- Raw idempotency keys: scope keys hold the digest. In the engine the body hash is a digest computed by the route; `CommandExecution` also models a malformed one.
- JSON payloads of audit and outbox rows, reason codes, sanitized issues, `safe_metadata`, schema versions, `updated_at` and publication state: they decide nothing in the modelled code.
- Identifiers of audit and outbox rows are drawn by the caller of the model and their uniqueness is not tracked: a collision is a rollback, which an abort covers. Identifier collisions of records, operations, attempts, credentials, keys, contacts, requests and deliveries are modelled.
- Hash-format CHECKs and column lengths: digests are uninterpreted strings.
- The three secret-delivery columns and the receipt of a command record are one optional value, and so are the two callback-authorization columns, which no modelled command writes.
- The session object behind a reservation or a verified context is identified with its transaction.
- Credential rows are maps, not ordered lists; no decision depends on the order.
- Internal errors are logged in the engine by their cause; `CommandExecution.Execute` maps them to the 500 the caller sees.
- The text of error messages: refusals are status, code and current version.
- Pydantic validation, text normalisation and payload hashing of intake: a submission is either valid with its hash or unusable.
- Engine.Step: identities, settings and request bodies arrive as arguments, so authentication and body validation are not part of it.
- NonceRuns.NonceUsedOnce: the identity and the credential versions are read in two steps, as by the two SELECTs, and the nonce insert and its commit are two more; nonce rows are never deleted, as in the code; a cleanup of expired nonces is not modelled.
- EngineDelivery.RepliesArriveAtMostOnce: a 503 told to the caller of a failed commit acknowledgement is modelled as the loss of the reply, not as a reply of its own.
- EngineSerial.RunIsSerial: the serial order is the commit order; a stale refusal is not moved to an earlier place in it.
- EngineVerifier.AuthorityLasts: what a caller does with verified authority is not in the code, so the verifying transaction has no further statements.
- Engine.StepReserve: an insert under a committed key fails at once and one under an uncommitted key waits; when several keys of one insert clash, the order in which the database meets them is not modelled.
- Signing.SigningInjective: the method is ASCII bytes; upper-casing of other letters is not modelled.
- MachineAuth: Python's limit on the number of digits of an integer literal is not modelled; the bound of a datetime is.
- Snapshots.SafeSnapshotExact: the encoded size and case folding are uninterpreted; numbers are reals, and encoding followed by decoding returns an equal value.
- Snapshots.CommandSnapshotsAreSafe: assumes the stored snapshot is within the size bound, which column lengths imply but the model does not compute.
- SchemaResolution.Resolve: numbers, booleans and null are one kind of scalar; Python's own recursion limit is not modelled, the bound on nested references stands for non-termination.
- JWT verification, the key-set cache, human roles, the read-only request query, configuration loading and migrations: easy or library-bound.
- Documented but unimplemented behaviour (callbacks, retries, credential replacement, triage, approval, outbox publishing): nothing in the code decides it.
