# Reckoning: a verified model of its stores and protocols

Reckoning keeps a user's decisions, routines, personal context and external
writes on the user's own machine.  Almost everything it promises about them is
a promise about *all* runs of a small concurrent or crash-prone protocol, or
about a loop with a bound.  This project states those promises in Dafny and
proves them.  `dafny verify dfyconfig.toml` checks all of it.

## How the models are built

Each protocol is modelled three times, and the three are proved to agree.

* **Transactions.**  One block between `BEGIN IMMEDIATE` and `commit` is one
  function from tables to tables and an answer (`ClaimTx`, `SaveTx`,
  `ProgressCall`, ...).
* **Objects.**  The repository and service classes keep their fields, loops,
  branches and error returns in the form of the source.  Each method is proved
  to do to the tables, and to answer, what the transaction says; each service
  method called with nothing in between is proved to be a behaviour of the
  protocol.
* **Protocols.**  Workers stand at program counters between their transactions
  and hold what they read earlier.  A behaviour is an arbitrary list of events:
  steps of any number of workers, crashes, recoveries, administration.  `Run`
  folds the list; invariants are proved step by step; the theorems quantify
  over all lists.

| file | subject |
|---|---|
| `ExternalWriteStore`, `ExternalWriteProtocol`, `ExternalWriteTheorems`, `ExternalWriteLaws`, `ExternalWriteService`, `ExternalWriteMemory` | prepare, approve, claim, dispatch, call, finalize |
| `Automation`, `AutomationRepository`, `RoutineRunProtocol`, `RoutineRunTheorems`, `RoutineTakeovers`, `RoutineLaws`, `RoutineService`, `AutomationStore`, `RoutineContracts` | routine runs and their contracts |
| `Continuity`, `ContinuityStore`, `DecisionProtocol`, `DecisionTheorems`, `DecisionReplays`, `DecisionDigests`, `DecisionAlone`, `DecisionService` | decisions, operations, check-ins |
| `LiveBudget` | budget of live evaluation runs |
| `Conversation`, `ConversationSafety` | history selection, notices, quotation spans, output policy |
| `PersonalContext` | versioned context with tombstones |
| `InterfaceMigration` | messages to turns |
| `Wrappers`, `Text`, `Counting` | shared helpers |

Times are integers, identifiers are strings, money is exact (`real`), and the
digest is an arbitrary function.  What a component takes from outside is a
parameter: the answers of adapters, executors, providers and transports, the
clock, fresh identifiers, Unicode tables (`isalnum`, digits, `casefold`), the
word lists of the output policy and the lexical relevance of a query.

## What does not hold, and exactly when it does

The models follow the code where it and its documentation part.

* The pending list and Control's recomputation agree on a write exactly unless
  it is held back only by an approval whose identifier is empty.  The service
  refuses blank identifiers, so they agree in every reachable state; the
  repository alone does not (`PendingAgreesExactly`, `EmptyApprovalIdSplitsTheLists`).
* The bound on dispatches is a property of `execute`.  The repository lets an
  owner abort its own dispatched claim, after which the write can be dispatched
  again without a recovery (`RepositoryAloneDispatchesTwice`).
* A displaced owner can no longer dispatch, abort or finalize, but one that is
  already in its retry loop may still call its adapter; the bound on adapter
  calls counts those calls.
* A dispatch checks that some authority is active, not the one recorded when
  the write was claimed.  Nothing is claimed about the recorded one.
* The in-memory external-write repository differs from the SQLite one in
  approvals, aborted claims, refused dispatches, recovery times and
  finalizations; each difference is stated as an if-and-only-if.
* "Nothing runs after a failed step" holds until someone claims the run anew.
  A crash between the save of a failed result and the finalization is enough:
  `AStepRunsAfterAFailure` gives the events.  A new claim charges an attempt
  exactly when steps, attempts of the current step and budget are left
  (`AFreshClaimChargesExactly`); after a failed result that means that there is
  a next step and the total is within the ceiling (`AFailedStepIsRunPast`).
  Otherwise it executes nothing and ends the run or gives the claim back
  (`AFreshClaimOnlyEnds`).
* "The old owner can change nothing" holds of run and receipt.  A release asks
  for the owner's name and not for the revision, so a stale worker changes the
  claim exactly when it gives back, after an exception, one that a worker of
  its own name holds (`DisplacedWorkerIsPowerless`); two calls under one worker
  name are the input (`ANamesakeLosesTheClaim`).
* The progress save of a routine run does not look at the claim state.
  "Finalized is absorbing" rests on no worker holding the revision after the
  finalization, which is what is proved.
* The SQLite progress save reads a missing owner as the text "None" and refuses
  a key taken by another run; it agrees with memory exactly elsewhere
  (`ProgressAgreesExactly`, `SqliteRefinesInMemory`).
* "Any payload change under a used operation id is a conflict" holds of the
  replay check: it refuses every other digest, under a failed record as under a
  completed one (`CheckRefusesExactly`).  The operation table compares no
  digest, and refuses a record exactly when the id is completed by then.  So of
  two starts that pass the check together, the second replaces the failed
  record of the first, and the input that was outstanding, without a conflict
  (`SecondStartReplacesTheFirst`).  A second digest gets past a used id only if
  its request had passed the check before (`AnotherDigestNeedsAnEarlierCheck`).
* Operation digests are made from parts joined with a bar and do not contain
  the kind of the request.  Requests of any kinds are told apart when no part
  holds a bar (`BarFreeRequestsAreToldApart`).  Beyond that, a confirmation or
  correction is confused with some start exactly when its joined text neither
  begins nor ends with white space; with another request of its kind exactly as
  `ConfirmationsCollideExactly` and `CorrectionsCollideExactly` say; every
  correction reads as a confirmation, and a confirmation reads as a correction
  exactly as `ConfirmationReadsAsACorrectionExactly` says.
* The identifier of a migrated turn is made from channel, session and position
  joined with dashes, and it is a primary key.  So a migration is refused, with
  nothing changed, not only for malformed histories but also when two sessions
  are the same once channel and session are joined by a dash
  (`MigrateV1ToV2`, `DashedChannelsCollide`).  The three channels of the
  application have no dash in their names and never collide
  (`OwnChannelsNeverCollide`).
* A migrated answer that was nothing but a notice leaves its turn pending.

## Model

| member | source | states |
|---|---|---|
| ExternalWriteTheorems.BoundedDispatch | src/reckoning/connectors.py:631-696 | in every interleaving of executions, crashes, approvals, revocations and recoveries, a write is dispatched at most once plus once per recovery of it |
| ExternalWriteTheorems.OneOwnerReachesTheAdapter | src/reckoning/connectors.py:666-682 | without a recovery of the write, all its adapter calls are made by one owner |
| ExternalWriteTheorems.AttemptsBounded | src/reckoning/connectors.py:699-717 | one execution makes at most `max_retries + 1` adapter calls |
| ExternalWriteTheorems.AdapterCallsBounded | src/reckoning/connectors.py:631-717 | all owners together make at most (1 + recoveries) times (limit + 1) adapter calls for a write |
| ExternalWriteTheorems.AmbiguousIsNeverRetried | src/reckoning/connectors.py:699-717 | only a definite failure is ever followed by another call of the same owner, or of anyone while the write is not recovered |
| ExternalWriteTheorems.ReceiptsFinal | src/reckoning/external_write_store.py:866-892 | a stored receipt is never changed or removed by any list of events, from any tables |
| ExternalWriteTheorems.ReceiptExactlyWhenFinalized | src/reckoning/external_write_store.py:866-892 | a write not imported with a receipt has one exactly when its claim is finalized |
| ExternalWriteTheorems.ReceiptTellsTheLastCall | src/reckoning/connectors.py:680-696 | a receipt carries the outcome and number of the last adapter call of the owner that finalized, and without recovery of the last call ever made |
| ExternalWriteTheorems.OnlyItsOwnerMovesAClaim | src/reckoning/external_write_store.py:675-892 | a claim changes only in a step of its own owner, in a claim by a worker on that write, or in a recovery, and never once finalized |
| ExternalWriteTheorems.FinalizedIsAbsorbing | src/reckoning/external_write_store.py:675-892 | a finalized claim is the same after every list of events |
| ExternalWriteTheorems.RecoveryDisplaces | src/reckoning/external_write_store.py:818-864 | an effective recovery displaces the owner it takes the claim from |
| ExternalWriteTheorems.DisplacedIsPowerless | src/reckoning/external_write_store.py:754-892 | a displaced owner stays displaced whatever happens, and its next step changes neither the tables nor the record of dispatches |
| ExternalWriteTheorems.ApprovedIsSent | src/reckoning/connectors.py:648-682 | every adapter call carries the stored payload; its digest is the digest of the claim, of the idempotency key and of every approval of the write |
| ExternalWriteTheorems.DispatchHasAuthority | src/reckoning/external_write_store.py:754-797 | a step that dispatches finds in the tables it reads an active approval of that payload or an unrevoked permission equal on all five scope fields |
| ExternalWriteTheorems.PendingListsAgree | src/reckoning/operational_records.py:512-524 | in every reachable state the pending query and the recomputation by Control list the same writes in the same order: those with no receipt and no authority |
| ExternalWriteTheorems.PendingAgreesExactly | src/reckoning/external_write_store.py:562-589 | the two agree on a write exactly when it is not held back only by an approval with an empty identifier |
| ExternalWriteTheorems.EmptyApprovalIdSplitsTheLists | src/reckoning/external_write_store.py:503-545 | an input on which they differ: the repository accepts an empty approval identifier |
| ExternalWriteTheorems.RepositoryAloneDispatchesTwice | src/reckoning/external_write_store.py:754-797 | the dispatch bound needs the protocol: a second dispatch call around a revocation aborts a dispatched claim, which can then be claimed and dispatched again without recovery |
| ExternalWriteProtocol.InvPreserved | src/reckoning/external_write_store.py:434-892 | every step of every worker and of the environment keeps the invariant of tables, workers and logs |
| ExternalWriteProtocol.InvAlways | src/reckoning/external_write_store.py:434-892 | the invariant holds after every list of events |
| ExternalWriteProtocol.InvInitially | src/reckoning/external_write_store.py:1633-1665 | a store holding what the legacy import accepts, and nobody at work, satisfies the invariant |
| ExternalWriteProtocol.ClaimTaken | src/reckoning/external_write_store.py:675-752 | a claim by an owner that holds none either leaves the tables alone or takes a free or aborted claim with the digest and key of the stored write |
| ExternalWriteProtocol.DispatchEnds | src/reckoning/external_write_store.py:754-797 | a dispatch by an owner leaves the tables alone, dispatches its claimed claim, or aborts it for lack of authority |
| ExternalWriteProtocol.AdministerSound | src/reckoning/external_write_store.py:456-658 | preparing, approving, granting and revoking keep digests, approvals and permissions sound and touch neither claims nor receipts |
| ExternalWriteService.ExternalWriteService.Prepare | src/reckoning/connectors.py:527-564 | a preparation is refused as invalid exactly for a blank scope field or identifier or an empty payload, and otherwise stored as the protocol event does |
| ExternalWriteService.ExternalWriteService.ApproveExact | src/reckoning/connectors.py:566-578 | an approval goes through exactly for an identifier that is not blank and a stored write whose digest the repository accepts it for; a refused one changes nothing, a granted one is the protocol event for the stored digest and the reply carries it |
| ExternalWriteService.ExternalWriteService.Execute | src/reckoning/connectors.py:631-696 | one call from start to end is a behaviour of the protocol that ends stopped, and each logged call has the adapter's own answer; a write with a receipt is answered with it, one without authority with a request for approval of its payload; an authorized write is carried out exactly when it is unclaimed, aborted or claimed by the owner itself, and otherwise refused with nothing changed; a new receipt has the number of calls made, the status, identifier and detail of the last answer by cases (an exception: unknown, with its text), the authorization in force and the given time, and the claim says the same |
| ExternalWriteService.ExternalWriteService.Deliver | src/reckoning/connectors.py:680-696 | an owner holding its dispatched claim always ends with a stored receipt, which tells the last of the adapter's own answers to its calls |
| ExternalWriteService.ExternalWriteService.Carry | src/reckoning/connectors.py:666-696 | from the claim on: each logged call has the adapter's own answer, a receipt is returned exactly when calls were made, and it tells the last answer |
| ExternalWriteService.ExternalWriteService.GrantStandingPermission | src/reckoning/connectors.py:580-608 | a grant is refused as invalid exactly for a blank identifier or scope field, as a conflict only for a used identifier, and otherwise adds exactly the permission asked for, active |
| ExternalWriteService.ExternalWriteService.RevokeStandingPermission | src/reckoning/connectors.py:610-615 | a revocation is the repository's and the protocol event |
| ExternalWriteService.ReceiptTellsAnswers | src/reckoning/connectors.py:680-696 | a receipt made from a result of the last answer says what that answer said, by cases and not by the functions that build it |
| ExternalWriteService.ExternalWriteService.InvokeAdapter | src/reckoning/connectors.py:699-717 | all attempts but the last are definite failures with attempts left, the last is not, and the result is the outcome of the last |
| ExternalWriteService.AuthorizedWriteCompletes | src/reckoning/connectors.py:631-696 | progress: a prepared and authorized write that nobody has claimed, executed alone by a fresh owner, ends with the receipt of the last answer of its adapter |
| ExternalWriteService.InvocationsFollow | src/reckoning/connectors.py:699-717 | the retry loop ends where the single-call steps of the protocol end, with the same calls logged |
| ExternalWriteStore.SQLiteExternalWriteRepository.Prepare | src/reckoning/external_write_store.py:456-477 | new tables and answer of a preparation: the same content again is answered with its approval, other content is a conflict |
| ExternalWriteStore.SQLiteExternalWriteRepository.ApproveExact | src/reckoning/external_write_store.py:503-545 | new tables and answer of an approval, with its four conflicts |
| ExternalWriteStore.SQLiteExternalWriteRepository.GrantPermission | src/reckoning/external_write_store.py:591-613 | new tables and answer of a grant; a used identifier is a conflict |
| ExternalWriteStore.SQLiteExternalWriteRepository.RevokePermission | src/reckoning/external_write_store.py:634-658 | new tables and answer of a revocation; a revoked permission is returned unchanged |
| ExternalWriteStore.SQLiteExternalWriteRepository.ClaimExecution | src/reckoning/external_write_store.py:675-752 | new tables and answer of a claim: first claim, own claim again, aborted claim taken over with a higher revision, and the three conflicts |
| ExternalWriteStore.SQLiteExternalWriteRepository.DispatchExecution | src/reckoning/external_write_store.py:754-797 | new tables and answer of a dispatch; without authority the claim is aborted and that is committed |
| ExternalWriteStore.SQLiteExternalWriteRepository.AbortExecution | src/reckoning/external_write_store.py:799-816 | new tables and answer of an abort by the owner, from any state |
| ExternalWriteStore.SQLiteExternalWriteRepository.RecoverExecution | src/reckoning/external_write_store.py:818-864 | new tables and answer of a recovery at an expected revision |
| ExternalWriteStore.SQLiteExternalWriteRepository.FinalizeExecution | src/reckoning/external_write_store.py:866-892 | claim and receipt are stored together or not at all |
| ExternalWriteStore.SQLiteExternalWriteRepository.PendingApprovalIds | src/reckoning/external_write_store.py:562-589 | the ids of the writes without receipt, approval of that payload or matching permission, in row order |
| ExternalWriteStore.Authorization | src/reckoning/external_write_store.py:1185-1213 | there is an authorization exactly when some approval of the write is active or some active permission has its scope; it names one of these, an approval before any permission, and the five scope fields of the write |
| ExternalWriteStore.ActiveApprovalId | src/reckoning/external_write_store.py:1216-1227 | an active approval is found exactly when there is one |
| ExternalWriteStore.Revoked | src/reckoning/external_write_store.py:634-658 | exactly the active row of that identifier changes |
| ExternalWriteLaws.PreparationTells | src/reckoning/external_write_store.py:456-477 | a preparation under a new identifier is stored as given and found from then on; under a used one nothing is stored, and it goes through exactly for the same digest and scope |
| ExternalWriteLaws.ApprovalAuthorizes | src/reckoning/external_write_store.py:503-545 | an approval that goes through is the first of its write, has its digest, and authorizes it at once; a refused one changes nothing |
| ExternalWriteLaws.OneApprovalAlways | src/reckoning/external_write_store.py:503-545 | whatever happens, at most one approval is stored for a write, and every stored one is active |
| ExternalWriteLaws.GrantAuthorizes | src/reckoning/external_write_store.py:591-613 | a grant goes through exactly under a new identifier and authorizes every prepared write of its scope at once |
| ExternalWriteLaws.RevocationWithdraws | src/reckoning/external_write_store.py:634-658 | a revocation makes exactly its own permission inactive, at the time given unless it was withdrawn before, and an unknown one is refused |
| ExternalWriteLaws.WithdrawnForGood | src/reckoning/external_write_store.py:634-658 | whatever happens after a revocation, the permission never authorizes anything again |
| ExternalWriteLaws.ClaimTells | src/reckoning/external_write_store.py:675-752 | a claim goes through exactly for an unclaimed or aborted write, or for the holder of a claim not finalized, of the same digest; the row it leaves, field by field |
| ExternalWriteLaws.ClaimToReceipt | src/reckoning/external_write_store.py:754-892 | the holder's dispatch goes through exactly with authority and once, nobody else's does; its finalization stores exactly its receipt, and after that every claim, dispatch, recovery and finalization is refused |
| ExternalWriteLaws.AbortAndRecovery | src/reckoning/external_write_store.py:799-864 | an abort frees the claim for anyone; of two recoveries that expect one revision only the first goes through |
| ExternalWriteLaws.PendingIdsExactly | src/reckoning/external_write_store.py:562-589 | a write is listed as pending exactly when nothing was received for it and neither an active approval of its payload nor an active permission on its scope is there |
| ExternalWriteMemory.AuthorizationsAgree | src/reckoning/external_write_store.py:240-251 | memory and SQLite find the same authority |
| ExternalWriteMemory.ApprovalsAgreeExactly | src/reckoning/external_write_store.py:205-235 | the two repositories treat an approval alike except for an unused identifier when either the digest is wrong or the write is approved already, but not both |
| ExternalWriteMemory.ClaimsAgreeExactly | src/reckoning/external_write_store.py:305-346 | claims agree except for the claim of an aborted write of the same digest |
| ExternalWriteMemory.DispatchesAgreeExactly | src/reckoning/external_write_store.py:348-361 | dispatches always answer alike and store alike exactly when authority is not gone |
| ExternalWriteMemory.RecoveriesAgreeExactly | src/reckoning/external_write_store.py:370-407 | recoveries agree exactly when none takes place or the claim time is the recovery time |
| ExternalWriteMemory.FinalizationsAgreeExactly | src/reckoning/external_write_store.py:409-420 | finalizations agree exactly when the owner has no claim, or a live one and no receipt yet |
| ExternalWriteMemory.PendingAgrees | src/reckoning/external_write_store.py:253-259 | both list the same pending writes |
| ExternalWriteMemory.InMemoryExternalWriteRepository.ApproveExact | src/reckoning/external_write_store.py:205-235 | the loop over the approvals answers and stores as stated by its specification |
| ExternalWriteMemory.InMemoryExternalWriteRepository.ClaimExecution | src/reckoning/external_write_store.py:305-346 | new tables and answer of an in-memory claim |
| ExternalWriteMemory.InMemoryExternalWriteRepository.DispatchExecution | src/reckoning/external_write_store.py:348-361 | a refused dispatch leaves the claim as it is |
| ExternalWriteMemory.InMemoryExternalWriteRepository.RecoverExecution | src/reckoning/external_write_store.py:370-407 | a recovery dates the claim anew |
| ExternalWriteMemory.InMemoryExternalWriteRepository.FinalizeExecution | src/reckoning/external_write_store.py:409-420 | claim and receipt are overwritten whatever they were |
| RoutineRunTheorems.StepGrowth | src/reckoning/automation.py:284-374 | any change of a stored run raises the revision and is one attempt, one result with step advance, or the finalization |
| RoutineRunTheorems.ResultsAppendOnly | src/reckoning/automation.py:713-807 | stored results are append-only and the counters never go back, over any list of events |
| RoutineRunTheorems.LiveTokenHoldsStoredRun | src/reckoning/automation.py:341-374 | a worker whose owner and revision are still current is the recorded owner, holds exactly the stored run, and is the only such worker |
| RoutineRunTheorems.StaleForEver | src/reckoning/automation.py:284-374 | a stale token never becomes current again |
| RoutineRunTheorems.DisplacedWorkerIsPowerless | src/reckoning/automation.py:713-807 | however the run goes on, no step of a displaced worker changes run or receipt, and one changes the claim exactly when the worker gives back, after an exception, a held claim whose recorded owner bears its name |
| RoutineRunTheorems.StaleWorkerChangesExactly | src/reckoning/automation.py:302-374 | the same of one step |
| RoutineRunTheorems.RecoveryDisplaces | src/reckoning/automation.py:308-333 | a recovery makes every token stale |
| RoutineRunTheorems.StepExecutionsBounded | src/reckoning/automation.py:741-786 | each step is executed at most `retry_limit + 1` times over the life of the run, across crashes, takeovers and stale workers |
| RoutineRunTheorems.RunExecutionsBounded | src/reckoning/automation.py:723-786 | the run makes at most steps times (`retry_limit` + 1) executor calls, and stored results number the current step |
| RoutineRunTheorems.CeilingCrossedAtMostOnce | src/reckoning/automation.py:720-786 | at most one stored result takes the total over the cost ceiling, and everything recorded after it costs nothing |
| RoutineRunTheorems.CeilingRespectedByHonestQuotes | src/reckoning/automation.py:738-786 | if no executor reports more than it quoted, the stored total never passes the ceiling |
| RoutineRunTheorems.ReceiptExactlyWhenFinalized | src/reckoning/automation.py:787-807 | a receipt exists exactly when the run is finalized, and repeats the stored run |
| RoutineRunTheorems.FinalizedIsAbsorbing | src/reckoning/automation.py:341-374 | no event changes run, claim or receipt of a finalized run, although the progress save does not look at the claim state |
| RoutineRunTheorems.NothingRunsAfterAFailedStep | src/reckoning/automation.py:780-807 | once a failed or blocked result is stored, nothing more is charged or recorded until someone claims the run anew |
| RoutineTakeovers.AFreshClaimChargesExactly | src/reckoning/automation.py:713-751 | a call that takes a free claim and is left alone finds a quote under which it charges an attempt exactly when steps, attempts of the current step and budget are left |
| RoutineTakeovers.AFreshClaimExecutes | src/reckoning/automation.py:713-771 | then, under a quote within the budget, it charges the attempt and calls the executor for it, whatever the last stored result says |
| RoutineTakeovers.AFreshClaimOnlyEnds | src/reckoning/automation.py:713-807 | otherwise it calls no executor, whatever it is quoted: it finalizes a run with no step left, gives the claim back on a refused quote, or finalizes one more result, Failed or Blocked and free |
| RoutineTakeovers.ANewClaimRunsOn | src/reckoning/automation.py:308-333 | after a recovery from any state not finalized the claim is free to take, and charges exactly then |
| RoutineTakeovers.AFailedStepIsRunPast | src/reckoning/automation.py:713-807 | after a failed or blocked result is saved, a crash and a takeover let the next step be charged exactly when there is one and the total is within the ceiling |
| RoutineTakeovers.AStepRunsAfterAFailure | src/reckoning/automation.py:713-807 | an input: from the start of a run of two steps or more, a behaviour whose only stored result is Failed and in which the second step is executed |
| RoutineTakeovers.ANamesakeLosesTheClaim | src/reckoning/automation.py:302-306 | an input: of two calls under one worker name the first, no longer current, frees the claim of the second |
| RoutineRunProtocol.InvPreserved | src/reckoning/automation.py:694-807 | every event keeps the invariant of stored run, claim, receipt, workers and executor calls |
| RoutineRunProtocol.InvAlways | src/reckoning/automation.py:694-807 | the invariant holds after every list of events |
| RoutineRunProtocol.InvInitially | src/reckoning/automation.py:666-699 | a started run satisfies it |
| RoutineService.RoutineService.StartRun | src/reckoning/automation.py:666-699 | a start goes through exactly under a confirmed contract for that trigger, when the key is used already, or the run identifier is new and tools and model policy cover the steps; each refusal with its error |
| RoutineService.RoutineService.ResumeRun | src/reckoning/automation.py:701-807 | the nested loops terminate, and the effect on store and executors is a behaviour of the run protocol whose quotes and outcomes are, in order, the executors' own; every result it adds is explained by them by cases (recorded as answered, blocked exactly for a cost over quote or ceiling, failed with the text of the last exception); a call ends with a receipt, with the conflict of a run someone else holds, with an unknown contract, or with a refused quote or an interruption that the executors gave |
| RoutineService.RoutineService.RunSteps | src/reckoning/automation.py:718-804 | the loop over the steps follows the protocol until the terminal save; with a receipt all new results are explained by the executors' answers, without one the exception is |
| RoutineService.RoutineService.AttemptStep | src/reckoning/automation.py:731-771 | the attempt loop of one step follows the protocol; the result handed back, or the exception, is explained by the quotes and answers of this step alone |
| RoutineService.RoutineService.TryOnce | src/reckoning/automation.py:738-771 | one attempt: the quote asked for and the answer given decide between a result, another attempt and an exception |
| RoutineService.RoutineService.CallExecutor | src/reckoning/automation.py:753-757 | the outcome is the executor's own, for the step and its key |
| RoutineService.RoutineService.AskForQuote | src/reckoning/automation.py:738-742 | the quote is the executor's own, read as the source reads it |
| RoutineService.QuotesAreRead | src/reckoning/automation.py:1151-1160 | a quote that is not negative is quoted as that amount; a negative one, one that is no integer, and a missing one of a model step are refused; a missing one of another step is free |
| RoutineService.RoutineService.SaveAttempt | src/reckoning/automation.py:743-751 | the attempt is stored before the executor is called |
| RoutineService.RoutineService.SaveResult | src/reckoning/automation.py:772-784 | the result is stored with the step advance |
| RoutineService.RoutineService.Finish | src/reckoning/automation.py:788-804 | terminal status and receipt are stored together |
| RoutineService.RoutineService.Abandon | src/reckoning/automation.py:805-807 | an exception releases the claim only if it is still the caller's |
| RoutineService.SumCosts | src/reckoning/automation.py:720-721 | the summing loop computes the recorded total |
| Automation.OutcomesExactly | src/reckoning/automation.py:1135-1145 | the outcome of a run by cases: blocked exactly when a result is, else partial or failed by whether one failed and one succeeded, else success exactly when every step succeeded |
| Automation.SuccessMeansEveryStepSucceeded | src/reckoning/automation.py:1135-1145 | a run is a success exactly when every step is recorded and succeeded |
| AutomationRepository.StartIsIdempotent | src/reckoning/automation.py:274-282 | starting again under a used key changes nothing and returns the first run |
| RoutineLaws.ClaimTells | src/reckoning/automation.py:284-300 | a run can be claimed exactly when it is not finalized and nobody else holds it |
| RoutineLaws.ClaimIsExclusive | src/reckoning/automation.py:292-295 | from a claim on, no list of events without a release or recovery changes who holds the run, and every later claim that goes through is the holder's |
| RoutineLaws.ReleaseTells | src/reckoning/automation.py:302-306 | a release frees the claim exactly for its holder and changes nothing for anyone else |
| RoutineLaws.OneRecoveryWins | src/reckoning/automation.py:308-333 | of two recoveries that expect one revision only the first goes through |
| RoutineLaws.SaveUsesItsToken | src/reckoning/automation.py:341-358 | a save goes through exactly for the recorded owner and revision, stores the run given and no other, and uses the token up |
| RoutineLaws.FinalizationEndsTheRun | src/reckoning/automation.py:360-374 | after a finalization nobody can claim, save under the old token, or take over |
| RoutineLaws.CompleteIsValid | src/reckoning/automation.py:624-664 | a contract is accepted exactly when nothing that has to be said is blank and no limit is negative |
| RoutineLaws.ProposalTells | src/reckoning/automation_store.py:56-69 | a proposal is stored exactly when it is complete and new: the next version, proposed, its texts without the white space around them |
| RoutineLaws.RevisionTells | src/reckoning/automation_store.py:71-93 | a revision is stored exactly when the contract it revises is confirmed and it is complete and new, with a link to that contract |
| RoutineLaws.ConfirmationTells | src/reckoning/automation_store.py:95-124 | a confirmation goes through exactly for a complete proposal; every other confirmed contract of its routine is superseded and nothing else changes |
| AutomationRepository.InMemoryAutomationRepository.StartRun | src/reckoning/automation.py:274-282 | new tables and answer of a start |
| AutomationRepository.InMemoryAutomationRepository.ClaimRun | src/reckoning/automation.py:284-300 | new tables and revision of a claim, and its conflicts |
| AutomationRepository.InMemoryAutomationRepository.ReleaseRun | src/reckoning/automation.py:302-306 | a release by the owner, and nothing otherwise |
| AutomationRepository.InMemoryAutomationRepository.RecoverRun | src/reckoning/automation.py:308-333 | new tables and revision of a recovery |
| AutomationRepository.InMemoryAutomationRepository.SaveRunProgress | src/reckoning/automation.py:341-358 | a progress save under the token, and its conflict |
| AutomationRepository.InMemoryAutomationRepository.FinalizeRun | src/reckoning/automation.py:360-374 | run, receipt and claim are finalized together |
| AutomationRepository.InMemoryAutomationRepository.FindRunByKey | src/reckoning/automation.py:382-386 | the search finds a run of that key exactly when there is one |
| AutomationStore.SqliteRefinesInMemory | src/reckoning/automation_store.py:180-357 | on a list of calls SQLite gives the same answers and ends with the same runs, claims and receipts as memory exactly when no call of it is a save on which they part |
| AutomationStore.OwnSavesNeverPart | src/reckoning/automation.py:743-784 | a save that keeps the key of its run, by a worker not called "None" or on a claimed run, is no such save; `resume_run` makes no others |
| AutomationStore.ProgressAgreesExactly | src/reckoning/automation_store.py:812-866 | a progress save differs exactly when the owner is the text "None" of an unclaimed run or the save takes another run's key |
| AutomationStore.FinalizeAgreesExactly | src/reckoning/automation_store.py:330-357 | a finalization differs exactly then as well |
| AutomationStore.SQLiteAutomationRepository.StartRun | src/reckoning/automation_store.py:180-197 | keeps columns, payload and step results consistent and does to the abstract tables what a start does |
| AutomationStore.SQLiteAutomationRepository.ClaimRun | src/reckoning/automation_store.py:199-234 | does to the abstract tables, and answers, what the specification says of a claim |
| AutomationStore.SQLiteAutomationRepository.ReleaseRun | src/reckoning/automation_store.py:236-252 | does to the abstract tables what the specification says of a release |
| AutomationStore.SQLiteAutomationRepository.RecoverRun | src/reckoning/automation_store.py:254-304 | does to the abstract tables, and answers, what the specification says of a recovery |
| AutomationStore.SQLiteAutomationRepository.WriteRunProgress | src/reckoning/automation_store.py:812-866 | does to the abstract tables, and answers, what the specification says of a progress save, with the comparison of owners as text and the unique key column |
| AutomationStore.SQLiteAutomationRepository.FinalizeRun | src/reckoning/automation_store.py:330-357 | does to the abstract tables, and answers, what the specification says of a finalization |
| AutomationStore.SQLiteAutomationRepository.ReplaceStepResults | src/reckoning/automation_store.py:788-810 | afterwards the step-result rows of the run are exactly its results |
| AutomationStore.SQLiteAutomationRepository.SelectRunByKey | src/reckoning/automation_store.py:710-720 | finds the run of a key |
| AutomationStore.SQLiteAutomationRepository.WriteRun | src/reckoning/automation_store.py:726-786 | record and step results describe the run written |
| AutomationStore.SQLiteAutomationRepository.MarkFinalized | src/reckoning/automation_store.py:341-352 | only a row of that run and owner is marked |
| AutomationStore.SQLiteAutomationRepository.InsertReceipt | src/reckoning/automation_store.py:901-935 | one receipt per run |
| RoutineContracts.VersionsAreOneToN | src/reckoning/automation_store.py:56-93 | whatever the clients do, the versions of a routine are exactly 1 to n, one contract each |
| RoutineContracts.OneConfirmedContract | src/reckoning/automation_store.py:95-124 | at most one contract of a routine is confirmed, and once one is, one always is |
| RoutineContracts.ContractsAreImmutable | src/reckoning/automation_store.py:627-696 | only the status of a contract moves, and only forward; superseded is terminal |
| RoutineContracts.ChainsEnd | src/reckoning/automation_store.py:71-93 | supersession links lead to smaller versions of the same routine, so every chain ends |
| RoutineContracts.AlwaysSound | src/reckoning/automation_store.py:56-124 | the invariant of contracts holds after every list of requests |
| RoutineContracts.SQLiteContractRepository.CreateProposal | src/reckoning/automation_store.py:56-69 | stores the next version as proposed |
| RoutineContracts.SQLiteContractRepository.ReviseProposal | src/reckoning/automation_store.py:71-93 | stores a new version that links to the confirmed one |
| RoutineContracts.SQLiteContractRepository.ConfirmProposal | src/reckoning/automation_store.py:95-124 | confirms one contract and supersedes every other confirmed one of its routine |
| RoutineContracts.SQLiteContractRepository.NextVersion | src/reckoning/automation_store.py:623-634 | the loop finds the largest version |
| RoutineContracts.SQLiteContractRepository.SupersedeOthers | src/reckoning/automation_store.py:101-118 | the loop supersedes exactly the other confirmed contracts |
| DecisionTheorems.AtMostOneCommitPerOperation | src/reckoning/persistence.py:151-195 | however many requests pass the replay check together, at most one commit is made under an operation id, and its operation is completed and names the decision |
| DecisionTheorems.CompletedIsFinal | src/reckoning/persistence.py:478-509 | a completed operation never changes and nothing is ever committed under it again |
| DecisionTheorems.ReplayChangesNothing | src/reckoning/application.py:644-663 | a request under a completed id stores nothing and is answered with the named decision, or with a conflict exactly when the digest differs (ids with a failed record: `DecisionReplays`) |
| DecisionTheorems.NoLostUpdate | src/reckoning/persistence.py:151-195 | the stored decision is the last of its commits, which number 1 to n and each only append records and evidence to the one before |
| DecisionTheorems.ConfirmedIsFinal | src/reckoning/application.py:911-975 | a confirmed decision never changes again |
| DecisionTheorems.StoredDecisionsAreSound | src/reckoning/application.py:794-1003 | in every stored decision each record has versions 1 to n, each version superseding the one before, all are proposed before confirmation, all current ones confirmed after, and the why-view shows support for each |
| DecisionTheorems.CheckInsStayResolvable | src/reckoning/application.py:1037-1055 | every stored check-in belongs to a confirmed decision and all it cites is evidence of it |
| DecisionReplays.CheckRefusesExactly | src/reckoning/application.py:644-663 | the replay check answers a request with a conflict exactly when its id has a record of another digest, completed or failed, and stores nothing |
| DecisionReplays.RecordRefusedExactly | src/reckoning/persistence.py:478-509 | an operation is refused exactly when its id is completed by then; otherwise it replaces the record whatever digest that had |
| DecisionReplays.SaveRefusedExactly | src/reckoning/persistence.py:151-195 | a save is refused exactly when its snapshot is stale or its id completed by then, and stores nothing then |
| DecisionReplays.AnotherDigestNeedsAnEarlierCheck | src/reckoning/application.py:644-663 | in every behaviour the digest under a used id is the one it had, or that of a request that was past its check at that time; no request with any other digest ever gets past the check again |
| DecisionReplays.NoNewDigestUnderAUsedId | src/reckoning/application.py:644-663 | the same step by step, for any digest that stands or may come to stand |
| DecisionReplays.StartPastItsCheckReplaces | src/reckoning/application.py:729-751 | a start past its check replaces the record of an id that is not completed when its provider fails, digest and outstanding input with it |
| DecisionReplays.SecondStartReplacesTheFirst | src/reckoning/application.py:644-663 | an input, for any two starts under one id: both pass the check, both providers fail, and the second record replaces the first without a conflict |
| DecisionDigests.BarFreeRequestsAreToldApart | src/reckoning/application.py:640-642 | requests of any kinds with no bar in any part have the same digest text exactly when they have the same parts, and then are of one kind |
| DecisionDigests.StartsCollideExactly | src/reckoning/application.py:715-716 | a confirmation or correction shares its digest text with some start exactly when that text neither begins nor ends with white space |
| DecisionDigests.ConfirmationsCollideExactly | src/reckoning/application.py:640-642 | a confirmation shares its digest text with another one exactly when its decision id with a bar behind it, or its submission with a bar before it, holds a revision between bars |
| DecisionDigests.EveryCorrectionReadsAsAConfirmation | src/reckoning/application.py:846-851 | every correction has the digest text of a confirmation |
| DecisionDigests.ConfirmationReadsAsACorrectionExactly | src/reckoning/application.py:846-851 | a confirmation has the digest text of a correction exactly when what stands before its revision, or before another one that its id or submission holds, reads as decision, record and meaning |
| DecisionDigests.CorrectionsCollideExactly | src/reckoning/application.py:846-851 | a correction shares its digest text with another one exactly when its decision or record id holds a bar, its meaning goes on behind a bar with no white space after it, or its submission holds a revision between bars not behind white space |
| DecisionDigests.DifferentCorrectionsShareADigest | src/reckoning/application.py:846-851 | an input: two different corrections with one digest under any hash |
| DecisionDigests.RevisionReads | src/reckoning/application.py:640-642 | the text of an expected revision reads back as that revision |
| DecisionDigests.KindIsNotInTheDigest | src/reckoning/application.py:715-716 | an input: a situation text with the digest of a confirmation |
| DecisionProtocol.InvPreserved | src/reckoning/application.py:640-1055 | every step of every request keeps the invariant |
| DecisionProtocol.InvAlways | src/reckoning/application.py:640-1055 | the invariant holds after every list of events |
| DecisionProtocol.SaveReplacesSnapshot | src/reckoning/persistence.py:151-195 | a save that goes through replaces exactly the snapshot it was built from and completes its operation in the same step |
| DecisionAlone.AloneIsABehaviour | src/reckoning/application.py:708-1055 | a request served alone is what the protocol does in at most four steps |
| DecisionAlone.StartGoesThrough | src/reckoning/application.py:708-829 | a start that is no replay makes a decision exactly for a text that is not blank, an admitted operation id and an acceptable draft, and is refused for the provider exactly when that failed |
| DecisionAlone.CorrectionGoesThrough | src/reckoning/application.py:831-909 | a correction that is no replay goes through exactly when decision and record are there, the decision proposed and at the expected version, and the meaning not blank |
| DecisionAlone.ConfirmationGoesThrough | src/reckoning/application.py:911-975 | a confirmation that is no replay goes through exactly when the decision is there at the expected version |
| DecisionAlone.CheckInGoesThrough | src/reckoning/application.py:1037-1055 | a check-in is kept exactly for a confirmed decision, an outcome that is not blank and a new identifier |
| DecisionAlone.DraftsExactly | src/reckoning/continuity.py:80-117 | a draft is accepted exactly with at most three complete questions, a conflict, a next step, something to go by, and records that mean something on evidence of the draft |
| DecisionAlone.WhyShowsExactly | src/reckoning/application.py:977-1003 | the why-view shows the current records and exactly the evidence that a fact, an inference or a current record names |
| DecisionService.ReckonApplication.ReplayResult | src/reckoning/application.py:644-663 | the replay check answers as specified |
| DecisionService.ReckonApplication.StartReckoning | src/reckoning/application.py:708-829 | one call does and answers what the protocol does; a decision made has the stripped text, the draft as given and one current record for each proposal with its type, meaning and evidence, and its operation is recorded; a failed provider leaves the input in a failed operation |
| DecisionService.ReckonApplication.CorrectPersonalRecord | src/reckoning/application.py:831-909 | one call does what the protocol does; the record then means the stripped text on one new piece of evidence that says it, type and every other record as before |
| DecisionService.ReckonApplication.ConfirmReckoning | src/reckoning/application.py:911-975 | one call does what the protocol does; each record is then as it was, confirmed in one more version; a confirmed decision stays as it is |
| DecisionService.ReckonApplication.ExplainReckoning | src/reckoning/application.py:977-1003 | the why-view of the stored decision |
| DecisionService.ReckonApplication.RecordCheckIn | src/reckoning/application.py:1037-1055 | one call does what the protocol does; the check-in keeps the stripped outcome and cites, in order, exactly the evidence some fact, inference or current record names |
| Continuity.CollectCurrentRecords | src/reckoning/continuity.py:150-155 | the dictionary loop yields the last version of each record in order of first appearance |
| Continuity.RecordIdsInOrder | src/reckoning/continuity.py:150-155 | that order is the order of first appearance |
| Continuity.VersionsAreOneToN | src/reckoning/application.py:874-886 | in a sound history the versions of a record are 1 to n in order |
| Continuity.VersionsSupersede | src/reckoning/application.py:874-886 | and each names the version before it as the one it supersedes |
| Continuity.StartedSound | src/reckoning/application.py:794-815 | a valid draft starts a sound decision |
| Continuity.CorrectedSound | src/reckoning/application.py:869-895 | a correction of a proposed decision is sound and follows it |
| Continuity.ConfirmedSound | src/reckoning/application.py:942-960 | a confirmation confirms every current record at once, is sound and follows the decision |
| Continuity.WhyShowsSupport | src/reckoning/application.py:977-1003 | the why-view shows every piece of evidence each current record names, and each names at least one |
| Continuity.CheckInCites | src/reckoning/application.py:1037-1055 | a check-in cites only evidence of its decision |
| ContinuityStore.JsonFileReckoningRepository.Save | src/reckoning/persistence.py:151-195 | decision and operation are stored together or not at all |
| ContinuityStore.JsonFileReckoningRepository.RecordOperation | src/reckoning/persistence.py:243-251 | a completed operation is never replaced, any other is |
| ContinuityStore.JsonFileReckoningRepository.SaveCheckIn | src/reckoning/persistence.py:270-286 | a check-in is stored only for a confirmed decision |
| ContinuityStore.InMemoryReckoningRepository.Save | src/reckoning/continuity.py:280-297 | new state and answer of an in-memory save |
| ContinuityStore.SavesAgreeExactly | src/reckoning/continuity.py:280-297 | memory and SQLite store the same and answer the same unless a save is both stale and out of step |
| LiveBudget.BudgetConserved | src/reckoning/conversation_evaluation.py:367-529 | in any order of admissions, answers, failures and invalid answers the total is the charge of the settled receipts, the outstanding calls are the started receipts, and total plus reservations pass the ceiling by no more than the overruns |
| LiveBudget.CeilingHoldsWithoutOverrun | src/reckoning/conversation_evaluation.py:367-529 | without an overrun the ceiling holds with all reservations counted |
| LiveBudget.SettledOnceForAll | src/reckoning/conversation_evaluation.py:403-535 | receipts are only added, a settled one never changes, and an exhausted budget admits nothing more |
| LiveBudget.SpoiledBudgetAdmitsNothing | src/reckoning/conversation_evaluation.py:367-402 | after an overrun or an invalid cost no call is ever admitted again |
| LiveBudget.PricesAreLinear | src/reckoning/conversation_evaluation.py:350-356 | a million input tokens cost the input rate, a million output tokens the output rate, and prices add up |
| LiveBudget.BasisFoundExactly | src/reckoning/conversation_evaluation.py:320-348 | the price basis is that of the folded name within the white space around it |
| LiveBudget.AdmittedExactly | src/reckoning/conversation_evaluation.py:367-401 | a call is admitted exactly while calls are left, the budget is not exhausted and, under a cost limit, what is spent and reserved leaves room for its price; its receipt starts with that reservation and nothing else |
| LiveBudget.ResponseTells | src/reckoning/conversation_evaluation.py:403-479 | an answer is charged at its actual cost, else at the price of its reported tokens, else at its reservation; one that cannot be accounted for is charged at the reservation, told why, and exhausts the budget |
| LiveBudget.FailureTells | src/reckoning/conversation_evaluation.py:481-497 | a failed transport is charged at its reservation, and exhausts the budget once that reaches the limit |
| LiveBudget.InvPreserved | src/reckoning/conversation_evaluation.py:367-529 | each operation keeps the invariant |
| LiveBudget.LiveBudget.Open | src/reckoning/conversation_evaluation.py:320-348 | opens exactly with a positive call limit and, for a cost limit, a price basis under the stripped and folded provider name; limits, basis and reservations are fixed then |
| LiveBudget.LiveBudget.CheckCall | src/reckoning/conversation_evaluation.py:367-401 | new state and answer of an admission |
| LiveBudget.LiveBudget.RecordResponse | src/reckoning/conversation_evaluation.py:403-479 | new state and answer of a response, with its three invalid costs |
| LiveBudget.LiveBudget.RecordTransportFailure | src/reckoning/conversation_evaluation.py:481-497 | new state and answer of a failure |
| LiveBudget.LiveBudget.FinishInvalidCost | src/reckoning/conversation_evaluation.py:514-529 | an invalid cost is charged at its reservation and exhausts the budget |
| LiveBudget.BudgetTransport.Call | src/reckoning/conversation_evaluation.py:548-564 | one attempt is refused or admitted and reconciled with what the transport gave, and leaves no reservation of its own out |
| Conversation.CollectCompleteTurns | src/reckoning/conversation.py:155-170 | the scan returns exactly all adjacent user and assistant pairs in order |
| Conversation.SelectHistoryForBudget | src/reckoning/conversation.py:173-213 | refused exactly when the mandatory messages do not fit; otherwise the longest fitting suffix of the turns |
| Conversation.LongestSuffixIsUnique | src/reckoning/conversation.py:173-213 | there is only one longest fitting suffix |
| Conversation.ComposeProviderConversation | src/reckoning/conversation.py:216-262 | all composed messages together stay within the allowance, with the longest fitting history between preamble and request |
| Conversation.AllowanceLeavesRoom | src/reckoning/conversation.py:136-148 | for every window the allowance is the window (4096 tokens if none is given) less a reserve of 1024 tokens, or of a quarter of a smaller window, at least one token |
| Conversation.PreambleExactly | src/reckoning/conversation.py:216-252 | which messages stand before the history, in which order, each with its role and text, context only ever as the user's |
| Conversation.TotalTells | src/reckoning/conversation.py:151-152 | the estimate of a list of messages is the bytes of all their texts and eight for each |
| Conversation.ShortestForm | src/reckoning/conversation.py:151-152 | a character takes the fewest bytes that can carry it |
| Conversation.NoticesExactly | src/reckoning/conversation.py:122-133 | a notice is recognised exactly when the text begins with one of the three generated notices, written out, and it ends where that one does |
| Conversation.SplitExactly | src/reckoning/conversation.py:265-276 | the split takes off exactly such a beginning and the white space behind it, and leaves any other text as it is |
| Conversation.SplitKeepsTheText | src/reckoning/conversation.py:265-276 | splitting off a notice loses nothing but white space, and other text stays as it is |
| Conversation.WrittenNoticesAreKnown | src/reckoning/conversation.py:122-133 | the generated notices - no profile, unavailable categories, and one turn or several left out - are recognised whatever follows them |
| ConversationSafety.CollectQuoteSpans | src/reckoning/conversation_safety.py:244-262 | the stack loop computes the specified spans |
| ConversationSafety.QuoteSpansAreWellFormed | src/reckoning/conversation_safety.py:244-262 | spans are matching pairs, none a contraction, pairwise nested or apart, and every opening mark inside a span is an end of a span within it |
| ConversationSafety.UnclosedMarksHideNothing | src/reckoning/conversation_safety.py:244-262 | no span reaches over an opening mark that was never closed |
| ConversationSafety.NoClosingIsMissed | src/reckoning/conversation_safety.py:244-262 | when an opening mark ends no span although a mark after it could have closed it, another opening mark between them was not closed before |
| ConversationSafety.ClassifyOutput | src/reckoning/conversation_safety.py:361-397 | replaced exactly when some prohibited fragment has an occurrence in no span, uncertain exactly when only quoted ones lack a safe context, and only allowed text is delivered as proposed |
| ConversationSafety.FindFragment | src/reckoning/conversation_safety.py:356-358 | the first occurrence from a position on, if any |
| PersonalContext.DeletedForGood | src/reckoning/personal_context.py:201-296 | a deleted record never has a version again, whatever was in flight |
| PersonalContext.RetrievedIsCurrentAndConsented | src/reckoning/personal_context.py:801-968 | what is retrieved is the highest version of a record not deleted, and if it was proposed its confirmation was saved |
| PersonalContext.InvAlways | src/reckoning/personal_context.py:201-296 | histories, tombstones and consent stay sound after every list of events |
| PersonalContext.AloneIsABehaviour | src/reckoning/personal_context.py:766-956 | a request served alone is what the protocol does in two steps |
| PersonalContext.LatestIsHighest | src/reckoning/personal_context.py:958-968 | the row stored last is the row of the highest version |
| PersonalContext.CreationIsAnswered | src/reckoning/personal_context.py:766-829 | a record is created exactly under an identifier neither used nor deleted, with no text and no source blank |
| PersonalContext.CorrectionIsAnswered | src/reckoning/personal_context.py:831-856 | a correction goes through exactly for a record that is there, at the expected version, with no text blank |
| PersonalContext.ConfirmationIsAnswered | src/reckoning/personal_context.py:858-871 | a confirmation goes through exactly for a proposed record |
| PersonalContext.TransitionIsAnswered | src/reckoning/personal_context.py:942-956 | a transition goes through exactly for a record that is there |
| PersonalContext.DeletionIsAnswered | src/reckoning/personal_context.py:934-940 | after a deletion no version of the record is left, its marker is, and every other record is as it was |
| PersonalContext.JsonFilePersonalContextRepository.Save | src/reckoning/personal_context.py:201-228 | new tables and answer of a save, with its three errors |
| PersonalContext.JsonFilePersonalContextRepository.Delete | src/reckoning/personal_context.py:262-296 | new tables and answer of a deletion |
| PersonalContext.PersonalContextService.Create | src/reckoning/personal_context.py:766-829 | one call does what the specification says; the row then stored last has the stripped texts and source, active or proposed, with permission, sensitivity, location and dates as given |
| PersonalContext.PersonalContextService.Correct | src/reckoning/personal_context.py:831-856 | one call does what the specification says; the row then stored last has the new stripped texts and the source "direct user correction", everything else as before |
| PersonalContext.PersonalContextService.Confirm | src/reckoning/personal_context.py:858-871 | one call does what the specification says; the row then stored last is active and permitted, texts and handling as before |
| PersonalContext.PersonalContextService.Transition | src/reckoning/personal_context.py:942-956 | one call does what the specification says; the row then stored last has the status asked for and everything else as before, and a record in that status is left alone |
| PersonalContext.PersonalContextService.Delete | src/reckoning/personal_context.py:934-940 | one call does to the tables, and answers, what the specification says of a deletion |
| PersonalContext.PersonalContextService.CurrentVersions | src/reckoning/personal_context.py:964-968 | the last stored row of each record, once each |
| PersonalContext.PersonalContextService.Retrieve | src/reckoning/personal_context.py:873-885 | exactly the current rows that pass every filter |
| PersonalContext.PersonalContextService.EnforceRetention | src/reckoning/personal_context.py:926-932 | afterwards no current record is past its retention, and nothing else has changed |
| InterfaceMigration.ValidateLegacyTurnOrder | src/reckoning/interface_store.py:1294-1305 | the loop accepts exactly the rows each of which stands where the rows of its session before it say |
| InterfaceMigration.AcceptedExactly | src/reckoning/interface_store.py:1294-1305 | accepted exactly when every session taken alone has positions 0 to n-1 with the user first and roles in turn |
| InterfaceMigration.BuildTurns | src/reckoning/interface_store.py:1231-1249 | the dictionary loop builds the specified turns, with distinct keys |
| InterfaceMigration.FlatteningGivesBack | src/reckoning/interface_store.py:1231-1291 | flattening the turns gives back every message in its place with only a known notice taken out of assistant speech |
| InterfaceMigration.NoticesAreKept | src/reckoning/interface_store.py:1246-1249 | the notice taken out is kept with its turn |
| InterfaceMigration.InsertTurns | src/reckoning/interface_store.py:1249-1291 | the loop stores every turn under its identifier and rewrites exactly the assistant rows, each with the speech of its turn, or is refused without change, exactly when two identifiers are the same |
| InterfaceMigration.MigrateV1ToV2 | src/reckoning/interface_store.py:1222-1291 | refused exactly for malformed histories and for sessions that run together, and then without change; otherwise the stored turns flatten to the rewritten messages, no two have one place or one identifier, and an answer that begins with none of the three notices, written out, keeps its content and is the speech of its turn with no notice, while one that does is kept as that notice and the text behind it |
| InterfaceMigration.TurnIdsCollideExactly | src/reckoning/interface_store.py:1268 | two turn identifiers are equal exactly when the positions are and channel and session joined by a dash are |
| InterfaceMigration.TurnIdsAreDistinct | src/reckoning/interface_store.py:1268 | for channel names without a dash the identifiers are distinct |
| InterfaceMigration.DistinctIdsExactly | src/reckoning/interface_store.py:1052 | the identifiers of a migration are distinct exactly when no two sessions with messages are the same once channel and session are joined by a dash |
| InterfaceMigration.OwnChannelsNeverCollide | src/reckoning/interfaces.py:29 | sessions of the application's own channels never run together |
| InterfaceMigration.DashedChannelsCollide | src/reckoning/interface_store.py:1268 | an input that collides, under a channel name the application never writes |
| InterfaceMigration.CompletedExactly | src/reckoning/interface_store.py:1274 | a migrated turn is completed exactly unless its answer is empty or a known notice with only white space behind it |

## Left out

- Database connections, file locks, JSON encoding, schema checks, permissions of files and the import of legacy files: a transaction is one step on maps and sequences, and the initial external-write store is any store the import accepts.
- `save_run`, `save_proposal` and `save_receipt`: unconditional overwrites kept for compatibility, which bypass every protocol above.
- The `_RunClaim` objects of the in-memory routine repository are values in a map, so aliasing of a claim object is not captured; nothing in the source shares one.
- Proposals of the in-memory routine repository, and its `run_revision`, `get_run` and listing methods: the contracts are proved for the SQLite repository.
- Compiling routine requests, `record_no_run`, watches, briefings, connectors for reading, delegation and placement: simple caps and filters.
- The service around an external-write recovery: the repository offers `recover_execution`, no service calls it, and the protocol lets the new owner continue from the dispatch with the recorded authorization and a retry limit that is not negative.  Recoveries to an owner that has worked before, or with a negative retry limit, are not modelled: owners are fresh.
- In-memory preparation, grant, revocation and abort of external writes do what their SQLite counterparts do and are not repeated.
- Reasons, recovery owners and recovery dates of execution claims, token counts and latencies of budget receipts beyond the one field kept: stored and never read by the modelled code.
- Model-run records and the processing-scope check of `start_reckoning`: the check is one of the answers of the provider step, the records are written for inspection.
- `list_*`, `resume_decision`, `inspect_*` and presentation: projections of the stored state.
- Link removers of personal context, and the order in which `enforce_retention` visits expired records.
- `classify_danger`, its clause splitting and word lists: language tables with shallow control flow.
- Floating-point rounding of costs: amounts are exact.
- The JSON parsing of provider metrics: its result, including its error, is a parameter of `RecordResponse`.
- One decision request reads the clock once and takes its identifiers from one environment; the source reads the clock again for the operation record.
- ExternalWriteService.ExternalWriteService.Execute: states a call with nothing between its transactions; what other workers may do between them is the protocol's part.
- DecisionTheorems.ReplayChangesNothing: states, for completed ids, the two steps of a replay with nothing in between; with other steps in between the decision answered is the stored one at the second step.  Ids with a failed record are the subject of `DecisionReplays`.
- PersonalContext.PersonalContextService.EnforceRetention: states an uninterrupted call; a concurrent change of an expired record makes its deletion fail with a conflict and ends the call.
