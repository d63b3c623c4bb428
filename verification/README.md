# Verification of the lecture application's concurrent cores

Dafny models of the parts of the application whose guarantees must hold over every run: the job queue
with resource budgets, refresh-token families, the connection lifecycles of two hooks, the API response
cache, folder trees, the chat event stream, transcript merging, parser slots and the rate limits. Each
model has the source's own form: a class or a loop where the source updates in place, proved against
functions or machine steps about which the guarantees are then proved.

| source | modules |
|---|---|
| src/lib/jobQueue.ts | `JobTable` (rows and their sums), `JobQueue` (the transactions), `JobRuns` (every interleaving), `JobLimits`, `JobFloors` and `JobRechecks` (where the budgets stop), `JobExclusivity`, `JobReclaims` (what rows hold and what frees them), `JobSettlements` (what callers are told) |
| src/lib/auth.ts, src/lib/authTokenFamilyMaintenance.ts | `TokenFamilies` (the machine and its invariant), `TokenGuarantees`, `TokenVerification` (`verifyToken` cut at its awaits), `TokenLifetimes` (until when leaves are good), `TokenStore` (the code) |
| src/hooks/useInterpret.ts | `Interpret` (calls cut at their awaits), `InterpretProgress` (what gets done), `InterpretAnchors` (what becomes of each), `InterpretHook` (the refs) |
| src/hooks/useSoniox.ts | `Soniox`, `SonioxProgress` (what gets done), `SonioxEndings` (how it ends), `SonioxHook` |
| src/lib/apiResponseCache.ts | `ApiCache` (the races), `ApiCacheCallers` (what they are handed), `ApiCacheLoads` (the shared loads), `ApiCacheProcess` (the code between two awaits) |
| src/lib/folders.ts | `FolderForest` (chains), `FolderList` (preorder), `FolderTree` (the builder), `FolderMoves`, `FolderCycles` |
| src/hooks/useChat.ts, e2e/helpers.ts | `SseText`, `SseStream` (the parser), `SseCodec` (the round trip), `SseStandard`, `SseAgreement`, `SsePlain` and `SseTexts` (the WHATWG HTML Standard beside it) |
| src/lib/mergeTranscriptBundles.ts | `TranscriptEntries`, `TranscriptMerge` |
| src/lib/documentParserProcess.ts | `ParserSlots` (every sequence of calls), `ParserGrants` (who gets a slot, and why not), `ParserPool` (the variables) |
| server/websocket.ts, src/lib/rateLimit.ts | `TokenBucket`, `RateLimits`, `RateWindows` |

`Options` and `Permutations` are shared helpers. `dafny verify dfyconfig.toml` checks everything.

Asynchronous code is cut at its awaits. A call waiting at one is a value in the machine's state, and any
order of the pieces is a run, so a theorem about all runs covers all interleavings. The classes hold the
refs, module variables or stored rows as fields, and each method's contract equates its effect with the
machine's step of the same name.

## What the models assume

- A transaction is atomic under its scope lock, and the database clock never steps back.
- `Date.now()` never steps back for the API response cache; the rate limiters' clock may.
- A connection's `connected` callback comes at most once.
- Where a call waits for a microtask only, as a stop with nothing to stop does, the machine lets any other step
  in as well. That adds runs; the runs the lemmas show wait for the network or a recording wherever they wait.
- An abort listener is called for a signal that has fired.
- Hashes are injective, signatures unforgeable and ids fresh; a family stores its current leaf's id itself.
- Redis is ready, applies commands in the order they are sent, and SCAN returns every key that is there
  from its beginning to its end. A value is read by its loader at one moment.
- Sorting is any reordering: the comparators of folders and segments are not transitive.
- `JSON.stringify` writes one line without white space around it, and `JSON.parse` reads it back.
- Millisecond clocks are integers, day fractions and tokens exact reals.

## Where the code does less than one would expect

Each failing is stated as the exact condition under which it happens, and with a run or an input that
shows it where the condition alone does not.

- After `pause()`, the late `connected` callback of a start that kept the pause sets the state to
  recording if and only if that callback is still to come (`Soniox.PauseStaysExactly`,
  `Soniox.KeptPauseStart`): src/lib/soniox/client.ts:300-322 returns before it fires, and
  src/hooks/useSoniox.ts:1623-1649 does not look for a pause made meanwhile.
- An owner's settled floor is read before the claim takes its lock. A settlement in between lets a reservation
  in flight pass the owner's limit exactly when the meter has risen above both the stated floor and what the
  table knows (`JobFloors.StaleFloorExactly`, `JobFloors.StaleFloorOverrunsOwner`); an owner whose usage is all
  in the table is safe (`JobFloors.AnyFloorWillDo`). No usage comes of it: the caller reads the meter again
  after the claim and settles such a claim with none (`JobRechecks.MeterStaysInLimit`).
- Where callers name one limit per pool and consecutive windows, and mark no row that holds a reservation, a
  budget can be passed by settlements that report more than was reserved and by retries of rows with a
  reservation, and by nothing else (`JobLimits.BudgetHoldsExactly`). The present callers of src/lib/jobQueue.ts
  reserve for no type that can be retried.
- A settlement may be told `Settled` although another one, or a reclaim, put the row there and its own
  mutation did not run (`JobSettlements.SettledIsTruthfulExactly`,
  `JobSettlements.ReclaimAnswersForSettlement`).
- `markJobProcessing` does not look at the status: a late mark on a finished enhancement without its key,
  and on no other row, can lead to two in one session (`JobExclusivity.LateMarkExactly`,
  `JobExclusivity.LateMarkRevives`). No present caller marks an enhancement with it.
- A granted anchor is dropped unsettled by a stop that wakes up under another account than it began under, and
  by a start that finds one held, as after a failed connection, and by nothing else
  (`InterpretAnchors.LosesAnchorExactly`, `InterpretAnchors.AnchorsAreSettledExactly`, `InterpretAnchors.RestartDropsAnchor`,
  `Interpret.LateStopDropsNewerAnchor`).
- The anchor reply of a start that was torn down lowers the flag of the start that followed, and so lets a
  third one in beside it; nothing but that and a teardown does (`InterpretProgress.FlagLoweredExactly`,
  `InterpretProgress.StaleReplyLetsInAnother`).
- A caller that comes after an invalidation has finished may be handed an older value exactly while a load
  that read before the write is still in flight (`ApiCacheCallers.NewcomersAreServedStaleExactly`,
  `ApiCacheCallers.StaleLoadIsReachable`), and never again after that (`ApiCacheLoads.CleanupEndsStaleness`); the
  value is not cached.
- Validating a folder move and writing it are two statements, so two concurrent moves close a cycle when
  they cross, and only then, and the folders on it vanish from the list
  (`FolderMoves.ConcurrentMovesExactly`, `FolderCycles.NothingIsHiddenIffAcyclic`).
- Without carriage returns, `consumeSse` finds other events than section 9.2.6 of the WHATWG HTML Standard
  exactly when a frame has several data fields, or one whose value is empty or not trimmed or whose event
  name the two take differently, or when an unfinished last frame makes an event
  (`SseTexts.TextsAgreeExactly`). With CR LF instead it finds one event at most
  (`SseTexts.CarriageReturnsLoseEvents`, `SseTexts.CrlfLosesPrintedEvents`). What the printer writes of events
  whose names hold no line break they understand alike unless a name is empty or not trimmed
  (`SseTexts.PrintedTextsAgreeExactly`, `SseTexts.SpacedNameIsReadDifferently`).
- Twice the limit per window needs a clock that does not step back, or no call from behind the interval and
  no prune (`RateWindows.TwiceTheLimitPerWindow`, `RateWindows.TwiceTheLimitExactly`).

## Model

| member | source | states |
|---|---|---|
| `JobQueue.Queue.ClaimActiveJob` | src/lib/jobQueue.ts:240-504 | Under the scope lock a claim succeeds exactly when the reservation is well formed, both clock readings fall into the window, the key is free, the owner's and both pools' budgets have room; the row is appended then and only then, and a refusal names the first check that fails, with its retry time |
| `JobQueue.RefusalIsDetermined` | src/lib/jobQueue.ts:240-504 | A refusal names the first check that fails: rows, request and readings determine it |
| `JobQueue.Queue.SettleActiveJob` | src/lib/jobQueue.ts:549-626 | The compare-and-swap moves only a live row, writes status, usage and key together, and reports whether it moved it |
| `JobQueue.Queue.CreateJob` | src/lib/jobQueue.ts:628-651 | A job is created unless its active key is held; the refusal changes nothing |
| `JobQueue.Queue.ReadForRetry` | src/lib/jobQueue.ts:871-880 | Reads a failed row of a retryable type with attempts left, and no other |
| `JobQueue.Queue.WriteRetry` | src/lib/jobQueue.ts:882-921 | The retry lands if and only if the row still is failed at the attempt that was read and its key can be taken again; then it is submitted anew with one attempt more, else nothing changes |
| `JobQueue.Queue.ReclaimStaleProcessingJobs` | src/lib/jobQueue.ts:966-1031 | The loop over scopes fails exactly the rows stale at the one clock reading, settles their unknown usage as reserved, and counts them |
| `JobQueue.Queue.ReclaimAllStaleProcessingJobs` | src/lib/jobQueue.ts:1037-1047 | Both passes together fail exactly the overdue rows, each under its own threshold at the clock reading of its own pass, and return their number |
| `JobQueue.ReclaimInTurn` | src/lib/jobQueue.ts:998-1028 | Reclaiming scope by scope equals reclaiming all the scopes at once |
| `JobQueue.OnlyStaleScopesMatter` | src/lib/jobQueue.ts:985-998 | Looking only at scopes that hold a stale row misses nothing |
| `JobTable.TotalSplit` | src/lib/jobQueue.ts:377-432 | The three sums the admission code reads separately add up to the one charge it is about |
| `JobReclaims.ClaimIsOverdueExactly` | src/lib/jobQueue.ts:462-496 | The row a claim appends is overdue exactly from two hours after its admission, four for a document |
| `JobReclaims.ClaimHolds` | src/lib/jobQueue.ts:462-496 | It holds its units and a slot in exactly the pools of its scope, its user and its owner, and its key against every other claim |
| `JobReclaims.AdviceIsTimely` | src/lib/jobQueue.ts:385-455 | A claim over a budget is told the window's end if even releasing all work in flight would not help before, else fifteen seconds or the window's end, whichever is sooner |
| `JobReclaims.AbandonedClaimIsFreed` | src/lib/jobQueue.ts:966-1047 | After any run that leaves a claimed row alone, the two reclaim passes fail it if and only if the one that looks at it comes at least that long after the admission; then its key is free and its units are held no more, else it is as it was |
| `JobReclaims.TimeComes` | src/lib/jobQueue.ts:966-1047 | Once the database clock has moved that far past the admission, a claim left alone is overdue by it |
| `JobReclaims.SettlementFrees` | src/lib/jobQueue.ts:549-626 | A settlement frees the key unless it succeeded and is to keep it, and the reservation is held no more |
| `JobReclaims.CreatedJobWaits` | src/lib/jobQueue.ts:628-651 | A created job is one a worker takes up, and holds its key |
| `JobReclaims.RetryMakesItWait` | src/lib/jobQueue.ts:882-911 | A retry that lands makes the failed row one a worker takes up, one attempt on, and an enhancement holds its session's key again |
| `JobReclaims.MarkedDoneIsOver` | src/lib/jobQueue.ts:663-700 | A job marked as done is over, and its key is free |
| `JobRuns.BudgetNeverExceeded` | src/lib/jobQueue.ts:275-496 | For every interleaving of claims, settlements, retries, marks and reclaims, across rollover: a scope's and each user's reservations in flight plus usage stamped in the window stay within the limit |
| `JobRuns.OwnerNeverExceeded` | src/lib/jobQueue.ts:317-375 | Per owner, the larger of known usage and the rising floor, plus unknown usage and reservations, stays within the limit, and the number in flight within its cap, over every run whose claims name a floor that is current or made up for by the usage the table knows |
| `JobLimits.SettlementChargesExactly` | src/lib/jobQueue.ts:549-626 | A settlement changes a pool's charge by exactly usage minus reservation, so it stays within budget if and only if the report does not exceed the reservation |
| `JobLimits.RetrySkipsAdmission` | src/lib/jobQueue.ts:871-921 | A retried resource row comes back unasked: the pool stays within its limit if and only if the reservation happens to fit |
| `JobLimits.BudgetHoldsExactly` | src/lib/jobQueue.ts:275-496 | Over every run from an empty table a scope's or a user's budget holds, given the callers' other promises, if and only if no settlement reports more than it reserved and no reservation is made for a type that can be retried; either liberty has a run that ends over the budget |
| `JobFloors.StaleFloorExactly` | src/lib/jobQueue.ts:317-375 | Every claim admitted with a stated floor fits the owner's true use if and only if the meter is no higher than the larger of that floor and the usage the table knows, or no claim is admitted with it at all |
| `JobFloors.AnyFloorWillDo` | src/lib/jobQueue.ts:317-375 | Where the table has known the meter's usage from the start, the owner's limits hold over every run whatever floors the claims name, the racing claim included |
| `JobFloors.StaleFloorOverrunsOwner` | src/app/api/translate/llm-proxy/v1/chat/completions/route.ts:251-278 | A run: with usage from before the table, a floor read before another settlement admits a claim whose reservation in flight brings the owner to 125 under a limit of 115 |
| `JobRechecks.MeterStaysInLimit` | src/app/api/translate/llm-proxy/v1/chat/completions/route.ts:340-390 | Because the caller reads the meter again after the claim, and settles with no usage unless its reservation fits, the owner's meter never passes its limit, over every run and whatever floors were named |
| `JobRechecks.RevocationRestores` | src/app/api/translate/llm-proxy/v1/chat/completions/route.ts:368-386 | A claim taken back with no usage leaves every owner's commitment and slots as they were |
| `JobExclusivity.OneEnhancementPerSession` | src/lib/jobQueue.ts:56-69 | At most one live enhancement per session, and no attempt above a maximum greater than one, over every run with racing retries |
| `JobExclusivity.LateMarkExactly` | src/lib/jobQueue.ts:654-662 | After a late PROCESSING mark every orderly run keeps one live enhancement per session if and only if the row was not a finished enhancement without its key |
| `JobExclusivity.LateMarkRevives` | src/lib/jobQueue.ts:654-662 | A run in which such a mark brings a failed row back to life beside a second live one |
| `JobExclusivity.MutationOncePerAttempt` | src/lib/jobQueue.ts:549-626 | Over every run with racing reclaims and retries, at most one mutation per attempt |
| `JobSettlements.MutationOncePerAttemptAtTheDesk` | src/lib/jobQueue.ts:549-626 | With aborted transactions, lost acknowledgements and read-backs in the run, and without a late mark on a finished row, at most one call per attempt has moved its row and run its mutation, whatever the callers were told |
| `JobSettlements.SettledIsTruthfulExactly` | src/lib/jobQueue.ts:596-626 | While a settlement's reply is open: in every run in which nobody else puts the row at the wanted status, the reply Settled means that its own compare-and-swap moved the row and its mutation ran, if and only if it did move it or the row does not already stand there |
| `JobSettlements.NotProcessingIsTruthful` | src/lib/jobQueue.ts:596-626 | Over every run, whoever is told that the row was not processing has moved nothing, and an acknowledged move is answered Settled |
| `JobSettlements.ReclaimAnswersForSettlement` | src/lib/jobQueue.ts:605-621 | After a reclaim has failed the row, a failing settlement is told Settled although its mutation never ran |
| `TokenGuarantees.RotationsFormOneChain` | src/lib/auth.ts:1082-1133 | In every reachable state the leaves of a stored family are one chain, exactly one per generation, and only the last is current |
| `TokenGuarantees.OneLeafVerifies` | src/lib/auth.ts:691-799 | At most one leaf of a family passes strict verification |
| `TokenGuarantees.ReuseKillsFamily` | src/lib/auth.ts:1082-1133 | Once a consumed leaf is presented and the losing call has finished, no leaf of the family ever verifies again, the winner's successors included, with any steps in between |
| `TokenGuarantees.LogoutEndsFamily` | src/lib/auth.ts:478-566 | Logging out with any leaf, current or consumed, ends the family for good |
| `TokenGuarantees.BindingRevokesOnlyItsFamily` | src/lib/auth.ts:606-662 | A revoke-only binding ends the family it names and leaves every other as it was |
| `TokenGuarantees.PasswordChangeReplacesSessions` | src/lib/auth.ts:1339-1388 | A password change kills every leaf the user held, and the session it reissues verifies at once |
| `TokenGuarantees.IndexNeverDecides` | src/lib/auth.ts:432-600 | While the database answers, no content of the memory and Redis indexes, and no eviction, changes a verdict |
| `TokenGuarantees.NoLeafOutlivesSession` | src/lib/auth.ts:691-799 | No chain of refreshes keeps a leaf valid past thirty days from its login |
| `TokenGuarantees.PruningIsInvisible` | src/lib/authTokenFamilyMaintenance.ts:6-14 | Deleting rows a day past expiry changes no verdict, then or after any further run |
| `TokenLifetimes.RefreshedLeafLives` | src/lib/auth.ts:1082-1119 | The leaf a refresh signs is accepted, while nothing else happens to its family or user, exactly until the expiry that was asked for and within the absolute end of its login |
| `TokenLifetimes.RefreshSigns` | src/lib/auth.ts:1082-1119 | A refresh that wins signs exactly one leaf, with the version and expiry it was asked for, in the family and session of the old one |
| `TokenLifetimes.LoginLeafLives` | src/lib/auth.ts:1046-1076 | The same of a login's leaf, and thirty days |
| `TokenLifetimes.NewAccountLogsIn` | src/lib/auth.ts:1046-1076 | A new account's first leaf is accepted |
| `TokenLifetimes.TimeEndsAll` | src/lib/auth.ts:691-720 | Every leaf is refused once its expiry or its session's end has come |
| `TokenLifetimes.ReissuedLeafLives` | src/lib/auth.ts:1339-1388 | The same of the session a password change leaves |
| `TokenLifetimes.DisablingSuspends` | src/lib/auth.ts:757-762 | Disabling an account refuses its leaves at once; enabling it accepts those in force |
| `TokenLifetimes.LogoutSucceeds` | src/lib/auth.ts:478-566 | Logging out with any signed leaf succeeds, whatever has become of its family before and between the two statements |
| `TokenLifetimes.BindingMustMatch` | src/lib/auth.ts:606-662 | A revoke-only binding that does not name the family's user and end revokes nothing |
| `TokenLifetimes.IndexOutlivesLeaf` | src/lib/auth.ts:568-600 | An indexed leaf stays in both indexes until it has expired, and in Redis hardly longer |
| `TokenLifetimes.PruneDeletesExactly` | src/lib/authTokenFamilyMaintenance.ts:6-14 | Maintenance deletes exactly the rows more than a day past their end |
| `TokenFamilies.RunKeepsSound` | src/lib/auth.ts:1046-1133 | The invariant of families, chains and indexes holds after every run of interleaved database steps |
| `TokenFamilies.GoneForever` | src/lib/auth.ts:478-536 | A revoked, expired or missing family never becomes live again |
| `TokenStore.RefreshExpiryIsClamped` | src/lib/auth.ts:1008-1164 | A refresh never signs past the session's absolute end except for the one-second minimum, and its cookie never outlives that end |
| `TokenStore.ExpiryIsTheSmaller` | src/lib/auth.ts:1008-1164 | The time signed is the smaller of the configured one, seven days if none is, and what is left of the session; token and cookie last equally long, but for the token's minimum of a second |
| `TokenStore.Store.IssueAuthToken` | src/lib/auth.ts:1046-1076 | Opens a family whose first leaf is the returned one |
| `TokenStore.Store.RotateAuthToken` | src/lib/auth.ts:1082-1133 | Rotates exactly when the leaf is the current one of a live family, and returns the one leaf it signed, current, with the version and expiry it was given; else leaves the family revoked and issues nothing; a payload without a family is turned away and changes nothing |
| `TokenStore.Store.RevokeToken` | src/lib/auth.ts:538-566 | Succeeds exactly when the family was live or already invalid, which for a signed leaf is always; then the family is gone and the leaf indexed, else nothing changed |
| `TokenStore.Store.PruneBlacklist` | src/lib/auth.ts:185-218 | Drops expired entries and, only over the cap and only down to it, live entries that expire no later than any kept one |
| `TokenStore.Store.BeginVerification` | src/lib/auth.ts:691-719 | Up to the first await: goes on exactly for a leaf with a family, unexpired or exempt, within the session's absolute end and not indexed in memory |
| `TokenStore.Store.DecideOnRows` | src/lib/auth.ts:723-788 | Behind the last await: accepts exactly the rows the machine's predicate accepts; without an answer from the database it refuses, or reports the failure to a caller that asked for it |
| `TokenStore.Store.VerifyToken` | src/lib/auth.ts:691-799 | All of it with nothing in between, with the Redis index only if Redis answers: accepts exactly what the machine's predicate of one moment accepts |
| `TokenVerification.VerdictIsOfTheRows` | src/lib/auth.ts:691-799 | Cut at its awaits, any steps in between and the two rows read in either order: a verification accepts if and only if the leaf's claims stood when it began and the rows accept it as they were read; the indexes never decide |
| `TokenVerification.AcceptedWasLive` | src/lib/auth.ts:723-788 | What is accepted was, when its family's row was read, the current leaf of a live family (a leaf of it, where consumed ones are allowed) |
| `TokenVerification.DeadNeverVerifies` | src/lib/auth.ts:691-799 | A leaf whose family is gone or whose password has changed when a verification begins is refused, whatever runs in between |
| `TokenVerification.AcceptedLeavesOnlyAdvance` | src/lib/auth.ts:691-799 | Of two strict verifications in one family, the one whose row was read later accepted a newer leaf or the same |
| `TokenStore.Store.PruneExpiredAuthTokenFamilies` | src/lib/authTokenFamilyMaintenance.ts:6-14 | Deletes the rows the machine's pruning step deletes and counts them |
| `Interpret.NoOrphanConnection` | src/hooks/useInterpret.ts:179-549 | In every interleaving each opened connection is the published one, is held by a call in flight, or was stopped |
| `Interpret.HolderDisposes` | src/hooks/useInterpret.ts:442-487 | The call that holds a connection either publishes or stops it when it resumes, never both |
| `Interpret.PublishesIntoEmptySlot` | src/hooks/useInterpret.ts:442-487 | Only the current owner publishes, never while stopping, and never over a live handle |
| `Interpret.AnchorDeductedOnce` | src/hooks/useInterpret.ts:116-155 | Each server anchor is handed to the deduction at most once |
| `Interpret.StopLeavesNothingLive` | src/hooks/useInterpret.ts:489-612 | After a stop or a teardown nothing is published until the next start, and when no call holds a connection all of them have been stopped |
| `InterpretProgress.StartPublishes` | src/hooks/useInterpret.ts:243-487 | From every state that lets a start in, undisturbed, it publishes a fresh connection under a new owner, with the anchor it was granted, and touches no other call |
| `InterpretProgress.RotationReconnects` | src/hooks/useInterpret.ts:179-236 | From every state with a due rotation, undisturbed, it stops the old connection and publishes a fresh one for the same owner and anchor |
| `InterpretProgress.RotationGoesOnExactly` | src/hooks/useInterpret.ts:203-211 | Whatever runs while the old connection is stopped, the rotation then goes on to connect if and only if nobody has stopped, left, changed the account or started anew; else it ends and changes nothing |
| `InterpretProgress.StopSettles` | src/hooks/useInterpret.ts:489-549 | Undisturbed, a stop ends the recording, hands the anchor to the deduction and lets the next start in |
| `InterpretProgress.TeardownSettles` | src/hooks/useInterpret.ts:554-600 | Leaving does so at once |
| `InterpretProgress.StopOfOldAccountSettlesNothing` | src/hooks/useInterpret.ts:489-549 | A stop under another account than its owner's hands no anchor on |
| `InterpretProgress.EveryWaitEnds` | src/hooks/useInterpret.ts:179-549 | Whatever a call waits for, when it comes the call is over or a wait further on, four waits at most, and no other call is touched |
| `InterpretProgress.FlagLoweredExactly` | src/hooks/useInterpret.ts:372-386 | While the owner's own start is in flight only a teardown, or the anchor reply of an older start, lowers the flag that keeps the next start out |
| `InterpretProgress.StaleReplyLetsInAnother` | src/hooks/useInterpret.ts:372-386 | A run in which such a reply lets a third start in beside the second |
| `InterpretProgress.NobodyIsKeptOut` | src/hooks/useInterpret.ts:243-612 | In every reachable state without a call in flight, the user may start or is being recorded: neither flag stays up |
| `InterpretAnchors.LosesAnchorExactly` | src/hooks/useInterpret.ts:243-549 | In every state a run reaches, a step loses the anchor held, undeducted, if and only if it is a start that passes its guard or a stop that wakes up under another account |
| `InterpretAnchors.EveryAnchorIsAccountedFor` | src/hooks/useInterpret.ts:243-549 | Over every run, the anchors granted are exactly those held, handed to the deduction, and dropped by one of these steps |
| `InterpretAnchors.AnchorsAreSettledExactly` | src/hooks/useInterpret.ts:243-549 | All granted anchors are held or deducted if and only if no such step found one |
| `InterpretAnchors.RestartDropsAnchor` | src/hooks/useInterpret.ts:350-372 | A run: the connection fails, the user starts again, and the first start's anchor is dropped unsettled |
| `Interpret.LateStopDropsNewerAnchor` | src/hooks/useInterpret.ts:489-549 | A stop still waiting for its recording to end, under an account that has changed, drops the anchor of the session started after it, unsettled, while that session's owner is current |
| `Interpret.ReachesTornDown` | src/hooks/useInterpret.ts:489-612 | The state that starts from is reached by a run: a published recording is stopped, and the account changes while the stop waits for it |
| `Interpret.RunKeepsSound` | src/hooks/useInterpret.ts:106-612 | The lifecycle invariant holds after every run of start, stop, rotation, teardown and account change |
| `InterpretHook.Hook.StartCall` | src/hooks/useInterpret.ts:243-360 | The code before the first await is the machine's start step |
| `InterpretHook.Hook.StartAfterAnchor` | src/hooks/useInterpret.ts:360-442 | The code after the anchor's reply is the machine's step, both outcomes and a lost owner included |
| `InterpretHook.Hook.AfterConnect` | src/hooks/useInterpret.ts:442-487 | The code after the connection opened publishes or disposes of it as the machine does |
| `InterpretHook.Hook.RotateConnectionCall` | src/hooks/useInterpret.ts:179-198 | A due rotation takes the handle out before it waits |
| `InterpretHook.Hook.RotateAfterStop` | src/hooks/useInterpret.ts:203-211 | The code behind the wait goes on to connect or ends as the machine's step |
| `InterpretHook.Hook.StopCall` | src/hooks/useInterpret.ts:489-519 | A stop invalidates the owner before it waits |
| `InterpretHook.Hook.StopAfterStop` | src/hooks/useInterpret.ts:519-549 | The settlement after the wait, as the machine's step |
| `InterpretHook.Hook.InvalidateAndTeardown` | src/hooks/useInterpret.ts:554-600 | Teardown clears every ref at once |
| `Soniox.StopStays` | src/hooks/useSoniox.ts:2144-2219 | After stop, from any state with anything scheduled or in flight, no automatic step records again |
| `Soniox.PauseStaysExactly` | src/hooks/useSoniox.ts:2225-2244 | After a manual pause the same holds if and only if no connection of the current run, opened by a start that kept the pause (lines 1623-1649), has yet to connect |
| `Soniox.KeptPauseStart` | src/hooks/useSoniox.ts:1411-1649 | Such a start leaves that state behind; once its connection is up a pause stays |
| `Soniox.PauseKeepsRun` | src/hooks/useSoniox.ts:2225-2244 | A pause leaves every callback's claim to the run as it was, so the guarantee does not rest on the run id |
| `Soniox.InterruptionAwaitsReconnect` | src/hooks/useSoniox.ts:860-941 | An interruption pauses but leaves a reconnection due |
| `Soniox.InterruptionRecovers` | src/hooks/useSoniox.ts:1037-1368 | The same guarded steps do record again after an interruption: the guards let through what they should |
| `SonioxProgress.ReconnectionRecords` | src/hooks/useSoniox.ts:1037-1316 | A scheduled reconnection, undisturbed, records again over a connection of its own |
| `SonioxProgress.ReconnectSchedules` | src/hooks/useSoniox.ts:1037-1096 | The user can always ask for one, after a pause by hand too |
| `SonioxProgress.RotationReconnects` | src/hooks/useSoniox.ts:1370-1408 | A due rotation, undisturbed, stops the old connection and records on over a fresh one |
| `SonioxProgress.FiveAttempts` | src/hooks/useSoniox.ts:1037-1368 | Attempts that fail are repeated until five have been made, and then recovery is given up, not before |
| `SonioxProgress.BrokenConnectionSchedules` | src/hooks/useSoniox.ts:860-941 | A connection that breaks while the capture lives leaves the recording on and a reconnection due |
| `SonioxEndings.FlappingEnds` | src/hooks/useSoniox.ts:716-731 | A connection that keeps breaking before it counts as stable is redialled until five attempts have been made and given up at the next break, however often it came up in between |
| `SonioxEndings.StableClears` | src/hooks/useSoniox.ts:719-731 | One that stays up clears the record |
| `SonioxEndings.EndingsOutdate` | src/hooks/useSoniox.ts:860-1010 | When a recording stops, breaks, rotates or loses its capture, account or page, the hook holds no handle and no callback of the old connections counts any more |
| `SonioxEndings.OldCallbacksDoNothing` | src/hooks/useSoniox.ts:1195-1253 | Such a callback changes nothing |
| `SonioxEndings.IdlePauseStays` | src/hooks/useSoniox.ts:860-941 | An idle interruption pauses, and no automatic step records again |
| `SonioxEndings.CaptureLossStays` | src/hooks/useSoniox.ts:955-1008 | So does a lost capture |
| `SonioxEndings.AccountChangeIsFinal` | src/hooks/useSoniox.ts:1883-1915 | After the account has changed nothing makes the hook record or connect again, over every run |
| `SonioxHook.Hook.AttemptReconnectCall` | src/hooks/useSoniox.ts:1037-1096 | Schedules the timer, or gives up past the fifth attempt, as the machine's step |
| `SonioxHook.Hook.AfterConnect` | src/hooks/useSoniox.ts:1267-1316 | The result of a reconnection is adopted or closed as the machine's step |
| `SonioxHook.Hook.OnConnectionConnected` | src/hooks/useSoniox.ts:1218-1249 | The connected callback of a reconnection, and of a start, sets the state only under its guards |
| `SonioxHook.Hook.StableTimerCallback` | src/hooks/useSoniox.ts:719-731 | The timer forgets the failed attempts |
| `SonioxHook.Hook.PauseForInterruption` | src/hooks/useSoniox.ts:860-941 | Pauses, disarms the timers and keeps or drops the handle as the machine's step |
| `SonioxHook.Hook.PauseCall` | src/hooks/useSoniox.ts:2225-2244 | A manual pause withdraws the wish to reconnect and leaves the run id |
| `SonioxHook.Hook.StopCall` | src/hooks/useSoniox.ts:2144-2219 | A stop withdraws it, disarms the timers and takes the handle |
| `ApiCache.FinishedMeansGone` | src/lib/apiResponseCache.ts:43-162 | Once a prefix deletion has finished, the cache never again holds under that prefix a value read before the write it follows, for every interleaving of reads, loads, write-backs, partial scans and expiries |
| `ApiCacheCallers.LateCallersAreServedFresh` | src/lib/apiResponseCache.ts:97-162 | A caller that comes after gets no older value at any later time, from the cache, from a load of its own or from one it joins, unless a load that read before the write is still in flight |
| `ApiCacheCallers.NewcomersAreServedStaleExactly` | src/lib/apiResponseCache.ts:97-162 | Some run hands such a caller an older value if and only if a load for its key that can still be joined read before the write |
| `ApiCacheCallers.StaleLoadIsReachable` | src/lib/apiResponseCache.ts:125-128 | A run that ends so: the deletion has finished and the load is still in flight |
| `ApiCacheLoads.SingleFlight` | src/lib/apiResponseCache.ts:124-161 | Over every run there is at most one load per key under way |
| `ApiCacheLoads.MissJoinsExactly` | src/lib/apiResponseCache.ts:124-157 | A caller that finds nothing cached joins the load under way, and starts one exactly if there is none |
| `ApiCacheLoads.CleanedIsNeverJoined` | src/lib/apiResponseCache.ts:157-161 | Once a load has returned or failed and its caller has cleaned up, nobody joins it, over every run |
| `ApiCacheLoads.NewcomersLoadIsFresh` | src/lib/apiResponseCache.ts:130-155 | The load a caller starts itself reads no earlier than the caller came, over every run |
| `ApiCacheLoads.CleanupEndsStaleness` | src/lib/apiResponseCache.ts:157-161 | After a finished deletion the stale state ends when that load is cleaned up: from then on no newcomer is ever served an older value |
| `ApiCacheLoads.LoadsEnd` | src/lib/apiResponseCache.ts:137-161 | Whether the loader returns or fails, the load is then done, and after its cleanup none for the key is under way |
| `ApiCacheLoads.MissFillsTheCache` | src/lib/apiResponseCache.ts:107-155 | Undisturbed, a caller is served what its loader reads, and that is cached if and only if nothing under a prefix of the key was invalidated since it came |
| `ApiCacheLoads.JoinedAreServed` | src/lib/apiResponseCache.ts:125-128 | Everyone who joined a load is served what it read |
| `ApiCacheLoads.FailedServeNothing` | src/lib/apiResponseCache.ts:130-161 | A load that fails hands nothing over |
| `ApiCacheLoads.DeletionsFinish` | src/lib/apiResponseCache.ts:65-95 | Undisturbed, a deletion finishes, leaves nothing under its prefix and touches nothing else |
| `ApiCache.StepSound` | src/lib/apiResponseCache.ts:43-162 | Every command, reply and tick keeps: a load with a value from before an invalidated write started no later than the mark, and a cached one is still owed by the scan |
| `ApiCacheProcess.Process.LatestInvalidationFor` | src/lib/apiResponseCache.ts:57-63 | The loop over the marks answers, for every time, whether a matching prefix was invalidated since |
| `ApiCacheProcess.Process.BeginDelete` | src/lib/apiResponseCache.ts:65-79 | The mark comes before the first scan command |
| `ApiCacheProcess.Process.DeleteScanned` | src/lib/apiResponseCache.ts:79-92 | One scan reply is deleted as the machine's step |
| `ApiCacheProcess.Process.AfterReply` | src/lib/apiResponseCache.ts:107-155 | A hit, a shared load or a load of its own, decided without waiting |
| `ApiCacheProcess.Process.AfterLoader` | src/lib/apiResponseCache.ts:130-152 | The value is written back only if no matching prefix was invalidated since the caller came |
| `ApiCacheProcess.Process.CleanupLoad` | src/lib/apiResponseCache.ts:157-161 | The key is free for the next load |
| `FolderTree.BuildFolderList` | src/lib/folders.ts:39-74 | Whatever order the sort leaves, the list is the forest's chains in preorder, each item with its chain's depth and path, and shows exactly the rows whose parent chain reaches the top; cyclic links included, it terminates |
| `FolderTree.Builder.Visit` | src/lib/folders.ts:54-70 | The recursive visitor appends exactly the items below a chain |
| `FolderTree.Builder.File` | src/lib/folders.ts:42-49 | The loop files every row, in order, under its parent, or under none when that is missing |
| `FolderList.ListsEveryChainInPreorder` | src/lib/folders.ts:54-73 | Every chain from the top is listed and nothing else, in strict preorder |
| `FolderList.ListsRootedRowsOnce` | src/lib/folders.ts:54-73 | A row is listed exactly when a chain from the top reaches it, and then once |
| `FolderList.SubtreesAreContiguous` | src/lib/folders.ts:54-73 | A subtree is the unbroken stretch behind its root |
| `FolderTree.SortNeverHidesRows` | src/lib/folders.ts:30-37 | Which rows are shown does not depend on the order of the sort |
| `FolderForest.OneChainPerRow` | src/lib/folders.ts:44-49 | A row is reached along at most one chain |
| `FolderForest.ChainIsBounded` | src/lib/folders.ts:54-70 | No chain is longer than the list, whatever cycles the other rows form |
| `FolderMoves.ValidateFolderMove` | src/lib/folders.ts:168-206 | On every map, cyclic or not, the walk halts and accepts exactly the moves whose new parent is absent, or listed and neither the folder nor below it; each refusal names its reason |
| `FolderMoves.AcceptedIffStillAcyclic` | src/lib/folders.ts:168-206 | On an acyclic map a move under a listed parent is accepted if and only if the result is acyclic |
| `FolderMoves.AcceptedExactly` | src/lib/folders.ts:168-206 | On an acyclic map a move is accepted if and only if it names no parent, or a listed one under which the map stays acyclic |
| `FolderMoves.MovesStayAcyclic` | src/lib/folders.ts:168-206 | Any sequence of validated moves keeps the map acyclic |
| `FolderMoves.ConcurrentMovesExactly` | src/app/api/folders/[id]/route.ts:72-83 | Two moves accepted against the same acyclic map, then both written, close a cycle if and only if each puts its folder somewhere below the other one's |
| `FolderMoves.ConcurrentMovesCanCloseACycle` | src/app/api/folders/[id]/route.ts:72-83 | The smallest such pair: two top-level folders, each moved under the other |
| `FolderCycles.NothingIsHiddenIffAcyclic` | src/lib/folders.ts:39-74 | The list shows every row if and only if no folder is its own ancestor |
| `SseStream.ConsumeSse` | src/hooks/useChat.ts:660-704 | The callbacks are those of the concatenated text however it is cut; a failed read or an account change at any question yields a prefix of them |
| `SseStream.Drain` | src/hooks/useChat.ts:694-701 | The inner loop flushes exactly the complete frames of the buffer and keeps the rest |
| `SseStream.FlushFrame` | src/hooks/useChat.ts:669-687 | One frame: the last event line names it, the trimmed data lines are joined, and empty or unparsable data calls nothing |
| `SseStream.ReadOn` | src/hooks/useChat.ts:689-702 | Reading on needs only what the frames so far left behind |
| `SseCodec.PrintedThenRead` | e2e/helpers.ts:77-83 | What is printed is read back if and only if every name is trimmed and on one line |
| `SseCodec.CarriageReturnsHideFrames` | src/hooks/useChat.ts:694-703 | A text in which every line feed follows a carriage return is one frame and makes at most one callback |
| `SseStandard.CallbacksAreParsed` | src/hooks/useChat.ts:669-704 | The callbacks are the events found in the text, their data parsed |
| `SseAgreement.SameFrames` | src/hooks/useChat.ts:689-702 | On line feeds only, the WHATWG HTML Standard (section 9.2.6) dispatches at the ends of the same frames, and discards what is left |
| `SsePlain.FrameAgreesExactly` | src/hooks/useChat.ts:669-687 | Both readers make the same of a frame if and only if it has no data field, or exactly one, with a trimmed value that is not empty, under a name both take alike |
| `SseTexts.TextsAgreeExactly` | src/hooks/useChat.ts:660-704 | On a text without carriage returns both find the same events if and only if every frame is such a frame and the unfinished last one makes no event |
| `SseTexts.CarriageReturnsLoseEvents` | src/hooks/useChat.ts:694-703 | Written with CR LF the standard finds the same events and this reader at most one, so with two or more they differ on every text |
| `SseTexts.PrintedTextsAgreeExactly` | e2e/helpers.ts:77-83 | What the printer writes of events whose names hold no line break, both understand alike if and only if every name is trimmed and not empty |
| `SseTexts.CrlfLosesPrintedEvents` | e2e/helpers.ts:77-83 | However many such events are printed, written with CR LF all are there for the standard and one at most for this reader |
| `TranscriptEntries.MergeEntries` | src/lib/mergeTranscriptBundles.ts:9-30 | The loop leaves one combined entry per key, in order of first appearance |
| `TranscriptEntries.OrderIsByFirstAppearance` | src/lib/mergeTranscriptBundles.ts:12-28 | That order is the one of the places where the keys first appear |
| `TranscriptEntries.MergeAssociates` | src/lib/mergeTranscriptBundles.ts:9-30 | Merging is associative, entry by entry and in order |
| `TranscriptEntries.MergeAbsorbs` | src/lib/mergeTranscriptBundles.ts:9-30 | Merging the same snapshot in again changes nothing |
| `TranscriptMerge.MergeTranscriptBundles` | src/lib/mergeTranscriptBundles.ts:33-54 | Merges segments, translations and summaries, absent bundles included, for any reordering by the sort |
| `TranscriptMerge.AddTranslations` | src/lib/mergeTranscriptBundles.ts:45-48 | The loop over the incoming translations, in any order, keeps a text unless a non-empty one or nothing is to be replaced |
| `TranscriptMerge.BundleMergeAssociates` | src/lib/mergeTranscriptBundles.ts:33-54 | Bundles may be merged in any grouping, whatever the sort does |
| `TranscriptMerge.BundleMergeAbsorbs` | src/lib/mergeTranscriptBundles.ts:33-54 | A snapshot that comes again is absorbed |
| `TranscriptMerge.NothingIsLost` | src/lib/mergeTranscriptBundles.ts:16-24 | Every segment and summary of either side is there once and nothing else is, no text of one is lost or shortened, and no translation is replaced by an empty one |
| `TranscriptMerge.FieldsAreSomeEntrys` | src/lib/mergeTranscriptBundles.ts:16-24 | Each of those fields is the field of one of the entries merged |
| `TranscriptMerge.LongestIsKept` | src/lib/mergeTranscriptBundles.ts:16-24 | A string field is the last of the longest strings its entries have for it |
| `TranscriptMerge.LastValueIsKept` | src/lib/mergeTranscriptBundles.ts:16-24 | Where no entry gives a string for it, a field is the last value given, and absence replaces none |
| `TranscriptMerge.NewestFieldIsKept` | src/lib/mergeTranscriptBundles.ts:16-24 | Every other field has the value of the last entry that has it |
| `TranscriptMerge.NewerTranslationWins` | src/lib/mergeTranscriptBundles.ts:45-48 | A newer translation replaces an older one unless it is empty, and what is not given anew stays |
| `ParserSlots.SlotsAreSound` | src/lib/documentParserProcess.ts:109-174 | Over every sequence of calls, releases, aborts and timeouts: at most two slots taken, the queue within its item and byte bounds and its byte count exact, nobody waiting beside a free slot, grants in the order of the calls, and every call waiting or settled, once |
| `ParserSlots.SettledForGood` | src/lib/documentParserProcess.ts:117-131 | A settlement stands and is never made a second time |
| `ParserSlots.NoSlotLeaks` | src/lib/documentParserProcess.ts:117-131 | When only holders release, the counter is the number of slots held |
| `ParserGrants.AcquireExactly` | src/lib/documentParserProcess.ts:133-174 | A call is cancelled at once if its signal has been aborted, granted at once if a slot is free, refused at once if the queue is full as well, and waits behind all others otherwise |
| `ParserGrants.ReleaseGrantsFirst` | src/lib/documentParserProcess.ts:117-131 | A holder's release cancels the waiters up to the first whose signal has not been aborted and grants that one the slot, and settles nobody else; without one the slot is free |
| `ParserGrants.AbortCounts` | src/lib/documentParserProcess.ts:150-161 | An abort counts at once for its own signal and no other, and settles nobody by itself |
| `ParserGrants.NobodyIsRefusedWithoutReason` | src/lib/documentParserProcess.ts:109-174 | Over every run a call is cancelled only if its own signal has been aborted, and refused only if it met a full queue or timed out |
| `ParserGrants.LeavingExactly` | src/lib/documentParserProcess.ts:150-167 | An abort cancels and a timeout refuses a call that waits, which leaves the queue, and does nothing to another |
| `ParserPool.Slots.AcquireParserSlot` | src/lib/documentParserProcess.ts:133-174 | Cancelled, granted, refused or queued, as the machine's step |
| `ParserPool.Slots.ReleaseParserSlot` | src/lib/documentParserProcess.ts:117-131 | The loop hands the freed slot on as the machine's step does |
| `ParserPool.Slots.RemovePending` | src/lib/documentParserProcess.ts:150-156 | Takes out exactly the named waiter and its bytes, or nothing |
| `ParserPool.Slots.OnAbort` | src/lib/documentParserProcess.ts:157-161 | An abort cancels a waiter that is still queued and does nothing otherwise |
| `ParserPool.Slots.OnTimeout` | src/lib/documentParserProcess.ts:162-167 | A timeout refuses a waiter that is still queued and does nothing otherwise |
| `TokenBucket.AcceptsWhateverTheRateAllows` | server/websocket.ts:61-77 | A message is accepted if and only if, counting it, every stretch it ends has at most 40 plus 20 per second of growth of the running maximum of the clock, however the clock steps |
| `TokenBucket.RateIsBounded` | server/websocket.ts:61-77 | No stretch of messages ever gets more |
| `TokenBucket.TokensAreLeastAllowance` | server/websocket.ts:61-77 | The tokens left are the least allowance over all stretches that end here |
| `TokenBucket.SocketRateState.ConsumeRateToken` | server/websocket.ts:61-77 | Updates both fields in place as the bucket's step |
| `RateWindows.TwiceTheLimitPerWindow` | src/lib/rateLimit.ts:205-240 | From any store, full or not, in any closed interval of one window with a clock that does not step back, a key gets at most twice its limit |
| `RateWindows.TwiceTheLimitExactly` | src/lib/rateLimit.ts:205-240 | With clocks in any order, and from every store the limiter can have come to hold: twice the limit is guaranteed to the runs with at most so many of the key's calls from behind the interval, and with or without prunes, if and only if none of them prunes and either no call is from behind it or the limit is one |
| `RateWindows.OneLateCallBreaksTheBound` | src/lib/rateLimit.ts:205-240 | Every rule with a limit above one has a run with one such call that gets twice the limit and one more inside the interval |
| `RateWindows.PruningBreaksTheBound` | src/lib/rateLimit.ts:156-240 | And every rule has one with prunes, from the empty store and with all clocks of the key inside the interval, that gets three times the limit: 4999 other keys come first |
| `RateLimits.RunIsBounded` | src/lib/rateLimit.ts:209-230 | At most 5000 buckets are held over every run |
| `RateLimits.LiveBucketsStay` | src/lib/rateLimit.ts:156-240 | No call drops a live bucket, moves its window or forgets part of its count |
| `RateLimits.RefusedNewcomerMeansFull` | src/lib/rateLimit.ts:215-230 | A key without a live bucket is refused only while 5000 live ones exist |
| `RateLimits.RetryAfterSuffices` | src/lib/rateLimit.ts:190-236 | Waiting as long as a refusal says is enough |
| `RateLimits.NewcomerAdviceExactly` | src/lib/rateLimit.ts:215-230 | A refused newcomer is told to wait one window, and is admitted later, if nothing else changed the store, exactly if some bucket has expired by then |
| `RateLimits.Limiter.MemoryEnforce` | src/lib/rateLimit.ts:205-240 | Answers and updates the shared map as the specified step |
| `RateLimits.Limiter.PruneExpiredBuckets` | src/lib/rateLimit.ts:156-162 | Deletes exactly the expired buckets |

## Left out

- JobQueue.Queue.ClaimActiveJob: claims without a resource reservation are the machine's `Create` step.
- JobQueue.Queue.ReclaimStaleProcessingJobs: the clock stands still during one call; the interleaving of its per-scope transactions with others is a matter of the machine's `Reclaim` steps.
- SseTexts.PrintedTextsAgreeExactly: names with a line feed or a carriage return; without carriage returns `SseTexts.TextsAgreeExactly` decides those texts too.
- RateWindows.TwiceTheLimitPerWindow: positive windows and limits only, as all callers pass; `RateWindows.TwiceTheLimitExactly` says what is left of it when clocks step back.
- ApiCache.FinishedMeansGone: the pruning of recorded prefixes above 10,000, other processes, and a Redis that is not ready, where a deletion returns without deleting.
- FolderTree.BuildFolderList: the locale comparison of names; the order among siblings is whatever the sort produced.
- SseStream.ConsumeSse: UTF-8 decoding; the chunks are the decoded reads.
- In src/hooks/useSoniox.ts: starting, microphone switches, rebuilding after a reload, chunk upload and latency; what they leave behind is any set of registered connections.
- InterpretAnchors.LosesAnchorExactly: `deductQuota` itself, which does nothing once the account has changed or the token is gone; what is handed to it counts as deducted.
- SseTexts.TextsAgreeExactly: texts with carriage returns other than as CR LF throughout, a byte order mark, and the `id` and `retry` fields, which make no event.
- In src/hooks/useInterpret.ts: the text of errors, the transcript and the store updates that carry it.
- Error texts, log lines, job payloads and progress fields.
- Child processes and document parsing behind the parser slots.
- MySQL isolation levels below the scope lock, bcrypt, JWT encoding, HMAC capabilities and cookies.
- Billing maintenance, chat file cleanup and conversation deletion, whose key steps lie in other modules.
- Validators and formatters.
