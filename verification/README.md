# A model of the INSSA and Local Man QA platform

The platform drives two web products with a browser and must not change them by accident. Its difficult code is a set
of small protocols: a gate in front of every outgoing request, files shared by many workers under a directory lock,
controllers that press buttons on pages they do not control, a session certificate that several procedures write and
read, and the folds that turn logs into verdicts. This project models those protocols and proves what they are for.

## How the model is built

Code that computes a value is a function. Code that updates variables is a class or a method with a loop, and its
`ensures` ties the new state to a function of the old one. A protocol with several parties is a step function, and its
results hold of every list of steps. Everything the code does not control (the page, the file system's answers, the
clock, the order of events) is a parameter over which the results quantify.

- `Text`, `Json`, `Sequences`: trimming, folding case, decimals, JSON values, counting, first occurrences, a stable sort.
- `SafeWriteAudit`, `AuditHandler`: parsing and classifying one request, the handler as far as each of its awaits, and
  the same handler as an object that updates its records, failures, sessions and pending set in place.
- `FirestoreServer`, `AuditProtocol`: what the server does with a commit, and any interleaving of requests, baseline
  reads, deliveries and losses, with or without another writer.
- `AuditIntegrity`, `AuditFailClosed`: what those runs keep; `AuditForwards`: what they let
  through; `AuditOutsideWriter`: why no other writer is allowed.
- `DirectoryLock`, `ReportAppend`, `AuthState`: the retry loop, the shared report, the shared login.
- `LiveCapsule`, `ShareStep`: the two page controllers, against any page.
- `SessionReady`, `SafeSession`: three checks that a session is ready, and the procedure that certifies one.
- `UrlEncoded`, `ComposeRoute`: sections 5.1 and 5.2 of the WHATWG URL Standard at the level of bytes, with the UTF-8
  decoder of the WHATWG Encoding Standard, and the compose routes on top.
- `MigrationBatch`, `Scheduler`, `ErrorGate`, `LifecycleNetwork`, `ScaleSearch`, `Dashboard`, `CleanupTracker`.

## What was found

- A report that does not exist yet can lose a record: the file is seeded outside the lock, so a slow worker's seed can
  erase what a faster one has appended. Nothing is lost exactly when the file exists beforehand or there is at most one
  worker (`ReportAppend.LosslessIff`).
- The live-capsule loop guards its click by the truthiness of a label it has trimmed. No page gets a second
  click exactly when the button's text is not made of blanks; a page stuck at the contact decision shows the need (`LiveCapsule.ClicksOnceIff`).
- The three readiness checks differ. Another account's entry can overwrite the profile verdict of the preparation, and
  an email that is a number stops two of them but not the third (`SessionReady.PrepIsStricter`, `PageIsStricter`).
- One login is guaranteed for runs within the 15-minute trust window and no longer: one millisecond later, a profile
  page that fails to open makes a second worker log in again (`AuthState.OneLoginIff`).
- The scheduler's loop tests for a stop after its body: a stop during start-up still lets one evaluation run, and a stop
  during an evaluation can still be followed by the launch of a maintenance task. Neither is lost, and
  the maintenance is awaited.
- The search for a vendor's number is exact up to 99,999 vendors and no further (`ScaleSearch.SearchIsExactIff`).
- A feature can score 100 with slow or failed rows, when there are enough others (`Dashboard.FullScoreIff`).
- Another writer between the baseline read and the arrival of an allowed profile write has its change undone
  (`AuditOutsideWriter.OutsideUpdateIsLost`).
- A bundle that is not blocked but does not validate stops the migration for good: every restart fails at it
  (`MigrationBatch.UnsoundBundleStops`, `FinishesIff`).
- A run that ends inside a migration after planning it makes the next batch skip that bundle, as the documentation says:
  it needs its own resume. One that ends after the metadata switch is never reported at all
  (`MigrationBatch.RestartsHandleEachOnce`, `EndingInsideDecides`).
- A dry run can call a bundle eligible that the execution refuses (`MigrationBatch.ZeroBytesSurprise`), or that it never
  reaches (`DryRunPredictsIff`).
- A preparation that rejects only because its report could not be written leaves a state that a stale PASS report
  certifies (`SafeSession.PrepareThenRead`).

## Model

| member | source | states |
|---|---|---|
| AuditIntegrity.ForwardedWritesAreConfined | utils/inssa-safe-write-audit.ts:47-72 | in every interleaving without an outside writer, no document appears or disappears, other accounts' documents are untouched, and a bound account's own document changes at most in `lastActive` and `fcmSyncStatus` |
| AuditIntegrity.BaselineStillTrue | utils/inssa-safe-write-audit.ts:166-190 | the profile baseline a forwarded request was judged by is still what the server holds, at every later point of the run |
| AuditOutsideWriter.OutsideUpdateIsLost | utils/inssa-safe-write-audit.ts:166-190 | why an outside writer is excluded: a run for every account with an empty profile in which the request that repeats it is forwarded on its baseline, and what another writer changed between that read and the landing is reset |
| AuditOutsideWriter.ProfileWriteAllowed | utils/inssa-safe-write-audit.ts:66-71 | the start-up write that repeats an empty profile counts as no change, is recorded without an exception, and is one the server accepts |
| AuditOutsideWriter.ProfileAllowedIff | utils/inssa-safe-write-audit.ts:66-71 | a profile write counts as no change iff the name, biography and image of the baseline are the empty text and each field it writes is what the baseline has |
| AuditIntegrity.FixedUidAccounts | utils/inssa-safe-write-audit.ts:160-163 | with a fixed uid, only documents of that uid in some default database are ever bound |
| AuditIntegrity.RunSafe | utils/inssa-safe-write-audit.ts:136-196 | the invariant behind both results, kept by arrivals, answers, resumptions, deliveries, losses and disposal |
| AuditProtocol.AllowedIsHarmless | utils/inssa-safe-write-audit.ts:47-72 | a write that is allowed and recorded without an exception, as the server decodes it, sets or stamps volatile fields only, or repeats what the document held |
| AuditProtocol.AllowedHasShape | utils/inssa-safe-write-audit.ts:49-70 | an allowed write names the account's document, requires it to exist, and has a mask equal to its fields and at most the one known transform |
| FirestoreServer.CommitHarmless | utils/inssa-safe-write-audit.ts:189-190 | an atomic commit of harmless writes preserves every document up to the volatile fields of the accounts |
| AuditFailClosed.RoutedExactlyOnce | utils/inssa-safe-write-audit.ts:136-196 | a request whose handler is over was forwarded or aborted exactly once, and one still waiting not at all |
| AuditFailClosed.AbortedIffBlocked | utils/inssa-safe-write-audit.ts:140-195 | a request is aborted iff one of its own records is blocked, and the failures number as many as the aborts |
| AuditFailClosed.ForwardedOnlyWhenVouched | utils/inssa-safe-write-audit.ts:19-43 | every envelope of a forwarded Firestore request is an object that lists its writes or names a database or a stream, and every write in every one of them is allowed, alone or by a baseline, for an account that a token of the expected identity was presented for in the database the request names |
| AuditProtocol.ParseIff | utils/inssa-safe-write-audit.ts:19-43 | the parser succeeds exactly on an HTTPS POST to the write channel or a commit endpoint whose envelopes are all understood, and reads every write of every envelope in order |
| AuditProtocol.RequestDatabaseIff | utils/inssa-safe-write-audit.ts:153-154 | a request has a database iff its query, or else its path, names it and it is a default database |
| AuditProtocol.BoundUidIff | utils/inssa-safe-write-audit.ts:157-163 | a token binds an account iff its claims are those of the expected identity and its audience is the project of the database |
| AuditForwards.WrongTokenNeverForwarded | utils/inssa-safe-write-audit.ts:156-164 | in every run, a Firestore request with an unreadable token, or with that of another identity or project, is never forwarded |
| AuditForwards.AllowedIsForwarded | utils/inssa-safe-write-audit.ts:151-190 | in any state, an understood request with a matching token is forwarded when each of its writes is allowed by itself |
| AuditForwards.RememberedIsForwarded | utils/inssa-safe-write-audit.ts:164-190 | so is one without a token whose database an earlier token has bound |
| AuditForwards.SessionTrafficIsForwarded | utils/inssa-safe-write-audit.ts:47-65 | a batch of heartbeats and complete notification statuses of the own account is forwarded |
| AuditForwards.HeartbeatAllowed | utils/inssa-safe-write-audit.ts:56-58 | the heartbeat counts as session activity |
| AuditForwards.FcmAllowedIff | utils/inssa-safe-write-audit.ts:59-65 | a notification status is allowed iff it has its state and time and nothing but the two further known fields |
| AuditForwards.DependencyGate | utils/inssa-safe-write-audit.ts:139-149 | outside Firestore a read is forwarded, and any other request iff it is an allowed dependency; otherwise it is aborted |
| AuditForwards.ListeningIsForwarded | utils/inssa-safe-write-audit.ts:139-150 | Firestore reads and posts to the Listen channel are forwarded without a record |
| AuditFailClosed.NothingPendingAfterDispose | utils/inssa-safe-write-audit.ts:197-207 | once dispose returns, no handler is waiting and nothing is pending |
| AuditFailClosed.ScanCloses | utils/inssa-safe-write-audit.ts:167-188 | the loop over a batch blocks iff it records a blocked write, and touches only this request's records |
| AuditHandler.InstalledAudit.ScanFrom | utils/inssa-safe-write-audit.ts:167-188 | the loop over the writes appends exactly the records of the specification and stops where it does |
| AuditHandler.InstalledAudit.Handle | utils/inssa-safe-write-audit.ts:136-202 | a request that arrives becomes pending and runs to its first await as specified |
| AuditHandler.InstalledAudit.OnBaseline | utils/inssa-safe-write-audit.ts:176-195 | a handler resumes with its baseline and runs to its next await as specified |
| AuditHandler.InstalledAudit.Tracked | utils/inssa-safe-write-audit.ts:197-202 | the object stays the audit of a run that fails closed; an arriving request becomes pending, and if its handler does not suspend it has been routed exactly once and was aborted iff it has a blocked record |
| AuditHandler.InstalledAudit.Resumed | utils/inssa-safe-write-audit.ts:176-195 | the same for a handler whose baseline read has been answered |
| AuditHandler.InstalledAudit.Settled | utils/inssa-safe-write-audit.ts:197-201 | a settled handler leaves the pending set, and every handler that still waits stays in it |
| DirectoryLock.WaitForLock | utils/localman-results.ts:206-224 | the retry loop decides by the first answer that is final, within a number of attempts bounded by timeout and pause |
| ReportAppend.AppendsSurvive | utils/localman-results.ts:176-182 | with any number of workers, if the file existed (or there is one worker), the report is the earlier entries and then the committed records in lock order, and each append that returned is in it exactly once |
| ReportAppend.LosslessIff | utils/localman-results.ts:176-249 | no run loses a record iff the file exists beforehand or there is at most one worker |
| ReportAppend.MissingFileLosesRecord | utils/localman-results.ts:238-249 | the trace in which one worker's seed erases another's record |
| ReportAppend.AttemptsBounded | utils/localman-results.ts:206-224 | no waiter makes more than 202 attempts |
| ReportAppend.HeldLockWaits | utils/localman-results.ts:209-223 | an attempt that finds the lock held is followed by another after 50 ms, unless 10 seconds have passed since the first |
| ReportAppend.SleeperTriesAgain | utils/localman-results.ts:209-223 | a waiter whose pause is over tries the lock again, and one whose pause is not over does nothing |
| ReportAppend.SleeperAppends | utils/localman-results.ts:176-231 | a waiter whose pause is over and whose lock is free appends its record in its next undisturbed steps |
| ReportAppend.FinalizeAppends | utils/localman-results.ts:115-182 | a worker that finds the report there, and nobody else at it, appends its record |
| ReportAppend.FinalizedOnce | utils/localman-results.ts:115-120 | a second call of finalize changes nothing |
| ReportAppend.ThrowsOnlyWhen | utils/localman-results.ts:184-249 | in every run a worker throws only after a faulty call, a corrupt report, or a lock still held more than 10 seconds after its first try |
| ReportAppend.StepExclusive | utils/localman-results.ts:206-231 | every step keeps at most one worker between taking and releasing the lock |
| ReportAppend.StepLossless | utils/localman-results.ts:115-249 | every step keeps the report equal to what its committed turns wrote |
| AuthState.LoginsNeverOverlap | utils/auth.ts:62-79 | two logins are never in progress at once |
| AuthState.AtMostOneLogin | utils/auth.ts:66-76 | while the saved state stays usable at the second check, at most one login completes |
| AuthState.TrustWindowIsUsable | utils/auth.ts:300-318 | a run that ends within the trust window keeps the saved state usable, whatever the profile page does |
| AuthState.OneLoginPerTrustWindow | utils/auth.ts:62-79 | so such a run logs in at most once |
| AuthState.ExpiredTrustLogsInTwice | utils/auth.ts:316-344 | one millisecond past the window, a failing profile page leads to a second login |
| AuthState.OneLoginIff | utils/auth.ts:62-79 | starting without a saved state, every run of at most a given length logs in at most once iff that length is within the trust window or there is at most one worker |
| AuthState.AttemptsBounded | utils/auth.ts:386-406 | no waiter makes more than 122 attempts |
| AuthState.ReturnsComplete | utils/auth.ts:66-78 | in every run, a worker that comes back through the lock leaves a complete saved state |
| AuthState.LockedCheckIff | utils/auth.ts:300-344 | the check under the lock spares the login iff the saved state is there, complete, at most 8 hours old, and either at most 15 minutes old or good enough to open the profile page |
| AuthState.LoginSaves | utils/auth.ts:346-370 | a login that succeeds saves a complete state of that moment, and one that fails leaves the file and makes the worker throw; the lock is released in both cases |
| AuthState.HeldLockWaits | utils/auth.ts:390-405 | an attempt that finds the lock held is followed by another after 250 ms, unless 30 seconds have passed since the first |
| AuthState.SleeperTriesAgain | utils/auth.ts:390-405 | a waiter whose pause is over tries the lock again |
| AuthState.SleeperComesBack | utils/auth.ts:66-78 | a waiter whose pause is over and whose lock is free comes back with a complete saved state, undisturbed |
| AuthState.ThrowsOnlyWhen | utils/auth.ts:386-412 | in every run a worker throws only after a failed mkdir, a failed login, or a lock still held more than 30 seconds after its first try |
| LiveCapsule.NeverSendsToContacts | pages/inssa/time-capsule.page.ts:2006-2106 | against any page, no send-to-contacts button is clicked, and success is reported only with strong evidence |
| LiveCapsule.ClicksAtMostOnce | pages/inssa/time-capsule.page.ts:2006-2106 | when clicked labels read back non-blank, at most one click, at most 181 passes, and then the loop has ended |
| LiveCapsule.ClicksOnceIff | pages/inssa/time-capsule.page.ts:2403-2429 | no page whose share buttons read back as a given text gets a second click, iff that text is not made of blanks |
| LiveCapsule.SafeIsNotSend | pages/inssa/time-capsule.page.ts:2431-2433 | no label is both a safe follow-up and a send-to-contacts action |
| LiveCapsule.AmpPhraseIff | pages/inssa/time-capsule.page.ts:61-62 | a phrase with an ampersand is its two sides around one, with any white space beside it |
| LiveCapsule.PassesRecord | pages/inssa/time-capsule.page.ts:2006-2106 | no two adjacent recorded snapshots are equal, and a success carries strong evidence |
| LiveCapsule.FoundIff | pages/inssa/time-capsule.page.ts:2021-2038 | evidence is reported iff a pass that takes place sees it and it has one of the seven marks |
| LiveCapsule.FailedIff | pages/inssa/time-capsule.page.ts:2021-2106 | the wait fails iff time runs out, or a pass without marks finds no single action where it needs one, or its click throws |
| LiveCapsule.GoesOn | pages/inssa/time-capsule.page.ts:2041-2105 | a pass that goes on has clicked the share action, or the one follow-up, and remembers its label, or has paused |
| LiveCapsule.ChosenMeans | pages/inssa/time-capsule.page.ts:2062-2075 | the follow-ups on offer are the safe labels, each once, less Cancel, and less Continue while contacts can be selected |
| LiveCapsule.ShareEvidenceWait.Wait | pages/inssa/time-capsule.page.ts:2006-2106 | the loop over the local variables ends in the state that the passes reach: with the evidence of a pass that saw a mark, or with a failure iff some pass fails; with at most one click when labels read back, and no send-to-contacts click |
| ShareStep.ShareReadySound | pages/inssa/time-capsule.page.ts:1194-1262 | against any page: at most min(2, maximum) clicks on Next, each when the latest recorded state shows no final action; no equal adjacent states; at most 121 looks; success only when the last state's sole final action is Bury and no recorded state is ambiguous |
| ShareStep.SucceedsIff | pages/inssa/time-capsule.page.ts:1194-1262 | the controller succeeds iff its first look shows Bury alone, or nothing final and it gets to the share step: by waiting there, or by pressing Next within the maximum and seeing the media, then Bury, in time |
| ShareStep.WaitForIff | pages/inssa/time-capsule.page.ts:1144-1192 | a wait succeeds iff some look is the first to show its goal, every look until then being in time and unambiguous, and then with that look |
| ShareStep.CandidatesMean | pages/inssa/time-capsule.page.ts:999-1029 | the final actions of a look are the trimmed non-empty names that the pattern matches, each as often as shown |
| ShareStep.NoFinalAction | pages/inssa/time-capsule.page.ts:1100-1119 | a state that passed the ambiguity test shows Bury alone or no final action |
| ShareStep.WaitForSound | pages/inssa/time-capsule.page.ts:1144-1192 | a polling helper clicks nothing, records no ambiguous state, and returns only a state that meets its goal |
| ShareStep.ToShareSound | pages/inssa/time-capsule.page.ts:1228-1262 | the last advance clicks at most once more, within the maximum, and returns only a state that shows Bury |
| ShareStep.Advance.WaitUntil | pages/inssa/time-capsule.page.ts:1144-1192 | the polling loop over the shared snapshots array does what the specification does |
| ShareStep.Advance.Run | pages/inssa/time-capsule.page.ts:1194-1262 | the controller on its arrays and counters reaches the specified result, within its clicks and with Bury alone |
| SessionReady.PrepImpliesPage | utils/inssa-safe-session.ts:59-77 | for all storage, the preparation's verdict implies the auth page's check |
| SessionReady.PageImpliesComplete | pages/inssa/auth-page.ts:71-106 | for all storage, the auth page's check implies a complete session |
| SessionReady.PrepIsStricter | utils/inssa-safe-session.ts:64-71 | the first implication is strict: a later matching entry overwrites the profile verdict |
| SessionReady.PageIsStricter | utils/auth.ts:372-384 | the second implication is strict: another account's numeric email makes the page's check throw |
| SessionReady.ChecksAgree | utils/auth.ts:372-384 | the three agree when the profile and account entries parse, account emails are text or absent, and at most one entry matches |
| SessionReady.ReadyHasAccount | utils/auth.ts:372-384 | whatever passes a check holds an account entry with the requested email but for letter case, a uid, and a profile of the same uid |
| SessionReady.OneAccountIsReady | utils/inssa-safe-session.ts:60-74 | a session of one account, the requested one in whatever case, with its profile passes all three checks |
| SessionReady.CaseDoesNotMatter | pages/inssa/auth-page.ts:91-101 | the letter case of the requested email does not matter to any check |
| SessionReady.EvaluateIdentity | utils/inssa-safe-session.ts:60-74 | the loop over local storage leaves the flags of the specification, also when an entry throws midway |
| SafeSession.Preparation.Prepare | utils/inssa-safe-session.ts:22-102 | whichever step fails, the last write included: the call returns iff no step failed, some poll matched, nothing forbidden was seen while the context was open, and the report was written; the state file exists iff the status is PASS; no temporary file stays; the reported cause is one that happened, in the stage in which the first step failed; and the identity flags are those of the last evaluation, or false before any |
| SafeSession.Preparation.Guard | utils/inssa-safe-session.ts:39-53 | the home and seed flags only go from false to true |
| SafeSession.Preparation.PollIdentity | utils/inssa-safe-session.ts:59-77 | polling ends at the first matching evaluation and leaves the flags of the last one |
| SafeSession.PollEndMeans | utils/inssa-safe-session.ts:59-77 | polling succeeds iff some evaluation matches, and then both identity flags are set |
| SafeSession.PrepareThenRead | utils/inssa-safe-session.ts:22-116 | after a preparation that returns, a read accepts iff the captured session is complete; after one that rejects, it accepts iff only the report's writing failed, leaving an old report that certifies, and the captured session is complete |
| UrlEncoded.DecodeEncode | utils/inssa-test-data.ts:144-154 | UTF-8 decoding undoes encoding for every text of Unicode scalar values |
| UrlEncoded.PercentRoundTrip | utils/inssa-test-data.ts:144-154 | percent-decoding after plus-to-space undoes the serializer's escaping, for all bytes |
| UrlEncoded.ParsePairRoundTrip | utils/inssa-test-data.ts:144-154 | one serialized pair parses back and contains no separator |
| UrlEncoded.ParseSerialize | utils/inssa-test-data.ts:144-170 | parsing what was serialized gives back every list of pairs, in order |
| UrlEncoded.EscapeMeans | utils/inssa-test-data.ts:144-154 | a letter, a digit or one of `*-._` is kept, a space becomes a plus sign, and any other byte is written with two upper-case hexadecimal digits |
| UrlEncoded.EscapeAlphabet | utils/inssa-test-data.ts:144-154 | a serialized text holds nothing but those bytes, the percent sign and the plus sign |
| ComposeRoute.RouteRoundTrip | utils/inssa-test-data.ts:144-179 | for every location, the built route reads back as the trimmed address and place; the subject is the place or else the address, and the message names the subject, with the address in brackets when it adds something |
| ComposeRoute.QueryOfRoute | utils/inssa-test-data.ts:144-165 | the query component of the built route is the serialized parameters, whatever they contain |
| ComposeRoute.RouteKeepsAll | utils/inssa-test-data.ts:144-154 | address, latitude, longitude, place and place id are read back from the route under their own names |
| ComposeRoute.RoutesDiffer | utils/inssa-test-data.ts:144-154 | equal routes come from equal addresses, coordinates, places and place ids |
| MigrationBatch.RestartsHandleEachOnce | dashboard/scripts/evidence-migrate-spaces.ts:48-66 | however often a run ends early, between bundles or inside one, and is restarted with the printed cursor: the bundles passed are the first of the stable order, each once; one is skipped iff it was blocked or planned at the start or a run ended inside it after planning, dropped from the listing iff a run ended inside it after the switch, and migrated otherwise; no run's bytes exceed the limit |
| MigrationBatch.FailuresMean | dashboard/lib/inssa-ops/evidence-migration.ts:116-161 | the migrations inside which a run ended are those that some run's stop names |
| MigrationBatch.EndingInsideDecides | dashboard/lib/inssa-ops/evidence-migration.ts:116-161 | a bundle inside which a run ended is migrated, skipped or gone at the next run, as it was not yet planned, planned or switched |
| MigrationBatch.NextCandidates | dashboard/scripts/evidence-migrate-spaces.ts:49-50 | the next page starts right behind the bundles passed, although switched bundles leave the listing and the cursor lags behind a dropped one |
| MigrationBatch.RunProgresses | dashboard/scripts/evidence-migrate-spaces.ts:51-62 | a run with time for a bundle makes progress iff the next one is protected, or fits the limit alone and validates |
| MigrationBatch.StuckBefore | dashboard/lib/inssa-ops/evidence-migration.ts:98-116 | no run ever gets past a bundle that is neither protected nor acceptable |
| MigrationBatch.UnsoundBundleStops | dashboard/lib/inssa-ops/evidence-migration.ts:36-49 | the failing input: one unblocked bundle whose snapshot does not validate stops every run and the cursor never moves |
| MigrationBatch.FinishesIff | dashboard/scripts/evidence-migrate-spaces.ts:51-66 | restarts get through all candidates iff each is protected, or fits the limit alone and validates; then one unhurried run per bundle is enough |
| MigrationBatch.DryRunPredictsIff | dashboard/scripts/evidence-migrate-spaces.ts:34-62 | on one page, with ledger sizes as inspected, the migrated ids are the dry run's eligible ids before its first byte-limit mark iff before that mark no eligible bundle follows one refused without being blocked or planned, and none comes when the selected bytes already equal the limit |
| MigrationBatch.ZeroBytesSurprise | dashboard/scripts/evidence-migrate-spaces.ts:60-62 | an input for the last condition: the budget is used up exactly and a bundle of no bytes follows |
| MigrationBatch.PageBytes | dashboard/scripts/evidence-migrate-spaces.ts:50-62 | the bytes of a page never exceed the limit when migrations record no more than was inspected |
| MigrationBatch.UsedIsRecorded | dashboard/scripts/evidence-migrate-spaces.ts:60-62 | a batch's bytes are those that its migrations have recorded |
| MigrationBatch.ReportsMean | dashboard/scripts/evidence-migrate-spaces.ts:37-44 | each report is about its bundle, and its reason is a failed validation before an existing migration before a block before the byte limit, exactly |
| MigrationBatch.ExecuteRun.MigrateEvidence | dashboard/lib/inssa-ops/evidence-migration.ts:98-161 | with what is left of the budget a bundle is rejected unplanned, or its run ends inside it at some depth, or it is migrated |
| MigrationBatch.ExecuteRun.Run | dashboard/scripts/evidence-migrate-spaces.ts:50-66 | the execute loop, with its `continue`, `break` and exceptions, leaves the ledgers, bytes and cursor of the specification |
| MigrationBatch.DryRunPage | dashboard/scripts/evidence-migrate-spaces.ts:35-45 | the selection loop, where a later test overwrites an earlier reason, reports as specified |
| Scheduler.SingleFlight | dashboard/scripts/inssa-scheduler.ts:43-54 | at most one maintenance task is in flight at any point of any run |
| Scheduler.RetriedOnlyAfterNotDue | dashboard/scripts/inssa-scheduler.ts:44-53 | an occurrence is launched again only after a NOT_DUE answer in between |
| Scheduler.LaunchedIff | dashboard/scripts/inssa-scheduler.ts:43-54 | after an evaluation, maintenance starts iff it is due, enabled, not running, and not the last one attempted |
| Scheduler.DueIsLaunched | dashboard/scripts/inssa-scheduler.ts:43-54 | in every run with maintenance enabled, a due occurrence never launched before is launched, unless a task runs |
| Scheduler.SleepsIff | dashboard/scripts/inssa-scheduler.ts:55-58 | after an evaluation the loop sleeps unless it is to run once or to stop; an evaluation that throws ends it |
| Scheduler.WakesToEvaluate | dashboard/scripts/inssa-scheduler.ts:55-79 | after the timer the next evaluation begins, unless a stop was requested |
| Scheduler.StopsCleanly | dashboard/scripts/inssa-scheduler.ts:57-61 | no task is in flight when the stop is recorded, and nothing is launched or evaluated after it |
| Scheduler.StopIsNeverLost | dashboard/scripts/inssa-scheduler.ts:55-85 | after a stop request the loop never waits for its timer, and no further evaluation begins once there has been one |
| Scheduler.StopReachesEnd | dashboard/scripts/inssa-scheduler.ts:57-85 | with a stop requested and no task in flight, three completions of awaited calls end the process |
| Scheduler.Process.OnEvaluated | dashboard/scripts/inssa-scheduler.ts:38-56 | from an evaluation to the next await, the module's variables change as specified |
| Scheduler.Process.RequestStop | dashboard/scripts/inssa-scheduler.ts:81-85 | a signal sets the flag and wakes a sleeping loop |
| Scheduler.Process.OnConcluded | dashboard/scripts/inssa-scheduler.ts:49-52 | a maintenance result is handled as specified, clearing the attempted occurrence only for NOT_DUE |
| ErrorGate.GateDecides | utils/auth.ts:164-207 | with a lifecycle context the gate passes iff no critical console or page error exists and every failed request is downgraded; without one, iff nothing is critical |
| ErrorGate.GateIff | utils/auth.ts:164-207 | the gate passes iff no page error is left that is not ignored, no console message that is neither ignored nor noise, and no failed request that is neither, or that its lifecycle does not downgrade; pattern by pattern |
| ErrorGate.PageErrorFails | utils/inssa-noise.ts:104-110 | an uncaught page error that no pattern ignores fails the gate, with and without a lifecycle context |
| ErrorGate.CriticalIff | utils/inssa-noise.ts:93-215 | an issue is critical iff it is neither ignored nor noise, by the listed patterns and resource types |
| ErrorGate.ImpactIff | utils/inssa-noise.ts:276-390 | which failed requests are downgraded, before and after the lifecycle has succeeded |
| ErrorGate.KeyDeterminesKind | utils/auth.ts:266-275 | equal newline-joined keys mean equal kinds, whatever newlines the parts contain |
| ErrorGate.ExcusedAreFailures | utils/auth.ts:174-188 | the excused keys are those of failed requests and of nothing else |
| ErrorGate.DowngradeIsMonotone | utils/inssa-noise.ts:259-390 | more success evidence never turns a warning into a fatal |
| ErrorGate.GateIsMonotone | utils/auth.ts:164-207 | a run that passes the gate still passes with more success evidence |
| ErrorGate.UnprovenDowngrades | utils/inssa-noise.ts:276-390 | before the lifecycle is proven, only telemetry and channel noise other than a write is downgraded |
| LifecycleNetwork.SeparateIdsStayOut | utils/inssa-lifecycle-network.ts:89-116 | an id is in the summary iff an event of another endpoint carried it, and the same holds of the ids given to the callback |
| LifecycleNetwork.SummaryOfConcat | utils/inssa-lifecycle-network.ts:280-323 | the summary of two logs in a row is the sum of the counts and the sorted union of each list |
| LifecycleNetwork.CountsOfOne | utils/inssa-lifecycle-network.ts:284-321 | in which counts a single event appears |
| LifecycleNetwork.EventsPartition | utils/inssa-lifecycle-network.ts:284-319 | requests, responses and failures add up to the log |
| LifecycleNetwork.UniqueListsSet | utils/inssa-lifecycle-network.ts:532-534 | the list of unique strings is ascending by UTF-16 code unit, has no repetition, and holds exactly the non-empty values |
| LifecycleNetwork.UniqueOfConcat | utils/inssa-lifecycle-network.ts:532-534 | the unique strings of a concatenation are those of the two lists of unique strings |
| LifecycleNetwork.Monitor.RecordObservation | utils/inssa-lifecycle-network.ts:89-100 | the log stays the recorded form of the events, and the callback receives exactly the logged document ids |
| ScaleSearch.SearchIsExactIff | utils/localman-scale.ts:376-399 | every five-digit number finds exactly its own vendor iff there are at most 99,999 vendors |
| ScaleSearch.OnlyOwnNumber | utils/localman-scale.ts:308-355 | up to 99,999, a five-digit text occurs in a vendor's searchable text iff it is that vendor's number |
| ScaleSearch.SixDigitsContainFive | utils/localman-scale.ts:315-328 | vendor 100,000 is also found by the number of vendor 10,000 |
| ScaleSearch.TextHasThreeNumbers | utils/localman-scale.ts:385-399 | the searchable text is the number three times between texts around it |
| ScaleSearch.IdsAndSlugsDistinct | utils/localman-scale.ts:519-521 | ids and slugs are pairwise distinct at every size |
| Dashboard.RowsAreFirstLatest | dashboard/lib/localman-dashboard.ts:137-148 | one row for each test, holding the first among the latest of its results |
| Dashboard.LatestResultsByTest | dashboard/lib/localman-dashboard.ts:137-148 | the loop over the map returns those rows in first-seen order |
| Dashboard.FlakyTests | dashboard/lib/localman-dashboard.ts:150-164 | a test is flaky iff it has both failed and not failed |
| Dashboard.PayloadTotals | dashboard/lib/localman-dashboard.ts:72-113 | the status counts, the feature counts and the feature flaky counts each add up to the overview, whose total is the number of tests |
| Dashboard.CountsMean | dashboard/lib/localman-dashboard.ts:80-87 | which status each count of the overview counts |
| Dashboard.HealthMeans | dashboard/lib/localman-dashboard.ts:89-101 | a feature's count, flaky count, score and status are those of its own rows; it fails iff one of them fails, and is slow iff none fails and one is slow |
| Dashboard.RowsWorstFirst | dashboard/lib/localman-dashboard.ts:76-78 | of two rows the earlier has the worse status, or the same and no earlier timestamp |
| Dashboard.GetPayload | dashboard/lib/localman-dashboard.ts:72-113 | the payload is the specified one, with a row flaky iff its test has both failed and not failed |
| Dashboard.RowsInOrder | dashboard/lib/localman-dashboard.ts:76-78 | the rows are a permutation of the latest results in comparator order, ties in first-seen order |
| Dashboard.FullScoreIff | dashboard/lib/localman-dashboard.ts:200-219 | a non-empty feature scores 100 iff its rows number at least 60 for each slow and 200 for each failed one |
| Dashboard.FullScoreIsPassing | dashboard/lib/localman-dashboard.ts:184-207 | a passing feature scores 100, and below 60 rows a score of 100 means passing |
| CleanupTracker.ReplayIsLastWriteWins | utils/inssa-cleanup.ts:50-61 | after any sequence of stores the list is the last-write-wins map by kind and key, in first-insertion order |
| CleanupTracker.LastMarkDecides | utils/inssa-cleanup.ts:63-129 | each artifact shows the status and subject of the last mark about its kind and key |
| CleanupTracker.MarkStores | utils/inssa-cleanup.ts:63-129 | what each kind of mark stores, and under which kind and key |
| CleanupTracker.SummaryCounts | utils/inssa-cleanup.ts:130-143 | which artifacts the summary counts as discarded, stale and deleted |
| CleanupTracker.SummaryAfterMarks | utils/inssa-cleanup.ts:63-159 | after any marks an artifact is verified iff it is a discarded draft, deleted capsules are 0, and pending counts the capsules and the drafts last marked opened |
| CleanupTracker.Tracker.UpsertArtifact | utils/inssa-cleanup.ts:50-61 | the array updated in place stays the replay of all stores |

## Left out

- Requests that the audit forwards without a look inside (reads, Listen posts, allowed dependencies) are assumed to carry no Firestore write.
- A completed login is assumed to save a complete session.
- The due occurrence of the maintenance is assumed never to decrease.
- The removals in the `finally` of the preparation are assumed to succeed.
- The text of an audit record (endpoint, collection, field names, time): only its request, classification and verdict are kept.
- The body shapes of telemetry and map requests outside Firestore: the verdict of `classifySafeDependency` is a parameter of the request.
- Field paths with dots or backquotes, and `updateTime` preconditions, in the server model: an allowed write has neither.
- Token claims that are not text: a token whose `sub` or `aud` is not text counts as unreadable; the token of a session is not kept apart from its account.
- `route.continue`, `route.abort` and `unroute` that throw.
- Lower-casing beyond ASCII, and white space beyond what `Text.IsSpace` lists.
- Crashes that leave a stale lock directory, a failing removal of one, and a `writeFile` that fails after truncation.
- Timers that fire early: each pause is assumed to last at least as long as requested.
- ReportAppend.AppendsSurvive: says nothing of the file's content between the truncation and the completion of a write; whoever reads it for an append holds the lock, so no append starts from such a content.
- Page text and locators: snapshots are arbitrary values, and the patterns that decide the controllers' branches are predicates except where a property is about the text.
- The texts of the controllers' errors and the fields of a snapshot that no branch reads.
- LiveCapsule.ClicksAtMostOnce: assumes that a clicked label reads back non-blank; `ClicksOnceIff` shows that some such assumption is needed.
- LiveCapsule.NeverSendsToContacts: assumes that a query for a button by its exact name returns a button of that name, upper or lower case.
- URL parsing beyond the split into path, query and fragment; arbitrary routes are read only as far as the query; lone surrogates do not occur in the text type.
- The verify, copy-only, rollback, resume and single-bundle modes of the migration command, and what a migration copies and verifies between planning and switching.
- Changes to the candidates from outside while a batch is being restarted; each page is a page of the same stable order, less what the runs themselves have switched.
- What happens inside `executeRetention`, its abort signal, the scheduler's evaluation and its store.
- The labels and reasons a network or console issue receives: only its impact or severity is kept.
- `classifyInssaLifecyclePersistence`, `getInssaMutationReadiness` and similar tables of booleans.
- The regular expressions that extract ids, tokens and collection paths: an observation arrives with its lists.
- LifecycleNetwork.Monitor.RecordObservation: the two debug fields are one flag, and the console line of a debug run is absent.
- Vendor fields that no search or identity reads, name prefixes and version tags other than the default.
- Average load times and error lists of dashboard rows; a timestamp is its place in the order that `localeCompare` gives.
- Artifact notes are one text, and the draft-discard loops of the cleanup helpers, which repeat page actions.
- Asset, latency and mixed-content monitors, the worker, the React components and the load scripts.
