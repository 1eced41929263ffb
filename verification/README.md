# Verified model of the archive backend

A Dafny model of the parts of the document-archive backend whose correctness depends on
several components agreeing: the durable task queue in Postgres, the files in object storage,
the access-rule store, and the template schemas with their cache and upload quotas.

- **Task outbox.** `OutboxTable` holds the rows of `task_outbox` and every SQL statement on them
  as a function from table to table. `Dispatcher` is `TaskDispatcher` as a class over a database
  and a bounded channel. `OutboxProtocol` lets any number of dispatchers, pumps, workers and
  crashes act on one table in any order; `LostClaims` follows a claim whose holder is gone;
  `OutboxJobs` shows that the protocol refines a set of jobs that are Todo, Done or Dead;
  `DispatcherRuns` shows that the dispatcher's calls are runs of it. `CommandRunner` has the
  resumable bulk delete, the retry loop and the task handler, `WorkerPool` the worker loop of
  `TaskManager`, and `WorkerRuns` that loop as part of a protocol run.
- **Files.** `ObjectStorage` is the bucket, `ArchiveFiles` how a record's files are found and
  copied, `ArchiveHandlers` the creation and deletion of records with every way it can fail,
  `S3Cleanup` the periodic sweep, `AvatarKeys` the keys of avatars. `Reconciliation` is the
  protocol of creates, deletes, compensations and sweeps over one database and one bucket;
  `ArchiveRuns` and `SweepRuns` show that the handlers and the sweep are runs of it.
  `Enrichment` replaces file ids by URLs in an answer.
- **Access rules.** `LikePatterns` is SQL LIKE, `AccessRules` the rule store and its meaning,
  `RouteListing` the routes a user is shown, `RuleRegistry` granting against the registered
  routes.
- **Schemas.** `SchemaFields` writes and reads file fields of a JSON Schema document,
  `SchemaCache` keeps compiled schemas, `CacheLoads` is about loads that take two steps,
  `UploadQuota` counts uploads down.

`Clock`, `Collections`, `Errors`, `Json`, `ObjectKeys` and `Wrappers` are shared.
`dafny verify dfyconfig.toml` checks the project.

What the model assumes: one SQL statement, one Redis script and one S3 request are atomic;
the program, Postgres and S3 read one clock, in microseconds; ids handed out by the database or
drawn at random are never handed out twice; S3 reports every key of a successful DeleteObjects
request as deleted or as failed.

Where the code does less than one would expect, the model follows the code, shows it with a
concrete run or input, and proves the exact condition:

- a holder that outlives the running timeout lets a row be claimed twice
  (`LateHolderIsClaimedTwice`; `ReclaimIsSafeIffPunctual` is exact) and a dead row come back to
  life (`LateHolderRevivesDeadRow`; `FinalJobChangesIffRevived` is exact, and `DoneStaysDone`
  says that a finished job never does);
- a create that commits when the sweep would already list its copy can lose the file
  (`CommitWithinMinAgeCanDangle`, `LateCommitDangles`; `CommitIsSafeIffNotOldEnough` is exact);
- a create can answer with an error and leave its record stored, since a commit can fail after
  it took effect and two steps follow it (`CreateArchiveRecord` in `ArchiveHandlers`;
  `StoresRecord` is exact);
- `_` in a stored access pattern is a wildcard, so a grant can be refused as already covered
  although it is not (`WildcardConflictIsNotUnion`), if and only if two patterns under
  registered routes collide (`WrongRefusalIffCollision`); this program's routes never do
  (`RefusalIsUnionInThisProgram`);
- a listed route is refused in the very instant its rule expires (`ListedButRefusedAtExpiry`;
  `AdmittedIff` and `AdmittedIffListedLive` are exact);
- a schema load that straddles an update and its cache clearing leaves a stale entry until the
  next clear of that template, restart or insert by another such load (`StraddlingLoadIsStale`,
  `EntryStays`; `LoadKeepsCoherenceIff` is exact: it counts changes and clears between the
  load's two steps);
- the guard against self-defined file fields looks for the keyword `x-config-file`, while writer
  and reader use `x-file-config`, so it passes or refuses a schema whatever file fields that
  holds (`GuardMissesFileFields`, `PassingSaysNothingOfFileFields`).

## Model

| member | source | states |
|---|---|---|
| OutboxTable.LowestIsUnique | src/tasks/dispatcher.rs:59-67 | only one set of rows can be the batch_size lowest due ids, so a pump has no choice of rows |
| OutboxTable.FirstIdsAreLowest | src/tasks/dispatcher.rs:59-67 | ORDER BY id with LIMIT yields exactly the lowest ids, each once |
| OutboxTable.PutBackWaits | src/tasks/dispatcher.rs:308-330 | a row put back is due at a time if and only if the given number of seconds has passed since then; its payload, attempts and last error are kept |
| OutboxTable.ReclaimTells | src/tasks/dispatcher.rs:212-240 | exactly the Running rows untouched for longer than the timeout are due from now on, with the note appended to their last error; all others stay as they were |
| Dispatcher.Database.ClaimBatch | src/tasks/dispatcher.rs:56-81 | claims exactly the lowest due Pending ids, each once, and returns each with its stored payload |
| Dispatcher.TaskDispatcher.Submit | src/tasks/dispatcher.rs:30-49 | the command is stored under a fresh id with no attempts; with room in an open queue the row is Running and the queue's last entry carries it, otherwise it waits and is due from now on |
| Dispatcher.TaskDispatcher.TryEnqueue | src/tasks/dispatcher.rs:251-306 | row and queue change together or not at all, and they change exactly when a slot is free and the row is Pending |
| Dispatcher.TaskDispatcher.PumpOutboxOnce | src/tasks/dispatcher.rs:51-119 | a pump accounts for every claim: each picked row is exactly one of Running with one new queue entry, Dead as undecodable with its attempt counted and its complaint noted, or waiting and due again in exactly one second; rows are put back only when the queue is full or closed; the result counts the new entries and the queue never exceeds its capacity |
| Dispatcher.TaskDispatcher.DispatchRows | src/tasks/dispatcher.rs:86-111 | the pump's loop settles the claimed rows up to the first one without a slot and leaves the rest as claimed |
| Dispatcher.TaskDispatcher.RecoverOutboxTasks | src/tasks/dispatcher.rs:181-210 | recovery reclaims, then hands over the due rows in order of id up to the first undecodable one, as far as slots go; every row keeps payload and attempts, and only stale or due rows change |
| Dispatcher.TaskDispatcher.OfferRows | src/tasks/dispatcher.rs:200-204 | the recovery loop claims and enqueues exactly the leading decodable rows that find a slot |
| Dispatcher.TaskDispatcher.PullOutboxTasks | src/tasks/periodic/outbox_pull.rs:5-23 | a pull is a pump on the table as reclaiming left it |
| Dispatcher.FateIsUnique | src/tasks/dispatcher.rs:90-116 | the three fates of a claimed row cannot be confused; they leave Running, Dead and Pending rows |
| Dispatcher.DueRowsDrain | src/tasks/dispatcher.rs:51-119 | with free slots, a fixed clock and no other actor, each pump takes batch_size rows off the due set |
| Dispatcher.DrainTakesCeilingPumps | src/tasks/dispatcher.rs:51-119 | n due rows are gone after exactly ceil(n / batch_size) pumps and not before |
| OutboxProtocol.StepKeepsClaimsExclusive | src/tasks/dispatcher.rs:212-306 | every protocol step, punctual where it reclaims, keeps at most one holder per row and every held row Running |
| OutboxProtocol.ClaimsStayExclusive | src/tasks/dispatcher.rs:51-306 | exclusive claim over every run of any number of dispatchers in which holders let go in time |
| OutboxProtocol.ReclaimIsSafeIffPunctual | src/tasks/dispatcher.rs:212-240 | a reclaim keeps claims exclusive if and only if no holder is late |
| OutboxProtocol.StepLosesNothing | src/tasks/handler/default_handler.rs:52-104 | every step, crashes and late holders included, keeps each submitted id a row or performed |
| OutboxProtocol.AtLeastOnce | src/tasks/handler/default_handler.rs:52-104 | the same over every run |
| OutboxProtocol.EveryJobKeptOrPerformed | src/tasks/handler/default_handler.rs:52-104 | from a start, an id ever inserted is still a row or a run of its own command returned Ok |
| LostClaims.LostRowStaysIffNotReclaimed | src/tasks/dispatcher.rs:212-306 | a Running row that nobody holds is left alone by every step of anybody, except by a reclaim that finds it stale |
| LostClaims.LostRowWaitsForReclaim | src/tasks/dispatcher.rs:212-240 | over every legal run such a row either is at the end what it was, and still nobody's, or some step was a reclaim that found it unchanged and stale |
| LostClaims.LostRowComesBack | src/tasks/dispatcher.rs:212-240 | whatever happens before, the first reclaim after the timeout at the latest makes it Pending and due with its payload |
| LostClaims.LostClaimComesBack | src/tasks/dispatcher.rs:212-240 | so does every claim of an exclusive state whose holder vanishes, alone or with others (crash, failed update, entries left in a stopped queue) |
| OutboxJobs.StepRefinesJobStep | src/tasks/dispatcher.rs:121-179 | each protocol step is one move, or none, of the Todo/Done/Dead job machine |
| OutboxJobs.FinalJobsStayFinal | src/tasks/dispatcher.rs:121-179 | Done and Dead are final on every punctual run |
| OutboxJobs.FinalJobChangesIffRevived | src/tasks/dispatcher.rs:121-171 | with or without punctual holders, a step changes a final job if and only if its row is still there and a late holder puts it back, requeues it or deletes it |
| OutboxJobs.DoneStaysDone | src/tasks/dispatcher.rs:121-171 | Done is final on every run, punctual or not: only a Dead job can come back |
| OutboxJobs.LateHolderIsClaimedTwice | src/tasks/dispatcher.rs:212-240 | without the timeout hypothesis a row can have two holders: a concrete run |
| OutboxJobs.LateHolderRevivesDeadRow | src/tasks/dispatcher.rs:121-171 | and a Dead row can become Pending, because the finishing updates have no status guard: a concrete run |
| DispatcherRuns.PumpIsProtocolRun | src/tasks/dispatcher.rs:51-119 | what one pump does to table and queue is a legal protocol run that ends in its table and one queued holder per new entry |
| DispatcherRuns.SubmitIsProtocolRun | src/tasks/dispatcher.rs:30-49 | so is a submit |
| DispatcherRuns.PullIsProtocolRun | src/tasks/periodic/outbox_pull.rs:5-23 | so is a pull: a reclaim, then a pump |
| DispatcherRuns.RecoverIsProtocolRun | src/tasks/dispatcher.rs:181-210 | so is recovery: a reclaim, then offer, claim and send for each leading decodable row with a slot; it ends in the table of recovery's contract |
| DispatcherRuns.HandleIsProtocolRun | src/tasks/handler/default_handler.rs:41-110 | so is handling a queue entry, with any time passing before the command ends and before its row is finished |
| CommandRunner.SameCodesRetryAlike | src/tasks/handler/command/delete_archive_objects_command.rs:25-112 | a per-key failure and a whole-request error with the same code are retried alike, except that only a failure without a code is retried |
| CommandRunner.RetriedErrors | src/tasks/handler/command/delete_archive_objects_command.rs:60-112 | of whole-request errors exactly construction failures, service codes outside the six passing ones, and texts naming a permanent cause are not retried |
| CommandRunner.ErrorCategories | src/tasks/handler/command/delete_archive_objects_command.rs:60-112 | which errors each category stands for |
| CommandRunner.AttemptIsTold | src/tasks/handler/command/delete_archive_objects_command.rs:120-213 | an attempt in terms of S3's verdicts, key by key: Ok if and only if every key is deleted; retryable if and only if some key is refused for a reason that may pass, and then exactly such keys are pending; otherwise, or when a request fails, the pending keys stay and the first failing request's error decides |
| CommandRunner.DeleteArchiveObjectsCommand.Execute | src/tasks/handler/command/delete_archive_objects_command.rs:120-216 | after an attempt every pending key is deleted, dropped as non-retryable, or pending; pending are exactly the keys refused for now, if there are any, so no deleted or dropped key is asked for again; Ok means all are deleted |
| CommandRunner.JudgedKeepsKeys | src/tasks/handler/command/delete_archive_objects_command.rs:131-213 | for every report that names each requested key, or failed request, judging it loses no key |
| CommandRunner.RunWithRetry | src/tasks/handler/command_runner.rs:8-63 | the result is the first outcome that is Ok or not retryable within max_retries + 1 attempts, else the last retryable error; the outcomes are those of consecutive attempts on what is pending; key conservation over all of them; the sleeps are the first backoffs |
| CommandRunner.TranscriptIsRun | src/tasks/handler/command_runner.rs:16-62 | consecutive attempts that obey the loop's rules are the one run determined by S3's answers |
| CommandRunner.RunIsDetermined | src/tasks/handler/command_runner.rs:16-62 | two sequences of attempts from the same start on the same S3 answers that both obey the loop's rules have the same outcomes, so the loop's specification has no freedom |
| CommandRunner.BackoffIsCappedPower | src/tasks/handler/command_runner.rs:13-61 | the first sleep is b, and sleep k is min(b * m^k, max_wait) for every k >= 1 |
| CommandRunner.TotalWaitBound | src/tasks/handler/command_runner.rs:13-61 | n retries sleep at most b + (n - 1) * max_wait |
| CommandRunner.DefaultWaits | src/tasks/models.rs:32-41 | under the defaults the worst total sleep is exactly 181 seconds |
| CommandRunner.Handle | src/tasks/handler/default_handler.rs:41-110 | the row is gone if and only if the run's result is Ok, Pending and due in exactly five seconds if and only if it is a retryable error, Dead if and only if it is a permanent one, with the attempt counted and the error text kept; other rows stay; Ok means every key was deleted or dropped |
| WorkerPool.CommandWorker.Run | src/tasks/manager.rs:120-179 | the loop computes the fold of its turns, so what the lemmas below say of every run holds of the loop |
| WorkerPool.RunsStaySound | src/tasks/manager.rs:132-179 | in every run at most max(1, max_in_flight) tasks are in flight, received equals completed plus in flight, and the loop has ended exactly when stopping with nothing in flight |
| WorkerPool.FreshWorkerRuns | src/tasks/manager.rs:120-179 | from a new worker, at most max_in_flight tasks, or one, are in flight; commands are received in order and each is completed, aborted or in flight |
| WorkerPool.ReceivesBelowBound | src/tasks/manager.rs:132-152 | below that bound a worker that is not stopping takes the next task of the channel |
| WorkerPool.StopsIff | src/tasks/manager.rs:132-152 | a worker starts stopping exactly on the signal, on a closed empty channel, or when aborted |
| WorkerPool.NothingReceivedAfterStop | src/tasks/manager.rs:132-179 | once stopping, nothing is received and the channel keeps its tasks |
| WorkerPool.ElseArmIsNeverTaken | src/tasks/manager.rs:132-179 | in every run, while the loop runs some guard of the select holds, so its else arm is dead and the loop ends by its end-of-turn test or an abort alone |
| WorkerPool.StoppingEnds | src/tasks/manager.rs:132-179 | a stopping worker ends once its tasks have finished, having received nothing more |
| WorkerPool.ShutdownEnds | src/tasks/manager.rs:190-210 | shutdown ends the loop by waiting or by the abort after 30 seconds; every task received was then completed or aborted, and the rest of the channel was never received |
| WorkerRuns.EventKeepsLink | src/tasks/manager.rs:120-179 | through every turn of the worker, every step of its running tasks and every step of other processes, each outbox task in the channel has its own queued holder and each task in flight has let go or has an executing or finished one |
| WorkerRuns.WorkerIsProtocolRun | src/tasks/manager.rs:120-210 | worker, tasks and other processes together are a legal run of the outbox protocol, and the worker's part of it is the loop's run |
| WorkerRuns.TasksLeftComeBack | src/tasks/manager.rs:132-210 | after any such run with timely holders, outbox tasks left in the channel of a worker that goes away have Running rows that nobody holds, which stay so until a reclaim finds them stale and are due again at the first reclaim after the timeout |
| WorkerRuns.AbortedTaskIsLost | src/tasks/manager.rs:196-207 | the abort after 30 seconds leaves the rows of the tasks it cuts off in the same condition |
| ObjectKeys.ArchiveDestKeyIsInjective | src/utils/s3_storage.rs:326-328 | a destination key names exactly one record and one file |
| ObjectKeys.BelongsToOneRecord | src/utils/s3_storage.rs:326-328 | no key belongs to two records |
| ObjectKeys.PrefixesAreDisjoint | src/utils/s3_storage.rs:322-336 | archive, avatar and temporary keys never coincide |
| ObjectStorage.Chunks | src/utils/s3_storage.rs:184-187 | the pieces concatenate to the list, and all but the last have exactly the given size |
| ObjectStorage.AnswerTells | src/utils/s3_storage.rs:176-228 | a bulk delete is Ok if and only if none of its ceil(n / 1000) requests fails, and then reports of each key what S3 says of it in the request that asks for it; otherwise the first failing request gives the error and is the last one made |
| ObjectStorage.Bucket.DeleteObjectsWithReport | src/utils/s3_storage.rs:176-228 | Ok reports every key as deleted or failed, request after request; the first request that fails ends the call with its error, and what earlier ones deleted stays deleted |
| ObjectStorage.Bucket.DeleteObjects | src/utils/s3_storage.rs:153-174 | Ok if and only if S3 deletes every key, in requests of at most 1000 that cut the list exactly |
| ObjectStorage.DeletesAllIff | src/utils/s3_storage.rs:153-174 | S3 deletes every key if and only if no request fails and it says so of each key |
| ArchiveFiles.CollectArchiveObjectKeys | src/modules/archive/service.rs:469-502 | the destination keys of all file ids the data mentions in file fields, each once |
| ArchiveFiles.CollectedKeysBelongToRecord | src/modules/archive/service.rs:469-502 | each key of that list belongs to this record and to no other |
| ArchiveFiles.ListedIsMentioned | src/modules/archive/service.rs:469-502 | the listed keys stand for exactly the ids that some file field's text or array mentions |
| ArchiveFiles.OrderIsIrrelevant | src/modules/archive/service.rs:476-499 | the ids do not depend on the order in which the field map is visited |
| ArchiveFiles.Transaction.ProcessSingleFile | src/modules/archive/service.rs:664-680 | succeeds if and only if the upload is there, its id is free and nothing fails; then exactly one row and its object are added, otherwise no row, and only this file's key may have been written |
| ArchiveFiles.Transaction.CreateFilesRecord | src/modules/archive/service.rs:571-638 | for any field order and any fault, copies go only to keys of wanted ids; it succeeds if and only if every field is acceptable, no id is wanted twice or taken, every upload is there and nothing fails, and then the new file rows are exactly the files the data ask for, each with its object; a validation error names an unacceptable field |
| ArchiveFiles.AcceptableIff | src/modules/archive/service.rs:580-630 | a field passes if and only if an array for several files holds distinct file ids only and a required field asks for some file |
| ArchiveFiles.PlanIsAsked | src/modules/archive/service.rs:580-638 | the ids to store are exactly the ones the data ask for: the one text of a single-file field, every text of the others' arrays |
| ArchiveFiles.PlanIsMentioned | src/modules/archive/service.rs:571-638 | they are among those the data mention in file fields |
| ArchiveHandlers.PlannedKeysAreListed | src/modules/archive/service.rs:469-638 | for any two iteration orders of the field map, every key that is copied is in the list of keys to compensate |
| ArchiveHandlers.CreateArchiveRecord | src/modules/archive/routes.rs:75-176 | the record is stored, and with a session exactly the files its data ask for, if and only if the insert and the body succeeded and the commit took effect; Ok if and only if besides the commit, the session's deletion and the enrichment succeed; otherwise the tables are as before; a compensation is stored exactly when the body failed after keys were listed, names every key written, and never stands beside committed rows |
| ArchiveHandlers.DeleteArchiveRecord | src/modules/archive/routes.rs:362-387 | whichever statement fails, the record and its file rows go together or stay together; objects are touched only after a successful commit, and then each is gone or named by a stored command |
| ArchiveRuns.CreateIsProtocolRun | src/modules/archive/routes.rs:75-176 | whatever the create handler's contract allows is a run of the reconciliation protocol that begins, copies each file at its time, and commits or gives up later; the run is timely if and only if no committed copy is old enough for a sweep at the commit |
| ArchiveRuns.TimelyRunsAreSafe | src/modules/archive/routes.rs:75-176 | so a create in time, or one that stores nothing, leaves no dangling file row |
| ArchiveRuns.DeleteIsProtocolRun | src/modules/archive/routes.rs:362-387 | so is a delete, always timely: the rows go, then some of their objects, and the rest stays doomed |
| Reconciliation.ArchiveTextsAreDistinct | src/utils/s3_storage.rs:326-328 | treating destination keys as pairs loses nothing |
| Reconciliation.StepKeepsInv | src/modules/archive/routes.rs:75-156 | every step of creates, deletes, outbox executions and sweeps keeps the invariant, given that a commit finds its copies not old enough for a sweep |
| Reconciliation.EarlyCommitIsTimely | src/utils/s3_storage.rs:244-276 | committing a whole second before min_age has passed since the copy is always timely |
| Reconciliation.LateCommitDangles | src/tasks/periodic/s3_cleanup.rs:28-86 | from every state in which a copy that is old enough by now can be committed, a sweep around that commit destroys its object |
| Reconciliation.CommitIsSafeIffNotOldEnough | src/utils/s3_storage.rs:244-276 | no run that commits just this copy without delay dangles, if and only if a sweep starting now would not list the copy |
| Reconciliation.FilesNeverDangle | src/tasks/periodic/s3_cleanup.rs:28-86 | the invariant over every timely run |
| Reconciliation.NoDanglingFile | src/tasks/periodic/s3_cleanup.rs:28-86 | on every timely run each committed file row's object is in the store |
| Reconciliation.CommitWithinMinAgeCanDangle | src/utils/s3_storage.rs:244-276 | committing before min_age has passed is not enough, since ages are whole seconds: a concrete run |
| SweepRuns.OrphansAreUnreferenced | src/tasks/periodic/s3_cleanup.rs:36-72 | the archive orphans of a pass are the old keys without a reference |
| SweepRuns.SweepIsProtocolRun | src/tasks/periodic/s3_cleanup.rs:28-86 | a pass nobody interferes with is a protocol run that destroys exactly its orphans |
| S3Cleanup.WalkIsAllPages | src/utils/s3_storage.rs:238-290 | over any pages that S3 serves one after the other by their tokens, the listing consists of exactly the named, old enough entries of all pages; a request that fails anywhere fails it |
| S3Cleanup.ListObjectKeysOlderThan | src/utils/s3_storage.rs:238-290 | the paged loop gives exactly the old keys of all pages, and nothing when a request fails |
| S3Cleanup.OldKeysAre | src/utils/s3_storage.rs:264-277 | a key is kept if and only if its entry has a key and, for a positive age, a timestamp that is old enough |
| S3Cleanup.CleanupOrphanPersistentObjects | src/tasks/periodic/s3_cleanup.rs:10-108 | nothing happens while the lock is held elsewhere or a listing or query fails; when the served pages show all objects, only orphans of the bucket are deleted, and all of them when the pass succeeds; the lock is free again |
| S3Cleanup.PassIsExact | src/tasks/periodic/s3_cleanup.rs:28-86 | with all pages served, a pass is about exactly the bucket's old archive and avatar objects that the database does not reference |
| S3Cleanup.SweepIsExact | src/tasks/periodic/s3_cleanup.rs:28-86 | with complete pages a key is deleted exactly if it is an archive or avatar key, old enough and not referenced; temporary keys never are |
| S3Cleanup.AvatarQueryIsExact | src/tasks/periodic/s3_cleanup.rs:48-59 | the query's expression gives back the object keys of exactly the users that have an avatar |
| S3Cleanup.AvatarIsOrphanIffUnreferenced | src/tasks/periodic/s3_cleanup.rs:48-78 | a referenced avatar is never an orphan; an old one is an orphan if and only if its user has no avatar in the table |
| AvatarKeys.AvatarKeyDecodes | src/modules/user/service.rs:122-156 | the first-dot split always recovers the object key; the sweep's expression does if and only if the extension is not empty |
| AvatarKeys.AcceptedIff | src/modules/user/models.rs:38-53 | the upload accepts exactly the names made of something without a line feed, a dot, and jpg, png or jpeg |
| AvatarKeys.PhotoExtension | src/modules/user/models.rs:38-53 | a file name the upload accepts has jpg, png or jpeg as its extension, or none at all |
| AvatarKeys.PhotoExtensionIs | src/modules/user/service.rs:122-156 | namely the type it ends in, unless only a slash comes before its dot |
| AvatarKeys.AcceptedAvatarKeyDecodes | src/modules/user/service.rs:122-156 | for every accepted file name both the first-dot split and the sweep's expression recover the object key |
| AvatarKeys.TrailingDotIsRejected | src/modules/user/models.rs:38-53 | the check is needed: names ending in a dot, which it rejects, would give keys the sweep does not decode |
| AvatarKeys.ReplacementIsAtLastDot | src/tasks/periodic/s3_cleanup.rs:50-54 | where the sweep's pattern matches, the last dot is where the extension is cut off |
| LikePatterns.LikeIsWildPrefix | src/middleware/auth.rs:166 | for patterns without percent sign and backslash, LIKE with an appended percent sign is a prefix test in which underscore matches any character |
| AccessRules.ValidPatternFacts | src/modules/admin/api_rule/models.rs:14 | a valid pattern has no percent sign or backslash, and RTRIM takes off exactly its last slash |
| AccessRules.RuleStore.CheckUserRole | src/middleware/auth.rs:142-183 | Ok if and only if the path is basic or a live rule of the user matches path and method |
| AccessRules.RuleStore.Grant | src/modules/admin/api_rule/service.rs:16-58 | a refused grant changes nothing; an accepted one writes this rule alone, keeps the id and creation time of one that is there, and admits exactly what was admitted before or is covered by the request |
| AccessRules.RuleStore.Revoke | src/modules/admin/api_rule/service.rs:113-133 | removes the rule with that id and no other; an unknown id is an error and changes nothing |
| AccessRules.AcceptedGrantIsUnion | src/modules/admin/api_rule/service.rs:16-36 | after an accepted grant the admitted set is the union, for every user, path, method and time; an upsert never shortens access |
| AccessRules.RefusedGrantIsUnionIff | src/modules/admin/api_rule/service.rs:61-95 | a refused grant was already covered if and only if a conflicting pattern is shorter or equal, or the trimmed pattern lies in the area open to all |
| AccessRules.UncoveredMoment | src/middleware/auth.rs:154-168 | otherwise the trimmed pattern is a path the request covers and nobody admits, at a time not yet past |
| AccessRules.WildcardFreeRefusalIsUnion | src/modules/admin/api_rule/service.rs:61-95 | without underscores in stored patterns every refused grant was already covered |
| AccessRules.RevokeUndoesGrant | src/modules/admin/api_rule/service.rs:113-133 | revoking a freshly granted rule restores the store |
| AccessRules.RevokeTakesOneRule | src/modules/admin/api_rule/service.rs:113-133 | after revoking, exactly what the other rules admitted is admitted |
| RouteListing.GetUserEffectiveRoutes | src/modules/user/service.rs:210-224 | the registered routes under some effective rule, in order |
| RouteListing.FilterWithUserExistsRules | src/modules/admin/api_rule/service.rs:241-255 | the registered routes under no effective rule, in order |
| RouteListing.ListingAndFilterPartition | src/modules/admin/api_rule/service.rs:241-255 | listing and filter split the routes as a multiset |
| RouteListing.Retained | src/modules/user/service.rs:216-221 | a route is kept by the one if and only if it is not kept by the other |
| RouteListing.RetainedInOrder | src/modules/user/service.rs:216-221 | what is kept stands in the order of the registry |
| RouteListing.AdmittedIff | src/middleware/auth.rs:142-183 | a path is admitted with a route's method if and only if it is in the user area or a live rule's pattern is a wildcard prefix of it or is the path with a slash |
| RouteListing.AdmittedRouteIff | src/middleware/auth.rs:154-168 | a route outside the user area is admitted if and only if a live rule of the user allows its method and its pattern is a wildcard prefix |
| RouteListing.ListedRouteIsAdmitted | src/modules/user/service.rs:210-224 | every listed route is admitted, with and without its last slash, unless each rule that lists it expires in that very instant |
| RouteListing.ListedButRefusedAtExpiry | src/modules/admin/api_rule/service.rs:219 | in the expiry instant a route is listed and refused |
| RouteListing.AdmittedIffListedLive | src/middleware/auth.rs:154-168 | without underscores in patterns, a route outside the user area is admitted if and only if a rule that does not expire in that instant lists it |
| RuleRegistry.CheckApiRuleValidity | src/modules/admin/api_rule/service.rs:97-110 | Ok if and only if the pattern leads to some registered route with the method |
| RuleRegistry.GrantUserApiRule | src/modules/admin/api_rule/routes.rs:57-68 | the handler stores only patterns under registered paths; unless two such patterns collide under underscores, a request it refuses as a conflict was already covered |
| RuleRegistry.WrongRefusalIffCollision | src/modules/admin/api_rule/service.rs:61-110 | under given registered paths some uncovered request is refused if and only if two different patterns of one length collide under underscores |
| RuleRegistry.CollisionRefusesWrongly | src/modules/admin/api_rule/service.rs:61-110 | every such pair is a failing input: the one stored, the other requested |
| RuleRegistry.WildcardConflictIsNotUnion | src/modules/admin/api_rule/service.rs:69 | with /a_b/ and /axb/ registered: the one stored, the other is refused although its path stays forbidden |
| RuleRegistry.ProgramPathsDoNotCollide | src/modules/admin/api_rule/service.rs:257-303 | the routes this program registers, whatever its templates, never collide |
| RuleRegistry.RefusalIsUnionInThisProgram | src/modules/admin/api_rule/service.rs:61-110 | so in this program every refused grant was already covered |
| SchemaFields.SchemaDocument.IntoSchema | src/domain/schema.rs:70-123 | the in-place edit panics or gives the specified document |
| SchemaFields.SchemaDocument.ApplyDefinitions | src/modules/admin/template/service.rs:18-27 | the loop over definitions is the fold |
| SchemaFields.TryFromSchema | src/domain/schema.rs:154-177 | exactly the fields that read as file fields, or nothing when there is none |
| SchemaFields.ReadFieldIff | src/domain/schema.rs:125-147 | a property is read as a file field exactly when it has x-file-config with accept and max_size, and is a file-id string or an array with maxItems |
| SchemaFields.OneDefinition | src/domain/schema.rs:70-146 | a written definition reads back with its types, quota and size; other properties keep their definitions; required grows by this field at most |
| SchemaFields.OtherKeywordsStay | src/domain/schema.rs:70-123 | keywords other than properties and required keep their values |
| SchemaFields.FoldRoundTrip | src/domain/schema.rs:70-188 | after any list of definitions each defined field reads as its last definition, required if and only if the base or some definition required it; other fields read as before |
| SchemaFields.RequiredGrowsWithoutDuplicates | src/domain/schema.rs:111-122 | the required list grows at its end by the newly required fields, each once |
| SchemaFields.ReapplyingChangesNothing | src/domain/schema.rs:70-123 | applying a definition twice is applying it once |
| SchemaFields.FoldSucceedsIffShaped | src/domain/schema.rs:74-118 | the writer panics exactly when the base document lacks the shape some definition needs |
| SchemaFields.GuardMissesFileFields | src/domain/schema.rs:226-242 | for every schema and every list of definitions: writing them changes nothing about whether the guard passes the schema |
| SchemaFields.PassingSaysNothingOfFileFields | src/domain/schema.rs:226-242 | every schema has the same file fields as one that passes, and passes if and only if it is that one; so file fields never decide |
| SchemaCache.StepKeepsCoherence | src/modules/admin/template/service.rs:129-219 | each step keeps every cached context current or about to be cleared, given timely inserts |
| SchemaCache.CacheStaysCoherent | src/modules/archive/service.rs:50-64 | the same over every run |
| SchemaCache.AtomicLoadsAreTimely | src/modules/archive/service.rs:50-64 | with load-on-miss as one step no assumption is needed |
| CacheLoads.LoadKeepsCoherenceIff | src/modules/archive/service.rs:50-64 | over everything that can happen between reading the row and inserting its context: the cache ends coherent if and only if more changes than clears of that template are counted, those under way included, or its last statement left a schema with the same context |
| CacheLoads.StraddlingLoad | src/modules/archive/service.rs:60-61 | a load around an update and its clear ends coherent if and only if both schemas have the same context |
| CacheLoads.StraddlingLoadIsStale | src/modules/archive/service.rs:60-61 | a concrete compiler and pair of schemas for which the cache ends stale |
| CacheLoads.EntryStays | src/modules/archive/service.rs:50-64 | an entry, stale or not, stays until its template is cleared or loaded by a load under way, or the process restarts |
| SchemaCache.Templates.GetOrLoadTemplateContext | src/modules/archive/service.rs:50-107 | the cache gives what compiling the stored schema gives, errors included |
| SchemaCache.Templates.ValidateInstanceById | src/modules/archive/service.rs:34-47 | Ok if and only if the data validate against the stored schema |
| SchemaCache.Templates.CheckCreate | src/modules/archive/routes.rs:60-73 | a record is accepted if and only if its template is active, its data validate, and a session is given or no file field is required |
| SchemaCache.Templates.CreateArchiveRecord | src/modules/archive/routes.rs:60-176 | a record is stored if and only if it is acceptable and the transaction took effect; every stored record keeps validating against its template's current schema |
| SchemaCache.ComposedDefines | src/modules/admin/template/service.rs:18-27 | with the definitions edited in, every defined field reads back as its last definition and every other field as before |
| SchemaCache.Templates.CreateTemplate | src/modules/admin/template/service.rs:13-58 | the stored template is active, with the request's schema as it is, or with every file definition readable in it |
| SchemaCache.Templates.UpdateTemplate | src/modules/admin/template/routes.rs:116-141 | refused while a record uses the template; otherwise row and cache change so that records and cache stay right, and the new schema has every file definition readable in it |
| SchemaCache.Templates.DeleteTemplate | src/modules/admin/template/routes.rs:163-181 | refused while a record uses the template |
| SchemaCache.Templates.ModifyTemplateStatus | src/modules/admin/template/service.rs:222-248 | changes the flag only, of a template that exists |
| UploadQuota.DeductSucceedsIff | src/modules/archive/service.rs:343-382 | only the owner of a live session with quota left succeeds; it costs exactly one, the session lives 1800 seconds from then, and nothing else is touched |
| UploadQuota.FileIsValidIff | src/modules/archive/service.rs:302-326 | a file passes if and only if it is within the size limit and, where types are listed, its lower-cased extension is one of them |
| UploadQuota.RedisCache.PresignedUploadUrl | src/modules/archive/routes.rs:301-340 | the quota is spent before the file is checked; a URL is issued only to the owner, with quota left, for a file within the size limit and of a listed type |
| UploadQuota.QuotaIsConserved | src/modules/archive/service.rs:328-383 | over every run, while a session lives deductions plus remaining quota equal the initial quota, and owner and configuration stay; URLs never exceed deductions, nor those the quota |
| UploadQuota.DeadStaysDead | src/modules/archive/service.rs:343-346 | an expired or deleted session yields nothing more |
| Enrichment.CollectUuidsFromJsonValue | src/modules/archive/service.rs:915-929 | adds exactly the ids that occur as texts in a value or, at any depth, in its arrays |
| Enrichment.CollectedAt | src/modules/archive/service.rs:915-929 | every text at any depth of arrays that reads as an id is collected |
| Enrichment.CollectedIsSomewhere | src/modules/archive/service.rs:915-929 | and every collected id is such a text |
| Enrichment.ReplaceUuidWithUrlInJson | src/modules/archive/service.rs:931-947 | the loop is the recursive replacement |
| Enrichment.ReplacedAt | src/modules/archive/service.rs:931-947 | at any depth of arrays a text that reads as an id with a URL has become that URL, and every other value is as it was |
| Enrichment.FileFieldsGetUrls | src/modules/archive/service.rs:707-770 | so a file field's text is the view URL of its file where there is one, and else unchanged |
| Enrichment.FieldByFieldIsEnriched | src/modules/archive/service.rs:761-767 | the order in which file fields are visited does not matter |
| Enrichment.BatchedEqualsDirect | src/modules/archive/service.rs:716-767 | URLs of the collected ids alone give the same document as URLs of the whole file table |
| Enrichment.EnrichArchiveRecords | src/modules/archive/service.rs:707-770 | every record ends up as direct lookup would leave it, and only its data change |
| Enrichment.ReplaceKeepsShape | src/modules/archive/service.rs:931-947 | every value keeps its shape |
| Enrichment.OnlyFileFieldsChange | src/modules/archive/service.rs:761-767 | members other than file fields keep their values, and none comes or goes |
| Enrichment.EnrichingIsIdempotent | src/modules/archive/service.rs:931-947 | enriching twice is enriching once when no URL reads as a UUID |

## Left out

- Failing database statements and a moving clock inside one dispatcher call: `Dispatcher` runs each call against a database that answers at one instant; lost statements, crashes and time between statements are steps of `OutboxProtocol`.
- Texts of HTTP errors, log lines and responses: reduced to an error constructor. The text an outbox row keeps is whole, except that debug formatting's escapes are left out, which keys and codes do not need.
- Running timeouts below a second: configuration gives whole seconds, and the model's timeout is a number of seconds of which zero switches reclaiming off.
- Integer widths of Duration arithmetic (a backoff that overflows panics) and VARCHAR length limits.
- `queue_in_memory`: it stores nothing and promises nothing.
- Extraction of requests, authentication tokens, password hashing, presigned URL signing, MIME guessing, telemetry and configuration.
- The jsonschema validator, `Uuid::parse_str` and URL generation: parameters of the model.
- Floating-point numbers in JSON documents: `Json` has integers only.
- Lua's number encoding: quotas and sizes of 10^14 and more would be rounded by the script and are not modelled.
- Safety of the sweep for an avatar that is replaced while a pass runs: `avatar/{user_id}` is reused, so no timing assumption on creates covers it.
- Conflict check and upsert of a grant, and the record check and update of a template, are separate statements in the program; `Grant` and the methods of `SchemaCache.Templates` take each handler as one step.
- A request that is dropped between a template's row update and the clearing of its cache entry, and caches of other instances: `SchemaCache` is about one process that clears what it changed.
- Fairness and unbounded liveness: a retryable row may be requeued forever.
- User management, pagination, the filter-to-SQL text builder and the stored descriptions of routes.
- CleanupOrphanPersistentObjects: takes releasing the advisory lock to succeed; the program only logs when it does not.
- SchemaCache.Templates.CreateArchiveRecord: takes from outside whether the transaction took effect and whether the handler finished, because `ArchiveHandlers.CreateArchiveRecord` decides both.
- Avatar uploads whose client sends another file name than the signed one: the presigned request signs it, and S3 refuses such an upload.
- ListObjectKeysOlderThan: assumes that the listing ends, which S3 guarantees and the loop does not check.
