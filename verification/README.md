# Task platform: model and proofs

The platform accepts tasks over HTTP, stores each as a row of an events table, queues its id, and
lets workers run the handlers `resize_image`, `scrape_url` and `generate_report`. A task may carry a
chain of next links; each successful run saves and queues the following link. Requests are
deduplicated by a key derived from type, payload and priority. Administrators cancel, retry and
requeue tasks.

The project has three layers.

1. **A step system** (`Lifecycle.dfy`). A state is the events table, the idempotency table, the ready
   and delayed tokens, the dead-letter queue, the object store, a clock, and a program counter for
   every in-flight request and worker. A label is one database, queue or storage call of one of them
   with its outcome; `Apply` gives its effect. Any number of processes interleave, any call can fail,
   tokens can be delivered again. `Ownership`, `Stranding`, `Families`, `Spawning`, `Results`, `Dedup`,
   `Recovery` and `Draining` prove invariants of every step from the field-by-field effects in
   `Effects`; `Guarantees` states what holds in every reachable state and over every run, `Counting`
   how many events a chain has become, and `Anomalies` shows where tempting stronger claims fail.
2. **The program** (`Storage.dfy`, `Server.dfy`). Classes with the tables as fields, and the handlers
   as methods that make the same calls in the same order. Between any two calls they call `Interfere`,
   whose contract allows any run of the other processes and promises nothing but the invariant. Each
   method is proved to take its own process along the step system (`Did` for one call, `Onward` for a
   stretch of calls), so the guarantees of the first layer apply to it, and its contract says what its
   answer means. Each service carries a flag `up`: its calls succeed while it is set, and the others
   may change it at any time. Two ghost constants narrow the interference: the services in `steady`
   stay up, and the rows in `untouched` are left alone by the others. Both are arbitrary sets, so every
   contract holds without them, and says what each excludes. Ghost fields hold only program counters
   and history. Whether a handler's fetch succeeded and its page could be decoded (`fetched`,
   `decoded`) are given.
3. **Sequential parts.** JSON texts (`JsonText`, `JsonPrint`), the wire format of requests (`TaskWire`), admission
   (`Admission`), the key (`Idempotency`), the worker store's projection and chaining's decision
   (`EventStore`), the HTML walk (`HtmlWalk`), report rows (`Report`), the task list (`Pagination`,
   `PageCount`, `PageOrder`) and the stack-trace filter (`StackFilter`).

Names used below: an event is *orphaned* when its save or reset was followed by a failed call of the
same handler, until a queue call for it goes through; a *run* is an entry of the history for a handler
whose result was recorded; a token is *outstanding* while it is queued, delayed or in the hands of a
process.

The JSON grammar is that of sections 4, 5 and 7 of RFC 8259 (with the number grammar of section 6); rounding in
`PageCount` is round-to-nearest as in section 4.3.1 of IEEE 754-2019.

Where the repository's documentation and its code differ, the model follows the code:

- The documentation says duplicate requests are rejected. The create handler ignores what its key
  insert reports, so overlapping copies are both accepted (`Anomalies.OverlapAcceptsBoth`), and an
  expired row switches deduplication off until cleanup (`Anomalies.ExpiredRowDisablesDedup`).
  `Guarantees.DuplicateExactlyWhileUnexpired` and `Guarantees.AcceptedTwiceOnlyAfterExpiry` give the
  exact condition.
- The repository's README.md:186 can be read as giving a chained task the parent of the task that
  spawned it. That is so from the second chained task on; the first names the root, whose own parent
  is empty, in line with README.md:480 (`Guarantees.ChainedEventsAreSuffixes`). The parent whose result
  `generate_report` falls back to is therefore the root, not its predecessor
  (`Results.FallbackFindsObject`).

Assumptions about the worker library, which is not part of this model: a dequeued id becomes a token
held by one worker; the worker reads the task, drops the token if the status it read was cancelled,
and otherwise runs the wrapped handler; afterwards it writes a status other than pending and drops the
token, or puts the id back; it may also bury the id in the dead-letter queue. Removing an id
that is not on the dead-letter queue is an error. A failed database, queue or storage call changed
nothing. Fresh ids are new, non-empty and contain no dot.

## Model

| member | source | states |
|---|---|---|
| JsonText.ObjectTextsArePrefixFree | internal/service/task_validator.go:14-56 | of two JSON object texts that the validator's decoder accepts, neither is a proper prefix of the other, for any nesting, strings and escapes |
| JsonText.ValueBalanced | internal/service/task_validator.go:26-56 | an independent depth/string/escape scanner crosses whatever the parser accepts as a value without net effect, never below its starting depth; within an object it stays at least one level deeper until the closing brace |
| JsonPrint.ReadsWhatIsWritten | internal/service/task_validator.go:26-56 | the parser reads back every value written as a text, whatever white space stands in its gaps: strings with escaped quotes, backslashes and control characters, whole numbers, arrays and objects of any depth |
| Json.NamesIgnoreCase | internal/service/task_validator.go:18-25 | a member names a field in any capitalisation of its letters |
| TaskWire.RoundTrip | internal/handler/task_handler.go:34-42 | for a request of any depth, unmarshalling its marshalled form gives back every field of every link, an absent payload having become null |
| TaskWire.MarshalNormal | internal/handler/task_handler.go:34-42 | marshalling cannot tell a request from what one trip over the wire makes of it |
| TaskWire.NormalTwice | internal/handler/task_handler.go:34-42 | a second trip over the wire changes nothing more |
| TaskWire.OpenStored | internal/repository/eventstore.go:26-53 | the worker store's narrower view of a stored request finds exactly its payload, its trace context and its marshalled next link |
| TaskWire.LaunchOfMarshalled | internal/handler/admin_handler.go:381-395 | the requeue handler's view of a stored request finds exactly its priority and execute_at |
| TaskWire.NextOfSuffix | internal/chaining/chaining.go:35-41 | the following link of a suffix of a chain is a proper suffix of that chain |
| Admission.ValidPayloadShape | internal/service/task_validator.go:14-70 | only the three known types validate, and a valid payload is a JSON object (or null, for generate_report only) |
| Admission.ValidExactly | internal/service/task_validator.go:14-70 | the payloads that validate are exactly these: for a resize a non-empty image_url, width and height of at least 1, mode "", fit, fill or stretch, output_format "", jpeg or png, quality 0 to 100; for a scrape a non-empty url; for a report any object or null |
| Admission.TextFieldExactly | internal/service/task_validator.go:18-28 | a string field is the last string given for it under any capitalisation, empty when none is; decoding fails exactly when some member gives it a value that is neither null nor a string |
| Admission.IntFieldExactly | internal/service/task_validator.go:18-28 | an int field likewise, with whole numbers of 64 bits |
| Admission.DecodedFields | internal/handler/task_handler.go:34-42 | type, priority and trace context of a decoded body are those string fields; its payload is the last one given |
| Admission.UnknownMembersIgnored | internal/handler/task_handler.go:61-68 | a member that names none of the six fields changes nothing, wherever it stands |
| Admission.AdmittedShape | internal/handler/task_handler.go:61-115 | what every accepted request satisfies: a submittable type with the parameters of that type, a priority, no past schedule, a named first link with the parameters of its type if it has a payload |
| Admission.AdmittedExactly | internal/handler/task_handler.go:61-115 | the exact condition, in terms of the fields and without the validator, under which a decoded body is accepted; only a missing priority is changed, to medium |
| Admission.RefusedBecause | internal/handler/task_handler.go:71-115 | the reason of each refusal, in the order of the checks; a payload is called invalid exactly when it lacks the parameters of its type |
| Admission.DeeperLinksUnchecked | internal/handler/task_handler.go:102-115 | for every accepted request with a first link, replacing everything behind that link by any chain whatever is accepted just the same |
| Idempotency.GenerateIdempotencyKey | internal/service/idempotency.go:123-130 | the loop feeds the digest every part followed by a colon, in order |
| Idempotency.KeyDeterminesRequest | internal/service/idempotency.go:123-130 | the pre-image is injective on colon-free types, object payload texts and arbitrary priorities, colons in payload and priority included |
| Idempotency.AmbiguousWithoutObjects | internal/service/idempotency.go:123-130 | without the object condition two different requests share a pre-image |
| EventStore.ProjectRow | internal/repository/eventstore.go:32-77 | the method that fills payload, metadata, root id, priority and status step by step computes the projection Project |
| EventStore.ProjectStored | internal/repository/eventstore.go:38-58 | projecting a stored request recovers its id, type, status, priority, payload value, trace id and trace context, its family root and its marshalled next link, present exactly when there is one |
| EventStore.ChainFollows | internal/chaining/chaining.go:30-61 | the row and queue call chaining makes for a projected task are those of the stored request's own following link, in the same family and trace; nothing when no link follows |
| EventStore.UnrollPreservesMeaning | internal/chaining/chaining.go:24-63 | a submitted chain of any length becomes, through every marshal/project/unmarshal hop, exactly one row per link in order with that link's type, payload value, priority and schedule, one trace id, and the root as parent |
| Ownership.StepGrows | internal/database/events.sql.go:15-21 | no call deletes an event or changes a column other than status and result |
| Ownership.RunGrows | internal/database/events.sql.go:308-346 | over any run events are only added and their other columns never change |
| Ownership.OneMoves | internal/handler/task_handler.go:125-197 | one call moves or starts at most one process and leaves all others where they are |
| Ownership.QueueEffect | internal/handler/admin_handler.go:397-411 | queue tokens appear only through the handlers' queue calls and the worker's put-back, with exactly that id, priority and time; they otherwise only move on promotion and leave on dequeue |
| Ownership.OwnedStep | internal/repository/eventstore.go:32-77 | whatever the others do, each process keeps what it relies on: the saved event has its submission's columns, the task it runs is the stored one, the child it saved carries its next link, every token names an event |
| Stranding.OrphanedByFailedCall | internal/handler/task_handler.go:173-197 | an event becomes an exception to the rows below only by a failed call of the handler that had just saved or reset it |
| Stranding.OrphanedUntilQueued | internal/handler/admin_handler.go:397-411 | it stops being one exactly by a queue call for it that goes through, such as a requeue |
| Stranding.NoneStrandedStep | internal/handler/admin_handler.go:258-271 | every call keeps: each pending event is queued, delayed, held by a process that still owes it a queue call or a terminal status, or orphaned |
| Stranding.NoPendingTaskIsStranded | internal/handler/admin_handler.go:314-332 | in every reachable state of any number of interleaved creates, cancels, retries, DLQ retries, requeues, chain steps and workers, each pending event has a live token, save for the orphaned ones |
| Stranding.NoFaultNoStranding | internal/chaining/chaining.go:54-61 | after a run without failed calls there are no exceptions at all |
| Families.NewEvents | internal/database/events.sql.go:126-141 | an event appears only by a create's or a chain step's insert, with exactly the root's or the following link's columns |
| Families.FamiliesStep | internal/chaining/chaining.go:49-54 | every call keeps the family invariant: flat parents, proper suffixes, shared trace, columns that repeat the stored request |
| Spawning.CreatedStep | internal/chaining/chaining.go:43-56 | every call keeps: each chained event was created by one successful run of the event one link up in its own family |
| Spawning.AccountedStep | internal/chaining/chaining.go:26-56 | every call keeps: each successful run with a following link has created its child, is about to, or lost it to a failed insert |
| Results.StorageKeysDistinct | internal/taskhandlers/resize_image.go:105-105 | distinct tasks never share a storage key, whatever their types and payloads |
| Results.FileKeyReads | internal/taskhandlers/generate_report.go:103-116 | the fallback reads back exactly the key that a handler stored as its file result |
| Results.ResultsStep | internal/taskhandlers/scrape_url.go:69-77 | every call keeps: a result is the one fixed by its event's id, type and payload and its object is stored; a chained event's root has one |
| Results.ResultsStable | internal/database/events.sql.go:324-329 | no call changes a result that is set, re-executions included |
| Results.FallbackFindsObject | internal/taskhandlers/generate_report.go:39-46 | for a running report without a scraped_key of its own, the source is its root's result key and that object is stored |
| Dedup.KeyEffect | internal/database/idempotency.sql.go:14-42 | key rows are only added by a first insert and removed by cleanup once expired; no row is ever replaced |
| Dedup.KeyNamesSameRequest | internal/service/idempotency.go:86-97 | a row under a submission's key names an event that stores a request of the same type, payload value and priority |
| Dedup.DedupStep | internal/service/idempotency.go:63-97 | every call keeps the deduplication invariant over rows, answers and the order of checks and inserts |
| Dedup.ExactlyOneInsertWins | internal/database/idempotency.sql.go:14-17 | of any number of interleaved inserts of an absent key, exactly one reports "not already processed" |
| Guarantees.WinnersApart | internal/database/idempotency.sql.go:14-42 | with cleanup at any time, two inserts of one key that both report "not already processed" lie more than 2,592,000,000,000,000 ns (30 days) apart |
| Guarantees.DuplicateWithinThirtyDays | internal/service/idempotency.go:63-97 | a check of a key less than 30 days after its winning insert answers duplicate with that insert's event id and saves nothing |
| Recovery.RecoveryReproducesLaunch | internal/handler/admin_handler.go:381-411 | requeue at any time repeats the event's own queue command as far as it still applies, with medium for a missing priority; retry picks the same priority; a schedule equals the scheduled_at column; retry makes the same queue call as requeue if and only if no schedule lies ahead |
| Draining.DrainStep | internal/chaining/chaining.go:35-61 | without new work no call adds to the remaining runs, a completed handler run uses one up, and every call that moves anything lowers the measure, although runs create new tasks |
| Draining.DrainRun | internal/repository/eventstore.go:51-53 | any run without new work makes at most the sum over outstanding tokens of their remaining chain lengths in handler runs, and a bounded number of calls |
| Guarantees.InvStep | internal/handler/task_handler.go:54-204 | every call of every process keeps the whole invariant |
| Guarantees.InvReachable | internal/handler/task_handler.go:54-204 | the whole invariant holds in every reachable state |
| Guarantees.ChainedEventsAreSuffixes | internal/chaining/chaining.go:26-56 | in every reachable state a chained event names an earlier root without a parent, stores a proper suffix of its chain under its trace id, and its columns repeat the stored request |
| Counting.EventsBoundedByRuns | internal/chaining/chaining.go:26-56 | in every reachable state a family has at most as many events at position k+1 as successful handler runs at position k, under retries and duplicate deliveries |
| Counting.MemberStoresLink | internal/repository/eventstore.go:48-58 | every event at position k of a family stores link k of its root's chain |
| Counting.RunsBecomeEvents | internal/chaining/chaining.go:26-61 | conservation in every reachable state: events at position k+1, runs at position k whose save is still ahead, and runs at position k whose insert failed add up to the successful runs at position k; behind the last link there are no events |
| Counting.DuplicatedExactly | internal/chaining/chaining.go:43-61 | the number of events at position k+1 is the number of runs at position k that saved a child, so a position holds two events if and only if two such runs exist |
| Counting.SecondChildExactly | internal/chaining/chaining.go:43-61 | an event has two children if and only if two of its own successful runs each saved one |
| Guarantees.OriginIsRoot | internal/repository/eventstore.go:54-58 | following creators back from any event ends at the event its parent column names, or at itself |
| Guarantees.ChildrenAreTheChain | internal/database/events.sql.go:210-215 | the children selected for a root are exactly the events its chain transitively produced; those of a chained event are none |
| Guarantees.OneEventPerLink | internal/chaining/chaining.go:24-63 | when each task of a family ran successfully once and no child was lost, every link has exactly one event and there are no others |
| Guarantees.UnrollingIsExact | internal/chaining/chaining.go:24-63 | the same over whole fault-free runs, with any interleaving and any other submissions |
| Guarantees.ChildImpliesRootResult | internal/taskhandlers/generate_report.go:39-46 | whenever a chained event exists, its root has a file result with a non-empty key whose object is stored, and every generate_report event has a parent |
| Guarantees.FallbackNeverFails | internal/taskhandlers/generate_report.go:95-117 | in every reachable state the scraped-key fallback of a running report finds a key and a stored object, at any chain depth |
| Guarantees.ResultsFixed | internal/database/events.sql.go:324-329 | along any run a set result stays the same value, fixed by id, type and payload, backed by an object, shared by no other event |
| Guarantees.AcceptedTwiceOnlyAfterExpiry | internal/handler/task_handler.go:125-180 | if a check passed after another request's insert of the same key completed, that row had expired by the time of the check |
| Guarantees.DuplicateExactlyWhileUnexpired | internal/service/idempotency.go:86-97 | a check answers "duplicate" if and only if some completed insert of its key wrote or met a row that has not expired; otherwise the create goes on |
| Guarantees.DuplicateAnswersAreTruthful | internal/handler/task_handler.go:127-142 | the event id in every duplicate answer names an existing event storing the same type, payload value and priority |
| Guarantees.RecoveryIsFaithful | internal/repository/admin_repository.go:101-114 | in every reachable state requeue reproduces the original command, unchanged for roots not yet due; retry agrees on the priority, and on the whole call if and only if no schedule lies ahead |
| Anomalies.OverlapAcceptsBoth | internal/handler/task_handler.go:173-180 | every acceptable request can be accepted and queued twice when both copies pass the check before either records its key |
| Anomalies.ExpiredRowDisablesDedup | internal/database/idempotency.sql.go:14-67 | once a key's row has expired it stays unchanged until cleanup and no request with that key is answered as a duplicate |
| Anomalies.FailedLaunchMakesSecondChild | internal/chaining/chaining.go:54-61 | from every reachable state in which an uncancelled chaining resize or scrape runs, the run can go on so that a queue call failing after the insert leaves the first child orphaned and a redelivery of the same event saves a second one with the same link |
| Storage.EventTable.SaveProcessedEvent | internal/repository/event_repository.go:33-49 | while the table is up and the id is new, inserts one pending row without result, empty strings as NULL; otherwise fails and changes nothing |
| Storage.EventTable.GetEventByID | internal/database/events.sql.go:55-59 | returns the row of an id, "no rows" only when there is none |
| Storage.EventTable.CancelEventIfPending | internal/database/events.sql.go:15-25 | cancels exactly a pending row and reports whether it did |
| Storage.EventTable.ResetTaskForRetry | internal/database/events.sql.go:308-322 | sets exactly a failed or cancelled row pending and returns its priority column |
| Storage.EventTable.UpdateEventStatus | internal/database/events.sql.go:341-356 | sets the status whatever it was |
| Storage.EventTable.UpdateEventResult | internal/database/events.sql.go:324-339 | sets the result and nothing else |
| Storage.KeyTable.CreateIdempotencyKey | internal/database/idempotency.sql.go:14-37 | inserts only when no row, live or expired, has the key, and counts what it inserted |
| Storage.KeyTable.GetIdempotencyKey | internal/database/idempotency.sql.go:62-80 | reads a row only while it has not expired |
| Storage.KeyTable.DeleteExpiredIdempotencyKeys | internal/database/idempotency.sql.go:39-50 | removes exactly the expired rows and counts them |
| Server.NewRowView | internal/repository/event_repository.go:33-49 | the row saved for any request reads back as that request, normalised, with the same columns |
| Server.ProjectionRepresents | internal/repository/eventstore.go:32-77 | what the worker store projects from a stored row is the task the step system runs: payload, root, trace and a next link that decodes to the stored one |
| Server.Platform.IsProcessed | internal/service/idempotency.go:86-97 | takes exactly the check step; passes only without a live row and otherwise returns that row's event id |
| Server.Platform.CheckAndRecordToDB | internal/service/idempotency.go:45-83 | takes exactly the insert step, reports whether the key was already there, and if not adds one row that expires 2,592,000,000,000,000 ns (30 days) from now; otherwise the table is unchanged |
| Server.Platform.AdmitRequest | internal/handler/task_handler.go:61-115 | the checks with the priority assigned between them accept and refuse what `Admission.AdmittedExactly` and `Admission.RefusedBecause` characterise, with the same reason |
| Server.Platform.HandleCreateTask | internal/handler/task_handler.go:54-204 | under any interference: refused exactly on a failed check and then nothing changed; a duplicate answer names an event with the same request that a live row of the key named; an accepted id is new, its row holds the request as sent, created during the call, and it is queued as asked; no internal error while the three services stay up, and while only the queue fails the saved row ends up failed |
| Server.Platform.CreateFrom | internal/handler/task_handler.go:125-171 | the check and the save of the same, from any state, with the same exclusions of errors |
| Server.Platform.CreateUnseenFrom | internal/handler/task_handler.go:145-171 | the save under a fresh id after a passed check, and everything behind it; no internal error while the services stay up |
| Server.Platform.CreateFromSaved | internal/handler/task_handler.go:173-180 | the key insert of the same; its answer changes nothing, its failure ends the request; no internal error while keys and queue stay up |
| Server.Platform.CreateFromRecorded | internal/handler/task_handler.go:182-203 | the queue call of the same; an internal error only after a failed call of this request, none while the queue stays up, and then the row ends up failed while the events table stays up |
| Server.Platform.CreateNotQueued | internal/handler/task_handler.go:186-197 | after the failed queue call the saved row is marked failed, unless that write fails too |
| Server.Platform.GetTask | internal/repository/eventstore.go:32-77 | takes exactly the worker's read; returns the projection of the row, which represents the step system's task, and skips a cancelled one |
| Server.Platform.Wrap | internal/chaining/chaining.go:24-63 | runs the registered handler and succeeds only with its following link saved under a new id with the link's columns in the same family and trace and queued as the link asks, or with nothing made when no link follows; fails for an unregistered type, undecodable parameters or a failed fetch exactly then, for a page only when it does not decode, and for a database, queue or storage call never while that service stays up |
| Server.Platform.RunHandler | cmd/main.go:120-122 | the handler registered under the type, its failures told apart as above; success leaves a recorded run |
| Server.Platform.ChainNext | internal/chaining/chaining.go:30-61 | the part after the handler; the stored next link always decodes, so only the insert can fail, never while the events table stays up, and the queue call, never while the queue does |
| Server.Platform.CreateChild | internal/chaining/chaining.go:43-61 | save before queue call under interference in between: no failed save while the events table stays up, no failed queue call while the queue does, and a failed queue call leaves the child saved |
| Server.Platform.QueueChild | internal/chaining/chaining.go:58-61 | the child's queue call with the link's own priority and schedule; its failure fails the run and is impossible while the queue stays up |
| Server.Platform.SaveChildEvent | internal/chaining/chaining.go:43-56 | takes exactly the child's insert, with root and trace taken from the task's metadata |
| Server.Platform.ResizeImage | internal/taskhandlers/resize_image.go:25-117 | fails on parameters exactly when one of the six does not decode, on the fetch exactly when that failed; success leaves resized/<id>.<format> stored, jpeg for a missing format, and recorded as the file result; storage and recording fail only when their service does |
| Server.Platform.ScrapeUrl | internal/taskhandlers/scrape_url.go:33-81 | fails on parameters exactly when they do not decode or have no url; success leaves scraped/<id>.json stored and recorded; storage and recording fail only when their service does |
| Server.Platform.UploadAndRecord | internal/taskhandlers/scrape_url.go:69-79 | upload, then record; success leaves the object under that key and the row's result naming it; neither fails while its service stays up, and a run that failed in between leaves only the object |
| Server.Platform.ParentFileResultKey | internal/taskhandlers/generate_report.go:95-117 | returns exactly the key of a stored result of kind file with a non-empty key, and names the reason otherwise |
| Server.Platform.FindReportSource | internal/taskhandlers/generate_report.go:29-46 | own key first, else the root's, whose object is then stored; without a key of its own it fails only when the database call itself fails |
| Server.Platform.GenerateReport | internal/taskhandlers/generate_report.go:28-90 | success means the rows written determine the downloaded page, and reports/<id>.csv is stored and recorded; the source is never missing; a download fails only when storage does or an own key names no object |
| Server.Platform.BuildReport | internal/taskhandlers/generate_report.go:48-90 | the part behind the source: download, decode, rows, upload and record |
| Server.Platform.HandleCancelTask | internal/handler/task_handler.go:206-235 | answers cancelled if and only if the table is up and the task is pending, and then changes that status only; otherwise a refusal with nothing changed |
| Server.Platform.ResetForRetry | internal/repository/admin_repository.go:101-114 | resets a failed or cancelled task and returns its priority, medium for a missing or empty one |
| Server.Platform.HandleRetryTask | internal/handler/admin_handler.go:250-278 | conflict exactly for a missing, pending or processed task while the table is up, and then nothing changed; a queued answer means a failed or cancelled task was reset and queued at its own priority, medium for a missing or empty one; no error while table and queue stay up; after an error the table was down and nothing changed, or the queue call failed and the task is orphaned |
| Server.Platform.HandleRetryDLQTask | internal/handler/admin_handler.go:306-339 | the same from the dead-letter queue: not found exactly when the id is not on it or the queue is down; a conflict means the reset met the row pending or processed; while the services stay up and nobody else touches the row, queued exactly for a failed or cancelled task and conflict exactly for a pending or processed one |
| Server.Platform.RetryTaken | internal/handler/admin_handler.go:319-332 | reset and queue call after the removal, under interference before and between, with the same two equivalences |
| Server.Platform.ResetTaken | internal/repository/admin_repository.go:101-114 | the reset alone: it goes through exactly for a failed or cancelled row while the table is up, sets only the status, and no row otherwise changes |
| Server.Platform.HandleRemoveDLQTask | internal/handler/admin_handler.go:342-359 | removes exactly that id from the dead-letter queue, or changes nothing, which happens exactly when it is not there or the queue is down |
| Server.Platform.HandleRequeueTask | internal/handler/admin_handler.go:362-421 | not found, conflict and pending are told apart exactly; a pending task is scheduled at its stored time if that lies ahead and enqueued otherwise, at its stored priority, else its column's, else medium; no error while the queue stays up |
| Server.Platform.CleanupExpired | internal/service/idempotency.go:101-107 | keeps exactly the rows that expire now or later, or fails, when the table is down, and changes nothing |
| Report.WriteRows | internal/taskhandlers/generate_report.go:59-74 | the loops write the header row, the three fixed rows and then one row for each heading, paragraph and link in order, all written out |
| Report.RowsDeterminePage | internal/taskhandlers/generate_report.go:59-74 | whatever strings a page holds, reading the rows back gives the page |
| HtmlWalk.ExtractText | internal/taskhandlers/scrape_url.go:124-137 | the accumulating walk yields the trimmed concatenation of all text nodes in pre-order |
| HtmlWalk.PageBuilder.Walk | internal/taskhandlers/scrape_url.go:84-119 | the walk adds exactly what the pre-order nodes outside script and style contribute, in order, and ends on every finite tree |
| HtmlWalk.ExtractPage | internal/taskhandlers/scrape_url.go:84-122 | headings, paragraphs and links are ordered filter-maps over the visited nodes and the title is the last eligible one (what is visited: the next rows) |
| HtmlWalk.VisitedExactly | internal/taskhandlers/scrape_url.go:87-120 | the page walk visits, in document order and once each, exactly the nodes that have no proper ancestor named script or style |
| HtmlWalk.TextWalkExactly | internal/taskhandlers/scrape_url.go:124-137 | the text walk visits every node of its subtree, in document order and once each |
| HtmlWalk.TextExactly | internal/taskhandlers/scrape_url.go:124-137 | the text of an element is the trimmed concatenation of the text nodes below it at any depth, in document order and once each |
| HtmlWalk.HeadingsExactly | internal/taskhandlers/scrape_url.go:96-99 | the headings are the texts of the h1, h2 and h3 elements outside script and style that have any, in document order and once each |
| HtmlWalk.ParagraphsExactly | internal/taskhandlers/scrape_url.go:100-107 | the paragraphs likewise, from the p elements with at least 20 bytes of text, cut at 300 bytes |
| HtmlWalk.LinksExactly | internal/taskhandlers/scrape_url.go:108-113 | the links are the href values starting with http of the a elements outside script and style, in document order, then attribute order, and once each |
| HtmlWalk.TitleExactly | internal/taskhandlers/scrape_url.go:92-95 | the title is the trimmed text of the last title element outside script and style whose first child is text, empty without one |
| HtmlWalk.ExtractBounds | internal/taskhandlers/scrape_url.go:96-113 | every paragraph has 20 to 300 bytes, no heading is empty, every link starts with http |
| HtmlWalk.NothingElsePruned | internal/taskhandlers/scrape_url.go:88-118 | a tree in which no element is named script or style is visited completely |
| ByteText.TrimSpaceExactly | internal/taskhandlers/scrape_url.go:136-136 | trimming removes UTF-8 encoded Unicode white space from both ends and nothing else, until neither end has any |
| Pagination.CountEventsFiltered | internal/database/events.sql.go:27-34 | counts exactly the matching rows |
| Pagination.MatchesExactly | internal/database/events.sql.go:27-34 | a row stands among the matches as often as in the table if the filter holds of it, and not at all otherwise |
| Pagination.MatchesInOrder | internal/database/events.sql.go:249-258 | the matches keep the order of the table: those of one part come before those of the part behind it |
| Pagination.ListEventsFiltered | internal/database/events.sql.go:249-258 | selects exactly the window of the matching rows, failing exactly on a negative offset |
| Pagination.ListEvents | internal/repository/admin_repository.go:36-71 | total and window with the repository's own defaults and its 32-bit offset |
| Pagination.HandleListTasks | internal/handler/admin_handler.go:124-166 | for every page number the answer is the window of the matches at the 32-bit offset, an error exactly when that is negative; while the offset fits 32 bits it is page k of the matches, with their number and, below 2^53, the exact page count |
| Pagination.PagesPartition | internal/handler/admin_handler.go:128-157 | pages 1 to total_pages list every match exactly once, in order; all but the last are full and the last is not empty |
| Pagination.NoOffsetOverflow | internal/repository/admin_repository.go:58-58 | with fewer than 2^31 matches no existing page's offset overflows |
| Pagination.OffsetExact | internal/repository/admin_repository.go:58-58 | the 32-bit offset is the intended one if and only if the intended one is below 2^31 |
| Pagination.FarPageFails | internal/repository/admin_repository.go:58-58 | a page number whose offset turns negative |
| Pagination.WrappedPageExactly | internal/repository/admin_repository.go:58-66 | an answered request shows the page it asked for if and only if the offset is below 2^31 or even the wrapped offset lies past the last match |
| Pagination.WrappedPage | internal/repository/admin_repository.go:58-58 | a page number far past the end whose offset wraps to 4 |
| PageOrder.OrderDetermined | internal/database/events.sql.go:256-257 | all orders the query may return coincide if and only if no two rows share a created_at |
| PageOrder.PagesAddUpExactly | internal/database/events.sql.go:249-258 | pages 1 to total_pages, each from its own query in any allowed order, hold every row exactly once for all answers if and only if no two rows of equal created_at stand on either side of a page boundary |
| PageOrder.PagesInOrderExactly | internal/database/events.sql.go:249-258 | they come out as one fixed list for all answers if and only if no two rows share a created_at |
| PageOrder.TieHidesRow | internal/database/events.sql.go:256-257 | whenever a tie stands across a page boundary, a second allowed order repeats the row before the boundary on both pages, and the row after it is on no page |
| PageCount.RoundingError | internal/handler/admin_handler.go:157-157 | rounding a positive real to the nearest double changes it by at most one part in 2^53 |
| PageCount.IntegersExact | internal/handler/admin_handler.go:157-157 | integers below 2^53 are doubles |
| PageCount.PageCountExact | internal/handler/admin_handler.go:157-157 | for totals below 2^53 and page sizes 1 to 100 the ceiling of the rounded quotient is integer ceiling division |
| StackFilter.FilterStack | cmd/main.go:292-307 | the loop with its inner index step keeps exactly each frame line and its follower |
| StackFilter.FramesExactly | cmd/main.go:297-298 | frames are exactly the lines that begin, after white space, with this module's path or with main. |
| StackFilter.KeptExactly | cmd/main.go:295-305 | exactly which lines are kept, in order and once each: every other frame of a row of frames, from its first, and the line after each of these |
| StackFilter.FramesAreKept | cmd/main.go:298-303 | every frame is kept; the line after a frame is kept when the line before is no frame, and a line that is no frame is kept after a frame if and only if that frame stands at an odd place of its row |
| StackFilter.FollowerDropped | cmd/main.go:298-303 | of two frames in a row the second loses the line after it |
| StackFilter.SplitJoin | cmd/main.go:294-306 | splitting undoes joining for lines without newlines |
| StackFilter.JoinSplit | cmd/main.go:294-306 | joining undoes splitting for every text |
| StackFilter.FilterIsIdempotent | cmd/main.go:292-307 | filtering a filtered trace changes nothing, for every text |
| StackFilter.OutputLines | cmd/main.go:292-307 | the output's lines are exactly the kept lines, or one empty line |
| StackFilter.KeptIsSubsequence | cmd/main.go:295-305 | the kept lines are a subsequence of the input lines |

## Left out

- The digest: keys are modelled by their pre-image, so collisions of SHA-256 cut to 32 hexadecimal digits are not modelled, and the key's character set is not either.
- Timestamps as text: the date-time string of an `execute_at` member is kept as its instant, every other string as text; formatting, time zones and the rounding of database columns are not modelled, and the application and the database share one clock.
- The text column between marshal and unmarshal: rows hold the JSON value. Compaction, escaping and key order of the encoder, and the decoder's nesting limit, are not modelled; `JsonText` parses byte texts for the idempotency key only.
- Invalid UTF-8 in request bodies.
- A storage client that is absent at start-up: counts as a failed run.
- The worker pool's loop, back-off times and shutdown: only the assumptions above.
- Order of delivery within and between priorities: any ready token can be taken next.
- Image decoding and resizing, HTML parsing, CSV quoting and HTTP fetching: foreign libraries; their failures are failed runs.
- Content of stored objects: a download returns some page or a decoding error; that a scraped page survives storage byte for byte is not claimed, since cutting a paragraph at 300 bytes can split a character.
- The case-insensitive search condition: the list filter is any predicate on rows.
- Sort order of the children listing: the children of a task are proved as a set (for the task list, `PageOrder` treats every order the query may return).
- Delivery logs, dashboard sums and queue depths, which only add up or overwrite what other parts store; presigned result links, the address guard for fetches, metrics, tracing and request logging, which read or report and decide nothing modelled here.
- `DeleteKey` and `GetStats` of the idempotency service: nothing calls them.
- `updated_at` and key metadata columns: never read by the modelled code.
