# juliang-upload, modelled in Dafny

juliang-upload is a service that batch-uploads short-drama videos to the
Douyin/Juliang creator platform. On a fixed interval, a scheduler reads the
rows of a Feishu (Lark) bitable whose status is "pending". Each row names:

- a drama;
- a date;
- a Douyin account.

The scheduler turns each row into a PENDING task in an in-memory queue.

A single worker takes the queue's first PENDING task and processes it:

1. It marks the task RUNNING in memory.
2. It scans the local directory `<root>/<date>/<drama>` for `.mp4` files and keeps the readable ones. If there is no directory, no `.mp4` file or no readable one, it skips the task without any Feishu call.
3. It builds the account's upload URL from a template with an `{accountId}` placeholder, and marks the row "uploading" (上传中) in Feishu.
4. It uploads the files in batches of a configured size and follows each batch's progress bars.
5. It ends in one of these ways:
   - on success, it marks the row "to be assetised" (待资产化); if that call succeeds, the task is COMPLETED and the directory is deleted, otherwise the task is skipped;
   - when the upload reports failure, it skips the task and puts the row back to "pending" (待上传);
   - when the upload throws, it skips the task with the error and makes no further Feishu call.

Each batch is tried up to ten times. The uploader keeps a JSON checkpoint
file of completed batches, so a later run can resume where the last one stopped.

This project is a model of that core:

- **Configuration** (`config.dfy`): the validator, with its 22 checks in the order the code runs them, and the configuration holder.
- **Feishu** (`feishu.dfy`):
  - how a bitable record's cells are normalised and parsed;
  - the page-token loop;
  - the API-code check of every request.
- **Douyin** (`douyin.dfy`): building the upload URL.
- **Progress** (`progress.dfy`): the checkpoint store, as an insertion-ordered map mirrored by a file, with the load/save round trip.
- **Upload** (`uploader.dfy`):
  - the progress-bar poll rule of one attempt;
  - the ten-attempt retry loop of a batch;
  - `uploadFiles`, which partitions files into batches, resumes from the checkpoint, checkpoints each batch and reports a result.
- **Queue** (`queue.dfy`):
  - the task queue with its identifier index;
  - the status counts and cleanup;
  - the worker flag;
  - the task state machine of `processTask`.
- **Scheduling** (`scheduler.dfy`): fetch-and-enqueue, and the start/stop rules for the timer and the worker.

Supporting modules:

- `types.dfy` holds the shared records.
- `strings.dfy` models JavaScript's `indexOf`/`includes` and `String(n)`.

The browser, the file system, the Feishu transport, the clock and the uuid
generator are not modelled, because they are outside the core. Wherever the core
reads one of them, the model takes what it read as a parameter ("an
observation"):

- `AttemptObs` or `PollObs` for what the page showed;
- `ScanResult` and a `readable` predicate for the file system;
- `Page` and `Reply` values for Feishu's responses;
- `now`, `localDate` and `newId` for the clock and the uuid generator.

## Model

| member | source | states |
|---|---|---|
| Types.Task.constructor | src/types/index.ts:142-157 | A new task has the given identifiers and status, and no local path, file list or error. |
| Douyin.BuildWithoutPlaceholder | src/douyin/index.ts:17-19 | A template without `{accountId}` is returned unchanged. |
| Douyin.BuildAtFirstPlaceholder | src/douyin/index.ts:17-19 | Only the first `{accountId}` is replaced by the account id. The text before and after it is kept. The length changes by `|accountId| - 11`. |
| Douyin.LaterPlaceholdersStay | src/douyin/index.ts:17-19 | A second `{accountId}` in the template is still present in the URL (string `replace` replaces once). |
| Strings.IndexOfFrom | src/douyin/index.ts:17-19 | `indexOf` returns the first occurrence at or after `from`, or -1 exactly when there is none. |
| Strings.DecimalRoundTrip | src/uploader/index.ts:566 | The batch number written into the failure message reads back as the same number. |
| Configuration.ExpectedExactly | src/config/index.ts:42-106 | The first `n` checks report exactly the violated conditions among them. |
| Configuration.ExpectedOrdered | src/config/index.ts:42-106 | Errors are listed in the order the checks run. |
| Configuration.ExpectedIsViolations | src/config/index.ts:42-106 | All 22 checks together report exactly the violated conditions, in check order. |
| Configuration.RankOfCheck | src/config/index.ts:42-106 | Check positions and error kinds are in one-to-one correspondence. |
| Configuration.FeishuErrors | src/config/index.ts:46-53 | The six Feishu checks (section missing, then the five credentials) produce exactly their violations. |
| Configuration.FieldErrors | src/config/index.ts:55-62 | The field-name checks (section missing, then the status, account, drama and date names, in that order) extend the list with exactly their violations. |
| Configuration.LocalErrors | src/config/index.ts:66-70 | A missing `local` section, or an empty root directory, adds its error. |
| Configuration.DouyinErrors | src/config/index.ts:73-80 | A missing `douyin` section, an empty URL, or a URL without `{accountId}` adds its error. An empty URL adds two. |
| Configuration.UploaderErrors | src/config/index.ts:83-92 | A missing `uploader` section adds its error. Otherwise a batch size that is absent or not positive adds one, then missing `selectors` adds one. |
| Configuration.SchedulerErrors | src/config/index.ts:95-101 | A missing `scheduler` section, or a fetch interval that is absent or not positive, adds its error. |
| Configuration.PlaywrightErrors | src/config/index.ts:104-106 | A missing `playwright` section adds its error. |
| Configuration.Validate | src/config/index.ts:42-111 | Validation passes if and only if no check is violated. On failure it reports a non-empty list, in check order, whose members are exactly the violations. That list is the check-by-check specification `Expected` over all 22 checks. |
| Configuration.EmptyUrlReportsTwoErrors | src/config/index.ts:76-79 | An empty upload URL fails both the "set" check and the placeholder check. |
| Configuration.MissingLocalIsOneError | src/config/index.ts:66-70 | A missing `local` section reports only that error, not the root-directory one too. |
| Configuration.ConfigManager.constructor | src/config/index.ts:12-17 | A new manager holds no configuration. |
| Configuration.ConfigManager.Load | src/config/index.ts:19-37 | An unreadable file fails and keeps the old configuration. An invalid configuration fails with exactly the errors validation lists, in check order, and keeps the old configuration. A valid configuration is stored. |
| Configuration.ConfigManager.GetConfig | src/config/index.ts:116-121 | Fails if and only if nothing is loaded. Otherwise it returns the stored configuration. |
| Feishu.ParseRecord | src/feishu/api.ts:174-229 | A parsed record keeps the bitable record's id. |
| Feishu.ParseRecordExactly | src/feishu/api.ts:174-220 | A record parses if and only if its four normalised cells, with a numeric date converted, are all truthy. It then carries their string forms. |
| Feishu.ArrayCellUsesFirst | src/feishu/api.ts:184-187 | An array cell is read through its first element. An empty array reads as `undefined`. |
| Feishu.ObjectCellUsesText | src/feishu/api.ts:190-197 | An object cell is read as its `text` property when that is truthy. Otherwise it is kept as is. |
| Feishu.MissingDramaIsSkipped | src/feishu/api.ts:209-212 | A record with a missing or empty drama cell is dropped. |
| Feishu.PlainTextRecordParses | src/feishu/api.ts:174-220 | Four non-empty text cells give a record with exactly those strings. |
| Feishu.WrappedTextParsesAsText | src/feishu/api.ts:184-197 | A rich-text cell `[{text}]` reads as its text. |
| Feishu.ParseAllAppend | src/feishu/api.ts:154-156 | Parsing and dropping nulls distributes over concatenation. |
| Feishu.ParseAllKeepsSuccesses | src/feishu/api.ts:154-156 | The parsed list holds exactly the successful parses, and is no longer than the input. It has full length when every record parses. |
| Feishu.Request | src/feishu/api.ts:75-101 | A request succeeds if and only if the API replied with code 0. Its value is then the reply's `data`. A non-zero code fails with the "API 调用失败" message. |
| Feishu.UpdateRecordStatus | src/feishu/api.ts:234-265 | The status update reports success if and only if its request succeeded. |
| Feishu.Requests | src/feishu/api.ts:112-151 | The loop makes at least one request and never reads beyond the pages available. |
| Feishu.ReadPagesContinue | src/feishu/api.ts:112-151 | Every page before the last one read said `has_more`. |
| Feishu.FetchOkIffLastOk | src/feishu/api.ts:112-151 | The loop succeeds if and only if the last page it read succeeded. That page then said no more. |
| Feishu.FetchConcatenates | src/feishu/api.ts:112-151 | A successful loop returns the concatenation of the items of every page it read, in page order. |
| Feishu.FetchReadsUntilNoMore | src/feishu/api.ts:106-151 | The pagination loop reads pages until one fails or says no more, and returns the concatenation of their items. |
| Feishu.MoreWithoutTokenRestarts | src/feishu/api.ts:138-150 | A page that says `has_more` without a usable `page_token` does not stop the loop, and the next request carries no token, just like the first one. |
| Feishu.PrependAssoc | src/feishu/api.ts:148 | Accumulating page items is associative. |
| Feishu.FetchStep | src/feishu/api.ts:112-151 | One iteration: a failing page ends the loop with its error. A page with more continues past its items. A last page ends with its items. |
| Feishu.SentTokens | src/feishu/api.ts:138-150 | The first request carries no token. Each later request carries the truthy `page_token` of the reply before it. |
| Feishu.ReadStep | src/feishu/api.ts:143-150 | After a successful page, the items read so far grow by its items. The loop goes on exactly when the page says `has_more`, and then exactly one fewer request remains. |
| Feishu.FetchAllPages | src/feishu/api.ts:112-151 | The loop's raw result is the concatenation of the pages read, or the failure of the page that failed. It issues exactly the requests `Requests` counts, carrying the tokens `SentTokens` gives. |
| Feishu.GetPendingRecords | src/feishu/api.ts:106-169 | The loop's result is the parsed concatenation of the pages read, or the first failure. The first request carries no token, and each later request carries the previous page's `page_token`. |
| Progress.Put | src/progress/index.ts:88-113 | Sets the entry for one key. A new key goes to the end of the insertion order, and an existing key keeps its place. The store stays well-formed. |
| Progress.Without | src/progress/index.ts:118-124 | Removes exactly one key from the order, keeping the keys distinct. |
| Progress.Delete | src/progress/index.ts:118-124 | Removes one entry and keeps the store well-formed. |
| Progress.Values | src/progress/index.ts:61-76 | The saved list holds the entries in insertion order. |
| Progress.Load | src/progress/index.ts:38-56 | Loading a list yields a well-formed store. |
| Progress.LoadKeys | src/progress/index.ts:38-56 | The loaded keys are exactly the `recordId`s in the list. |
| Progress.LoadKeepsLast | src/progress/index.ts:38-56 | A duplicated `recordId` maps to its last record. |
| Progress.LoadSnoc | src/progress/index.ts:38-56 | Loading one more record is a `Put` of that record. |
| Progress.ValuesAreEntries | src/progress/index.ts:138-140 | The listed values are exactly the stored entries. |
| Progress.LoadValuesPrefix | src/progress/index.ts:38-76 | Loading a prefix of the saved list rebuilds the corresponding prefix of the store. |
| Progress.LoadSavedStore | src/progress/index.ts:38-76 | Saving then loading gives back the same store: the same entries in the same order. |
| Progress.ProgressManager.constructor | src/progress/index.ts:26-33 | A new manager holds the parsed file's records when the file parses. Otherwise it is empty. |
| Progress.ProgressManager.LoadProgress | src/progress/index.ts:38-56 | A parsed file replaces the store. A missing or unreadable file leaves it unchanged. |
| Progress.ProgressManager.SaveProgress | src/progress/index.ts:61-76 | The file receives all entries in insertion order, and the store is unchanged. |
| Progress.ProgressManager.GetProgress | src/progress/index.ts:81-83 | Returns the checkpoint if and only if one is stored under the key. |
| Progress.ProgressManager.UpdateProgress | src/progress/index.ts:88-113 | Stores the checkpoint, stamped with the given time, under its key and rewrites the file. |
| Progress.ProgressManager.ClearProgress | src/progress/index.ts:118-124 | A present key is removed and the file rewritten. An absent key changes nothing, not even the file. |
| Progress.ProgressManager.ClearAllProgress | src/progress/index.ts:129-133 | Empties the store and the file. |
| Progress.ProgressManager.GetAllProgress | src/progress/index.ts:138-140 | Lists every checkpoint in insertion order. |
| Progress.PutTouchesOnlyItsKey | src/progress/index.ts:88-113 | An update leaves every other key's checkpoint as it was. |
| Progress.DeleteTouchesOnlyItsKey | src/progress/index.ts:118-124 | A clear removes its key and leaves every other key's checkpoint as it was. |
| Upload.CountTrue | src/uploader/index.ts:354-369 | The success count is at most the number of bars. It equals that number if and only if every bar succeeded. |
| Upload.CountSucceeded | src/uploader/index.ts:354-369 | The counting loop computes the number of successful bars. |
| Upload.PollDecision | src/uploader/index.ts:297-467 | One poll settles as a success if and only if there are bars, at least as many as the files, all done, and the confirm click worked. A settled failure has fewer bars than files. |
| Upload.PollOutcomeBounds | src/uploader/index.ts:297-470 | An attempt succeeds only if some poll showed at least as many bars as files, all done, with the confirm click working. A failed attempt counts fewer bars than files, or none. |
| Upload.UploadBatchInternal | src/uploader/index.ts:194-480 | The polling loop returns the outcome of the first poll that settles. If none settles, the wait times out as a failure. |
| Upload.TryFrom | src/uploader/index.ts:122-185 | The retry loop makes between one and ten attempts. |
| Upload.TryFromUploadedIff | src/uploader/index.ts:122-185 | A batch counts as uploaded if and only if one of its attempts succeeded. |
| Upload.TryFromStopsAtFirst | src/uploader/index.ts:122-185 | An upload is reported at the first successful attempt, and no attempt follows it. |
| Upload.TryFromGivesUpAtTen | src/uploader/index.ts:122-185 | Failure is reported only after ten attempts. It is a throw exactly when the reload before the tenth attempt threw. |
| Upload.TryFromFirstSuccess | src/uploader/index.ts:114-188 | The retry loop's whole promise: uploaded if and only if some attempt succeeded, at the first such attempt, and otherwise after all ten. |
| Upload.UploadBatch | src/uploader/index.ts:114-188 | The retry loop returns the outcome and the number of attempts its specification gives, and reloads once fewer than it attempts. |
| Upload.PartitionJoins | src/uploader/index.ts:512-519 | The batches, concatenated, are the file list. |
| Upload.PartitionSizes | src/uploader/index.ts:512-519 | Every batch but the last holds exactly the batch size. The last is non-empty and at most that size. |
| Upload.PartitionCount | src/uploader/index.ts:512-519 | The number of batches is the size rounded up: none for no files. |
| Upload.PartitionFrom | src/uploader/index.ts:512-519 | The batches from file `i` on begin with `files[i..i+size]`, shortened at the end. |
| Upload.SplitIntoBatches | src/uploader/index.ts:512-519 | The slicing loop produces the partition. |
| Upload.StartIndex | src/uploader/index.ts:521-537 | The run resumes at the saved completed count if and only if a checkpoint exists with the same batch total. Otherwise it starts at 0. |
| Upload.RunTouchesOnlyItsKey | src/uploader/index.ts:540-579 | The batch loop writes only the item's own checkpoint key. |
| Upload.RunFails | src/uploader/index.ts:551-568 | A failed batch leaves a checkpoint of the batches completed before it. A throw happens only at a batch that exists. |
| Upload.RunCompletes | src/uploader/index.ts:540-579 | A finished run uploaded every batch from the start on, and left the checkpoint at all batches done. |
| Upload.RunCheckpointsBounded | src/uploader/index.ts:570-578 | Any checkpoint the loop writes records the true batch total and at most that many completed. |
| Upload.UploadFilesOutcomes | src/uploader/index.ts:485-612 | Without a page the call throws and changes nothing. A returned result always counts all files. Success means all batches were uploaded and the checkpoint was cleared. Other keys are never touched. |
| Upload.FailureAtOrAfterResume | src/uploader/index.ts:521-568 | A batch failure happens at or after the resume point. It is reported with its batch number and checkpointed at that count. |
| Upload.RunDependsOnlyOnOwnKey | src/uploader/index.ts:540-579 | How the batch loop ends depends only on the batch outcomes, not on the store it starts from. |
| Upload.ResultDependsOnlyOnOwnKey | src/uploader/index.ts:485-612 | The call's result depends only on the checkpoint under the item's own key. |
| Upload.Uploader.constructor | src/uploader/index.ts:17-24 | A new uploader has no page, the given batch size, and a checkpoint store loaded from disk. |
| Upload.Uploader.Initialize | src/uploader/index.ts:29-63 | A successful launch opens the page. A failed launch rethrows its message. |
| Upload.Uploader.Close | src/uploader/index.ts:68-88 | Afterwards no page is open. |
| Upload.Uploader.UploadFiles | src/uploader/index.ts:485-612 | The method's result and new checkpoint store are exactly those of the `uploadFiles` specification. The checkpoint file holds the new store when the call wrote a checkpoint or cleared one (`UploadWrites`). Otherwise the file is unchanged. |
| Upload.Uploader.RunBatches | src/uploader/index.ts:540-579 | The batch loop's end and checkpoint store are exactly those of the loop's specification. When the first batch it runs ends without a throw (`RunWrites`), the checkpoint file holds the new store. Otherwise the file is unchanged. |
| Upload.Uploader.RunSyncedBatches | src/uploader/index.ts:540-579 | Once the file holds the store, the rest of the loop gives exactly the specification's end and store, and the file goes on holding the store. |
| Upload.Uploader.UploadOneBatch | src/uploader/index.ts:541-578 | The batch's outcome is that of the retry-loop specification. A success checkpoints `i + 1` completed batches and a failure checkpoints `i`; either way the file is rewritten from the store. A throw changes neither store nor file. |
| Upload.UnwrittenStoreUnchanged | src/uploader/index.ts:540-592 | A call that writes no checkpoint file leaves the checkpoint store as it was, so file and store never drift apart. |
| Queue.Ids | src/queue/index.ts:12-14 | The queue's identifier list, element by element. |
| Queue.Count | src/queue/index.ts:89-104 | A status count is at most the queue length. |
| Queue.CountsAddUp | src/queue/index.ts:89-104 | The four status counts add up to the total. |
| Queue.FirstWith | src/queue/index.ts:59-66 | The first position holding a status, with none before it. It equals the length if and only if there is none. |
| Queue.UnfinishedMembers | src/queue/index.ts:109-127 | Cleanup keeps exactly the tasks that are neither COMPLETED nor SKIPPED. |
| Queue.UnfinishedDistinct | src/queue/index.ts:109-127 | Cleanup keeps the identifiers distinct. |
| Queue.AdmittedExactly | src/queue/index.ts:20-54 | A batch add admits only tasks whose record id is not queued, admits one for every such id, and the admitted ids are distinct. |
| Queue.FirstNewIndices | src/queue/index.ts:44-54 | The positions, in increasing order, of exactly those tasks that are the first of their batch with a record id not yet queued. |
| Queue.AdmitsLastIffFirstNew | src/queue/index.ts:20-39 | The last task of a batch is rejected exactly when its id is already queued or an earlier task of the batch has it. |
| Queue.AdmittedInOrder | src/queue/index.ts:44-54 | The admitted tasks are exactly the batch's first tasks with each new id, in batch order. A later task with the same id is rejected. |
| Queue.Readable | src/queue/index.ts:232-236 | The valid files are exactly the readable scanned files. |
| Queue.KeepError | src/queue/index.ts:71-84 | A status update replaces the error only when a truthy message is given. |
| Queue.LifecycleOutcomes | src/queue/index.ts:190-338 | A processed task always ends COMPLETED or SKIPPED. It is COMPLETED if and only if the upload succeeded and the final status call worked. A failed upload puts the row back to pending. The directory is deleted only on completion. Feishu is called if and only if an upload was attempted. |
| Queue.AsWrittenItem | src/queue/index.ts:259-264 | As called, the checkpoint key is `undefined` for every task. |
| Queue.OwnItem | src/queue/index.ts:259-264 | The corrected call keys the checkpoint by the task's own record id, date and account. |
| Queue.FailingBatch | src/uploader/index.ts:122-185 | A batch whose every attempt fails ends exhausted. |
| Queue.SharedKeySkipsBatches | src/queue/index.ts:259-264 | As written, record B resumes from record A's checkpoint. B is reported as a full success although its first two batches never uploaded. |
| Queue.OtherRecordsCheckpointIgnored | src/queue/index.ts:259-264 | With each task's own key, another record's checkpoint does not change a task's upload result. |
| Queue.CleanupKeepsIndex | src/queue/index.ts:109-127 | After cleanup the index holds exactly the kept tasks. |
| Queue.DropFinished | src/queue/index.ts:109-127 | The cleanup loop keeps the unfinished tasks and drops exactly the finished tasks' index entries. |
| Queue.TaskQueue.constructor | src/queue/index.ts:12-14 | A new queue is empty and not processing. |
| Queue.TaskQueue.AddTask | src/queue/index.ts:20-39 | A task is added if and only if its record id is not already indexed. It goes at the end of the queue and into the index. Otherwise nothing changes. |
| Queue.TaskQueue.AddTasks | src/queue/index.ts:44-54 | The queue grows by exactly the admitted tasks, and the count says how many. |
| Queue.TaskQueue.GetNextTask | src/queue/index.ts:59-66 | Returns the first PENDING task, or none if and only if there is none. |
| Queue.TaskQueue.UpdateTaskStatus | src/queue/index.ts:71-84 | Sets the status, keeps the previous error unless a truthy one is given, and changes nothing else. |
| Queue.TaskQueue.GetStats | src/queue/index.ts:89-104 | Each count is the number of tasks with that status, and they sum to the total. |
| Queue.TaskQueue.Cleanup | src/queue/index.ts:109-127 | The queue keeps its unfinished tasks in order. Every finished task leaves the index. |
| Queue.TaskQueue.StartProcessing | src/queue/index.ts:147-185 | Starting while processing does nothing. Otherwise the worker flag is set. |
| Queue.TaskQueue.ProcessTask | src/queue/index.ts:190-338 | The task's final status, error, Feishu calls, deletion and checkpoint store are those of the lifecycle. The lifecycle is applied to the scan, the readable files and the `uploadFiles` specification under the identity `item` the call passes: `AsWrittenItem(task)` as written, `OwnItem(task)` corrected. The checkpoint file is rewritten exactly when that upload writes one. |
| Queue.TaskQueue.ConcludeTask | src/queue/index.ts:266-337 | After the upload, following the "uploading" call: a reported failure leads to SKIPPED and the revert to "pending". A success leads to the "to be assetised" call, then to COMPLETED and deletion when that call succeeds, and to SKIPPED with the status-update error when it fails. A throw leads to SKIPPED with its message and no further call. |
| Queue.TaskQueue.WorkerStep | src/queue/index.ts:163-184 | One turn of the worker loop. With no PENDING task, nothing changes: no task, no store, no file, no Feishu call. Otherwise it processes the first PENDING task, which ends finished with the status, error, calls, deletion and checkpoint store of its lifecycle. The checkpoint file is rewritten exactly when the upload ran and wrote (`UploadWrites`), and is otherwise unchanged. The task's `localPath` and `mp4Files` are set from the scan when it found `.mp4` files, and are otherwise unchanged. Every other queued task is unchanged. |
| Queue.TaskQueue.IsRunning | src/queue/index.ts:132-134 | True if and only if the worker flag is set. |
| Queue.TaskQueue.Stop | src/queue/index.ts:139-142 | Clears the worker flag and leaves the queue unchanged. |
| Scheduling.IntervalMs | src/scheduler/index.ts:72 | The fetch period is the configured number of minutes in milliseconds. |
| Scheduling.MakeTasks | src/scheduler/index.ts:42-51 | Each record becomes a fresh PENDING task with that record's identity and an id from the generator. |
| Scheduling.IdSet | src/queue/index.ts:12-14 | The index keys are exactly the queued record ids. |
| Scheduling.Scheduler.constructor | src/scheduler/index.ts:18-22 | A new scheduler is stopped and has no timer. |
| Scheduling.Scheduler.FetchAndEnqueueTasks | src/scheduler/index.ts:27-66 | The queue is first cleaned. The records are those of the pagination specification. New tasks are admitted only for a non-empty successful fetch. A failure or an empty result adds nothing. |
| Scheduling.Scheduler.StartFetching | src/scheduler/index.ts:71-83 | The immediate fetch reads the pagination specification's records and leaves the queue cleaned, with the admitted new tasks when it brought records. Then the timer runs with the configured period. |
| Scheduling.Scheduler.StopFetching | src/scheduler/index.ts:88-94 | Afterwards there is no timer. |
| Scheduling.Scheduler.Start | src/scheduler/index.ts:99-113 | Starting while running does nothing: no fetch, and the timer, queue, index and worker flag are unchanged. Otherwise the scheduler runs, the immediate fetch updates the queue as `StartFetching` says, the timer is set and the worker flag is on. |
| Scheduling.Scheduler.Stop | src/scheduler/index.ts:118-130 | Stopping while stopped does nothing. Otherwise the timer is cleared and the worker told to stop. The queue is kept. |
| Scheduling.Scheduler.IsActive | src/scheduler/index.ts:135-137 | True if and only if the scheduler is running. |
| Scheduling.Scheduler.GetQueueStats | src/scheduler/index.ts:142-144 | The queue's status counts, summing to its length. |
| Scheduling.Scheduler.CleanupCompleted | src/scheduler/index.ts:149-151 | The queue keeps only its unfinished tasks, and the worker flag is unchanged. |

## Left out

- **The browser.** `page.goto`, the file input, button clicks, cancel buttons and sleeps are not driven by the model.
  - Their observable results are inputs:
    - `navigation` is the error text of a failed `goto`;
    - `AttemptObs` is one attempt: the reload that precedes it, whether the files were set, and the sequence of polls;
    - `PollObs` is one poll: the elapsed time, the bars, and whether the confirm click worked.
  - One elapsed reading serves both the polling-loop bound and the shortfall test. The ten-minute timeout is the poll sequence running out.
- **`waitForPageReady`** is not modelled on its own. It never throws, so it changes no outcome.
- **Clocks, timers and random delays.** `setInterval` is a `Timer` value holding its period, and timestamps come in as `now`.
- **Concurrency.** The scheduler's unawaited first fetch and the worker's endless `while` loop are not modelled as concurrent. The model has one worker turn (`WorkerStep`) and fetches made one at a time. `Scheduling.Scheduler.StartFetching` and `Scheduling.Scheduler.Start` complete the immediate fetch before they return, whereas the source starts it and moves on.
- **The file system** (`src/file/index.ts` is not part of this model). The directory scan is a `ScanResult` input and readability is a `readable` predicate. The result of `deleteDirectory` is not used, as in the source.
- **Feishu transport and authentication.** HTTP, the tenant token and its cache are not modelled. Each reply is a `Reply` value: either a transport error or an API code with its message and data. `batchUpdateStatus` is not modelled, because nothing in the core calls it.
- **Timestamp dates.** Converting a numeric date cell to `YYYY-MM-DD` in local time (src/feishu/api.ts:199-206) is the `localDate` parameter. `localDate` may return any string, so the model admits a numeric date that formats to `""` and drops its record; the source's `${year}-${month}-${day}` is never empty (an invalid timestamp gives `NaN-NaN-NaN`). The `try/catch` around `parseRecord` is not modelled: the model's parse cannot throw, since a `FeishuRecord` always has `fields`, so a record without `fields`, which the source's catch turns into `null` (src/feishu/api.ts:176-178, 221-227), is not represented.
- **Progress file I/O.** Reading and parsing the checkpoint file is a `FileRead` input, and writing is the `file` field. A failed write, which the source logs and ignores, and the directory creation are not modelled. `FileRead` holds either a parsed list of checkpoints or a failure that changes nothing. It cannot express a file that parses to a non-array, to `null`, or to a list with a `null` element: the source clears the map before its `forEach` (src/progress/index.ts:42-46), so such a file leaves the map empty or partly loaded rather than as it was.
- **Configuration file I/O.** Reading and parsing the JSON file is the `parsed` input. Both of the source's failures, a missing file and an invalid configuration, are rethrown under one wrapper message. The model keeps them apart as `LoadError` values and does not model the message text.
- **Configuration.Validate**: the model's `baseUploadUrl` is always a string. When a `douyin` section has no URL, the source's `includes` throws a `TypeError` instead of reporting errors, and the model does not represent that case.
- **Queue.TaskQueue.ProcessTask** / **Queue.TaskQueue.WorkerStep**: the checkpoint identity of the upload call is a parameter (`item`, or `keying` for the worker). As written, the source passes `AsWrittenItem(task)`: every task shares the `undefined` key, and consecutive records then share one checkpoint (see Findings). The contracts cover that case by instantiation. No lemma follows two records through two worker turns with the shared key. `Queue.SharedKeySkipsBatches` shows the effect at the level of `uploadFiles`.
- **Feishu.GetPendingRecords**: the model reads a finite sequence of replies whose last reply stops the loop (`Finite`). It assumes the loop terminates. The source's `while (hasMore)` loop never ends when the service keeps answering `has_more: true`. An example is `has_more: true` without a `page_token`: the next request then carries no token and fetches the first page again (`Feishu.MoreWithoutTokenRestarts`). This propagates to `Scheduling.Scheduler.FetchAndEnqueueTasks`, `StartFetching` and `Start`.
- **Numbers.** JSON numbers and the numeric settings (`batchSize`, `fetchIntervalMinutes`, the checkpoint counts) are modelled as integers. The source accepts any positive JSON number. A fractional `fetchIntervalMinutes` such as 0.5 gives a 30000 ms period, which `Scheduling.IntervalMs` cannot express. A fractional batch size would change the slicing.
- **Logging** (`src/logger`), the entry point `src/index.ts`, `validateUrl`/`extractAccountId` and the login check are not part of this model.
- **Douyin.BuildUploadUrl**: requires an account id without `$`, because JavaScript's `replace` expands `$` patterns in the replacement and the model does not. `Queue.TaskQueue.ProcessTask` and `Queue.TaskQueue.WorkerStep` inherit this requirement.
- **Task timestamps.** `createdAt`/`updatedAt` are not modelled. Task ids come from the `newId` parameter, which stands for the uuid generator.
- **Upload.Uploader.Close**: an error while closing the browser, which the source logs, is not modelled.
- **Upload.Uploader.Initialize**: in the source, a failure of `bringToFront` after the page was created leaves the page set. The model treats every failure as a failed launch that leaves the page state unchanged.
- **Upload.Uploader.constructor**: requires `batchSize > 0`, which validation guarantees before an uploader is built.
- **Queue.TaskQueue.UpdateTaskStatus**: requires the task to be queued. The method is private, and every caller passes a queued task.
- **Status calls.** The "uploading" and revert-to-"pending" Feishu calls are recorded in `calls`. Whether they succeed is ignored, as in the source. Only the success of the final "to be assetised" call is an input (`finalStatusOk`).
- **Batch success rule.** A batch succeeds when every progress bar found succeeded and there are at least as many bars as files (src/uploader/index.ts:377-380). The model states this `>=` rule as the code has it.

## Findings

| source | as written | input that shows it | evidently intended | confidence | as-written member | corrected member |
|---|---|---|---|---|---|---|
| src/queue/index.ts:259-264 | `processTask` passes four arguments to `uploadFiles`, which declares seven (src/uploader/index.ts:485-493). The record id, date and account arrive `undefined`, so every task reads and writes the same checkpoint key. | A checkpoint left by record A at 2 of 3 batches. Record B then has three one-file batches whose first two always fail. B resumes at batch 2 and is reported as a success with 3 of 3 batches. | Each task keys its checkpoint by its own record id, and passes its date and account. | not executed | Queue.SharedKeySkipsBatches | Queue.OtherRecordsCheckpointIgnored |

`Queue.AsWrittenItem` is the identity the call passes as written, and
`Queue.OwnItem` is the corrected one. `Queue.TaskQueue.ProcessTask` takes the
identity as a parameter, so its contract covers both.
