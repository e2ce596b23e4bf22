/**
 * The task queue: an insertion-ordered array of tasks with an index by
 * record identifier, a first-pending scan, counts by status, removal of
 * finished tasks, and the per-task state machine run by the worker.
 */
module Queue {
  import opened Types
  import Douyin
  import opened Upload
  import Progress

  /** The record identifiers of `tasks`, in order. */
  function Ids(tasks: seq<Task>): (ids: seq<string>)
    ensures |ids| == |tasks|
    ensures forall i :: 0 <= i < |tasks| ==> ids[i] == tasks[i].recordId
  {
    seq(|tasks|, i requires 0 <= i < |tasks| => tasks[i].recordId)
  }

  predicate Distinct(ids: seq<string>)
  {
    forall i, j :: 0 <= i < j < |ids| ==> ids[i] != ids[j]
  }

  /** The statuses of `tasks`, in order, as they stand now. */
  function Statuses(tasks: seq<Task>): (ss: seq<TaskStatus>)
    reads tasks
    ensures |ss| == |tasks|
    ensures forall i :: 0 <= i < |tasks| ==> ss[i] == tasks[i].status
    decreases |tasks|
  {
    if tasks == [] then [] else [tasks[0].status] + Statuses(tasks[1..])
  }

  /** The number of entries equal to `s`. */
  function Count(ss: seq<TaskStatus>, s: TaskStatus): (n: nat)
    ensures n <= |ss|
    decreases |ss|
  {
    if ss == [] then 0 else (if ss[0] == s then 1 else 0) + Count(ss[1..], s)
  }

  /** Every status is one of the four, so the four counts add up to the length. */
  lemma {:induction false} CountsAddUp(ss: seq<TaskStatus>)
    ensures Count(ss, PENDING) + Count(ss, RUNNING) + Count(ss, COMPLETED) + Count(ss, SKIPPED) == |ss|
    decreases |ss|
  {
    if ss != [] {
      CountsAddUp(ss[1..]);
    }
  }

  /** The position of the first entry equal to `s`, or the length when there is none. */
  function FirstWith(ss: seq<TaskStatus>, s: TaskStatus): (k: nat)
    ensures k <= |ss|
    ensures k < |ss| ==> ss[k] == s
    ensures forall j :: 0 <= j < k ==> ss[j] != s
    decreases |ss|
  {
    if ss == [] then 0 else if ss[0] == s then 0 else 1 + FirstWith(ss[1..], s)
  }

  /** The tasks not COMPLETED or SKIPPED, in their order (`cleanup`'s filter). */
  function Unfinished(tasks: seq<Task>): seq<Task>
    reads tasks
    decreases |tasks|
  {
    if tasks == [] then []
    else
      var last := tasks[|tasks| - 1];
      Unfinished(tasks[..|tasks| - 1]) + (if IsFinished(last.status) then [] else [last])
  }

  /** A task survives `cleanup` exactly when it was queued and is not finished; none is finished afterwards. */
  lemma {:induction false} UnfinishedMembers(tasks: seq<Task>)
    ensures forall t | t in Unfinished(tasks) :: t in tasks && !IsFinished(t.status)
    ensures forall j | 0 <= j < |tasks| && !IsFinished(tasks[j].status) :: tasks[j] in Unfinished(tasks)
    decreases |tasks|
  {
    if tasks != [] {
      var init := tasks[..|tasks| - 1];
      UnfinishedMembers(init);
      assert tasks == init + [tasks[|tasks| - 1]];
    }
  }

  /** Filtering keeps distinct identifiers distinct. */
  lemma {:induction false} UnfinishedDistinct(tasks: seq<Task>)
    requires Distinct(Ids(tasks))
    ensures Distinct(Ids(Unfinished(tasks)))
    decreases |tasks|
  {
    if tasks != [] {
      var init := tasks[..|tasks| - 1];
      var last := tasks[|tasks| - 1];
      assert Ids(init) == Ids(tasks)[..|tasks| - 1];
      UnfinishedDistinct(init);
      UnfinishedMembers(init);
      if !IsFinished(last.status) {
        var u := Unfinished(init);
        forall i | 0 <= i < |u|
          ensures u[i].recordId != last.recordId
        {
          assert u[i] in u;
          assert u[i] in init;
          var j :| 0 <= j < |init| && init[j] == u[i];
          assert tasks[j] == u[i];
        }
      }
    }
  }

  /** Whether an optional message is a non-empty string (truthy in JavaScript). */
  predicate Present(message: Option<string>)
  {
    message.Some? && message.value != ""
  }

  /** The tasks of `tasks` that `addTasks` appends to a queue whose identifiers are `known`. */
  function Admitted(known: set<string>, tasks: seq<Task>): seq<Task>
    decreases |tasks|
  {
    if tasks == [] then []
    else
      var prev := Admitted(known, tasks[..|tasks| - 1]);
      var t := tasks[|tasks| - 1];
      if t.recordId in known || t.recordId in Ids(prev) then prev else prev + [t]
  }

  /** The identifiers of a concatenation. */
  lemma IdsAppend(a: seq<Task>, b: seq<Task>)
    ensures Ids(a + b) == Ids(a) + Ids(b)
  {
  }

  /** Offering one more task: it is appended unless its identifier is already known or taken. */
  lemma AdmitNext(known: set<string>, tasks: seq<Task>, i: nat)
    requires i < |tasks|
    ensures var prev, t := Admitted(known, tasks[..i]), tasks[i];
      Admitted(known, tasks[..i + 1]) == if t.recordId in known || t.recordId in Ids(prev) then prev else prev + [t]
  {
    assert tasks[..i + 1][..i] == tasks[..i];
  }

  /**
   * `addTasks` admits only batch tasks with identifiers not yet queued, admits
   * some task for every such identifier, and the admitted identifiers are
   * distinct. Which task and in what order is `AdmittedInOrder`.
   */
  lemma {:induction false} AdmittedExactly(known: set<string>, tasks: seq<Task>)
    ensures var a := Admitted(known, tasks);
      && Distinct(Ids(a))
      && (forall t :: t in a ==> t in tasks && t.recordId !in known)
      && (forall i :: 0 <= i < |tasks| && tasks[i].recordId !in known ==> tasks[i].recordId in Ids(a))
    decreases |tasks|
  {
    if tasks != [] {
      var init := tasks[..|tasks| - 1];
      AdmittedExactly(known, init);
      var prev := Admitted(known, init);
      var t := tasks[|tasks| - 1];
      if !(t.recordId in known || t.recordId in Ids(prev)) {
        assert Ids(prev + [t]) == Ids(prev) + [t.recordId];
      }
      forall i | 0 <= i < |tasks| && tasks[i].recordId !in known
        ensures tasks[i].recordId in Ids(Admitted(known, tasks))
      {
        if i < |tasks| - 1 {
          assert tasks[i] == init[i];
          assert tasks[i].recordId in Ids(prev);
          if !(t.recordId in known || t.recordId in Ids(prev)) {
            assert Ids(prev + [t]) == Ids(prev) + [t.recordId];
          }
        } else if !(t.recordId in known || t.recordId in Ids(prev)) {
          assert Ids(prev + [t]) == Ids(prev) + [t.recordId];
        }
      }
    }
  }

  /** Task `i` of a batch is the first of the batch with its identifier, and that identifier is not queued. */
  predicate FirstNew(known: set<string>, tasks: seq<Task>, i: nat)
    requires i < |tasks|
  {
    tasks[i].recordId !in known && forall j :: 0 <= j < i ==> tasks[j].recordId != tasks[i].recordId
  }

  /** The positions of the batch's `FirstNew` tasks, in increasing order. */
  function FirstNewIndices(known: set<string>, tasks: seq<Task>): (idx: seq<nat>)
    ensures forall k :: 0 <= k < |idx| ==> idx[k] < |tasks|
    ensures forall k, l :: 0 <= k < l < |idx| ==> idx[k] < idx[l]
    ensures forall i :: 0 <= i < |tasks| ==> (i in idx <==> FirstNew(known, tasks, i))
    decreases |tasks|
  {
    if tasks == [] then []
    else
      var n := |tasks| - 1;
      assert forall i :: 0 <= i < n ==> (FirstNew(known, tasks[..n], i) <==> FirstNew(known, tasks, i));
      FirstNewIndices(known, tasks[..n]) + if FirstNew(known, tasks, n) then [n] else []
  }

  /** The last task of a batch is admitted exactly when it is the first of the batch with its new identifier. */
  lemma AdmitsLastIffFirstNew(known: set<string>, tasks: seq<Task>)
    requires tasks != []
    ensures var n := |tasks| - 1;
      (tasks[n].recordId in known || tasks[n].recordId in Ids(Admitted(known, tasks[..n]))) <==>
      !FirstNew(known, tasks, n)
  {
    var n := |tasks| - 1;
    var init := tasks[..n];
    AdmittedExactly(known, init);
    var prev := Admitted(known, init);
    var t := tasks[n];
    if t.recordId !in known {
      if t.recordId in Ids(prev) {
        var k :| 0 <= k < |prev| && Ids(prev)[k] == t.recordId;
        var j :| 0 <= j < |init| && init[j] == prev[k];
        assert tasks[j].recordId == t.recordId;
      } else {
        forall j | 0 <= j < n
          ensures tasks[j].recordId != t.recordId
        {
          assert init[j] == tasks[j];
        }
      }
    }
  }

  /**
   * `addTasks` admits the first task of each new identifier, in batch order,
   * and nothing else: a later task with the same identifier is rejected.
   */
  lemma {:induction false} AdmittedInOrder(known: set<string>, tasks: seq<Task>)
    ensures var a, idx := Admitted(known, tasks), FirstNewIndices(known, tasks);
      && |a| == |idx|
      && (forall k :: 0 <= k < |a| ==> a[k] == tasks[idx[k]])
      && (forall i :: 0 <= i < |tasks| && FirstNew(known, tasks, i) ==> tasks[i] in a)
    decreases |tasks|
  {
    if tasks != [] {
      var n := |tasks| - 1;
      var init := tasks[..n];
      AdmittedInOrder(known, init);
      AdmitsLastIffFirstNew(known, tasks);
      var prev, idx0 := Admitted(known, init), FirstNewIndices(known, init);
      var a, idx := Admitted(known, tasks), FirstNewIndices(known, tasks);
      assert idx == idx0 + if FirstNew(known, tasks, n) then [n] else [];
      assert a == if FirstNew(known, tasks, n) then prev + [tasks[n]] else prev;
      forall k | 0 <= k < |a|
        ensures a[k] == tasks[idx[k]]
      {
        if k < |prev| {
          assert a[k] == prev[k] == init[idx0[k]];
        }
      }
      forall i | 0 <= i < |tasks| && FirstNew(known, tasks, i)
        ensures tasks[i] in a
      {
        var k :| 0 <= k < |idx| && idx[k] == i;
        assert a[k] == tasks[i];
      }
    }
  }

  /** `getStats`. */
  datatype Stats = Stats(total: nat, pending: nat, running: nat, completed: nat, skipped: nat)

  /** What `scanDramaDirectory` reports. */
  datatype ScanResult = ScanResult(found: bool, path: string, mp4Files: seq<string>, error: Option<string>)

  /** The Feishu statuses the worker writes. */
  const Uploading := "上传中"
  const ToUpload := "待上传"
  const ToAssetise := "待资产化"
  const NoReadableFiles := "没有可读的 MP4 文件"
  const StatusUpdateFailed := "飞书状态更新失败"

  /** `validateFiles`' valid part: the readable files, in order. */
  function Readable(files: seq<string>, readable: string -> bool): (valid: seq<string>)
    ensures |valid| <= |files|
    ensures forall f :: f in valid <==> f in files && readable(f)
    decreases |files|
  {
    if files == [] then []
    else (if readable(files[0]) then [files[0]] else []) + Readable(files[1..], readable)
  }

  /** `updateTaskStatus`' rule for the error field: only a truthy message replaces it. */
  function KeepError(previous: Option<string>, message: Option<string>): (e: Option<string>)
    ensures Present(message) ==> e == message
    ensures !Present(message) ==> e == previous
  {
    if Present(message) then message else previous
  }

  /** What processing a task does: its final status and error, the Feishu status writes, the directory deleted. */
  datatype TaskEffect = TaskEffect(status: TaskStatus, error: Option<string>, calls: seq<string>,
                                   deleted: Option<string>)

  /** Whether processing gets as far as uploading. */
  predicate ReachesUpload(scan: ScanResult, valid: seq<string>)
  {
    scan.found && scan.mp4Files != [] && valid != []
  }

  /** The `processTask` state machine, given its collaborators' answers. */
  function Lifecycle(scan: ScanResult, valid: seq<string>, upload: UploadCall, finalStatusOk: bool,
                     previous: Option<string>): TaskEffect
  {
    if !scan.found || scan.mp4Files == [] then
      TaskEffect(SKIPPED, KeepError(previous, scan.error), [], None)
    else if valid == [] then
      TaskEffect(SKIPPED, KeepError(previous, Some(NoReadableFiles)), [], None)
    else
      AfterUpload(upload, finalStatusOk, previous, scan.path)
  }

  /** The state machine from the upload call on: `path` is the scanned directory. */
  function AfterUpload(upload: UploadCall, finalStatusOk: bool, previous: Option<string>, path: string): TaskEffect
  {
    match upload
    case Thrown(message) =>
      TaskEffect(SKIPPED, KeepError(previous, Some(message)), [Uploading], None)
    case Returned(result) =>
      if !result.success then
        TaskEffect(SKIPPED, KeepError(previous, result.error), [Uploading, ToUpload], None)
      else if finalStatusOk then
        TaskEffect(COMPLETED, previous, [Uploading, ToAssetise], if path != "" then Some(path) else None)
      else
        TaskEffect(SKIPPED, KeepError(previous, Some(StatusUpdateFailed)), [Uploading, ToAssetise], None)
  }

  /**
   * Processing always ends COMPLETED or SKIPPED; COMPLETED exactly when the
   * upload succeeded and the final status write went through; a failed
   * upload reverts the Feishu status; only a completed task's directory is
   * deleted; no status is written before the scan and the readability check pass.
   */
  lemma LifecycleOutcomes(scan: ScanResult, valid: seq<string>, upload: UploadCall, finalStatusOk: bool,
                          previous: Option<string>)
    ensures var e := Lifecycle(scan, valid, upload, finalStatusOk, previous);
      && IsFinished(e.status)
      && (e.status == COMPLETED <==> ReachesUpload(scan, valid) && upload.Returned? &&
                                     upload.result.success && finalStatusOk)
      && (ReachesUpload(scan, valid) && upload.Returned? && !upload.result.success ==>
            e.calls == [Uploading, ToUpload])
      && (e.deleted.Some? ==> e.status == COMPLETED && e.deleted == Some(scan.path))
      && (!ReachesUpload(scan, valid) <==> e.calls == [])
      && (e.calls != [] ==> e.calls[0] == Uploading)
  {
  }

  // ---------------------------------------------------------------------------
  // The uploader's checkpoint key at the call site
  // ---------------------------------------------------------------------------

  /**
   * The identity the upload call passes, as written: only the URL, files,
   * task id and drama are passed, so the record identifier, date and
   * account arrive `undefined`.
   */
  function AsWrittenItem(task: Task): (item: Item)
    ensures item.key == Undefined && item.drama == task.drama
  {
    Item(Undefined, task.drama, Undefined, Undefined)
  }

  /** The identity the call evidently means to pass: the task's own record. */
  function OwnItem(task: Task): (item: Item)
    ensures item.key == Defined(task.recordId) && item.drama == task.drama
    ensures item.date == Defined(task.date) && item.account == Defined(task.account)
  {
    Item(Defined(task.recordId), task.drama, Defined(task.date), Defined(task.account))
  }

  /** An attempt whose setup step fails. */
  function Failing(): AttemptObs { AttemptObs(None, false, []) }
  /** An attempt whose first poll shows its one file done and the confirm click working. */
  function Succeeding(): AttemptObs { AttemptObs(None, true, [Bars(1000, [true], true)]) }

  /** A one-file batch all of whose attempts fail is given up after ten attempts. */
  lemma FailingBatch(attempts: (nat, nat) -> AttemptObs, batch: nat)
    requires forall r: nat :: attempts(batch, r) == Failing()
    ensures BatchOutcomeOf(attempts, batch, 1) == Exhausted
  {
    TryFromFirstSuccess(attempts, batch, 0, 1);
  }

  /**
   * With the shared key, a checkpoint left by one record ("A": 2 of 3
   * batches done) makes another record ("B", also 3 batches) start at its
   * third batch: B is reported fully uploaded although every attempt at its
   * first two batches failed.
   */
  lemma SharedKeySkipsBatches()
    ensures var cp := Progress.UploadProgress(Undefined, "A", Undefined, Undefined, 3, 2, "t0");
      var st := Progress.Put(Progress.Empty, Undefined, cp);
      var attempts := (b: nat, r: nat) => if b == 2 then Succeeding() else Failing();
      var env := UploadEnv(None, attempts, "t1");
      var item := Item(Undefined, "B", Undefined, Undefined);
      && BatchOutcomeOf(attempts, 0, 1) == Exhausted
      && BatchOutcomeOf(attempts, 1, 1) == Exhausted
      && UploadFilesSpec(true, st, ["b1", "b2", "b3"], 1, item, env).call ==
           Returned(UploadResult(true, 3, 3, None))
  {
    var cp := Progress.UploadProgress(Undefined, "A", Undefined, Undefined, 3, 2, "t0");
    var st := Progress.Put(Progress.Empty, Undefined, cp);
    var attempts := (b: nat, r: nat) => if b == 2 then Succeeding() else Failing();
    var env := UploadEnv(None, attempts, "t1");
    var item := Item(Undefined, "B", Undefined, Undefined);
    var files := ["b1", "b2", "b3"];
    FailingBatch(attempts, 0);
    FailingBatch(attempts, 1);
    var batches := [["b1"], ["b2"], ["b3"]];
    assert files[1..] == ["b2", "b3"] && files[1..][..1] == ["b2"] && files[1..][1..] == ["b3"];
    assert files[..1] == ["b1"] && files[2..] == ["b3"];
    assert Partition(files[2..], 1) == [["b3"]];
    assert Partition(files[1..], 1) == [["b2"]] + Partition(files[2..], 1);
    assert Partition(files, 1) == batches;
    assert Saved(st, Undefined) == Some(cp);
    assert attempts(2, 0) == Succeeding();
    assert PollDecision(Bars(1000, [true], true), 1) == Settle(AttemptResult(true, 1));
    assert AttemptResultOf(Succeeding(), 1).success;
    assert BatchOutcomeOf(attempts, 2, 1) == Uploaded;
    var st' := Progress.Put(st, Undefined, Checkpoint(item, 3, 3, "t1"));
    assert Run(st', batches, 3, item, env) == (AllDone, st');
    assert Run(st, batches, 2, item, env) == (AllDone, st');
  }

  /**
   * With each task's own key, another record's checkpoint has no effect on
   * this task's upload result.
   */
  lemma OtherRecordsCheckpointIgnored(pageOpen: bool, st: Progress.Store, other: string, cp: Progress.UploadProgress,
                                      task: Task, files: seq<string>, batchSize: nat, env: UploadEnv)
    requires batchSize > 0 && other != task.recordId
    ensures UploadFilesSpec(pageOpen, Progress.Put(st, Defined(other), cp), files, batchSize, OwnItem(task), env).call ==
            UploadFilesSpec(pageOpen, st, files, batchSize, OwnItem(task), env).call
  {
    Progress.PutTouchesOnlyItsKey(st, Defined(other), cp, Defined(task.recordId));
    ResultDependsOnlyOnOwnKey(pageOpen, Progress.Put(st, Defined(other), cp), st, files, batchSize, OwnItem(task), env);
  }

  /** Queued identifiers are distinct and are exactly the index's keys, each indexing its own task. */
  ghost predicate Indexed(queue: seq<Task>, taskMap: map<string, Task>)
  {
    && Distinct(Ids(queue))
    && (forall k :: k in taskMap <==> k in Ids(queue))
    && (forall i :: 0 <= i < |queue| ==> taskMap[queue[i].recordId] == queue[i])
  }

  /** Dropping the finished tasks' identifiers from the index leaves an index of the unfinished tasks. */
  lemma CleanupKeepsIndex(q: seq<Task>, m0: map<string, Task>, m: map<string, Task>)
    requires Indexed(q, m0)
    requires forall k :: k in m ==> k in m0 && m[k] == m0[k]
    requires forall j :: 0 <= j < |q| ==> (q[j].recordId in m <==> q[j].recordId in m0 && !IsFinished(q[j].status))
    ensures Indexed(Unfinished(q), m)
  {
    UnfinishedDistinct(q);
    UnfinishedMembers(q);
    forall j | 0 <= j < |q|
      ensures q[j].recordId in m0
    {
      assert Ids(q)[j] == q[j].recordId;
    }
    KeptKeysIndexed(q, m0, m);
    KeptTasksIndexed(q, m0, m);
  }

  lemma KeptKeysIndexed(q: seq<Task>, m0: map<string, Task>, m: map<string, Task>)
    requires Indexed(q, m0)
    requires forall k :: k in m ==> k in m0
    requires forall j :: 0 <= j < |q| ==> (q[j].recordId in m <==> !IsFinished(q[j].status))
    requires forall j | 0 <= j < |q| && !IsFinished(q[j].status) :: q[j] in Unfinished(q)
    ensures forall k :: k in m ==> k in Ids(Unfinished(q))
  {
    var kept := Unfinished(q);
    forall k | k in m
      ensures k in Ids(kept)
    {
      assert k in Ids(q);
      var j :| 0 <= j < |q| && Ids(q)[j] == k;
      assert q[j] in kept;
      var n :| 0 <= n < |kept| && kept[n] == q[j];
      assert Ids(kept)[n] == k;
    }
  }

  lemma KeptTasksIndexed(q: seq<Task>, m0: map<string, Task>, m: map<string, Task>)
    requires Indexed(q, m0)
    requires forall k :: k in m ==> k in m0 && m[k] == m0[k]
    requires forall j :: 0 <= j < |q| ==> (q[j].recordId in m <==> !IsFinished(q[j].status))
    requires forall t | t in Unfinished(q) :: t in q && !IsFinished(t.status)
    ensures forall k :: k in Ids(Unfinished(q)) ==> k in m
    ensures forall n :: 0 <= n < |Unfinished(q)| ==> m[Unfinished(q)[n].recordId] == Unfinished(q)[n]
  {
    var kept := Unfinished(q);
    forall n | 0 <= n < |kept|
      ensures kept[n].recordId in m && m[kept[n].recordId] == kept[n]
    {
      assert kept[n] in kept;
      var j :| 0 <= j < |q| && q[j] == kept[n];
    }
    forall k | k in Ids(kept)
      ensures k in m
    {
      var n :| 0 <= n < |kept| && Ids(kept)[n] == k;
    }
  }

  /** One step of the cleanup loop: removing a finished task's identifier affects only that task's membership. */
  lemma DropStep(q: seq<Task>, m: map<string, Task>, i: nat)
    requires Distinct(Ids(q)) && i < |q|
    ensures forall j :: 0 <= j < |q| && j != i ==> (q[j].recordId in m - {q[i].recordId} <==> q[j].recordId in m)
  {
    forall j | 0 <= j < |q| && j != i
      ensures q[j].recordId != q[i].recordId
    {
      assert Ids(q)[j] != Ids(q)[i];
    }
  }

  /** The filter loop of `cleanup`: removes each finished task's identifier from the index and collects the others. */
  method DropFinished(q: seq<Task>, m: map<string, Task>) returns (kept: seq<Task>, index: map<string, Task>)
    requires Distinct(Ids(q))
    ensures kept == Unfinished(q)
    ensures forall k :: k in index ==> k in m && index[k] == m[k]
    ensures forall j :: 0 <= j < |q| ==> (q[j].recordId in index <==> q[j].recordId in m && !IsFinished(q[j].status))
  {
    kept, index := [], m;
    for i := 0 to |q|
      invariant kept == Unfinished(q[..i])
      invariant forall k :: k in index ==> k in m && index[k] == m[k]
      invariant forall j :: 0 <= j < |q| ==>
                  (q[j].recordId in index <==> q[j].recordId in m && (j >= i || !IsFinished(q[j].status)))
    {
      var task := q[i];
      assert q[..i + 1][..i] == q[..i];
      if task.status == COMPLETED || task.status == SKIPPED {
        DropStep(q, index, i);
        index := index - {task.recordId};
      } else {
        kept := kept + [task];
      }
    }
    assert q[..|q|] == q;
  }

  // ---------------------------------------------------------------------------
  // The queue object
  // ---------------------------------------------------------------------------

  class TaskQueue {
    var queue: seq<Task>
    var taskMap: map<string, Task>
    var isProcessing: bool

    ghost predicate Valid()
      reads this
    {
      Indexed(queue, taskMap)
    }

    constructor ()
      ensures Valid() && queue == [] && taskMap == map[] && !isProcessing
    {
      queue := [];
      taskMap := map[];
      isProcessing := false;
    }

    /** `addTask`: a new identifier is appended and indexed; a known one changes nothing. */
    method AddTask(task: Task) returns (added: bool)
      requires Valid()
      modifies this
      ensures Valid() && isProcessing == old(isProcessing)
      ensures added <==> task.recordId !in old(taskMap)
      ensures !added ==> queue == old(queue) && taskMap == old(taskMap)
      ensures added ==> queue == old(queue) + [task] && taskMap == old(taskMap)[task.recordId := task]
    {
      if task.recordId in taskMap {
        return false;
      }
      assert Ids(queue + [task]) == Ids(queue) + [task.recordId];
      queue := queue + [task];
      taskMap := taskMap[task.recordId := task];
      return true;
    }

    /** `addTasks`: adds each in turn and counts the ones added. */
    method AddTasks(tasks: seq<Task>) returns (addedCount: nat)
      requires Valid()
      modifies this
      ensures Valid() && isProcessing == old(isProcessing)
      ensures queue == old(queue) + Admitted(old(taskMap).Keys, tasks)
      ensures addedCount == |Admitted(old(taskMap).Keys, tasks)|
    {
      ghost var known := taskMap.Keys;
      ghost var queue0 := queue;
      addedCount := 0;
      for i := 0 to |tasks|
        invariant Valid() && isProcessing == old(isProcessing)
        invariant queue == queue0 + Admitted(known, tasks[..i])
        invariant addedCount == |Admitted(known, tasks[..i])|
      {
        var t := tasks[i];
        AdmitNext(known, tasks, i);
        IdsAppend(queue0, Admitted(known, tasks[..i]));
        var added := AddTask(t);
        if added {
          addedCount := addedCount + 1;
        }
      }
      assert tasks[..|tasks|] == tasks;
    }

    /** `getNextTask`: the first PENDING task in queue order, if any. */
    method GetNextTask() returns (next: Option<Task>)
      ensures var k := FirstWith(Statuses(queue), PENDING);
        && (k == |queue| <==> next.None?)
        && (k < |queue| ==> next == Some(queue[k]))
    {
      for i := 0 to |queue|
        invariant FirstWith(Statuses(queue), PENDING) >= i
      {
        if queue[i].status == PENDING {
          return Some(queue[i]);
        }
      }
      return None;
    }

    /** `updateTaskStatus`: sets the status, and the error only when the message is truthy. */
    method UpdateTaskStatus(task: Task, status: TaskStatus, error: Option<string>)
      requires Valid() && task in queue
      modifies this, task
      ensures Valid() && queue == old(queue) && taskMap == old(taskMap) && isProcessing == old(isProcessing)
      ensures task.status == status && task.error == KeepError(old(task.error), error)
      ensures task.localPath == old(task.localPath) && task.mp4Files == old(task.mp4Files)
    {
      task.status := status;
      if Present(error) {
        task.error := error;
      }
      taskMap := taskMap[task.recordId := task];
    }

    /** `getStats`: the queue length and the number of tasks in each status. */
    function GetStats(): (r: Stats)
      reads this, queue
      ensures r.total == |queue|
      ensures r.pending + r.running + r.completed + r.skipped == r.total
      ensures r.pending == Count(Statuses(queue), PENDING) && r.skipped == Count(Statuses(queue), SKIPPED)
      ensures r.running == Count(Statuses(queue), RUNNING) && r.completed == Count(Statuses(queue), COMPLETED)
    {
      var ss := Statuses(queue);
      CountsAddUp(ss);
      Stats(|queue|, Count(ss, PENDING), Count(ss, RUNNING), Count(ss, COMPLETED), Count(ss, SKIPPED))
    }

    /** `cleanup`: finished tasks leave the queue and the index; the others stay in order. */
    method Cleanup()
      requires Valid()
      modifies this
      ensures Valid() && isProcessing == old(isProcessing)
      ensures queue == Unfinished(old(queue))
      ensures forall j :: 0 <= j < |old(queue)| && IsFinished(old(queue)[j].status) ==> old(queue)[j].recordId !in taskMap
    {
      var kept, index := DropFinished(queue, taskMap);
      CleanupKeepsIndex(queue, taskMap, index);
      queue, taskMap := kept, index;
    }

    /** `startProcessing`'s guard: starting while already running does nothing. */
    method StartProcessing() returns (started: bool)
      requires Valid()
      modifies this
      ensures Valid() && queue == old(queue) && taskMap == old(taskMap)
      ensures started <==> !old(isProcessing)
      ensures isProcessing
    {
      if isProcessing {
        return false;
      }
      isProcessing := true;
      return true;
    }

    /**
     * `processTask`: the task runs, then ends SKIPPED or COMPLETED as the
     * scan, the readable files, the upload and the final Feishu status write
     * decide. Returns the Feishu statuses written, in order, and the
     * directory deleted, if any. `item` is the identity the upload call
     * passes: `AsWrittenItem(task)` as the call is written, `OwnItem(task)`
     * keyed by the task's own record.
     */
    method ProcessTask(task: Task, template: string, scan: ScanResult, readable: string -> bool,
                       finalStatusOk: bool, uploader: Uploader, env: UploadEnv, item: Item)
      returns (calls: seq<string>, deleted: Option<string>)
      requires Valid() && task in queue && uploader.Valid() && Douyin.NoDollar(task.account)
      modifies this, task, uploader.progress
      ensures Valid() && queue == old(queue) && taskMap == old(taskMap) && isProcessing == old(isProcessing)
      ensures uploader.Valid()
      ensures var valid := Readable(scan.mp4Files, readable);
        var upload := UploadFilesSpec(uploader.pageOpen, old(uploader.progress.progressMap), valid,
                                      uploader.batchSize, item, env);
        var e := Lifecycle(scan, valid, upload.call, finalStatusOk, old(task.error));
        var written := ReachesUpload(scan, valid) &&
                       UploadWrites(uploader.pageOpen, old(uploader.progress.progressMap), valid,
                                    uploader.batchSize, item, env);
        && task.status == e.status && task.error == e.error && calls == e.calls && deleted == e.deleted
        && uploader.progress.progressMap ==
             (if ReachesUpload(scan, valid) then upload.store else old(uploader.progress.progressMap))
        && (written ==> uploader.progress.file == Progress.Values(uploader.progress.progressMap))
        && (!written ==> uploader.progress.file == old(uploader.progress.file))
      ensures scan.found && scan.mp4Files != [] ==>
                task.localPath == Some(scan.path) && task.mp4Files == Some(scan.mp4Files)
      ensures !(scan.found && scan.mp4Files != []) ==>
                task.localPath == old(task.localPath) && task.mp4Files == old(task.mp4Files)
    {
      UpdateTaskStatus(task, RUNNING, None);
      if !scan.found || |scan.mp4Files| == 0 {
        UpdateTaskStatus(task, SKIPPED, scan.error);
        return [], None;
      }
      task.localPath := Some(scan.path);
      task.mp4Files := Some(scan.mp4Files);
      var valid := Readable(scan.mp4Files, readable);
      if |valid| == 0 {
        UpdateTaskStatus(task, SKIPPED, Some(NoReadableFiles));
        return [], None;
      }
      var uploadUrl := Douyin.BuildUploadUrl(template, task.account);
      var uploadResult := uploader.UploadFiles(uploadUrl, valid, task.id, item, env);
      calls, deleted := ConcludeTask(task, uploadResult, finalStatusOk, scan.path);
    }

    /** The part of `processTask` after the upload call returns or throws. */
    method ConcludeTask(task: Task, uploadResult: UploadCall, finalStatusOk: bool, ghost path: string)
      returns (calls: seq<string>, deleted: Option<string>)
      requires Valid() && task in queue && task.localPath == Some(path)
      modifies this, task
      ensures Valid() && queue == old(queue) && taskMap == old(taskMap) && isProcessing == old(isProcessing)
      ensures var e := AfterUpload(uploadResult, finalStatusOk, old(task.error), path);
        task.status == e.status && task.error == e.error && calls == e.calls && deleted == e.deleted
      ensures task.localPath == old(task.localPath) && task.mp4Files == old(task.mp4Files)
    {
      calls := [Uploading];
      deleted := None;
      match uploadResult
      case Thrown(message) =>
        UpdateTaskStatus(task, SKIPPED, Some(message));
      case Returned(result) =>
        if !result.success {
          UpdateTaskStatus(task, SKIPPED, result.error);
          calls := calls + [ToUpload];
        } else {
          calls := calls + [ToAssetise];
          if finalStatusOk {
            UpdateTaskStatus(task, COMPLETED, None);
            if task.localPath.Some? && task.localPath.value != "" {
              deleted := task.localPath;
            }
          } else {
            UpdateTaskStatus(task, SKIPPED, Some(StatusUpdateFailed));
          }
        }
    }

    /**
     * One turn of the worker loop: the first pending task, if there is one,
     * is processed and nothing else changes; with none, nothing changes at
     * all. `keying` gives the identity each upload call passes.
     */
    method WorkerStep(template: string, scan: ScanResult, readable: string -> bool, finalStatusOk: bool,
                      uploader: Uploader, env: UploadEnv, keying: Task -> Item)
      returns (processed: Option<Task>, calls: seq<string>, deleted: Option<string>)
      requires Valid() && uploader.Valid()
      requires forall i :: 0 <= i < |queue| ==> Douyin.NoDollar(queue[i].account)
      modifies this, queue, uploader.progress
      ensures Valid() && queue == old(queue) && taskMap == old(taskMap) && isProcessing == old(isProcessing)
      ensures uploader.Valid()
      ensures var k := old(FirstWith(Statuses(queue), PENDING));
        && (processed.None? <==> k == |queue|)
        && (processed.Some? ==> k < |queue| && processed.value == queue[k])
      ensures forall t | t in queue && processed != Some(t) :: unchanged(t)
      ensures processed.None? ==>
                && calls == [] && deleted == None
                && uploader.progress.progressMap == old(uploader.progress.progressMap)
                && uploader.progress.file == old(uploader.progress.file)
      ensures processed.Some? ==>
                var task := processed.value;
                var valid := Readable(scan.mp4Files, readable);
                var upload := UploadFilesSpec(uploader.pageOpen, old(uploader.progress.progressMap), valid,
                                              uploader.batchSize, keying(task), env);
                var e := Lifecycle(scan, valid, upload.call, finalStatusOk, old(task.error));
                && IsFinished(task.status)
                && task.status == e.status && task.error == e.error && calls == e.calls && deleted == e.deleted
                && uploader.progress.progressMap ==
                     (if ReachesUpload(scan, valid) then upload.store else old(uploader.progress.progressMap))
      ensures processed.Some? ==>
                var valid := Readable(scan.mp4Files, readable);
                var written := ReachesUpload(scan, valid) &&
                               UploadWrites(uploader.pageOpen, old(uploader.progress.progressMap), valid,
                                            uploader.batchSize, keying(processed.value), env);
                && (written ==> uploader.progress.file == Progress.Values(uploader.progress.progressMap))
                && (!written ==> uploader.progress.file == old(uploader.progress.file))
      ensures processed.Some? && scan.found && scan.mp4Files != [] ==>
                processed.value.localPath == Some(scan.path) && processed.value.mp4Files == Some(scan.mp4Files)
      ensures processed.Some? && !(scan.found && scan.mp4Files != []) ==>
                processed.value.localPath == old(processed.value.localPath) &&
                processed.value.mp4Files == old(processed.value.mp4Files)
    {
      ghost var k := FirstWith(Statuses(queue), PENDING);
      calls, deleted := [], None;
      processed := GetNextTask();
      assert processed.None? <==> k == |queue|;
      if processed.Some? {
        var task := processed.value;
        ghost var store, error := uploader.progress.progressMap, task.error;
        calls, deleted := ProcessTask(task, template, scan, readable, finalStatusOk, uploader, env, keying(task));
        var valid := Readable(scan.mp4Files, readable);
        LifecycleOutcomes(scan, valid, UploadFilesSpec(uploader.pageOpen, store, valid, uploader.batchSize,
                                                       keying(task), env).call, finalStatusOk, error);
      }
    }

    /** `isRunning`. */
    function IsRunning(): (r: bool)
      reads this
      ensures r <==> isProcessing
    {
      isProcessing
    }

    /** `stop`: the worker loop ends at its next check. */
    method Stop()
      modifies this
      ensures !isProcessing && queue == old(queue) && taskMap == old(taskMap)
    {
      isProcessing := false;
    }
  }
}
