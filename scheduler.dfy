/**
 * The scheduler: a fixed-interval fetcher that moves pending Feishu records
 * into the task queue, and the start/stop flag logic around it and the worker.
 */
module Scheduling {
  import opened Types
  import Feishu
  import Queue

  /** The repeating timer `setInterval` creates, by its period. */
  datatype Timer = Timer(intervalMs: int)

  /** The fetch period: minutes to milliseconds. */
  function IntervalMs(fetchIntervalMinutes: int): (ms: int)
    ensures fetchIntervalMinutes > 0 ==> ms >= 60000
    ensures ms / 60000 == fetchIntervalMinutes && ms % 60000 == 0
  {
    fetchIntervalMinutes * 60 * 1000
  }

  /** A task made from `record`: a fresh id, the record's identity, PENDING, nothing else set. */
  ghost predicate Describes(task: Task, record: FeishuRecordData, id: string)
    reads task
  {
    && task.id == id && task.recordId == record.recordId && task.drama == record.drama
    && task.date == record.date && task.account == record.account
    && task.status == PENDING && task.localPath == None && task.mp4Files == None && task.error == None
  }

  /** The `records.map` that turns each record into a new PENDING task; `newId` stands for the uuid generator. */
  method MakeTasks(records: seq<FeishuRecordData>, newId: nat -> string) returns (tasks: seq<Task>)
    ensures |tasks| == |records|
    ensures forall i :: 0 <= i < |records| ==> fresh(tasks[i]) && Describes(tasks[i], records[i], newId(i))
    ensures Queue.Ids(tasks) == RecordIds(records)
  {
    tasks := [];
    for i := 0 to |records|
      invariant |tasks| == i
      invariant forall j :: 0 <= j < i ==> fresh(tasks[j]) && Describes(tasks[j], records[j], newId(j))
    {
      var r := records[i];
      var task := new Task(newId(i), r.recordId, r.drama, r.date, r.account, PENDING);
      tasks := tasks + [task];
    }
  }

  function RecordIds(records: seq<FeishuRecordData>): (ids: seq<string>)
    ensures |ids| == |records| && forall i :: 0 <= i < |records| ==> ids[i] == records[i].recordId
  {
    seq(|records|, i requires 0 <= i < |records| => records[i].recordId)
  }

  /** The identifiers of `tasks`, as a set: the keys of a valid queue index. */
  function IdSet(tasks: seq<Task>): (ids: set<string>)
    ensures forall k :: k in ids <==> k in Queue.Ids(tasks)
  {
    set i | 0 <= i < |tasks| :: Queue.Ids(tasks)[i]
  }

  /** What one fetch reads: the reply to each page request, the field names, the date formatter and the id generator. */
  datatype FetchInput = FetchInput(pages: seq<Feishu.Page>, names: FeishuFields, localDate: int -> string,
                                   newId: nat -> string)

  class Scheduler {
    const fetchIntervalMinutes: int
    const taskQueue: Queue.TaskQueue
    var isRunning: bool
    var fetchTimer: Option<Timer>

    ghost predicate Valid()
      reads this, taskQueue
    {
      taskQueue.Valid()
    }

    constructor (fetchIntervalMinutes: int, taskQueue: Queue.TaskQueue)
      requires taskQueue.Valid()
      ensures Valid() && this.taskQueue == taskQueue && this.fetchIntervalMinutes == fetchIntervalMinutes
      ensures !isRunning && fetchTimer == None
    {
      this.fetchIntervalMinutes := fetchIntervalMinutes;
      this.taskQueue := taskQueue;
      isRunning := false;
      fetchTimer := None;
    }

    /**
     * `fetchAndEnqueueTasks`: first the finished tasks are cleaned out of the
     * queue; then, if the fetch succeeds with at least one record, each record
     * becomes a PENDING task and the batch is added. A failed fetch is
     * swallowed. Returns the fetch result and the tasks offered to the queue.
     */
    method FetchAndEnqueueTasks(input: FetchInput)
      returns (records: Result<seq<FeishuRecordData>, string>, tasks: seq<Task>)
      requires Valid() && Feishu.Finite(input.pages)
      modifies taskQueue
      ensures Valid() && taskQueue.isProcessing == old(taskQueue.isProcessing)
      ensures records == Feishu.PendingRecords(input.pages, input.names, input.localDate)
      ensures var cleaned := Queue.Unfinished(old(taskQueue.queue));
        && (records.Ok? && records.value != [] ==>
              taskQueue.queue == cleaned + Queue.Admitted(IdSet(cleaned), tasks))
        && (!(records.Ok? && records.value != []) ==> taskQueue.queue == cleaned && tasks == [])
      ensures records.Ok? ==> |tasks| == |records.value| || tasks == []
      ensures records.Ok? && records.value != [] ==>
                forall i :: 0 <= i < |tasks| ==> fresh(tasks[i]) && Describes(tasks[i], records.value[i], input.newId(i))
    {
      taskQueue.Cleanup();
      ghost var cleaned := taskQueue.queue;
      assert taskQueue.taskMap.Keys == IdSet(cleaned);
      var pageTokens;
      records, pageTokens := Feishu.GetPendingRecords(input.pages, input.names, input.localDate);
      tasks := [];
      if records.Err? || |records.value| == 0 {
        return;
      }
      tasks := MakeTasks(records.value, input.newId);
      var _ := taskQueue.AddTasks(tasks);
    }

    /**
     * `startFetching`: one fetch at once, then the repeating timer with the
     * configured period. Returns what the immediate fetch read and offered.
     */
    method StartFetching(input: FetchInput)
      returns (records: Result<seq<FeishuRecordData>, string>, tasks: seq<Task>)
      requires Valid() && Feishu.Finite(input.pages)
      modifies this, taskQueue
      ensures Valid() && isRunning == old(isRunning) && taskQueue.isProcessing == old(taskQueue.isProcessing)
      ensures fetchTimer == Some(Timer(IntervalMs(fetchIntervalMinutes)))
      ensures records == Feishu.PendingRecords(input.pages, input.names, input.localDate)
      ensures var cleaned := Queue.Unfinished(old(taskQueue.queue));
        && (records.Ok? && records.value != [] ==>
              taskQueue.queue == cleaned + Queue.Admitted(IdSet(cleaned), tasks))
        && (!(records.Ok? && records.value != []) ==> taskQueue.queue == cleaned && tasks == [])
    {
      records, tasks := FetchAndEnqueueTasks(input);
      fetchTimer := Some(Timer(IntervalMs(fetchIntervalMinutes)));
    }

    /** `stopFetching`: clears the timer if there is one. */
    method StopFetching()
      modifies this
      ensures fetchTimer == None && isRunning == old(isRunning)
    {
      if fetchTimer.Some? {
        fetchTimer := None;
      }
    }

    /**
     * `start`: a second start while running does nothing; otherwise the
     * scheduler runs, fetching starts and the worker is started. `fetched`
     * is the immediate fetch's result, absent when nothing started.
     */
    method Start(input: FetchInput)
      returns (started: bool, fetched: Option<Result<seq<FeishuRecordData>, string>>, tasks: seq<Task>)
      requires Valid() && Feishu.Finite(input.pages)
      modifies this, taskQueue
      ensures Valid()
      ensures started <==> !old(isRunning)
      ensures started <==> fetched.Some?
      ensures !started ==> isRunning && fetchTimer == old(fetchTimer) && tasks == [] &&
                           taskQueue.queue == old(taskQueue.queue) && taskQueue.taskMap == old(taskQueue.taskMap) &&
                           taskQueue.isProcessing == old(taskQueue.isProcessing)
      ensures started ==> isRunning && fetchTimer == Some(Timer(IntervalMs(fetchIntervalMinutes))) &&
                          taskQueue.isProcessing &&
                          fetched.value == Feishu.PendingRecords(input.pages, input.names, input.localDate)
      ensures started ==> var cleaned := Queue.Unfinished(old(taskQueue.queue));
        && (fetched.value.Ok? && fetched.value.value != [] ==>
              taskQueue.queue == cleaned + Queue.Admitted(IdSet(cleaned), tasks))
        && (!(fetched.value.Ok? && fetched.value.value != []) ==> taskQueue.queue == cleaned && tasks == [])
    {
      if isRunning {
        return false, None, [];
      }
      isRunning := true;
      var records;
      records, tasks := StartFetching(input);
      var _ := taskQueue.StartProcessing();
      return true, Some(records), tasks;
    }

    /** `stop`: nothing when not running; otherwise not running, no timer, and the worker told to stop. */
    method Stop()
      requires Valid()
      modifies this, taskQueue
      ensures Valid() && !isRunning
      ensures !old(isRunning) ==> fetchTimer == old(fetchTimer) && taskQueue.isProcessing == old(taskQueue.isProcessing)
      ensures old(isRunning) ==> fetchTimer == None && !taskQueue.isProcessing
      ensures taskQueue.queue == old(taskQueue.queue) && taskQueue.taskMap == old(taskQueue.taskMap)
    {
      if !isRunning {
        return;
      }
      isRunning := false;
      StopFetching();
      taskQueue.Stop();
    }

    /** `isActive`. */
    function IsActive(): (r: bool)
      reads this
      ensures r <==> isRunning
    {
      isRunning
    }

    /** `getQueueStats`: the queue's counts by status. */
    function GetQueueStats(): (r: Queue.Stats)
      reads this, taskQueue, taskQueue.queue
      ensures r.total == |taskQueue.queue| && r.pending + r.running + r.completed + r.skipped == r.total
      ensures r.pending == Queue.Count(Queue.Statuses(taskQueue.queue), PENDING)
    {
      taskQueue.GetStats()
    }

    /** `cleanupCompleted`: the queue's `cleanup`. */
    method CleanupCompleted()
      requires Valid()
      modifies taskQueue
      ensures Valid() && taskQueue.queue == Queue.Unfinished(old(taskQueue.queue))
      ensures taskQueue.isProcessing == old(taskQueue.isProcessing)
    {
      taskQueue.Cleanup();
    }
  }
}
