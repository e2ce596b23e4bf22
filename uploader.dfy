/**
 * The batch upload executor: one upload attempt's polling rule, the retry
 * loop around a batch, and the resumable run over all batches of a work
 * item with its checkpoints. Browser interaction is replaced by observations
 * supplied as input.
 */
module Upload {
  import opened Types
  import opened Strings
  import opened Progress

  /** At most ten attempts per batch. */
  const MaxRetries: nat := 10
  /** An attempt gives up polling after ten minutes. */
  const MaxWaitMs: int := 600000
  /** After twenty seconds, fewer progress bars than files means some file was rejected. */
  const ShortfallGraceMs: int := 20000

  // ---------------------------------------------------------------------------
  // One attempt: uploadBatchInternal
  // ---------------------------------------------------------------------------

  /**
   * One poll of the upload panel at `elapsed` milliseconds: one flag per
   * progress bar (whether it shows the success mark), and whether clicking
   * the confirm button would work. A poll whose page queries throw is
   * `PollError`.
   */
  datatype PollObs = Bars(elapsed: int, bars: seq<bool>, confirmOk: bool) | PollError(elapsed: int)

  /**
   * Everything an attempt observes: whether the page reload before it threw
   * (and with what message), whether the steps before polling (opening the
   * panel, choosing the files) went through, and the polls in order. The
   * polls are those taken before the ten-minute clock runs out.
   */
  datatype AttemptObs = AttemptObs(reload: Option<string>, setupOk: bool, polls: seq<PollObs>)

  datatype AttemptResult = AttemptResult(success: bool, successCount: nat)

  datatype PollStep = KeepPolling | Settle(result: AttemptResult)

  /** The number of bars showing success. */
  function CountTrue(bars: seq<bool>): (n: nat)
    ensures n <= |bars|
    ensures n == |bars| <==> forall i :: 0 <= i < |bars| ==> bars[i]
  {
    if bars == [] then 0 else (if bars[0] then 1 else 0) + CountTrue(bars[1..])
  }

  /** The counting loop over the progress bars. */
  method CountSucceeded(bars: seq<bool>) returns (successCount: nat)
    ensures successCount == CountTrue(bars)
  {
    successCount := 0;
    for i := 0 to |bars|
      invariant successCount + CountTrue(bars[i..]) == CountTrue(bars)
    {
      assert bars[i..][1..] == bars[i + 1..];
      if bars[i] {
        successCount := successCount + 1;
      }
    }
  }

  /**
   * What one poll decides. No bars yet, a failing page query, bars still in
   * progress, or a confirm click that fails: keep polling. Too few bars after
   * the grace period: give up with the bar count. All bars done but fewer
   * than the files: give up with that count. All bars done and at least as
   * many as the files, with the confirm click working: success.
   */
  function PollDecision(p: PollObs, expected: nat): (r: PollStep)
    ensures (r.Settle? && r.result.success) <==>
              (p.Bars? && 0 < |p.bars| && expected <= |p.bars| &&
               (forall i :: 0 <= i < |p.bars| ==> p.bars[i]) && p.confirmOk)
    ensures r.Settle? && !r.result.success ==> r.result.successCount < expected
    ensures r.Settle? ==> p.Bars? && r.result.successCount == |p.bars|
  {
    match p
    case PollError(_) => KeepPolling
    case Bars(elapsed, bars, confirmOk) =>
      var progressCount := |bars|;
      if progressCount == 0 then KeepPolling
      else if progressCount < expected && elapsed > ShortfallGraceMs then
        Settle(AttemptResult(false, progressCount))
      else
        var successCount := CountTrue(bars);
        if successCount == progressCount && successCount > 0 then
          if progressCount < expected then Settle(AttemptResult(false, successCount))
          else if confirmOk then Settle(AttemptResult(true, successCount))
          else KeepPolling
        else KeepPolling
  }

  /** The outcome of polling from poll `k` on; running out of time is a failure with count 0. */
  function PollFrom(polls: seq<PollObs>, k: nat, expected: nat): AttemptResult
    decreases |polls| - k
  {
    if k >= |polls| || polls[k].elapsed >= MaxWaitMs then AttemptResult(false, 0)
    else
      match PollDecision(polls[k], expected)
      case KeepPolling => PollFrom(polls, k + 1, expected)
      case Settle(result) => result
  }

  /** The result of an attempt; a failing setup step is caught and gives failure with count 0. */
  function AttemptResultOf(a: AttemptObs, expected: nat): AttemptResult
  {
    if !a.setupOk then AttemptResult(false, 0) else PollFrom(a.polls, 0, expected)
  }

  /**
   * An attempt succeeds only if some poll saw at least as many bars as files,
   * all of them done; a failed attempt reports fewer successes than files.
   */
  lemma {:induction false} PollOutcomeBounds(polls: seq<PollObs>, k: nat, expected: nat)
    ensures var r := PollFrom(polls, k, expected);
      && (r.success ==> 0 < r.successCount && expected <= r.successCount)
      && (!r.success ==> r.successCount < expected || r.successCount == 0)
      && (r.success ==> exists j :: k <= j < |polls| && polls[j].Bars? &&
                          expected <= |polls[j].bars| && polls[j].confirmOk &&
                          forall i :: 0 <= i < |polls[j].bars| ==> polls[j].bars[i])
    decreases |polls| - k
  {
    if k < |polls| && polls[k].elapsed < MaxWaitMs && PollDecision(polls[k], expected).KeepPolling? {
      PollOutcomeBounds(polls, k + 1, expected);
    }
  }

  /** `uploadBatchInternal`'s polling loop. */
  method UploadBatchInternal(a: AttemptObs, expected: nat) returns (r: AttemptResult)
    ensures r == AttemptResultOf(a, expected)
  {
    if !a.setupOk {
      return AttemptResult(false, 0);
    }
    var k := 0;
    while k < |a.polls| && a.polls[k].elapsed < MaxWaitMs
      invariant 0 <= k <= |a.polls|
      invariant PollFrom(a.polls, k, expected) == PollFrom(a.polls, 0, expected)
      decreases |a.polls| - k
    {
      var p := a.polls[k];
      if p.Bars? {
        var progressCount := |p.bars|;
        if progressCount > 0 {
          if progressCount < expected && p.elapsed > ShortfallGraceMs {
            return AttemptResult(false, progressCount);
          }
          var successCount := CountSucceeded(p.bars);
          if successCount == progressCount && successCount > 0 {
            if progressCount < expected {
              return AttemptResult(false, successCount);
            }
            if p.confirmOk {
              return AttemptResult(true, successCount);
            }
          }
        }
      }
      k := k + 1;
    }
    return AttemptResult(false, 0);
  }

  // ---------------------------------------------------------------------------
  // The retry loop: uploadBatch
  // ---------------------------------------------------------------------------

  /** How a batch ends: uploaded, ten failed attempts, or a throw from the reload before the tenth attempt. */
  datatype BatchOutcome = Uploaded | Exhausted | Threw(message: string)

  /** Attempt `retry` of batch `batch` succeeds: its reload (if any) went through and it succeeded. */
  predicate AttemptSucceeds(attempts: (nat, nat) -> AttemptObs, batch: nat, retry: nat, expected: nat)
  {
    var a := attempts(batch, retry);
    (retry == 0 || a.reload.None?) && AttemptResultOf(a, expected).success
  }

  /** The outcome of the retry loop from attempt `retry` on, and the number of attempts begun. */
  function TryFrom(attempts: (nat, nat) -> AttemptObs, batch: nat, retry: nat, expected: nat)
    : (r: (BatchOutcome, nat))
    requires retry < MaxRetries
    ensures retry < r.1 <= MaxRetries
    decreases MaxRetries - retry
  {
    var a := attempts(batch, retry);
    var last := retry == MaxRetries - 1;
    if retry > 0 && a.reload.Some? then
      if last then (Threw(a.reload.value), retry + 1) else TryFrom(attempts, batch, retry + 1, expected)
    else if AttemptResultOf(a, expected).success then (Uploaded, retry + 1)
    else if last then (Exhausted, retry + 1)
    else TryFrom(attempts, batch, retry + 1, expected)
  }

  /** The outcome of `uploadBatch` for batch `batch`. */
  function BatchOutcomeOf(attempts: (nat, nat) -> AttemptObs, batch: nat, expected: nat): BatchOutcome
  {
    TryFrom(attempts, batch, 0, expected).0
  }

  /** The retry loop reports an upload exactly when some attempt from `retry` on succeeds. */
  lemma {:induction false} TryFromUploadedIff(attempts: (nat, nat) -> AttemptObs, batch: nat,
                                             retry: nat, expected: nat)
    requires retry < MaxRetries
    ensures TryFrom(attempts, batch, retry, expected).0 == Uploaded <==>
            exists j :: retry <= j < MaxRetries && AttemptSucceeds(attempts, batch, j, expected)
    decreases MaxRetries - retry
  {
    if AttemptSucceeds(attempts, batch, retry, expected) {
      assert retry <= retry < MaxRetries && AttemptSucceeds(attempts, batch, retry, expected);
    } else if retry < MaxRetries - 1 {
      TryFromUploadedIff(attempts, batch, retry + 1, expected);
      if exists j :: retry <= j < MaxRetries && AttemptSucceeds(attempts, batch, j, expected) {
        var j :| retry <= j < MaxRetries && AttemptSucceeds(attempts, batch, j, expected);
        assert retry + 1 <= j;
      }
    }
  }

  /** An upload is reported at the first attempt that succeeds, and no attempt is made after it. */
  lemma {:induction false} TryFromStopsAtFirst(attempts: (nat, nat) -> AttemptObs, batch: nat,
                                              retry: nat, expected: nat)
    requires retry < MaxRetries
    ensures var (outcome, tried) := TryFrom(attempts, batch, retry, expected);
      outcome == Uploaded ==>
        AttemptSucceeds(attempts, batch, tried - 1, expected) &&
        forall j :: retry <= j < tried - 1 ==> !AttemptSucceeds(attempts, batch, j, expected)
    decreases MaxRetries - retry
  {
    if !AttemptSucceeds(attempts, batch, retry, expected) && retry < MaxRetries - 1 {
      TryFromStopsAtFirst(attempts, batch, retry + 1, expected);
    }
  }

  /**
   * Failure is reported only after all ten attempts; it is a throw exactly
   * when the reload before the tenth attempt threw, with that message.
   */
  lemma {:induction false} TryFromGivesUpAtTen(attempts: (nat, nat) -> AttemptObs, batch: nat,
                                              retry: nat, expected: nat)
    requires retry < MaxRetries
    ensures var (outcome, tried) := TryFrom(attempts, batch, retry, expected);
      && (outcome != Uploaded ==> tried == MaxRetries)
      && (outcome.Threw? ==> attempts(batch, MaxRetries - 1).reload == Some(outcome.message))
      && (outcome == Exhausted ==> attempts(batch, MaxRetries - 1).reload.None?)
    decreases MaxRetries - retry
  {
    if retry < MaxRetries - 1 {
      TryFromGivesUpAtTen(attempts, batch, retry + 1, expected);
    }
  }

  /**
   * The retry loop returns at the first successful attempt; it reports
   * failure only after ten attempts none of which succeeded, and throws
   * only when the reload before the tenth attempt throws.
   */
  lemma TryFromFirstSuccess(attempts: (nat, nat) -> AttemptObs, batch: nat, retry: nat, expected: nat)
    requires retry < MaxRetries
    ensures var (outcome, tried) := TryFrom(attempts, batch, retry, expected);
      && (outcome == Uploaded <==> exists j :: retry <= j < MaxRetries && AttemptSucceeds(attempts, batch, j, expected))
      && (outcome == Uploaded ==> AttemptSucceeds(attempts, batch, tried - 1, expected) &&
                                  forall j :: retry <= j < tried - 1 ==> !AttemptSucceeds(attempts, batch, j, expected))
      && (outcome != Uploaded ==> tried == MaxRetries)
      && (outcome.Threw? ==> attempts(batch, MaxRetries - 1).reload == Some(outcome.message))
      && (outcome == Exhausted ==> attempts(batch, MaxRetries - 1).reload.None?)
  {
    TryFromUploadedIff(attempts, batch, retry, expected);
    TryFromStopsAtFirst(attempts, batch, retry, expected);
    TryFromGivesUpAtTen(attempts, batch, retry, expected);
  }

  /**
   * `uploadBatch`: up to ten attempts, reloading the page before each one
   * after the first. Returns the outcome, the attempts begun and the reloads made.
   */
  method UploadBatch(attempts: (nat, nat) -> AttemptObs, batch: nat, expected: nat)
    returns (outcome: BatchOutcome, tried: nat, reloads: nat)
    ensures (outcome, tried) == TryFrom(attempts, batch, 0, expected)
    ensures reloads == tried - 1
  {
    ghost var goal := TryFrom(attempts, batch, 0, expected);
    tried := 0;
    reloads := 0;
    for retry := 0 to MaxRetries
      invariant tried == retry && reloads == if retry == 0 then 0 else retry - 1
      invariant retry < MaxRetries ==> TryFrom(attempts, batch, retry, expected) == goal
      invariant retry == MaxRetries ==> false
    {
      var a := attempts(batch, retry);
      tried := tried + 1;
      if retry > 0 {
        reloads := reloads + 1;
        if a.reload.Some? {
          if retry == MaxRetries - 1 {
            return Threw(a.reload.value), tried, reloads;
          }
          continue;
        }
      }
      var result := UploadBatchInternal(a, expected);
      if result.success {
        return Uploaded, tried, reloads;
      }
      if retry == MaxRetries - 1 {
        return Exhausted, tried, reloads;
      }
    }
  }

  // ---------------------------------------------------------------------------
  // Splitting into batches
  // ---------------------------------------------------------------------------

  /** `files.slice(i, i + size)` for i = 0, size, 2·size, … */
  function Partition(files: seq<string>, size: nat): seq<seq<string>>
    requires size > 0
    decreases |files|
  {
    if files == [] then []
    else if |files| <= size then [files]
    else [files[..size]] + Partition(files[size..], size)
  }

  function Flatten(batches: seq<seq<string>>): seq<string>
  {
    if batches == [] then [] else batches[0] + Flatten(batches[1..])
  }

  /** The batches, joined, are the files in their order. */
  lemma {:induction false} PartitionJoins(files: seq<string>, size: nat)
    requires size > 0
    ensures Flatten(Partition(files, size)) == files
    decreases |files|
  {
    if |files| > size {
      var head, rest := files[..size], files[size..];
      var p := Partition(files, size);
      assert p == [head] + Partition(rest, size);
      assert p[0] == head && p[1..] == Partition(rest, size);
      PartitionJoins(rest, size);
      assert Flatten(p) == head + rest;
      assert head + rest == files;
    } else if files != [] {
      var p := Partition(files, size);
      assert p == [files] && p[1..] == [];
      assert Flatten(p) == files + [];
    }
  }

  /** Every batch holds `size` files except the last, which holds between one and `size`. */
  lemma {:induction false} PartitionSizes(files: seq<string>, size: nat)
    requires size > 0
    ensures var p := Partition(files, size);
      && (forall k :: 0 <= k < |p| - 1 ==> |p[k]| == size)
      && (p != [] ==> 0 < |p[|p| - 1]| <= size)
    decreases |files|
  {
    if |files| > size {
      PartitionSizes(files[size..], size);
    }
  }

  /** There are ⌈n / size⌉ batches: the last one starts before the n-th file and the batches cover all n. */
  lemma {:induction false} PartitionCount(files: seq<string>, size: nat)
    requires size > 0
    ensures var count := |Partition(files, size)|;
      && (files == [] <==> count == 0)
      && (files != [] ==> (count - 1) * size < |files| <= count * size)
    decreases |files|
  {
    if |files| > size {
      PartitionCount(files[size..], size);
      var c := |Partition(files[size..], size)|;
      assert |Partition(files, size)| == c + 1;
      assert (c + 1) * size == c * size + size;
    }
  }

  /** Partitioning from position `i` on takes the slice at `i` first. */
  lemma PartitionFrom(files: seq<string>, size: nat, i: nat)
    requires size > 0 && i < |files|
    ensures var j := if i + size < |files| then i + size else |files|;
      Partition(files[i..], size) == [files[i..j]] + Partition(files[j..], size)
  {
    var j := if i + size < |files| then i + size else |files|;
    if i + size < |files| {
      assert files[i..][..size] == files[i..j];
      assert files[i..][size..] == files[j..];
    } else {
      assert files[i..] == files[i..j];
      assert files[j..] == [];
    }
  }

  /** The loop that pushes `files.slice(i, i + batchSize)` while `i < files.length`. */
  method SplitIntoBatches(files: seq<string>, size: nat) returns (batches: seq<seq<string>>)
    requires size > 0
    ensures batches == Partition(files, size)
  {
    batches := [];
    var i := 0;
    while i < |files|
      invariant 0 <= i <= |files|
      invariant batches + Partition(files[i..], size) == Partition(files, size)
      decreases |files| - i
    {
      var j := if i + size < |files| then i + size else |files|;
      PartitionFrom(files, size, i);
      batches := batches + [files[i..j]];
      i := j;
    }
    assert files[i..] == [];
  }

  // ---------------------------------------------------------------------------
  // uploadFiles: resume, batch loop, checkpoints
  // ---------------------------------------------------------------------------

  /** What the environment supplies to one `uploadFiles` call. */
  datatype UploadEnv = UploadEnv(
    navigation: Option<string>,               // the navigation error, if the page load throws
    attempts: (nat, nat) -> AttemptObs,       // (batch index, retry) to that attempt's observations
    now: string)                              // the timestamp written into checkpoints

  /** `uploadFiles` either returns a result or throws before doing anything. */
  datatype UploadCall = Returned(result: UploadResult) | Thrown(message: string)

  const NotInitialised := "浏览器未初始化，请先调用 initialize()"

  /** The batch index to start from: the saved count, when the saved checkpoint has the same batch count. */
  function StartIndex(saved: Option<UploadProgress>, totalBatches: nat): (start: nat)
    ensures saved.Some? && saved.value.totalBatches == totalBatches ==> start == saved.value.completedBatches
    ensures !(saved.Some? && saved.value.totalBatches == totalBatches) ==> start == 0
  {
    if saved.Some? && saved.value.totalBatches == totalBatches then saved.value.completedBatches else 0
  }

  /** The store's checkpoint under `key`, as `getProgress` reads it. */
  function Saved(st: Store, key: Text): Option<UploadProgress>
  {
    if key in st.entries then Some(st.entries[key]) else None
  }

  /** How the batch loop ends. */
  datatype RunEnd = AllDone | FailedAt(index: nat) | ThrewAt(message: string)

  /** The identity of the work item whose checkpoint the run writes. */
  datatype Item = Item(key: Text, drama: string, date: Text, account: Text)

  function Checkpoint(item: Item, totalBatches: nat, completed: nat, now: string): UploadProgress
  {
    UploadProgress(item.key, item.drama, item.date, item.account, totalBatches, completed, now)
  }

  /**
   * The batch loop from batch `i` on: after a success the checkpoint records
   * `i + 1` completed batches; after ten failed attempts it records `i` and
   * the loop stops; a thrown reload stops the loop without a checkpoint.
   */
  function Run(st: Store, batches: seq<seq<string>>, i: nat, item: Item, env: UploadEnv)
    : (RunEnd, Store)
    decreases |batches| - i
  {
    if i >= |batches| then (AllDone, st)
    else
      match BatchOutcomeOf(env.attempts, i, |batches[i]|)
      case Uploaded =>
        Run(Put(st, item.key, Checkpoint(item, |batches|, i + 1, env.now)), batches, i + 1, item, env)
      case Exhausted =>
        (FailedAt(i), Put(st, item.key, Checkpoint(item, |batches|, i, env.now)))
      case Threw(msg) => (ThrewAt(msg), st)
  }

  /** The text of the per-batch failure. */
  function BatchFailure(i: nat): string
  {
    "第 " + NatToString(i + 1) + " 批上传失败"
  }

  /** The call's result and the checkpoint store after it. */
  datatype UploadEffect = UploadEffect(call: UploadCall, store: Store)

  /** `uploadFiles`, as a function of the page state, the checkpoint store and the environment. */
  function UploadFilesSpec(pageOpen: bool, st: Store, files: seq<string>, batchSize: nat,
                           item: Item, env: UploadEnv): UploadEffect
    requires batchSize > 0
  {
    if !pageOpen then UploadEffect(Thrown(NotInitialised), st)
    else if env.navigation.Some? then
      UploadEffect(Returned(UploadResult(false, |files|, 0, env.navigation)), st)
    else
      var batches := Partition(files, batchSize);
      var total := |batches|;
      var start := StartIndex(Saved(st, item.key), total);
      var (end, st') := Run(st, batches, start, item, env);
      match end
      case AllDone =>
        UploadEffect(Returned(UploadResult(true, |files|, total, None)),
                     if item.key in st'.entries then Delete(st', item.key) else st')
      case FailedAt(i) =>
        UploadEffect(Returned(UploadResult(false, |files|, i, Some(BatchFailure(i)))), st')
      case ThrewAt(msg) =>
        UploadEffect(Returned(UploadResult(false, |files|, 0, Some(msg))), st')
  }

  /**
   * The batch loop from `i` rewrites the checkpoint file: it does once it
   * reaches a batch that ends without a throw, since both a success and ten
   * failures go through `updateProgress`.
   */
  predicate RunWrites(batches: seq<seq<string>>, i: nat, env: UploadEnv)
  {
    i < |batches| && !BatchOutcomeOf(env.attempts, i, |batches[i]|).Threw?
  }

  /**
   * `uploadFiles` rewrites the checkpoint file: its batch loop wrote, or a
   * finished run found a checkpoint to clear.
   */
  predicate UploadWrites(pageOpen: bool, st: Store, files: seq<string>, batchSize: nat,
                         item: Item, env: UploadEnv)
    requires batchSize > 0
  {
    && pageOpen && env.navigation.None?
    && var batches := Partition(files, batchSize);
       var start := StartIndex(Saved(st, item.key), |batches|);
       var (end, st') := Run(st, batches, start, item, env);
       RunWrites(batches, start, env) || (end == AllDone && item.key in st'.entries)
  }

  /** A call that writes no file leaves the checkpoint store as it was. */
  lemma UnwrittenStoreUnchanged(pageOpen: bool, st: Store, files: seq<string>, batchSize: nat,
                                item: Item, env: UploadEnv)
    requires batchSize > 0
    ensures !UploadWrites(pageOpen, st, files, batchSize, item, env) ==>
              UploadFilesSpec(pageOpen, st, files, batchSize, item, env).store == st
  {
  }

  /** A run from `i` leaves every other key as it was. */
  lemma {:induction false} RunTouchesOnlyItsKey(st: Store, batches: seq<seq<string>>, i: nat, item: Item,
                                               env: UploadEnv)
    ensures var st' := Run(st, batches, i, item, env).1;
      forall k | k != item.key :: (k in st'.entries <==> k in st.entries) &&
                                  (k in st.entries ==> st'.entries[k] == st.entries[k])
    decreases |batches| - i
  {
    if i < |batches| && BatchOutcomeOf(env.attempts, i, |batches[i]|) == Uploaded {
      var next := Put(st, item.key, Checkpoint(item, |batches|, i + 1, env.now));
      RunTouchesOnlyItsKey(next, batches, i + 1, item, env);
    }
  }

  /**
   * A run from `i` that fails at batch `j` has `i <= j < |batches|` and
   * leaves checkpoint `j` of `|batches|`; a throw comes from a batch that
   * was attempted.
   */
  lemma {:induction false} RunFails(st: Store, batches: seq<seq<string>>, i: nat, item: Item, env: UploadEnv)
    ensures var (end, st') := Run(st, batches, i, item, env);
      && (end.FailedAt? ==> i <= end.index < |batches| && item.key in st'.entries &&
                            st'.entries[item.key] == Checkpoint(item, |batches|, end.index, env.now))
      && (end.ThrewAt? ==> i < |batches|)
    decreases |batches| - i
  {
    if i < |batches| && BatchOutcomeOf(env.attempts, i, |batches[i]|) == Uploaded {
      var next := Put(st, item.key, Checkpoint(item, |batches|, i + 1, env.now));
      RunFails(next, batches, i + 1, item, env);
    }
  }

  /**
   * A run from `i` that is done uploaded every batch from `i` on and, if
   * there was one, left the checkpoint at `|batches|` of `|batches|`.
   */
  lemma {:induction false} RunCompletes(st: Store, batches: seq<seq<string>>, i: nat, item: Item, env: UploadEnv)
    ensures var (end, st') := Run(st, batches, i, item, env);
      && (end == AllDone ==> forall j :: i <= j < |batches| ==> BatchOutcomeOf(env.attempts, j, |batches[j]|) == Uploaded)
      && (end == AllDone && i < |batches| ==>
            item.key in st'.entries && st'.entries[item.key] == Checkpoint(item, |batches|, |batches|, env.now))
    decreases |batches| - i
  {
    if i < |batches| && BatchOutcomeOf(env.attempts, i, |batches[i]|) == Uploaded {
      var next := Put(st, item.key, Checkpoint(item, |batches|, i + 1, env.now));
      RunCompletes(next, batches, i + 1, item, env);
    }
  }

  /** Every checkpoint a run writes counts at most `|batches|` completed batches, out of `|batches|`. */
  lemma {:induction false} RunCheckpointsBounded(st: Store, batches: seq<seq<string>>, i: nat, item: Item,
                                                env: UploadEnv)
    ensures var st' := Run(st, batches, i, item, env).1;
      Saved(st', item.key) != Saved(st, item.key) ==>
        && item.key in st'.entries
        && st'.entries[item.key].totalBatches == |batches|
        && st'.entries[item.key].completedBatches <= |batches|
    decreases |batches| - i
  {
    if i < |batches| && BatchOutcomeOf(env.attempts, i, |batches[i]|) == Uploaded {
      var next := Put(st, item.key, Checkpoint(item, |batches|, i + 1, env.now));
      RunCheckpointsBounded(next, batches, i + 1, item, env);
    }
  }

  /**
   * The results of `uploadFiles`: a failure at batch `i` reports `i`
   * uploaded batches, is never before the resume point, and leaves the
   * checkpoint at `i`; success reports every batch and leaves no checkpoint
   * under the key; any thrown error reports zero batches; no key but the
   * item's own is touched.
   */
  lemma UploadFilesOutcomes(pageOpen: bool, st: Store, files: seq<string>, batchSize: nat,
                            item: Item, env: UploadEnv)
    requires batchSize > 0
    ensures var e := UploadFilesSpec(pageOpen, st, files, batchSize, item, env);
      var total := |Partition(files, batchSize)|;
      var start := StartIndex(Saved(st, item.key), total);
      && (!pageOpen ==> e.call == Thrown(NotInitialised) && e.store == st)
      && (e.call.Returned? ==> e.call.result.totalFiles == |files|)
      && (e.call.Returned? && e.call.result.success ==>
            e.call.result.uploadedBatches == total && item.key !in e.store.entries)
      && (e.call.Returned? && !e.call.result.success && e.call.result.error != Some(BatchFailure(e.call.result.uploadedBatches)) ==>
            e.call.result.uploadedBatches == 0)
      && (forall k | k != item.key :: (k in e.store.entries <==> k in st.entries) &&
                                      (k in st.entries ==> e.store.entries[k] == st.entries[k]))
  {
    if pageOpen && env.navigation.None? {
      var batches := Partition(files, batchSize);
      var start := StartIndex(Saved(st, item.key), |batches|);
      RunTouchesOnlyItsKey(st, batches, start, item, env);
      RunFails(st, batches, start, item, env);
      RunCompletes(st, batches, start, item, env);
    }
  }

  /** A failure at batch `i` is at or after the resume point, and stops with checkpoint `i`. */
  lemma FailureAtOrAfterResume(pageOpen: bool, st: Store, files: seq<string>, batchSize: nat,
                               item: Item, env: UploadEnv)
    requires batchSize > 0 && pageOpen && env.navigation.None?
    ensures var batches := Partition(files, batchSize);
      var start := StartIndex(Saved(st, item.key), |batches|);
      var (end, st') := Run(st, batches, start, item, env);
      end.FailedAt? ==>
        && start <= end.index < |batches|
        && UploadFilesSpec(pageOpen, st, files, batchSize, item, env).call ==
             Returned(UploadResult(false, |files|, end.index, Some(BatchFailure(end.index))))
        && item.key in UploadFilesSpec(pageOpen, st, files, batchSize, item, env).store.entries
        && UploadFilesSpec(pageOpen, st, files, batchSize, item, env).store.entries[item.key] ==
             Checkpoint(item, |batches|, end.index, env.now)
  {
    var batches := Partition(files, batchSize);
    var start := StartIndex(Saved(st, item.key), |batches|);
    RunFails(st, batches, start, item, env);
  }

  /** How the batch loop ends does not depend on the store it starts from, only on the batch outcomes. */
  lemma {:induction false} RunDependsOnlyOnOwnKey(st1: Store, st2: Store, batches: seq<seq<string>>,
                                                 i: nat, item: Item, env: UploadEnv)
    ensures Run(st1, batches, i, item, env).0 == Run(st2, batches, i, item, env).0
    decreases |batches| - i
  {
    if i < |batches| && BatchOutcomeOf(env.attempts, i, |batches[i]|) == Uploaded {
      var cp := Checkpoint(item, |batches|, i + 1, env.now);
      RunDependsOnlyOnOwnKey(Put(st1, item.key, cp), Put(st2, item.key, cp), batches, i + 1, item, env);
    }
  }

  /** The result of `uploadFiles` depends only on the checkpoint under the item's own key. */
  lemma ResultDependsOnlyOnOwnKey(pageOpen: bool, st1: Store, st2: Store, files: seq<string>,
                                  batchSize: nat, item: Item, env: UploadEnv)
    requires batchSize > 0
    requires Saved(st1, item.key) == Saved(st2, item.key)
    ensures UploadFilesSpec(pageOpen, st1, files, batchSize, item, env).call ==
            UploadFilesSpec(pageOpen, st2, files, batchSize, item, env).call
  {
    var batches := Partition(files, batchSize);
    var start := StartIndex(Saved(st1, item.key), |batches|);
    RunDependsOnlyOnOwnKey(st1, st2, batches, start, item, env);
  }

  // ---------------------------------------------------------------------------
  // The uploader object
  // ---------------------------------------------------------------------------

  /** `Uploader`: the configured batch size, whether the shared page is open, and the checkpoint store. */
  class Uploader {
    const batchSize: nat
    var pageOpen: bool
    const progress: ProgressManager

    ghost predicate Valid()
      reads this, progress
    {
      batchSize > 0 && progress.Valid()
    }

    /** The constructor makes its own checkpoint store, loaded from what the file holds. */
    constructor (batchSize: nat, disk: FileRead)
      requires batchSize > 0
      ensures Valid() && fresh(progress)
      ensures this.batchSize == batchSize && !pageOpen
      ensures disk.Parsed? ==> progress.progressMap == Load(disk.records)
      ensures !disk.Parsed? ==> progress.progressMap == Empty
    {
      this.batchSize := batchSize;
      pageOpen := false;
      progress := new ProgressManager(disk);
    }

    /** `initialize`: opening the browser and its page either works or throws `launchError`. */
    method Initialize(launchError: Option<string>) returns (thrown: Option<string>)
      requires Valid()
      modifies this
      ensures Valid()
      ensures thrown == launchError
      ensures launchError.None? ==> pageOpen
      ensures launchError.Some? ==> pageOpen == old(pageOpen)
    {
      if launchError.Some? {
        return launchError;
      }
      pageOpen := true;
      return None;
    }

    /** `close`: the page is released. */
    method Close()
      requires Valid()
      modifies this
      ensures Valid() && !pageOpen
    {
      pageOpen := false;
    }

    /**
     * `uploadFiles`, with the checkpoint key and identity fields given
     * explicitly (`Text`, since a caller may leave them `undefined`).
     */
    method UploadFiles(url: string, files: seq<string>, taskId: string, item: Item, env: UploadEnv)
      returns (call: UploadCall)
      requires Valid()
      modifies progress
      ensures Valid()
      ensures UploadEffect(call, progress.progressMap) ==
              UploadFilesSpec(pageOpen, old(progress.progressMap), files, batchSize, item, env)
      ensures UploadWrites(pageOpen, old(progress.progressMap), files, batchSize, item, env) ==>
                progress.file == Values(progress.progressMap)
      ensures !UploadWrites(pageOpen, old(progress.progressMap), files, batchSize, item, env) ==>
                progress.file == old(progress.file)
    {
      if !pageOpen {
        return Thrown(NotInitialised);
      }
      if env.navigation.Some? {
        return Returned(UploadResult(false, |files|, 0, env.navigation));
      }
      ghost var st0 := progress.progressMap;
      var batches := SplitIntoBatches(files, batchSize);
      var totalBatches := |batches|;
      var savedProgress := progress.GetProgress(item.key);
      var startBatchIndex := 0;
      if savedProgress.Some? && savedProgress.value.totalBatches == totalBatches {
        startBatchIndex := savedProgress.value.completedBatches;
      }
      assert startBatchIndex == StartIndex(Saved(st0, item.key), totalBatches);
      var end := RunBatches(batches, startBatchIndex, item, env);
      match end
      case ThrewAt(message) =>
        return Returned(UploadResult(false, |files|, 0, Some(message)));
      case FailedAt(i) =>
        return Returned(UploadResult(false, |files|, i, Some(BatchFailure(i))));
      case AllDone =>
        progress.ClearProgress(item.key, item.drama);
        return Returned(UploadResult(true, |files|, totalBatches, None));
    }

    /**
     * The batch loop of `uploadFiles` from `start`: checkpoint after each
     * batch outcome, stop at the first failed or thrown batch. Until the
     * first batch that does not throw, the file is untouched.
     */
    method RunBatches(batches: seq<seq<string>>, start: nat, item: Item, env: UploadEnv) returns (end: RunEnd)
      requires Valid()
      modifies progress
      ensures Valid()
      ensures (end, progress.progressMap) == Run(old(progress.progressMap), batches, start, item, env)
      ensures RunWrites(batches, start, env) ==> progress.Synced()
      ensures !RunWrites(batches, start, env) ==> progress.file == old(progress.file)
    {
      if start >= |batches| {
        return AllDone;
      }
      var outcome := UploadOneBatch(batches, start, item, env);
      if outcome.Threw? {
        return ThrewAt(outcome.message);
      }
      if outcome.Exhausted? {
        return FailedAt(start);
      }
      end := RunSyncedBatches(batches, start + 1, item, env);
    }

    /** The rest of the batch loop, once the file holds the map's values. */
    method RunSyncedBatches(batches: seq<seq<string>>, start: nat, item: Item, env: UploadEnv) returns (end: RunEnd)
      requires Valid() && progress.Synced()
      modifies progress
      ensures Valid() && progress.Synced()
      ensures (end, progress.progressMap) == Run(old(progress.progressMap), batches, start, item, env)
    {
      var i := start;
      while i < |batches|
        invariant progress.Valid() && progress.Synced()
        invariant Run(old(progress.progressMap), batches, start, item, env) == Run(progress.progressMap, batches, i, item, env)
        decreases |batches| - i
      {
        var outcome := UploadOneBatch(batches, i, item, env);
        if outcome.Threw? {
          return ThrewAt(outcome.message);
        }
        if outcome.Exhausted? {
          return FailedAt(i);
        }
        i := i + 1;
      }
      return AllDone;
    }

    /**
     * One iteration of the batch loop: the retry loop for batch `i`, then the
     * checkpoint its outcome calls for, written through to the file.
     */
    method UploadOneBatch(batches: seq<seq<string>>, i: nat, item: Item, env: UploadEnv) returns (outcome: BatchOutcome)
      requires Valid() && i < |batches|
      modifies progress
      ensures Valid() && outcome == BatchOutcomeOf(env.attempts, i, |batches[i]|)
      ensures outcome.Threw? ==> progress.progressMap == old(progress.progressMap) && progress.file == old(progress.file)
      ensures !outcome.Threw? ==> progress.Synced()
      ensures outcome == Uploaded ==>
                progress.progressMap == Put(old(progress.progressMap), item.key, Checkpoint(item, |batches|, i + 1, env.now))
      ensures outcome == Exhausted ==>
                progress.progressMap == Put(old(progress.progressMap), item.key, Checkpoint(item, |batches|, i, env.now))
    {
      var tried, reloads;
      outcome, tried, reloads := UploadBatch(env.attempts, i, |batches[i]|);
      if outcome.Exhausted? {
        progress.UpdateProgress(item.key, item.drama, item.date, item.account, |batches|, i, env.now);
      } else if outcome.Uploaded? {
        progress.UpdateProgress(item.key, item.drama, item.date, item.account, |batches|, i + 1, env.now);
      }
    }
  }
}
