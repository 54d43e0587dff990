/** The parallel test executor: the strategies that turn a list of test jobs
    into a list of results, the post-hoc metrics, the polling wait for one
    job, and the builder that cuts a git diff into jobs. Concurrency is
    modelled away: `submit(job)` is the text of the exception the job's
    submission raises, if any, `wait(job)` the outcome of waiting for the
    job afterwards (a result, or the text of the exception raised), `run(job)`
    the outcome of both inside one `try`, and the order in which concurrently
    running jobs finish is a parameter. */
module Executor {
  import opened Wrappers
  import opened Text
  import opened Seqs
  import opened Coordinator

  datatype Strategy = Sequential | ParallelFiles | ParallelFunctions | Hybrid | LoadBalanced

  datatype ExecutionConfig = ExecutionConfig(
    strategy: Strategy,
    maxWorkers: int,
    timeoutSeconds: int,
    retryAttempts: int,
    batchSize: int,
    priorityLevels: seq<int>)

  /** The configuration's defaults, with the priority levels 1, 2, 3 filled in. */
  function DefaultConfig(strategy: Strategy): (c: ExecutionConfig)
    ensures c.strategy == strategy && c.priorityLevels == [1, 2, 3]
    ensures c.maxWorkers == 4 && c.timeoutSeconds == 300 && c.retryAttempts == 3 && c.batchSize == 10
  {
    ExecutionConfig(strategy, 4, 300, 3, 10, [1, 2, 3])
  }

  datatype ExecutionResult = ExecutionResult(
    totalJobs: nat,
    completedJobs: nat,
    failedJobs: nat,
    executionTimeMs: int,
    averageJobTimeMs: real,
    throughputJobsPerSecond: real,
    errorRatePercentage: real,
    results: seq<TestResult>)

  // ---------------------------------------------------------------------
  // Per-job outcomes

  /** The result kept for one job: the result itself, or a failure result
      carrying the job's id and the exception text. */
  function Settle(job: TestJob, outcome: Result<TestResult>, stamp: string): (r: TestResult)
    ensures outcome.Ok? ==> r == outcome.value
    ensures outcome.Err? ==> r.jobId == job.id && !r.success && r.errorMessage == Some(outcome.error)
  {
    match outcome
    case Ok(result) => result
    case Err(e) => FailureResult(job.id, e, stamp)
  }

  /** One settled result per job, in job order. */
  function SettleAll(jobs: seq<TestJob>, run: TestJob -> Result<TestResult>, stamp: string): (rs: seq<TestResult>)
    ensures |rs| == |jobs|
    ensures forall i :: 0 <= i < |jobs| ==> rs[i] == Settle(jobs[i], run(jobs[i]), stamp)
  {
    seq(|jobs|, i requires 0 <= i < |jobs| => Settle(jobs[i], run(jobs[i]), stamp))
  }

  lemma SettleAllAppend(a: seq<TestJob>, b: seq<TestJob>, run: TestJob -> Result<TestResult>, stamp: string)
    ensures SettleAll(a + b, run, stamp) == SettleAll(a, run, stamp) + SettleAll(b, run, stamp)
  {
  }

  /** `order` lists every index below `n` exactly once: the order in which
      `asyncio.as_completed` hands back `n` tasks. */
  predicate IsOrder(order: seq<nat>, n: nat) {
    |order| == n
    && (forall i :: 0 <= i < n ==> order[i] < n)
    && (forall i, j :: 0 <= i < j < n ==> order[i] != order[j])
    && (forall k :: 0 <= k < n ==> k in order)
  }

  function Permute<T>(xs: seq<T>, order: seq<nat>): (ys: seq<T>)
    requires forall i :: 0 <= i < |order| ==> order[i] < |xs|
    ensures |ys| == |order|
    ensures forall i :: 0 <= i < |order| ==> ys[i] == xs[order[i]]
  {
    seq(|order|, i requires 0 <= i < |order| => xs[order[i]])
  }

  /** Rearranging by a completion order keeps every element exactly once. */
  lemma {:induction false} PermuteMultiset<T>(xs: seq<T>, order: seq<nat>)
    requires IsOrder(order, |xs|)
    ensures multiset(Permute(xs, order)) == multiset(xs)
    decreases |xs|
  {
    if xs != [] {
      var last := |xs| - 1;
      assert last in order;
      var p :| 0 <= p < |order| && order[p] == last;
      var rest := order[..p] + order[p + 1..];
      DropFromOrder(order, p);
      PermuteMultiset(xs[..last], rest);
      PermuteDrop(xs, order, p, rest);
    }
  }

  /** Putting the last element back where the completion order has it. */
  lemma PermuteDrop<T>(xs: seq<T>, order: seq<nat>, p: nat, rest: seq<nat>)
    requires xs != [] && p < |order| && order[p] == |xs| - 1
    requires forall i :: 0 <= i < |order| ==> order[i] < |xs|
    requires rest == order[..p] + order[p + 1..]
    requires forall i :: 0 <= i < |rest| ==> rest[i] < |xs| - 1
    requires multiset(Permute(xs[..|xs| - 1], rest)) == multiset(xs[..|xs| - 1])
    ensures multiset(Permute(xs, order)) == multiset(xs)
  {
    var ys := Permute(xs, order);
    var zs := Permute(xs[..|xs| - 1], rest);
    assert zs == ys[..p] + ys[p + 1..];
    SplitAt(ys, p);
    assert xs == xs[..|xs| - 1] + [xs[|xs| - 1]];
  }

  lemma SplitAt<T>(ys: seq<T>, p: nat)
    requires p < |ys|
    ensures multiset(ys) == multiset(ys[..p] + ys[p + 1..]) + multiset{ys[p]}
  {
    assert ys == ys[..p] + [ys[p]] + ys[p + 1..];
  }

  /** Taking the largest index out of a completion order leaves a completion
      order of one element fewer. */
  lemma DropFromOrder(order: seq<nat>, p: nat)
    requires order != [] && IsOrder(order, |order|) && p < |order| && order[p] == |order| - 1
    ensures IsOrder(order[..p] + order[p + 1..], |order| - 1)
  {
    var n := |order|;
    var rest := order[..p] + order[p + 1..];
    forall i | 0 <= i < n - 1
      ensures rest[i] == order[if i < p then i else i + 1]
    {
    }
    forall i, j | 0 <= i < j < n - 1
      ensures rest[i] != rest[j]
    {
      assert order[if i < p then i else i + 1] != order[if j < p then j else j + 1];
    }
    forall k | 0 <= k < n - 1
      ensures k in rest
    {
      assert k in order;
      var q :| 0 <= q < n && order[q] == k;
      assert rest[if q < p then q else q - 1] == k;
    }
  }

  // ---------------------------------------------------------------------
  // Strategies

  /** A job submitted and then waited for inside one `try`, as
      `_execute_sequential` and `_execute_parallel_functions` do: a
      submission that raises settles the job with that exception, and the
      wait is never reached. */
  function SubmitAndWait(submit: TestJob -> Option<string>, wait: TestJob -> Result<TestResult>, job: TestJob): (r: Result<TestResult>)
    ensures submit(job).Some? ==> r == Err(submit(job).value)
    ensures submit(job).None? ==> r == wait(job)
  {
    match submit(job)
    case Some(e) => Err(e)
    case None => wait(job)
  }

  function SubmitThenWait(submit: TestJob -> Option<string>, wait: TestJob -> Result<TestResult>): TestJob -> Result<TestResult> {
    job => SubmitAndWait(submit, wait, job)
  }

  /** `_execute_sequential`: one job after the other. */
  method ExecuteSequential(jobs: seq<TestJob>, run: TestJob -> Result<TestResult>, stamp: string)
    returns (results: seq<TestResult>)
    ensures results == SettleAll(jobs, run, stamp)
  {
    results := [];
    var i := 0;
    while i < |jobs|
      invariant 0 <= i <= |jobs|
      invariant results == SettleAll(jobs[..i], run, stamp)
    {
      var outcome := run(jobs[i]);
      var result := Settle(jobs[i], outcome, stamp);
      results := results + [result];
      assert jobs[..i + 1] == jobs[..i] + [jobs[i]];
      SettleAllAppend(jobs[..i], [jobs[i]], run, stamp);
      i := i + 1;
    }
    assert jobs[..i] == jobs;
  }

  /** The results of `_execute_sequential` given a `progress_callback`;
      `callback(k, result)` is the text of the exception the call after the
      `k`-th job raises, if any. The call sits inside the `try`, after the
      result was appended, so a raising callback makes the `except` append
      a second, failure result for the same job. */
  function SequentialWithProgress(jobs: seq<TestJob>, run: TestJob -> Result<TestResult>,
                                  callback: (nat, TestResult) -> Option<string>, stamp: string): (rs: seq<TestResult>)
    ensures |rs| == |jobs| + RaisingCallbacks(jobs, run, callback)
    ensures jobs != [] && run(jobs[|jobs| - 1]).Ok? && callback(|jobs|, run(jobs[|jobs| - 1]).value).Some? ==>
      rs[|rs| - 1] == FailureResult(jobs[|jobs| - 1].id, callback(|jobs|, run(jobs[|jobs| - 1]).value).value, stamp)
      && rs[|rs| - 2] == run(jobs[|jobs| - 1]).value
  {
    if jobs == [] then []
    else
      var n := |jobs| - 1;
      var job := jobs[n];
      SequentialWithProgress(jobs[..n], run, callback, stamp)
        + match run(job)
          case Err(e) => [FailureResult(job.id, e, stamp)]
          case Ok(result) =>
            match callback(n + 1, result)
            case None => [result]
            case Some(e) => [result, FailureResult(job.id, e, stamp)]
  }

  /** The number of jobs that completed and whose callback then raised. */
  function RaisingCallbacks(jobs: seq<TestJob>, run: TestJob -> Result<TestResult>,
                            callback: (nat, TestResult) -> Option<string>): (n: nat)
    ensures n <= |jobs|
  {
    if jobs == [] then 0
    else
      var k := |jobs| - 1;
      RaisingCallbacks(jobs[..k], run, callback)
        + if run(jobs[k]).Ok? && callback(k + 1, run(jobs[k]).value).Some? then 1 else 0
  }

  /** One job that completes and a callback that raises give two results,
      the second a failure of the same job. */
  lemma ProgressFailureDuplicates(job: TestJob, result: TestResult, e: string, stamp: string)
    ensures var rs := SequentialWithProgress([job], _ => Ok(result), (_, _) => Some(e), stamp);
      |rs| == 2 && rs[0] == result && rs[1].jobId == job.id && !rs[1].success && rs[1].errorMessage == Some(e)
  {
    assert [job][..0] == [];
  }

  /** A callback that never raises changes nothing: one settled result per job. */
  lemma {:induction false} QuietProgress(jobs: seq<TestJob>, run: TestJob -> Result<TestResult>,
                                         callback: (nat, TestResult) -> Option<string>, stamp: string)
    requires forall k, r :: callback(k, r).None?
    ensures SequentialWithProgress(jobs, run, callback, stamp) == SettleAll(jobs, run, stamp)
  {
    if jobs != [] {
      var n := |jobs| - 1;
      QuietProgress(jobs[..n], run, callback, stamp);
      SettleAllAppend(jobs[..n], [jobs[n]], run, stamp);
      assert jobs[..n] + [jobs[n]] == jobs;
    }
  }

  /** `_execute_sequential` with the callback outside the `try`: an exception
      of the callback leaves the loop, as it does in the other strategies,
      instead of being filed as a failure of the job. */
  function SequentialWithProgressFixed(jobs: seq<TestJob>, run: TestJob -> Result<TestResult>,
                                       callback: (nat, TestResult) -> Option<string>, stamp: string): Result<seq<TestResult>>
  {
    if jobs == [] then Ok([])
    else
      var n := |jobs| - 1;
      var job := jobs[n];
      var before := SequentialWithProgressFixed(jobs[..n], run, callback, stamp);
      if before.Err? then before
      else
        match run(job)
        case Err(e) => Ok(before.value + [FailureResult(job.id, e, stamp)])
        case Ok(result) =>
          match callback(n + 1, result)
          case None => Ok(before.value + [result])
          case Some(e) => Err(e)
  }

  /** With the callback outside the `try`, a finished run has exactly one
      settled result per job, and a quiet callback always lets it finish. */
  lemma {:induction false} ProgressFixedOneResultPerJob(jobs: seq<TestJob>, run: TestJob -> Result<TestResult>,
                                                        callback: (nat, TestResult) -> Option<string>, stamp: string)
    ensures var r := SequentialWithProgressFixed(jobs, run, callback, stamp);
      r.Ok? ==> r.value == SettleAll(jobs, run, stamp)
    ensures (forall k, r :: callback(k, r).None?) ==> SequentialWithProgressFixed(jobs, run, callback, stamp).Ok?
  {
    if jobs != [] {
      var n := |jobs| - 1;
      ProgressFixedOneResultPerJob(jobs[..n], run, callback, stamp);
      SettleAllAppend(jobs[..n], [jobs[n]], run, stamp);
      assert jobs[..n] + [jobs[n]] == jobs;
    }
  }

  /** The result list of `_execute_parallel_files`: Python's `range` refuses a
      zero step and yields nothing for a negative one. The submissions of a
      window are gathered with their exceptions and never read, so every
      job is settled by what waiting for it gives. */
  function FilesResults(jobs: seq<TestJob>, batchSize: int, wait: TestJob -> Result<TestResult>, stamp: string): Result<seq<TestResult>> {
    if batchSize == 0 then Err("range() arg 3 must not be zero")
    else if batchSize < 0 || jobs == [] then Ok([])
    else Ok(SettleAll(jobs, wait, stamp))
  }

  /** `_execute_parallel_files`: consecutive windows of `batchSize` jobs,
      each finished before the next starts; `windows` records them. Only
      the waits decide the results: `wait(job)` for a job whose submission
      raised is what the polling gives, a timeout or an earlier result
      stored under the same id. */
  method ExecuteParallelFiles(jobs: seq<TestJob>, batchSize: int, wait: TestJob -> Result<TestResult>, stamp: string)
    returns (r: Result<seq<TestResult>>, ghost windows: seq<seq<TestJob>>)
    ensures r == FilesResults(jobs, batchSize, wait, stamp)
    ensures batchSize > 0 ==> windows == Chunks(jobs, batchSize)
  {
    windows := [];
    if batchSize == 0 {
      return Err("range() arg 3 must not be zero"), windows;
    }
    var results: seq<TestResult> := [];
    var batchStart := 0;
    while batchStart < |jobs|
      invariant 0 <= batchStart
      invariant batchSize > 0 ==> batchStart <= |jobs| || results == SettleAll(jobs, wait, stamp)
      invariant batchSize < 0 ==> batchStart == 0 && results == [] && windows == []
      invariant batchSize > 0 && batchStart < |jobs| ==>
        results == SettleAll(jobs[..batchStart], wait, stamp)
        && windows + Chunks(jobs[batchStart..], batchSize) == Chunks(jobs, batchSize)
      invariant batchSize > 0 && batchStart >= |jobs| ==>
        results == SettleAll(jobs, wait, stamp) && windows == Chunks(jobs, batchSize)
      decreases |jobs| - batchStart
    {
      if batchSize < 0 {
        break;
      }
      var batchEnd := if batchStart + batchSize < |jobs| then batchStart + batchSize else |jobs|;
      var batch := jobs[batchStart..batchEnd];
      ghost var before := results;
      var i := 0;
      while i < |batch|
        invariant 0 <= i <= |batch|
        invariant results == before + SettleAll(batch[..i], wait, stamp)
      {
        results := results + [Settle(batch[i], wait(batch[i]), stamp)];
        assert batch[..i + 1] == batch[..i] + [batch[i]];
        SettleAllAppend(batch[..i], [batch[i]], wait, stamp);
        i := i + 1;
      }
      assert batch[..i] == batch;
      WindowStep(jobs, batchStart, batchSize);
      SettleAllAppend(jobs[..batchStart], batch, wait, stamp);
      assert jobs[..batchStart] + batch == jobs[..batchEnd];
      windows := windows + [batch];
      batchStart := batchStart + batchSize;
      if batchStart >= |jobs| {
        assert jobs[..batchEnd] == jobs;
        assert jobs[batchEnd..] == [];
      } else {
        assert batchEnd == batchStart;
      }
    }
    if batchSize > 0 && jobs == [] {
      assert results == SettleAll(jobs, wait, stamp) == [];
    }
    return Ok(results), windows;
  }

  /** The window starting at `start` is the head of the remaining chunks. */
  lemma WindowStep(jobs: seq<TestJob>, start: nat, size: nat)
    requires size > 0 && start < |jobs|
    ensures var end := if start + size < |jobs| then start + size else |jobs|;
      Chunks(jobs[start..], size) == [jobs[start..end]] + Chunks(jobs[end..], size)
  {
    var end := if start + size < |jobs| then start + size else |jobs|;
    if |jobs[start..]| <= size {
      assert jobs[start..end] == jobs[start..] != [];
      assert jobs[end..] == [];
    } else {
      assert jobs[start..][..size] == jobs[start..end];
      assert jobs[start..][size..] == jobs[end..];
    }
  }

  /** `_execute_parallel_functions`: all jobs run at once and their results
      are collected in completion order. */
  method ExecuteParallelFunctions(jobs: seq<TestJob>, run: TestJob -> Result<TestResult>, order: seq<nat>, stamp: string)
    returns (results: seq<TestResult>)
    requires IsOrder(order, |jobs|)
    ensures results == Permute(SettleAll(jobs, run, stamp), order)
    ensures |results| == |jobs|
    ensures multiset(results) == multiset(SettleAll(jobs, run, stamp))
  {
    var tasks := SettleAll(jobs, run, stamp);
    results := [];
    var i := 0;
    while i < |order|
      invariant 0 <= i <= |order|
      invariant results == Permute(tasks, order[..i])
    {
      results := results + [tasks[order[i]]];
      i := i + 1;
    }
    assert order[..i] == order;
    PermuteMultiset(tasks, order);
  }

  /** The jobs of one priority, in input order. */
  function WithPriority(jobs: seq<TestJob>, p: int): (group: seq<TestJob>)
    ensures |group| <= |jobs|
    ensures forall i :: 0 <= i < |group| ==> group[i].priority == p && group[i] in jobs
  {
    if jobs == [] then []
    else
      var n := |jobs| - 1;
      WithPriority(jobs[..n], p) + if jobs[n].priority == p then [jobs[n]] else []
  }

  /** `priority_groups` in `_execute_hybrid`: a map from each priority that
      occurs to its jobs. */
  method GroupByPriority(jobs: seq<TestJob>) returns (groups: map<int, seq<TestJob>>)
    ensures forall p :: p in groups <==> exists i :: 0 <= i < |jobs| && jobs[i].priority == p
    ensures forall p :: p in groups ==> groups[p] == WithPriority(jobs, p) && groups[p] != []
    ensures forall p :: p !in groups ==> WithPriority(jobs, p) == []
  {
    groups := map[];
    var i := 0;
    while i < |jobs|
      invariant 0 <= i <= |jobs|
      invariant forall p :: p in groups <==> exists k :: 0 <= k < i && jobs[k].priority == p
      invariant forall p :: p in groups ==> groups[p] == WithPriority(jobs[..i], p)
      invariant forall p :: p in groups ==> groups[p] != []
    {
      var p := jobs[i].priority;
      assert jobs[..i + 1][..i] == jobs[..i];
      if p !in groups {
        NoneWithPriority(jobs[..i], p);
        groups := groups[p := []];
      }
      groups := groups[p := groups[p] + [jobs[i]]];
      i := i + 1;
      forall q | q in groups
        ensures groups[q] == WithPriority(jobs[..i], q)
      {
        if q != p {
          assert jobs[..i][i - 1].priority != q;
        }
      }
    }
    assert jobs[..i] == jobs;
    forall p | p !in groups
      ensures WithPriority(jobs, p) == []
    {
      NoneWithPriority(jobs, p);
    }
  }

  lemma {:induction false} NoneWithPriority(jobs: seq<TestJob>, p: int)
    requires forall k :: 0 <= k < |jobs| ==> jobs[k].priority != p
    ensures WithPriority(jobs, p) == []
  {
    if jobs != [] {
      NoneWithPriority(jobs[..|jobs| - 1], p);
    }
  }

  /** The result list of `_execute_hybrid`: priority 1 sequentially, then
      priority 2 in windows, then priority 3 all at once. */
  function HybridResults(jobs: seq<TestJob>, batchSize: int, run: TestJob -> Result<TestResult>, wait: TestJob -> Result<TestResult>, order3: seq<nat>, stamp: string): Result<seq<TestResult>>
    requires IsOrder(order3, |WithPriority(jobs, 3)|)
  {
    var medium := WithPriority(jobs, 2);
    var files := if medium == [] then Ok([]) else FilesResults(medium, batchSize, wait, stamp);
    if files.Err? then files
    else Ok(SettleAll(WithPriority(jobs, 1), run, stamp) + files.value
            + Permute(SettleAll(WithPriority(jobs, 3), run, stamp), order3))
  }

  method ExecuteHybrid(jobs: seq<TestJob>, batchSize: int, run: TestJob -> Result<TestResult>, wait: TestJob -> Result<TestResult>, order3: seq<nat>, stamp: string)
    returns (r: Result<seq<TestResult>>)
    requires IsOrder(order3, |WithPriority(jobs, 3)|)
    ensures r == HybridResults(jobs, batchSize, run, wait, order3, stamp)
  {
    var high, medium, low := PriorityGroups(jobs);
    r := ExecuteHighAndMedium(high, medium, batchSize, run, wait, stamp);
    if r.Err? {
      return r;
    }
    if low != [] {
      var rs := ExecuteParallelFunctions(low, run, order3, stamp);
      r := Ok(r.value + rs);
    } else {
      assert Permute(SettleAll(low, run, stamp), order3) == [];
      assert r.value + [] == r.value;
    }
  }

  /** The first two phases of `_execute_hybrid`: the priority-1 jobs one after
      another, then the priority-2 jobs in windows. */
  method ExecuteHighAndMedium(high: seq<TestJob>, medium: seq<TestJob>, batchSize: int, run: TestJob -> Result<TestResult>, wait: TestJob -> Result<TestResult>, stamp: string)
    returns (r: Result<seq<TestResult>>)
    ensures var files := if medium == [] then Ok([]) else FilesResults(medium, batchSize, wait, stamp);
      r == if files.Err? then files else Ok(SettleAll(high, run, stamp) + files.value)
  {
    var results: seq<TestResult> := [];
    if high != [] {
      var rs := ExecuteSequential(high, run, stamp);
      results := results + rs;
    }
    assert results == SettleAll(high, run, stamp);
    if medium != [] {
      var rs, _ := ExecuteParallelFiles(medium, batchSize, wait, stamp);
      if rs.Err? {
        return rs;
      }
      results := results + rs.value;
    } else {
      assert results + [] == results;
    }
    return Ok(results);
  }

  /** The three groups `_execute_hybrid` reads from `priority_groups`; a
      priority that does not occur has no entry, read here as an empty group. */
  method PriorityGroups(jobs: seq<TestJob>) returns (high: seq<TestJob>, medium: seq<TestJob>, low: seq<TestJob>)
    ensures high == WithPriority(jobs, 1) && medium == WithPriority(jobs, 2) && low == WithPriority(jobs, 3)
  {
    var groups := GroupByPriority(jobs);
    high := if 1 in groups then groups[1] else [];
    medium := if 2 in groups then groups[2] else [];
    low := if 3 in groups then groups[3] else [];
  }

  /** Jobs of a priority other than 1, 2 and 3 get no result: the hybrid list
      has one result per job of those priorities (batches permitting). */
  lemma HybridCount(jobs: seq<TestJob>, batchSize: int, run: TestJob -> Result<TestResult>, wait: TestJob -> Result<TestResult>, order3: seq<nat>, stamp: string)
    requires IsOrder(order3, |WithPriority(jobs, 3)|)
    requires batchSize > 0
    ensures HybridResults(jobs, batchSize, run, wait, order3, stamp).Ok?
    ensures |HybridResults(jobs, batchSize, run, wait, order3, stamp).value|
      == |WithPriority(jobs, 1)| + |WithPriority(jobs, 2)| + |WithPriority(jobs, 3)|
  {
  }

  /** Every job lands in exactly one priority group or in none. */
  lemma {:induction false} PriorityGroupsBound(jobs: seq<TestJob>)
    ensures |WithPriority(jobs, 1)| + |WithPriority(jobs, 2)| + |WithPriority(jobs, 3)| <= |jobs|
    ensures (forall i :: 0 <= i < |jobs| ==> 1 <= jobs[i].priority <= 3) ==>
      |WithPriority(jobs, 1)| + |WithPriority(jobs, 2)| + |WithPriority(jobs, 3)| == |jobs|
  {
    if jobs != [] {
      PriorityGroupsBound(jobs[..|jobs| - 1]);
    }
  }

  /** The figures `_execute_load_balanced` reads: `queue_stats.get(key, 0)`;
      the error form of the statistics has neither key. */
  function MessagesAvailable(stats: QueueStats): int {
    if stats.Stats? then stats.messagesAvailable else 0
  }

  function MessagesInFlight(stats: QueueStats): int {
    if stats.Stats? then stats.messagesInFlight else 0
  }

  /** `_execute_load_balanced`'s choice of strategy. */
  function ChooseLoadBalanced(stats: QueueStats): (s: Strategy)
    ensures s == Sequential <==> MessagesAvailable(stats) > 50
    ensures s == ParallelFunctions <==> MessagesAvailable(stats) <= 50 && MessagesInFlight(stats) < 10
    ensures s == ParallelFiles <==> MessagesAvailable(stats) <= 50 && MessagesInFlight(stats) >= 10
  {
    if MessagesAvailable(stats) > 50 then Sequential
    else if MessagesInFlight(stats) < 10 then ParallelFunctions
    else ParallelFiles
  }

  /** When the queue statistics could not be read, load balancing goes fully parallel. */
  lemma LoadBalancedOnStatsError(e: string)
    ensures ChooseLoadBalanced(StatsError(e)) == ParallelFunctions
  {
  }

  /** What one run of the executor meets: per-job submission and wait
      outcomes, the completion orders of the all-at-once runs, the queue
      statistics, the measured suite time and the time stamp of failure
      results. */
  datatype Run = Run(
    submit: TestJob -> Option<string>,
    wait: TestJob -> Result<TestResult>,
    order: seq<nat>,
    lowOrder: seq<nat>,
    stats: QueueStats,
    elapsedMs: int,
    stamp: string)

  /** What the strategies need of their environment for these jobs. */
  predicate RunFits(strategy: Strategy, jobs: seq<TestJob>, env: Run) {
    (strategy == ParallelFunctions || strategy == LoadBalanced ==> IsOrder(env.order, |jobs|))
    && (strategy == Hybrid ==> IsOrder(env.lowOrder, |WithPriority(jobs, 3)|))
  }

  /** The per-job outcome of the strategies that submit and wait inside one `try`. */
  function SubmittedRun(env: Run): TestJob -> Result<TestResult> {
    SubmitThenWait(env.submit, env.wait)
  }

  function StrategyResults(strategy: Strategy, batchSize: int, jobs: seq<TestJob>, env: Run): Result<seq<TestResult>>
    requires RunFits(strategy, jobs, env)
  {
    match strategy
    case Sequential => Ok(SettleAll(jobs, SubmittedRun(env), env.stamp))
    case ParallelFiles => FilesResults(jobs, batchSize, env.wait, env.stamp)
    case ParallelFunctions => Ok(Permute(SettleAll(jobs, SubmittedRun(env), env.stamp), env.order))
    case Hybrid => HybridResults(jobs, batchSize, SubmittedRun(env), env.wait, env.lowOrder, env.stamp)
    case LoadBalanced =>
      match ChooseLoadBalanced(env.stats)
      case Sequential => Ok(SettleAll(jobs, SubmittedRun(env), env.stamp))
      case ParallelFunctions => Ok(Permute(SettleAll(jobs, SubmittedRun(env), env.stamp), env.order))
      case _ => FilesResults(jobs, batchSize, env.wait, env.stamp)
  }

  /** A job whose submission raises: one after the other it is settled with
      that exception, while in windows it is settled by the wait, so its
      submission error never reaches the results. */
  lemma SubmitErrorByStrategy(jobs: seq<TestJob>, batchSize: int, env: Run, i: nat)
    requires i < |jobs| && env.submit(jobs[i]).Some?
    requires batchSize > 0
    ensures var sequential := StrategyResults(Sequential, batchSize, jobs, env).value;
      && !sequential[i].success && sequential[i].jobId == jobs[i].id
      && sequential[i].errorMessage == Some(env.submit(jobs[i]).value)
    ensures StrategyResults(ParallelFiles, batchSize, jobs, env).value[i] == Settle(jobs[i], env.wait(jobs[i]), env.stamp)
  {
    assert SubmittedRun(env)(jobs[i]) == Err(env.submit(jobs[i]).value);
  }

  // ---------------------------------------------------------------------
  // Metrics

  function CountSucceeded(results: seq<TestResult>): (n: nat)
    ensures n <= |results|
  {
    if results == [] then 0 else (if results[0].success then 1 else 0) + CountSucceeded(results[1..])
  }

  function CountFailed(results: seq<TestResult>): (n: nat)
    ensures n <= |results|
  {
    if results == [] then 0 else (if results[0].success then 0 else 1) + CountFailed(results[1..])
  }

  /** Every result is either completed or failed. */
  lemma {:induction false} CompletedPlusFailed(results: seq<TestResult>)
    ensures CountSucceeded(results) + CountFailed(results) == |results|
  {
    if results != [] {
      CompletedPlusFailed(results[1..]);
    }
  }

  function SumTimes(results: seq<TestResult>): int {
    if results == [] then 0 else results[0].executionTimeMs + SumTimes(results[1..])
  }

  /** Jobs per second over `elapsedMs` milliseconds, 0 when no time passed. */
  function PerSecond(count: nat, elapsedMs: int): (t: real)
    ensures elapsedMs <= 0 ==> t == 0.0
    ensures elapsedMs > 0 ==> t * (elapsedMs as real) == (count as real) * 1000.0
  {
    if elapsedMs > 0 then
      var seconds := (elapsedMs as real) / 1000.0;
      assert seconds * 1000.0 == elapsedMs as real;
      (count as real) / seconds
    else 0.0
  }

  /** The metrics of `execute_test_suite`, over exact reals. */
  function Metrics(totalJobs: nat, results: seq<TestResult>, elapsedMs: int): (m: ExecutionResult)
    ensures m.totalJobs == totalJobs && m.results == results && m.executionTimeMs == elapsedMs
    ensures m.completedJobs == CountSucceeded(results) && m.failedJobs == CountFailed(results)
    ensures m.completedJobs + m.failedJobs == |results|
    ensures results == [] ==> m.averageJobTimeMs == 0.0 && m.errorRatePercentage == 0.0
    ensures results != [] ==> m.averageJobTimeMs * (|results| as real) == SumTimes(results) as real
    ensures results != [] ==> m.errorRatePercentage * (|results| as real) == (m.failedJobs as real) * 100.0
    ensures 0.0 <= m.errorRatePercentage <= 100.0
    ensures elapsedMs <= 0 ==> m.throughputJobsPerSecond == 0.0
    ensures elapsedMs > 0 ==> m.throughputJobsPerSecond * (elapsedMs as real) == (|results| as real) * 1000.0
  {
    CompletedPlusFailed(results);
    var completed := CountSucceeded(results);
    var failed := CountFailed(results);
    var average := if results == [] then 0.0 else Mean(SumTimes(results) as real, |results|);
    var throughput := PerSecond(|results|, elapsedMs);
    var errorRate := Percentage(failed, |results|);
    ExecutionResult(totalJobs, completed, failed, elapsedMs, average, throughput, errorRate, results)
  }

  // ---------------------------------------------------------------------
  // The executor

  class ParallelTestExecutor {
    var config: ExecutionConfig
    /** Tracked executions, by id, and the ids cancelled so far, in order. */
    var activeExecutions: set<string>
    ghost var cancelled: seq<string>

    constructor (config: ExecutionConfig)
      ensures this.config == config && activeExecutions == {} && cancelled == []
    {
      this.config := config;
      activeExecutions := {};
      cancelled := [];
    }

    /** `execute_test_suite`: run the configured strategy, then compute the metrics. */
    method ExecuteTestSuite(jobs: seq<TestJob>, env: Run) returns (r: Result<ExecutionResult>)
      requires RunFits(config.strategy, jobs, env)
      ensures var results := StrategyResults(config.strategy, config.batchSize, jobs, env);
        (r.Err? <==> results.Err?)
        && (r.Err? ==> r.error == results.error)
        && (r.Ok? ==> r.value == Metrics(|jobs|, results.value, env.elapsedMs))
    {
      var strategy := config.strategy;
      if strategy == LoadBalanced {
        strategy := ChooseLoadBalanced(env.stats);
      }
      var results: Result<seq<TestResult>>;
      match strategy {
        case Sequential =>
          var rs := ExecuteSequential(jobs, SubmittedRun(env), env.stamp);
          results := Ok(rs);
        case ParallelFiles =>
          ghost var windows;
          results, windows := ExecuteParallelFiles(jobs, config.batchSize, env.wait, env.stamp);
        case ParallelFunctions =>
          var rs := ExecuteParallelFunctions(jobs, SubmittedRun(env), env.order, env.stamp);
          results := Ok(rs);
        case Hybrid =>
          results := ExecuteHybrid(jobs, config.batchSize, SubmittedRun(env), env.wait, env.lowOrder, env.stamp);
        case LoadBalanced =>
          assert false;
          results := Ok([]);
      }
      if results.Err? {
        return Err(results.error);
      }
      return Ok(Metrics(|jobs|, results.value, env.elapsedMs));
    }

    /** `_wait_for_job_completion`: poll the status once a second until the job
        completes or the timeout passes; `statusAt(k)` is the status read at
        second `k`. */
    method WaitForJobCompletion(jobId: string, timeoutSeconds: Option<int>, statusAt: nat -> JobStatus)
      returns (r: Result<TestResult>)
      ensures var t := timeoutSeconds.GetOr(config.timeoutSeconds);
        (r.Ok? ==> exists k: nat :: k < t && statusAt(k).Completed? && r.value == statusAt(k).result
                     && forall j: nat :: j < k ==> !statusAt(j).Completed?)
        && (r.Err? ==> ((forall k: nat :: k < t ==> !statusAt(k).Completed?)
                        && r.error == "Job " + jobId + " did not complete within " + IntToString(t) + " seconds"))
    {
      var t := timeoutSeconds.GetOr(config.timeoutSeconds);
      var elapsed: nat := 0;
      while elapsed < t
        invariant forall j: nat :: j < elapsed ==> !statusAt(j).Completed?
        decreases t - elapsed
      {
        var status := statusAt(elapsed);
        if status.Completed? {
          return Ok(status.result);
        }
        elapsed := elapsed + 1;
      }
      return Err("Job " + jobId + " did not complete within " + IntToString(t) + " seconds");
    }

    /** `cancel_execution`: cancel and forget a tracked execution; an unknown id is ignored. */
    method CancelExecution(executionId: string)
      modifies this
      ensures activeExecutions == old(activeExecutions) - {executionId}
      ensures cancelled == if executionId in old(activeExecutions) then old(cancelled) + [executionId] else old(cancelled)
      ensures config == old(config)
    {
      if executionId in activeExecutions {
        cancelled := cancelled + [executionId];
        activeExecutions := activeExecutions - {executionId};
      }
    }
  }

  // ---------------------------------------------------------------------
  // Jobs from a git diff

  /** A line the diff adds: it starts with `+` but is not a `+++` file header. */
  predicate IsAddedLine(line: string) {
    StartsWith(line, "+") && !StartsWith(line, "+++")
  }

  /** The added lines of a section, without their `+`. */
  function AddedLines(lines: seq<string>): (added: seq<string>)
    ensures |added| <= |lines|
  {
    if lines == [] then []
    else
      var n := |lines| - 1;
      AddedLines(lines[..n]) + if IsAddedLine(lines[n]) then [lines[n][1..]] else []
  }

  const DiffSeparator := "diff --git"

  /** The sections of a diff: the pieces after each `diff --git`, without the
      text before the first one. */
  function DiffSections(diff: string): seq<string> {
    SplitOn(diff, DiffSeparator)[1..]
  }

  /** The job one `diff --git` section yields, if any; `i` counts sections
      after the text before the first separator, skipped ones included. The
      source also skips blank sections first; `BlankSectionNoJob` shows that
      such a section has no added line, so the skip changes nothing. */
  function SectionJob(i: nat, section: string, language: string, testType: string, stamp: nat, createdAt: string): Option<TestJob> {
    var added := AddedLines(SplitChar(section, '\n'));
    if added == [] then None
    else Some(DiffJob(i, added, language, testType, stamp, createdAt))
  }

  /** The job built from the added lines of section `i`: id `diff-<i>-<stamp>`,
      the lines joined by line breaks, priority 2 and the default retries. */
  function DiffJob(i: nat, added: seq<string>, language: string, testType: string, stamp: nat, createdAt: string): TestJob {
    TestJob(DiffJobId(i, stamp), JoinChar(added, '\n'), language, testType, 2, 0, 3, createdAt)
  }

  function DiffJobId(i: nat, stamp: nat): string {
    "diff-" + NatToString(i) + "-" + NatToString(stamp)
  }

  /** The jobs of the first `k` sections. */
  function SectionJobs(sections: seq<string>, k: nat, language: string, testType: string, stamp: nat, createdAt: string): seq<TestJob>
    requires k <= |sections|
  {
    if k == 0 then []
    else
      SectionJobs(sections, k - 1, language, testType, stamp, createdAt)
        + match SectionJob(k - 1, sections[k - 1], language, testType, stamp, createdAt)
          case None => []
          case Some(job) => [job]
  }

  /** The inner loop of `from_git_diff`: the added lines of one section. */
  method CollectAddedLines(lines: seq<string>) returns (added: seq<string>)
    ensures added == AddedLines(lines)
  {
    added := [];
    var j := 0;
    while j < |lines|
      invariant 0 <= j <= |lines|
      invariant added == AddedLines(lines[..j])
    {
      assert lines[..j + 1][..j] == lines[..j];
      if StartsWith(lines[j], "+") && !StartsWith(lines[j], "+++") {
        added := added + [lines[j][1..]];
      }
      j := j + 1;
    }
    assert lines[..j] == lines;
  }

  /** `TestSuiteBuilder.from_git_diff`; `stamp` is `int(time.time())` and
      `createdAt` the creation time every job gets. */
  method FromGitDiff(diff: string, language: string, testType: string, stamp: nat, createdAt: string)
    returns (jobs: seq<TestJob>)
    ensures jobs == SectionJobs(DiffSections(diff), |DiffSections(diff)|, language, testType, stamp, createdAt)
  {
    var sections := DiffSections(diff);
    jobs := [];
    var i := 0;
    while i < |sections|
      invariant 0 <= i <= |sections|
      invariant jobs == SectionJobs(sections, i, language, testType, stamp, createdAt)
    {
      var job := SectionStep(i, sections[i], language, testType, stamp, createdAt);
      if job.Some? {
        jobs := jobs + [job.value];
      }
      i := i + 1;
    }
  }

  /** The body of `from_git_diff`'s loop for section `i`: a blank section is
      skipped, otherwise its added lines make a job when there are any. */
  method SectionStep(i: nat, fileDiff: string, language: string, testType: string, stamp: nat, createdAt: string)
    returns (job: Option<TestJob>)
    ensures job == SectionJob(i, fileDiff, language, testType, stamp, createdAt)
  {
    if Strip(fileDiff) == [] {
      BlankSectionNoJob(fileDiff);
      return None;
    }
    var added := CollectAddedLines(SplitChar(fileDiff, '\n'));
    if added != [] {
      var code := JoinChar(added, '\n');
      return Some(TestJob(DiffJobId(i, stamp), code, language, testType, 2, 0, 3, createdAt));
    }
    return None;
  }

  /** The job of one section has priority 2, no retries used, three allowed,
      and the given language and test type. */
  lemma SectionJobShape(i: nat, section: string, language: string, testType: string, stamp: nat, createdAt: string)
    requires SectionJob(i, section, language, testType, stamp, createdAt).Some?
    ensures var job := SectionJob(i, section, language, testType, stamp, createdAt).value;
      job.priority == 2 && job.retryCount == 0 && job.maxRetries == 3
      && job.language == language && job.testType == testType
      && job.id == DiffJobId(i, stamp)
  {
  }

  /** Every job from a diff has the shape of `SectionJobShape`, and there are
      at most as many jobs as sections. */
  lemma {:induction false} DiffJobsShape(sections: seq<string>, k: nat, language: string, testType: string, stamp: nat, createdAt: string)
    requires k <= |sections|
    ensures var jobs := SectionJobs(sections, k, language, testType, stamp, createdAt);
      |jobs| <= k
      && forall i :: 0 <= i < |jobs| ==>
        jobs[i].priority == 2 && jobs[i].retryCount == 0 && jobs[i].maxRetries == 3
        && jobs[i].language == language && jobs[i].testType == testType
  {
    if k > 0 {
      DiffJobsShape(sections, k - 1, language, testType, stamp, createdAt);
      if SectionJob(k - 1, sections[k - 1], language, testType, stamp, createdAt).Some? {
        SectionJobShape(k - 1, sections[k - 1], language, testType, stamp, createdAt);
      }
    }
  }

  /** Each added line, minus its `+`, holds no line break when the lines came from a split. */
  lemma {:induction false} AddedLinesHaveNoNewline(lines: seq<string>)
    requires forall k :: 0 <= k < |lines| ==> '\n' !in lines[k]
    ensures forall k :: 0 <= k < |AddedLines(lines)| ==> '\n' !in AddedLines(lines)[k]
  {
    if lines != [] {
      var n := |lines| - 1;
      AddedLinesHaveNoNewline(lines[..n]);
      if IsAddedLine(lines[n]) {
        assert forall c :: c in lines[n][1..] ==> c in lines[n];
      }
    }
  }

  /** A section's job splits back, line by line, into exactly its added lines
      without their `+`. */
  lemma SectionJobLines(i: nat, section: string, language: string, testType: string, stamp: nat, createdAt: string)
    requires SectionJob(i, section, language, testType, stamp, createdAt).Some?
    ensures SplitChar(SectionJob(i, section, language, testType, stamp, createdAt).value.code, '\n')
      == AddedLines(SplitChar(section, '\n'))
  {
    AddedLinesHaveNoNewline(SplitChar(section, '\n'));
    SplitJoinChar(AddedLines(SplitChar(section, '\n')), '\n');
  }

  /** A section yields a job exactly when it has an added line. */
  lemma {:induction false} SectionJobWhenAdded(i: nat, section: string, language: string, testType: string, stamp: nat, createdAt: string)
    ensures SectionJob(i, section, language, testType, stamp, createdAt).Some?
      <== exists k :: 0 <= k < |SplitChar(section, '\n')| && IsAddedLine(SplitChar(section, '\n')[k])
    ensures SectionJob(i, section, language, testType, stamp, createdAt).Some?
      ==> exists k :: 0 <= k < |SplitChar(section, '\n')| && IsAddedLine(SplitChar(section, '\n')[k])
  {
    var lines := SplitChar(section, '\n');
    if exists k :: 0 <= k < |lines| && IsAddedLine(lines[k]) {
      var k :| 0 <= k < |lines| && IsAddedLine(lines[k]);
      AddedLinesNonEmpty(lines, k);
    } else {
      AddedLinesEmpty(lines);
    }
  }

  /** A blank section has no added line, so skipping it loses no job. */
  lemma BlankSectionNoJob(section: string)
    requires Strip(section) == []
    ensures AddedLines(SplitChar(section, '\n')) == []
  {
    var lines := SplitChar(section, '\n');
    if exists k :: 0 <= k < |lines| && IsAddedLine(lines[k]) {
      var k :| 0 <= k < |lines| && IsAddedLine(lines[k]);
      SectionNotBlank(section, lines, k);
    } else {
      AddedLinesEmpty(lines);
    }
  }

  lemma {:induction false} AddedLinesNonEmpty(lines: seq<string>, k: nat)
    requires k < |lines| && IsAddedLine(lines[k])
    ensures AddedLines(lines) != []
  {
    var n := |lines| - 1;
    if k < n {
      AddedLinesNonEmpty(lines[..n], k);
    }
  }

  lemma {:induction false} AddedLinesEmpty(lines: seq<string>)
    requires forall k :: 0 <= k < |lines| ==> !IsAddedLine(lines[k])
    ensures AddedLines(lines) == []
  {
    if lines != [] {
      AddedLinesEmpty(lines[..|lines| - 1]);
    }
  }

  /** A section with an added line holds a `+`, so it is not blank. */
  lemma SectionNotBlank(section: string, lines: seq<string>, k: nat)
    requires lines == SplitChar(section, '\n') && k < |lines| && IsAddedLine(lines[k])
    ensures Strip(section) != []
  {
    JoinSplitChar(section, '\n');
    PartInJoin(lines, '\n', k);
    assert lines[k][0] == '+';
    assert '+' in lines[k];
    assert '+' in section;
    var j :| 0 <= j < |section| && section[j] == '+';
    StripKeepsNonSpace(section, j);
  }

  /** Every character of a part occurs in the joined text. */
  lemma {:induction false} PartInJoin(parts: seq<string>, c: char, k: nat)
    requires k < |parts|
    ensures forall x :: x in parts[k] ==> x in JoinChar(parts, c)
    decreases |parts|
  {
    if |parts| > 1 {
      assert JoinChar(parts, c) == parts[0] + [c] + JoinChar(parts[1..], c);
      if k > 0 {
        PartInJoin(parts[1..], c, k - 1);
      }
    }
  }
}
