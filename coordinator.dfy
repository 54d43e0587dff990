/** The distributed test coordinator: it submits test jobs to a queue, one at
    a time or in batches of ten, moves processed jobs from the active map to
    the completed map, and resubmits a failed job until its retries run out.
    The queue and the result store are the ghost logs `sent`, `sentBatches`,
    `stored` and `deleted`; every answer they give is a parameter. */
module Coordinator {
  import opened Wrappers
  import opened Seqs

  datatype TestJob = TestJob(
    id: string,
    code: string,
    language: string,
    testType: string,
    priority: int,
    retryCount: int,
    maxRetries: int,
    createdAt: string)

  datatype TestResult = TestResult(
    jobId: string,
    success: bool,
    testsGenerated: int,
    testsPassed: int,
    testsFailed: int,
    coveragePercentage: real,
    executionTimeMs: int,
    errorMessage: Option<string>,
    generatedTests: Option<string>,
    completedAt: string)

  /** The SQS batch limit. */
  const BatchSize := 10

  /** One entry of a batch send's `Successful` list. */
  datatype SendReport = SendReport(id: string, messageId: string)

  /** The answer to one `send_message_batch` call: a client error, or the
      successful and failed entries. */
  datatype BatchReply =
    | BatchFailed(error: string)
    | BatchSent(successful: seq<SendReport>, failed: seq<string>)

  /** Python's `next(j for j in batch if j.id == id)`: the first job of the
      batch with that id; None stands for StopIteration. */
  function FirstWithId(batch: seq<TestJob>, id: string): (r: Option<TestJob>)
    ensures r.Some? ==> r.value in batch && r.value.id == id
    ensures r.Some? ==> exists i :: 0 <= i < |batch| && batch[i] == r.value && forall j :: 0 <= j < i ==> batch[j].id != id
    ensures r.None? <==> forall j :: 0 <= j < |batch| ==> batch[j].id != id
  {
    if batch == [] then None
    else if batch[0].id == id then Some(batch[0])
    else
      var r := FirstWithId(batch[1..], id);
      if r.Some? then
        var i :| 0 <= i < |batch[1..]| && batch[1..][i] == r.value && forall j :: 0 <= j < i ==> batch[1..][j].id != id;
        assert batch[i + 1] == r.value;
        r
      else r
  }

  /** State reached after some batch calls: the active map, the message ids
      collected, whether every call so far went through, the error raised
      otherwise, and how many calls were made. */
  datatype BatchRun = BatchRun(active: map<string, TestJob>, ids: seq<string>, ok: bool, error: string, calls: nat)

  /** The text of the error a StopIteration becomes when it leaves the
      coroutine `submit_batch_jobs`: a RuntimeError, which `except ClientError`
      does not catch, so it reaches the caller. */
  const StopIterationError := "coroutine raised StopIteration"

  /** Recording the successful entries of one reply, in order; an id that is
      not in the batch raises StopIteration after its message id was taken. */
  function RecordSuccesses(run: BatchRun, batch: seq<TestJob>, reports: seq<SendReport>): (r: BatchRun)
    requires run.ok
    ensures r.calls == run.calls
    ensures r.ok ==> |r.ids| == |run.ids| + |reports|
    decreases |reports|
  {
    if reports == [] then run
    else
      var ids := run.ids + [reports[0].messageId];
      match FirstWithId(batch, reports[0].id)
      case None => BatchRun(run.active, ids, false, StopIterationError, run.calls)
      case Some(job) =>
        RecordSuccesses(BatchRun(run.active[reports[0].id := job], ids, true, "", run.calls), batch, reports[1..])
  }

  /** The effect of `submit_batch_jobs` over the chunks sent so far; once a
      call fails, later chunks are not sent. */
  function SubmitChunks(active: map<string, TestJob>, chunks: seq<seq<TestJob>>, replies: seq<BatchReply>): (r: BatchRun)
    requires |replies| == |chunks|
    ensures r.calls <= |chunks|
    ensures r.ok ==> r.calls == |chunks|
    decreases |chunks|
  {
    if chunks == [] then BatchRun(active, [], true, "", 0)
    else
      var n := |chunks| - 1;
      var before := SubmitChunks(active, chunks[..n], replies[..n]);
      if !before.ok then before
      else
        var called := before.(calls := before.calls + 1);
        match replies[n]
        case BatchFailed(e) => called.(ok := false, error := e)
        case BatchSent(successful, _) => RecordSuccesses(called, chunks[n], successful)
  }

  /** Processing a reply keeps every earlier entry it does not overwrite, and
      what it writes is a job of the batch under an id the reply reported. */
  lemma {:induction false} RecordOnlyReported(run: BatchRun, batch: seq<TestJob>, reports: seq<SendReport>, key: string)
    requires run.ok
    requires key in RecordSuccesses(run, batch, reports).active
    ensures var r := RecordSuccesses(run, batch, reports);
      (key in run.active && r.active[key] == run.active[key])
      || ((exists i :: 0 <= i < |reports| && reports[i].id == key)
          && r.active[key] in batch && r.active[key].id == key)
    decreases |reports|
  {
    if reports != [] {
      var ids := run.ids + [reports[0].messageId];
      match FirstWithId(batch, reports[0].id)
      case None =>
      case Some(job) =>
        var next := BatchRun(run.active[reports[0].id := job], ids, true, "", run.calls);
        RecordOnlyReported(next, batch, reports[1..], key);
        var r := RecordSuccesses(run, batch, reports);
        if key in next.active && r.active[key] == next.active[key] {
          if key == reports[0].id {
            assert r.active[key] == job;
          }
        } else {
          var i :| 0 <= i < |reports[1..]| && reports[1..][i].id == key;
          assert reports[i + 1].id == key;
        }
    }
  }

  /** `job` belongs to chunk `k`, whose reply listed `key` among the successful entries. */
  predicate ReportedIn(chunks: seq<seq<TestJob>>, replies: seq<BatchReply>, k: int, key: string, job: TestJob) {
    0 <= k < |chunks| && k < |replies| && job in chunks[k] && replies[k].BatchSent?
    && exists i :: 0 <= i < |replies[k].successful| && replies[k].successful[i].id == key
  }

  /** After a batch submission, every active entry is either an untouched
      earlier entry or a job of some chunk filed under its own id, which the
      chunk's reply reported as sent. */
  lemma {:induction false} SubmitChunksOnlyJobs(active: map<string, TestJob>, chunks: seq<seq<TestJob>>, replies: seq<BatchReply>, key: string)
    requires |replies| == |chunks|
    requires key in SubmitChunks(active, chunks, replies).active
    ensures var r := SubmitChunks(active, chunks, replies);
      (key in active && r.active[key] == active[key])
      || (r.active[key].id == key && exists k :: ReportedIn(chunks, replies, k, key, r.active[key]))
    decreases |chunks|
  {
    if chunks == [] {
      return;
    }
    var r := SubmitChunks(active, chunks, replies);
    var n := |chunks| - 1;
    var before := SubmitChunks(active, chunks[..n], replies[..n]);
    if key in before.active && r.active[key] == before.active[key] {
      SubmitChunksOnlyJobs(active, chunks[..n], replies[..n], key);
      if !(key in active && r.active[key] == active[key]) {
        var k :| ReportedIn(chunks[..n], replies[..n], k, key, before.active[key]);
        assert chunks[..n][k] == chunks[k] && replies[..n][k] == replies[k];
        assert ReportedIn(chunks, replies, k, key, r.active[key]);
      }
    } else {
      var called := before.(calls := before.calls + 1);
      RecordOnlyReported(called, chunks[n], replies[n].successful, key);
      assert r.active[key] in chunks[n];
      assert ReportedIn(chunks, replies, n, key, r.active[key]);
    }
  }

  /** When every reply went through and names only jobs of its batch, all
      chunks are sent and every reported message id is returned, in order. */
  function AllMessageIds(replies: seq<BatchReply>): seq<string> {
    if replies == [] then []
    else
      var n := |replies| - 1;
      AllMessageIds(replies[..n]) + match replies[n]
        case BatchFailed(_) => []
        case BatchSent(successful, _) => MessageIdsOf(successful)
  }

  function MessageIdsOf(reports: seq<SendReport>): (ids: seq<string>)
    ensures |ids| == |reports|
  {
    if reports == [] then [] else [reports[0].messageId] + MessageIdsOf(reports[1..])
  }

  predicate ReplyWellFormed(batch: seq<TestJob>, reply: BatchReply) {
    reply.BatchSent? && forall i :: 0 <= i < |reply.successful| ==> FirstWithId(batch, reply.successful[i].id).Some?
  }

  lemma {:induction false} RecordAllReported(run: BatchRun, batch: seq<TestJob>, reports: seq<SendReport>)
    requires run.ok
    requires forall i :: 0 <= i < |reports| ==> FirstWithId(batch, reports[i].id).Some?
    ensures RecordSuccesses(run, batch, reports).ok
    ensures RecordSuccesses(run, batch, reports).ids == run.ids + MessageIdsOf(reports)
    decreases |reports|
  {
    if reports != [] {
      var job := FirstWithId(batch, reports[0].id).value;
      var next := BatchRun(run.active[reports[0].id := job], run.ids + [reports[0].messageId], true, "", run.calls);
      assert RecordSuccesses(run, batch, reports) == RecordSuccesses(next, batch, reports[1..]);
      assert forall i :: 0 <= i < |reports[1..]| ==> reports[1..][i] == reports[i + 1];
      RecordAllReported(next, batch, reports[1..]);
      assert MessageIdsOf(reports) == [reports[0].messageId] + MessageIdsOf(reports[1..]);
      assert next.ids + MessageIdsOf(reports[1..]) == run.ids + MessageIdsOf(reports);
    }
  }

  lemma {:induction false} SubmitChunksAllOk(active: map<string, TestJob>, chunks: seq<seq<TestJob>>, replies: seq<BatchReply>)
    requires |replies| == |chunks|
    requires forall k :: 0 <= k < |chunks| ==> ReplyWellFormed(chunks[k], replies[k])
    ensures SubmitChunks(active, chunks, replies).ok
    ensures SubmitChunks(active, chunks, replies).calls == |chunks|
    ensures SubmitChunks(active, chunks, replies).ids == AllMessageIds(replies)
    decreases |chunks|
  {
    if chunks != [] {
      var n := |chunks| - 1;
      SubmitChunksAllOk(active, chunks[..n], replies[..n]);
      var before := SubmitChunks(active, chunks[..n], replies[..n]);
      RecordAllReported(before.(calls := before.calls + 1), chunks[n], replies[n].successful);
    }
  }

  /** 25 jobs go out as batches of 10, 10 and 5. */
  lemma TwentyFiveJobs(jobs: seq<TestJob>)
    requires |jobs| == 25
    ensures |Chunks(jobs, BatchSize)| == 3
    ensures |Chunks(jobs, BatchSize)[0]| == 10 && |Chunks(jobs, BatchSize)[1]| == 10 && |Chunks(jobs, BatchSize)[2]| == 5
  {
    ChunkCount(jobs, BatchSize);
    ChunkAt(jobs, BatchSize, 0);
    ChunkAt(jobs, BatchSize, 1);
    ChunkAt(jobs, BatchSize, 2);
  }

  // ---------------------------------------------------------------------
  // Processing one message

  /** A received message; `body` is None when it does not parse into a job. */
  datatype Message = Message(receiptHandle: string, body: Option<TestJob>)

  /** The answers of everything `_process_single_job` calls, in the order it
      calls them: test generation, the measured time, the result store, the
      message delete, and on the failure path the resubmission, the failure
      store and the second delete. */
  datatype Environment = Environment(
    generated: Result<TestResult>,
    elapsedMs: int,
    store: Result<()>,
    delete: Result<()>,
    resubmit: Result<string>,
    failureStore: Result<()>,
    failureDelete: Result<()>)

  /** The coordinator's maps together with the ghost logs of the queue and the store. */
  datatype State = State(
    active: map<string, TestJob>,
    completed: map<string, TestResult>,
    sent: seq<TestJob>,
    stored: seq<(string, TestResult)>,
    deleted: seq<string>)

  /** The job resubmitted after a failure, while retries remain. */
  function NextAttempt(job: TestJob): (next: TestJob)
    requires job.retryCount < job.maxRetries
    ensures next.retryCount == job.retryCount + 1 <= job.maxRetries
    ensures next == job.(retryCount := next.retryCount)
  {
    job.(retryCount := job.retryCount + 1)
  }

  /** The result stored when retries are exhausted. */
  function FailureResult(id: string, error: string, stamp: string): (r: TestResult)
    ensures !r.success && r.jobId == id && r.errorMessage == Some(error)
    ensures r.testsGenerated == 0 && r.testsPassed == 0 && r.testsFailed == 0
    ensures r.coveragePercentage == 0.0 && r.executionTimeMs == 0
  {
    TestResult(id, false, 0, 0, 0, 0.0, 0, Some(error), None, stamp)
  }

  /** `submit_test_job` on the state: the job is recorded only when the send succeeded. */
  function Submitted(s: State, job: TestJob, reply: Result<string>): State {
    if reply.Ok? then s.(active := s.active[job.id := job], sent := s.sent + [job]) else s
  }

  /** The except branch of `_process_single_job`, given the error text of the
      exception that led there. */
  function HandleFailure(s: State, m: Message, env: Environment, error: string, stamp: string): State {
    match m.body
    case None => s
    case Some(job) =>
      if job.retryCount < job.maxRetries then
        var next := NextAttempt(job);
        if env.resubmit.Err? then s
        else
          var s' := Submitted(s, next, env.resubmit);
          if env.failureDelete.Ok? then s'.(deleted := s'.deleted + [m.receiptHandle]) else s'
      else
        if env.failureStore.Err? then s
        else
          var s' := s.(stored := s.stored + [(job.id, FailureResult(job.id, error, stamp))]);
          if env.failureDelete.Ok? then s'.(deleted := s'.deleted + [m.receiptHandle]) else s'
  }

  /** The whole of `_process_single_job` for one message. An unreadable
      message changes nothing; otherwise the queue, the store and the delete
      log only grow, the message is deleted at most once, and no completed
      result is dropped. */
  function ProcessStep(s: State, m: Message, env: Environment, stamp: string): (r: State)
    ensures m.body.None? ==> r == s
    ensures s.sent <= r.sent && s.stored <= r.stored && s.deleted <= r.deleted
    ensures |r.deleted| <= |s.deleted| + 1
    ensures s.completed.Keys <= r.completed.Keys
  {
    match m.body
    case None => HandleFailure(s, m, env, "invalid job message", stamp)
    case Some(job) =>
      match env.generated
      case Err(e) => HandleFailure(s, m, env, e, stamp)
      case Ok(generated) =>
        var result := generated.(executionTimeMs := env.elapsedMs);
        if env.store.Err? then HandleFailure(s, m, env, env.store.error, stamp)
        else
          var s1 := s.(stored := s.stored + [(job.id, result)]);
          var s2 := s1.(completed := s1.completed[job.id := result], active := s1.active - {job.id});
          if env.delete.Err? then HandleFailure(s2, m, env, env.delete.error, stamp)
          else s2.(deleted := s2.deleted + [m.receiptHandle])
  }

  /** The success path: the measured time replaces the generator's, the result
      is stored and completed, the id leaves the active map and the message is deleted. */
  lemma ProcessSuccess(s: State, m: Message, env: Environment, stamp: string)
    requires m.body.Some? && env.generated.Ok? && env.store.Ok? && env.delete.Ok?
    ensures var id := m.body.value.id;
      var result := env.generated.value.(executionTimeMs := env.elapsedMs);
      ProcessStep(s, m, env, stamp)
        == State(s.active - {id}, s.completed[id := result], s.sent, s.stored + [(id, result)], s.deleted + [m.receiptHandle])
  {
  }

  /** A failure with retries left resubmits the job with its count raised by
      exactly one and deletes the original message; nothing is completed. */
  lemma ProcessRetry(s: State, m: Message, env: Environment, stamp: string)
    requires m.body.Some? && env.generated.Err?
    requires m.body.value.retryCount < m.body.value.maxRetries
    requires env.resubmit.Ok? && env.failureDelete.Ok?
    ensures var job := m.body.value;
      var next := job.(retryCount := job.retryCount + 1);
      ProcessStep(s, m, env, stamp)
        == State(s.active[job.id := next], s.completed, s.sent + [next], s.stored, s.deleted + [m.receiptHandle])
  {
  }

  /** A failure with retries exhausted stores a zeroed failure result carrying
      the error text, resubmits nothing, and leaves both maps alone. */
  lemma ProcessTerminal(s: State, m: Message, env: Environment, stamp: string)
    requires m.body.Some? && env.generated.Err?
    requires m.body.value.retryCount >= m.body.value.maxRetries
    requires env.failureStore.Ok? && env.failureDelete.Ok?
    ensures var job := m.body.value;
      ProcessStep(s, m, env, stamp)
        == State(s.active, s.completed, s.sent,
                 s.stored + [(job.id, FailureResult(job.id, env.generated.error, stamp))],
                 s.deleted + [m.receiptHandle])
  {
  }

  /** Whatever happens, a job's retry count never passes its maximum once it
      starts at or below it: every job in the active map and in the queue keeps
      `retryCount <= maxRetries` if it did before. */
  predicate RetriesBounded(s: State) {
    (forall id :: id in s.active ==> s.active[id].retryCount <= s.active[id].maxRetries)
    && forall i :: 0 <= i < |s.sent| ==> s.sent[i].retryCount <= s.sent[i].maxRetries
  }

  lemma {:induction false} ProcessKeepsRetriesBounded(s: State, m: Message, env: Environment, stamp: string)
    requires RetriesBounded(s)
    requires m.body.Some? ==> m.body.value.retryCount <= m.body.value.maxRetries
    ensures RetriesBounded(ProcessStep(s, m, env, stamp))
  {
    match m.body
    case None =>
      FailureKeepsRetriesBounded(s, m, env, "invalid job message", stamp);
    case Some(job) =>
      match env.generated
      case Err(e) =>
        FailureKeepsRetriesBounded(s, m, env, e, stamp);
      case Ok(generated) =>
        if env.store.Err? {
          FailureKeepsRetriesBounded(s, m, env, env.store.error, stamp);
        } else {
          var result := generated.(executionTimeMs := env.elapsedMs);
          var s1 := s.(stored := s.stored + [(job.id, result)]);
          var s2 := s1.(completed := s1.completed[job.id := result], active := s1.active - {job.id});
          assert RetriesBounded(s2);
          if env.delete.Err? {
            FailureKeepsRetriesBounded(s2, m, env, env.delete.error, stamp);
          }
        }
  }

  /** The failure path keeps the bound: a resubmitted job has at most its maximum. */
  lemma FailureKeepsRetriesBounded(t: State, m: Message, env: Environment, error: string, stamp: string)
    requires RetriesBounded(t)
    requires m.body.Some? ==> m.body.value.retryCount <= m.body.value.maxRetries
    ensures RetriesBounded(HandleFailure(t, m, env, error, stamp))
  {
    if m.body.Some? && m.body.value.retryCount < m.body.value.maxRetries && env.resubmit.Ok? {
      var next := NextAttempt(m.body.value);
      var t' := Submitted(t, next, env.resubmit);
      assert t'.sent[|t'.sent| - 1] == next;
    }
  }

  /** A message that keeps failing is resubmitted exactly `maxRetries - retryCount`
      times before the terminal failure: the attempt count after `k` failures. */
  function RetryAfter(job: TestJob, k: nat): (r: TestJob)
    requires job.retryCount + k <= job.maxRetries
    ensures r.retryCount == job.retryCount + k && r.maxRetries == job.maxRetries
    decreases k
  {
    if k == 0 then job else NextAttempt(RetryAfter(job, k - 1))
  }

  lemma {:induction false} RetryChainEndsAtMax(job: TestJob)
    requires 0 <= job.retryCount <= job.maxRetries
    ensures var last := RetryAfter(job, job.maxRetries - job.retryCount);
      last.retryCount == last.maxRetries && last == job.(retryCount := job.maxRetries)
  {
    RetryKeepsRest(job, job.maxRetries - job.retryCount);
  }

  lemma {:induction false} RetryKeepsRest(job: TestJob, k: nat)
    requires job.retryCount + k <= job.maxRetries
    ensures RetryAfter(job, k) == job.(retryCount := job.retryCount + k)
    decreases k
  {
    if k > 0 {
      RetryKeepsRest(job, k - 1);
    }
  }

  // ---------------------------------------------------------------------
  // Status

  datatype JobStatus =
    | Completed(success: bool, result: TestResult)
    | Processing(job: TestJob, submittedAt: string)
    | NotFound(message: string)

  datatype QueueStats =
    | Stats(messagesAvailable: int, messagesInFlight: int, messagesDelayed: int, activeJobs: nat, completedJobs: nat)
    | StatsError(error: string)

  /** `attributes.get(name, 0)`. */
  function AttributeOr0(attributes: map<string, int>, name: string): (v: int)
    ensures name in attributes ==> v == attributes[name]
    ensures name !in attributes ==> v == 0
  {
    if name in attributes then attributes[name] else 0
  }

  class DistributedTestCoordinator {
    var activeJobs: map<string, TestJob>
    var completedJobs: map<string, TestResult>
    ghost var sent: seq<TestJob>
    ghost var sentBatches: seq<seq<TestJob>>
    ghost var stored: seq<(string, TestResult)>
    ghost var deleted: seq<string>

    constructor ()
      ensures activeJobs == map[] && completedJobs == map[]
      ensures sent == [] && sentBatches == [] && stored == [] && deleted == []
    {
      activeJobs, completedJobs := map[], map[];
      sent, sentBatches, stored, deleted := [], [], [], [];
    }

    ghost function Current(): State
      reads this
    {
      State(activeJobs, completedJobs, sent, stored, deleted)
    }

    /** `submit_test_job`: `reply` is the queue's answer. On a client error the
        error propagates and nothing is recorded. */
    method SubmitTestJob(job: TestJob, reply: Result<string>) returns (r: Result<string>)
      modifies this
      ensures r == reply
      ensures Current() == Submitted(old(Current()), job, reply)
      ensures sentBatches == old(sentBatches)
    {
      if reply.Err? {
        return reply;
      }
      activeJobs := activeJobs[job.id := job];
      sent := sent + [job];
      return reply;
    }

    /** `submit_batch_jobs`: `replies[k]` is the answer to the k-th chunk. */
    method SubmitBatchJobs(jobs: seq<TestJob>, replies: seq<BatchReply>) returns (r: Result<seq<string>>)
      requires |replies| == |Chunks(jobs, BatchSize)|
      modifies this`activeJobs, this`sentBatches
      ensures var run := SubmitChunks(old(activeJobs), Chunks(jobs, BatchSize), replies);
        activeJobs == run.active
        && sentBatches == old(sentBatches) + Chunks(jobs, BatchSize)[..run.calls]
        && r == if run.ok then Ok(run.ids) else Err(run.error)
      ensures completedJobs == old(completedJobs) && sent == old(sent)
      ensures stored == old(stored) && deleted == old(deleted)
    {
      r := SendChunks(Chunks(jobs, BatchSize), replies);
    }

    /** The loop of `submit_batch_jobs` over the chunks, one batch call each. */
    method SendChunks(chunks: seq<seq<TestJob>>, replies: seq<BatchReply>) returns (r: Result<seq<string>>)
      requires |replies| == |chunks|
      modifies this`activeJobs, this`sentBatches
      ensures var run := SubmitChunks(old(activeJobs), chunks, replies);
        activeJobs == run.active
        && sentBatches == old(sentBatches) + chunks[..run.calls]
        && r == if run.ok then Ok(run.ids) else Err(run.error)
    {
      ghost var active0 := activeJobs;
      var ids: seq<string> := [];
      var k := 0;
      while k < |chunks|
        invariant 0 <= k <= |chunks|
        invariant SubmitChunks(active0, chunks[..k], replies[..k]) == BatchRun(activeJobs, ids, true, "", k)
        invariant sentBatches == old(sentBatches) + chunks[..k]
      {
        var ok, error;
        ids, ok, error := SendChunk(active0, chunks, replies, k, ids);
        PrefixSnoc(chunks, k);
        if !ok {
          SubmitChunksStops(active0, chunks, replies, k + 1);
          return Err(error);
        }
        k := k + 1;
      }
      assert chunks[..k] == chunks && replies[..k] == replies;
      return Ok(ids);
    }

    /** One batch call of `submit_batch_jobs`: the chunk is sent, then either
        the client error is raised or the reply's successful entries are
        recorded. */
    method SendChunk(ghost active0: map<string, TestJob>, chunks: seq<seq<TestJob>>, replies: seq<BatchReply>, k: nat, ids0: seq<string>)
      returns (ids: seq<string>, ok: bool, error: string)
      requires |replies| == |chunks| && k < |chunks|
      requires SubmitChunks(active0, chunks[..k], replies[..k]) == BatchRun(activeJobs, ids0, true, "", k)
      modifies this`activeJobs, this`sentBatches
      ensures SubmitChunks(active0, chunks[..k + 1], replies[..k + 1]) == BatchRun(activeJobs, ids, ok, error, k + 1)
      ensures ok ==> error == ""
      ensures sentBatches == old(sentBatches) + [chunks[k]]
    {
      SubmitChunksNext(active0, chunks, replies, k);
      sentBatches := sentBatches + [chunks[k]];
      match replies[k] {
        case BatchFailed(e) =>
          ids, ok, error := ids0, false, e;
        case BatchSent(successful, _) =>
          ids, ok := RecordReply(chunks[k], successful, ids0, k + 1);
          error := if ok then "" else StopIterationError;
      }
    }

    /** The loop over one reply's successful entries in `submit_batch_jobs`:
        each message id is collected, then its job is looked up in the batch
        and filed as active; a missing job raises StopIteration. */
    method RecordReply(batch: seq<TestJob>, successful: seq<SendReport>, ids0: seq<string>, ghost calls: nat)
      returns (ids: seq<string>, ok: bool)
      modifies this`activeJobs
      ensures RecordSuccesses(BatchRun(old(activeJobs), ids0, true, "", calls), batch, successful)
        == BatchRun(activeJobs, ids, ok, if ok then "" else StopIterationError, calls)
    {
      ids := ids0;
      var j := 0;
      while j < |successful|
        invariant 0 <= j <= |successful|
        invariant RecordSuccesses(BatchRun(old(activeJobs), ids0, true, "", calls), batch, successful)
          == RecordSuccesses(BatchRun(activeJobs, ids, true, "", calls), batch, successful[j..])
      {
        assert successful[j..][1..] == successful[j + 1..];
        ids := ids + [successful[j].messageId];
        var found := FirstWithId(batch, successful[j].id);
        if found.None? {
          return ids, false;
        }
        activeJobs := activeJobs[successful[j].id := found.value];
        j := j + 1;
      }
      assert successful[j..] == [];
      return ids, true;
    }

    /** `_process_single_job` for one message; `env` gives the answers of the
        generator, the store and the queue, `stamp` the completion time. */
    method ProcessSingleJob(m: Message, env: Environment, stamp: string)
      modifies this
      ensures Current() == ProcessStep(old(Current()), m, env, stamp)
      ensures sentBatches == old(sentBatches)
    {
      var error: string;
      var failed := false;
      if m.body.None? {
        failed, error := true, "invalid job message";
      } else {
        var job := m.body.value;
        if env.generated.Err? {
          failed, error := true, env.generated.error;
        } else {
          var result := env.generated.value.(executionTimeMs := env.elapsedMs);
          if env.store.Err? {
            failed, error := true, env.store.error;
          } else {
            stored := stored + [(job.id, result)];
            completedJobs := completedJobs[job.id := result];
            if job.id in activeJobs {
              activeJobs := activeJobs - {job.id};
            }
            if env.delete.Err? {
              failed, error := true, env.delete.error;
            } else {
              deleted := deleted + [m.receiptHandle];
            }
          }
        }
      }
      if failed {
        HandleFailureStep(m, env, error, stamp);
      }
    }

    /** The except branch. */
    method HandleFailureStep(m: Message, env: Environment, error: string, stamp: string)
      modifies this
      ensures Current() == HandleFailure(old(Current()), m, env, error, stamp)
      ensures sentBatches == old(sentBatches)
    {
      if m.body.None? {
        return;
      }
      var job := m.body.value;
      if job.retryCount < job.maxRetries {
        var next := job.(retryCount := job.retryCount + 1);
        var r := SubmitTestJob(next, env.resubmit);
        if r.Err? {
          return;
        }
      } else {
        if env.failureStore.Err? {
          return;
        }
        stored := stored + [(job.id, FailureResult(job.id, error, stamp))];
      }
      if env.failureDelete.Ok? {
        deleted := deleted + [m.receiptHandle];
      }
    }

    /** `get_job_status`: completed first, then active, else not found. */
    function GetJobStatus(jobId: string): (st: JobStatus)
      reads this
      ensures jobId in completedJobs ==> st == Completed(completedJobs[jobId].success, completedJobs[jobId])
      ensures jobId !in completedJobs && jobId in activeJobs ==>
        st.Processing? && st.job == activeJobs[jobId] && st.submittedAt == activeJobs[jobId].createdAt
      ensures st.NotFound? <==> jobId !in completedJobs && jobId !in activeJobs
      ensures st.NotFound? ==> st.message == "Job " + jobId + " not found"
    {
      if jobId in completedJobs then Completed(completedJobs[jobId].success, completedJobs[jobId])
      else if jobId in activeJobs then Processing(activeJobs[jobId], activeJobs[jobId].createdAt)
      else NotFound("Job " + jobId + " not found")
    }

    /** `get_queue_stats`: `reply` is the queue's attribute map or a client error. */
    function GetQueueStats(reply: Result<map<string, int>>): (st: QueueStats)
      reads this
      ensures reply.Err? ==> st == StatsError(reply.error)
      ensures reply.Ok? ==> (st.Stats?
        && st.messagesAvailable == AttributeOr0(reply.value, "ApproximateNumberOfMessages")
        && st.messagesInFlight == AttributeOr0(reply.value, "ApproximateNumberOfMessagesNotVisible")
        && st.messagesDelayed == AttributeOr0(reply.value, "ApproximateNumberOfMessagesDelayed")
        && st.activeJobs == |activeJobs| && st.completedJobs == |completedJobs|)
    {
      match reply
      case Err(e) => StatsError(e)
      case Ok(attributes) =>
        Stats(AttributeOr0(attributes, "ApproximateNumberOfMessages"),
              AttributeOr0(attributes, "ApproximateNumberOfMessagesNotVisible"),
              AttributeOr0(attributes, "ApproximateNumberOfMessagesDelayed"),
              |activeJobs|, |completedJobs|)
    }
  }

  /** One more chunk: the fold over the first `k + 1` chunks goes on from the
      fold over the first `k`, with one more call. */
  lemma SubmitChunksNext(active: map<string, TestJob>, chunks: seq<seq<TestJob>>, replies: seq<BatchReply>, k: nat)
    requires |replies| == |chunks| && k < |chunks|
    requires SubmitChunks(active, chunks[..k], replies[..k]).ok
    ensures var before := SubmitChunks(active, chunks[..k], replies[..k]);
      SubmitChunks(active, chunks[..k + 1], replies[..k + 1]) == match replies[k]
        case BatchFailed(e) => before.(calls := k + 1, ok := false, error := e)
        case BatchSent(successful, _) => RecordSuccesses(before.(calls := k + 1), chunks[k], successful)
  {
    assert chunks[..k + 1][..k] == chunks[..k] && replies[..k + 1][..k] == replies[..k];
    assert chunks[..k + 1][k] == chunks[k] && replies[..k + 1][k] == replies[k];
  }

  /** Once a chunk fails, the run over all chunks is the run up to it. */
  lemma {:induction false} SubmitChunksStops(active: map<string, TestJob>, chunks: seq<seq<TestJob>>, replies: seq<BatchReply>, k: nat)
    requires |replies| == |chunks| && k <= |chunks|
    requires !SubmitChunks(active, chunks[..k], replies[..k]).ok
    ensures SubmitChunks(active, chunks, replies) == SubmitChunks(active, chunks[..k], replies[..k])
    decreases |chunks| - k
  {
    if k < |chunks| {
      assert chunks[..k + 1][..k] == chunks[..k] && replies[..k + 1][..k] == replies[..k];
      SubmitChunksStops(active, chunks, replies, k + 1);
    } else {
      assert chunks[..k] == chunks && replies[..k] == replies;
    }
  }
}
