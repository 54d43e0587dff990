# Job coordination for local-LLM test generation, modelled in Dafny

This project models the decision logic, with AWS, HTTP and model
inference abstracted away, of a system that generates tests and fixes
errors with local language models. It covers six parts:

- **Error classifier and router** (`src/error_distributor.py`). An error
  message and its file context are mapped to an error type, a severity, a
  complexity tier, a recommended model and a priority score. One job per
  error is queued, and the fix results are aggregated.
- **Job coordinator** (`src/distributed_coordinator.py`). This class
  keeps an `active_jobs` map and a `completed_jobs` map. Jobs are
  submitted one at a time or in batches of ten. Each received message is
  processed with a bounded retry rule.
- **Execution strategies** (`src/parallel_executor.py`). Jobs run
  sequentially, in windows, one result per job in completion order,
  grouped by priority, or with a strategy chosen from the load. The
  module also computes the run's metrics, waits for a job to complete,
  cancels executions and builds jobs from a git diff.
- **Authentication** (`src/auth_middleware.py`, `src/keycloak_auth.py`).
  This covers:
  - a sliding-window rate limiter;
  - an API-token store with expiry and a use counter;
  - the IAM role check and per-method dispatch;
  - the recursive configuration merge;
  - the Keycloak authorisation URL, role check, and TTL token cache;
  - Bearer parsing and logout.
- **Test-generation helpers** (`tests/local_llm_testgen.py`). This covers
  the model-tier table, pattern typing, choosing the relevant pattern,
  mutation-report counting, prompt assembly and output cleaning.
- **Response validators** (`tests/test_model_basic.py`,
  `tests/test_llama4_maverick.py`). These are keyword-count and length
  thresholds, prompt choice, the guarded single-prompt run and the summary
  of a comprehensive run.

Each module is a file. `Wrappers` (Option, Result), `Text` (ASCII
lowering, substring search, strip, split/join, integers to decimal),
`Seqs` (chunks, counts, filters, percentages), `Patterns` (the regular
expression subset the classifier tables use) and `Keywords` (the keyword
score both validators share) are helpers.

Where the source changes state in place, the model is a class:
`ErrorDistributor`, `DistributedTestCoordinator`, `ParallelTestExecutor`,
`Middleware`, `KeycloakAuth` and `SmartTestGenerator`. Its methods are
proved against functions of the old state, and the lemmas state the
properties about those functions. Every answer from the outside world is
a parameter of the member that consumes it:
- an SQS or S3 reply;
- a Keycloak or Ollama response;
- an STS identity;
- a generated reply;
- the moment a job completes.

The clock is an integer number of seconds.

## Model

| member | source | states |
|---|---|---|
| ErrorRouting.SeverityValue | src/error_distributor.py:31-37 | severity values are 1 (critical) to 4 (low) |
| ErrorRouting.FirstMatch | src/error_distributor.py:248-260 | the first key in table order with a matching pattern, or the default when none matches |
| ErrorRouting.FileExtension | src/error_distributor.py:234-235 | the text after the last dot of the path, empty for an empty path, never containing a dot |
| ErrorRouting.ExtensionAfterLastDot | src/error_distributor.py:234 | the extension of `stem.e` is `e` lowered, for any `e` without a dot |
| ErrorRouting.ClassifyType | src/error_distributor.py:231-252 | a TypeScript file with a TypeScript pattern is TYPESCRIPT whatever else matches; otherwise a test/spec path with a test pattern is TEST; otherwise the first type in declaration order that matches; GENERAL exactly when no type pattern matches |
| ErrorRouting.ClassifyUpToLint | src/error_distributor.py:236-250 | a message with a LINT pattern can only be TYPESCRIPT, REACT, TEST or LINT, whatever the file |
| ErrorRouting.ClassifySeverity | src/error_distributor.py:254-260 | MEDIUM when nothing matches, otherwise the first severity in CRITICAL, HIGH, MEDIUM, LOW order that matches; any critical match gives CRITICAL |
| ErrorRouting.ClassifyError | src/error_distributor.py:215-229 | the pair of type and severity: the type is GENERAL exactly when no type pattern matches and otherwise has a matching pattern; the severity is the first matching one, or MEDIUM when none matches |
| ErrorRouting.CriticalComesFirst | src/error_distributor.py:145-151 | a first-match scan that reaches a critical pattern always returns CRITICAL |
| ErrorRouting.RecommendModel | src/error_distributor.py:262-275 | the table entry for a known tier and `deepseek-coder:1.3b` for any other |
| ErrorRouting.RecommendModelGrowsWithTier | src/error_distributor.py:168-213 | for every type, the model grows (by parameter count) from simple to complex to advanced |
| ErrorRouting.TypeMultiplier | src/error_distributor.py:293-302 | every type multiplier is positive |
| ErrorRouting.MultiplierTenths | src/error_distributor.py:293-302 | every type multiplier is a whole number of tenths |
| ErrorRouting.PriorityScore | src/error_distributor.py:277-315 | `(10 - severity) * multiplier`, times 1.2 for a critical path, always positive |
| ErrorRouting.PriorityHasTwoDecimals | src/error_distributor.py:315 | the exact score already has two decimals, so the final `round(_, 2)` leaves it unchanged |
| ErrorRouting.PriorityMonotoneInSeverity | src/error_distributor.py:290-302 | for a fixed type and context the score does not increase with the severity value |
| ErrorRouting.CriticalPathNeverLowers | src/error_distributor.py:306-313 | a critical path scores strictly higher than a non-critical one, all else equal |
| ErrorRouting.DetermineComplexity | src/error_distributor.py:450-486 | advanced iff an advanced indicator occurs; complex iff none does and a complex indicator occurs, or, with no simple indicator, the message or surrounding code is long; simple otherwise |
| ErrorRouting.RoutedModelFromTable | src/error_distributor.py:262-275 | the tier from `_determine_complexity` always selects an entry of the type's table |
| ErrorRouting.BuildJob | src/error_distributor.py:364-393 | the queued job carries the classification, the routed model, the priority, and retry count 0 of 3 |
| ErrorRouting.ErrorDistributor.SubmitErrorJob | src/error_distributor.py:413-448 | the job is recorded as active only when the send succeeded; the send's answer is returned |
| ErrorRouting.ErrorDistributor.DistributeErrors | src/error_distributor.py:351-411 | the ids and active jobs are the in-order fold over the errors, skipping entries without a message and failed sends |
| ErrorRouting.ErrorDistributor.GetJobStatus | src/error_distributor.py:488-508 | completed wins over active; an id in neither map is not found, with its message |
| ErrorRouting.BreakdownCounts | src/error_distributor.py:591-598 | per error type, the breakdown holds the number of results and of successful ones, and holds a type exactly when some result has it |
| ErrorRouting.AggregateResults | src/error_distributor.py:560-609 | failed = ids − successful, so a missing result counts as failed; success rate over the ids (0 for none); averages over the fetched results (0 for none); the per-type breakdown |
| ErrorRouting.CountByType | src/error_distributor.py:591-598 | the counting loop builds exactly the per-type breakdown |
| ErrorExamples.TypeScriptCodeExample | src/error_distributor.py:89-95 | `TS2345: bad` in `src/app.ts` is TYPESCRIPT and CRITICAL with priority 12.96 |
| ErrorExamples.SyntaxErrorIsLint | src/error_distributor.py:87-143 | a message containing `SyntaxError: Unexpected token` is never BUILD: it is TYPESCRIPT, REACT, TEST or LINT, and LINT unless one of the first three matches, because LINT precedes BUILD; it is always CRITICAL |
| Coordinator.FirstWithId | src/distributed_coordinator.py:183 | `next(j for j in batch if j.id == id)`: the first batch member with that id, None exactly when there is none |
| Coordinator.SubmitChunksAllOk | src/distributed_coordinator.py:149-198 | when every reply is well formed, every chunk is sent and the ids are all reported message ids in order |
| Coordinator.SubmitChunksOnlyJobs | src/distributed_coordinator.py:177-186 | an active job after a batch submission was active before, or is a job of some chunk, filed under its own id, whose reply listed that id as Successful |
| Coordinator.SubmitChunksStops | src/distributed_coordinator.py:193-195 | once a chunk's send raises, later chunks change nothing |
| Coordinator.TwentyFiveJobs | src/distributed_coordinator.py:149-152 | 25 jobs are sent as chunks of 10, 10 and 5 |
| Coordinator.NextAttempt | src/distributed_coordinator.py:307-309 | the resubmitted job differs only by a retry count raised by exactly one, itself at most the maximum |
| Coordinator.FailureResult | src/distributed_coordinator.py:314-323 | the terminal failure result is unsuccessful and zeroed, and carries the error text |
| Coordinator.ProcessSuccess | src/distributed_coordinator.py:266-292 | success overwrites the time with the measured one, stores and completes the result, removes the id from the active map and deletes the message |
| Coordinator.ProcessRetry | src/distributed_coordinator.py:299-311 | a failure with retries left resubmits the job with count + 1 and deletes the message; nothing is completed |
| Coordinator.ProcessTerminal | src/distributed_coordinator.py:312-333 | a failure with retries exhausted stores the failure result, resubmits nothing and leaves both maps unchanged |
| Coordinator.ProcessKeepsRetriesBounded | src/distributed_coordinator.py:299-311 | every step keeps `retry_count <= max_retries` for all active and queued jobs |
| Coordinator.FailureKeepsRetriesBounded | src/distributed_coordinator.py:299-311 | the except branch alone keeps `retry_count <= max_retries`: a resubmitted job has its count raised only while below its maximum |
| Coordinator.RetryChainEndsAtMax | src/distributed_coordinator.py:307-312 | successive retries reach exactly `max_retries` and change nothing else |
| Coordinator.AttributeOr0 | src/distributed_coordinator.py:493-495 | a queue attribute, or 0 when it is missing |
| Coordinator.DistributedTestCoordinator.constructor | src/distributed_coordinator.py:57-89 | empty maps and logs |
| Coordinator.DistributedTestCoordinator.SubmitTestJob | src/distributed_coordinator.py:91-135 | the job becomes active and is queued only after the send returns; on an error nothing changes |
| Coordinator.DistributedTestCoordinator.SubmitBatchJobs | src/distributed_coordinator.py:137-198 | the chunks actually sent, the new active map and the ids or the propagated error, as given by the chunk fold |
| Coordinator.ProcessStep | src/distributed_coordinator.py:253-336 | one message processed: an unparsable message changes nothing; the queue, the store and the delete log only grow; the message is deleted at most once; no completed result is dropped (the branch-by-branch outcomes are ProcessSuccess, ProcessRetry and ProcessTerminal) |
| Coordinator.DistributedTestCoordinator.ProcessSingleJob | src/distributed_coordinator.py:253-336 | the new maps and logs are those of the single-message step |
| Coordinator.DistributedTestCoordinator.HandleFailureStep | src/distributed_coordinator.py:293-336 | the except branch as a state change |
| Coordinator.DistributedTestCoordinator.GetJobStatus | src/distributed_coordinator.py:444-472 | completed, then processing with its submission time, then not found with its message |
| Coordinator.DistributedTestCoordinator.GetQueueStats | src/distributed_coordinator.py:474-503 | attributes defaulting to 0 and the two map sizes, or the error |
| Executor.DefaultConfig | src/parallel_executor.py:26-37 | the dataclass defaults and priority levels [1, 2, 3] |
| Executor.SettleAll | src/parallel_executor.py:130-159 | one result per job in input order; an exception becomes a failed result with the job's id and message |
| Executor.SubmitAndWait | src/parallel_executor.py:135-157 | a submission that raises settles the job with that exception before any wait; otherwise the wait's outcome decides |
| Executor.ExecuteSequential | src/parallel_executor.py:126-159 | the loop returns exactly the settled submit-then-wait outcomes in job order |
| Executor.SequentialWithProgress | src/parallel_executor.py:135-157 | as written, with a progress callback: one result per job plus one for every completed job whose callback raised; when that happens to the last job, its result is followed by a failure result carrying the callback's error |
| Executor.ProgressFailureDuplicates | src/parallel_executor.py:139-157 | one completed job with a raising callback yields two results, the second a failure of the same job |
| Executor.QuietProgress | src/parallel_executor.py:139-142 | a callback that never raises leaves one settled result per job |
| Executor.ProgressFixedOneResultPerJob | src/parallel_executor.py:135-157 | with the callback outside the `try`, a finished run has exactly one settled result per job, and a quiet callback always finishes |
| Executor.ExecuteParallelFiles | src/parallel_executor.py:161-213 | the windows are the consecutive chunks of the batch size; results come in window order and job order within each window; each job is settled by its wait alone, the gathered submission outcomes being discarded; a zero batch size raises |
| Executor.SubmitErrorByStrategy | src/parallel_executor.py:135-188 | a job whose submission raises is a failure with that error one after the other, but in windows it is settled by what its wait gives |
| Executor.PermuteMultiset | src/parallel_executor.py:241-252 | results gathered in any completion order are a permutation of the per-job outcomes |
| Executor.ExecuteParallelFunctions | src/parallel_executor.py:215-252 | one result per job, in completion order, with the same multiset as the per-job outcomes |
| Executor.GroupByPriority | src/parallel_executor.py:259-264 | each priority that occurs maps to its jobs in input order, and nothing else is present |
| Executor.ExecuteHybrid | src/parallel_executor.py:254-286 | the priority-1 results, then priority 2, then priority 3 |
| Executor.HybridCount | src/parallel_executor.py:266-286 | hybrid returns one result per job of priority 1, 2 or 3, and none for any other priority |
| Executor.PriorityGroupsBound | src/parallel_executor.py:259-286 | the three groups together hold at most every job, and all of them when priorities are 1 to 3 |
| Executor.ChooseLoadBalanced | src/parallel_executor.py:288-307 | more than 50 available gives sequential; otherwise fewer than 10 in flight gives parallel functions; otherwise parallel files (all three directions) |
| Executor.LoadBalancedOnStatsError | src/parallel_executor.py:293-300 | a stats error reads as zero load and selects parallel functions |
| Executor.CompletedPlusFailed | src/parallel_executor.py:103-104 | completed plus failed equals the number of results |
| Executor.Metrics | src/parallel_executor.py:102-118 | completed and failed are the succeeded and failed counts of the results and add up to them; the average times the result count is the summed job time; the error rate is failed over results times 100, in [0, 100]; averages and rates are 0 for no results or no time |
| Executor.PerSecond | src/parallel_executor.py:107 | throughput times the elapsed milliseconds is the job count times 1000, and 0 when no time passed |
| Executor.ParallelTestExecutor.ExecuteTestSuite | src/parallel_executor.py:68-124 | the configured strategy's results and the metrics over them, or that strategy's error |
| Executor.ParallelTestExecutor.WaitForJobCompletion | src/parallel_executor.py:309-338 | the first completed poll's result within the timeout (defaulting to the configured one), or the TimeoutError text when no poll completes |
| Executor.ParallelTestExecutor.CancelExecution | src/parallel_executor.py:340-346 | a tracked id is removed and cancelled; any other id is a no-op |
| Executor.CollectAddedLines | src/parallel_executor.py:422-427 | the loop keeps the `+` lines that are not `+++`, without the `+` |
| Executor.FromGitDiff | src/parallel_executor.py:398-440 | the jobs are those built section by section from the split diff |
| Executor.DiffJobsShape | src/parallel_executor.py:429-438 | at most one job per section, each with priority 2, retry count 0 of 3 and the given language and test type |
| Executor.SectionJobWhenAdded | src/parallel_executor.py:417-429 | a section yields a job iff it has an added line |
| Executor.SectionJobLines | src/parallel_executor.py:424-431 | a job's code, split at newlines, is exactly the section's added lines |
| Executor.BlankSectionNoJob | src/parallel_executor.py:420-421 | a blank section has no added lines |
| ConfigMerge.Put | src/auth_middleware.py:64-69 | assignment adds the key, sets its value and changes no other key |
| ConfigMerge.Merge | src/auth_middleware.py:62-70 | the override entries applied in order, nested dictionaries merged recursively; a successful merge has exactly the keys of base ∪ override (values: MergeKeepsBase, MergeOverrides; failure: MergeSucceeds) |
| ConfigMerge.MergeKeepsBase | src/auth_middleware.py:62-70 | a key the override lacks keeps its base value |
| ConfigMerge.MergeOverrides | src/auth_middleware.py:65-69 | each override key ends with its merged outcome: a dict under a shared key merges recursively, anything else overrides |
| ConfigMerge.MergeSucceeds | src/auth_middleware.py:66-67 | the merge succeeds iff no override dict meets a non-dict base value (where Python would raise) |
| ConfigMerge.MergeKeepsUnique | src/keycloak_auth.py:68-76 | a base without duplicate keys yields a merged dictionary without duplicates |
| ConfigMerge.FlatOverrideWins | src/keycloak_auth.py:68-76 | with no nested dictionaries, every override value wins |
| AuthMiddleware.Recent | src/auth_middleware.py:146-156 | the kept timestamps are exactly those strictly after the window start, each as often as it occurs, and never more than the input |
| AuthMiddleware.RecentAppend | src/auth_middleware.py:146-156 | pruning distributes over concatenation, so the kept timestamps keep their order |
| AuthMiddleware.RecentTwice | src/auth_middleware.py:146-156 | pruning twice is pruning with the later start |
| AuthMiddleware.RateLimitStep | src/auth_middleware.py:137-164 | disabled: allowed with the store unchanged; otherwise stale times are pruned, a client at `max_requests` is refused without being recorded, and an accepted request appends `now`; other clients are untouched |
| AuthMiddleware.SlidingWindow | src/auth_middleware.py:146-164 | for a client new to the store, over any non-empty non-decreasing sequence of its requests, its stored list is the requests accepted within the window, never more than `max_requests` |
| AuthMiddleware.NewToken | src/auth_middleware.py:72-89 | a new token has count 0 and lives `expiration_hours` hours |
| AuthMiddleware.ValidateToken | src/auth_middleware.py:91-106 | an unknown token is invalid and changes nothing; a token past `expires_at` is deleted and expired; at exactly `expires_at` it is valid and its count goes up by one |
| AuthMiddleware.UsesCounted | src/auth_middleware.py:103-106 | n validations within the lifetime raise the count by exactly n and touch no other token |
| AuthMiddleware.FreshTokenLifetime | src/auth_middleware.py:80-101 | a new token is valid at its expiry, expired after it, and invalid once deleted |
| AuthMiddleware.IamCheck | src/auth_middleware.py:108-135 | accepted iff the ARN contains the role marker or equals the configured role; the two error texts |
| AuthMiddleware.Authenticate | src/auth_middleware.py:166-219 | a successful authentication reports the configured method, and only `none`, `api_token` and `iam_role` ever succeed |
| AuthMiddleware.RateCheckedFirst | src/auth_middleware.py:169-173 | a refused rate check fails the request before any method runs |
| AuthMiddleware.ApiTokenAccepted | src/auth_middleware.py:181-194 | with the prefixed header, the request succeeds iff the token is stored and not expired, as that token's user |
| AuthMiddleware.ApiTokenNeedsPrefix | src/auth_middleware.py:184-185 | a header without `token_prefix + " "` fails and leaves the tokens alone |
| AuthMiddleware.IamNeedsBothKeys | src/auth_middleware.py:197-210 | IAM succeeds iff both key headers are present and the identity check passes |
| AuthMiddleware.FallbackIsAnonymous | src/auth_middleware.py:54-60 | under the fallback configuration every request is anonymous and nothing changes |
| AuthMiddleware.Middleware.GenerateApiToken | src/auth_middleware.py:72-89 | stores the new token and returns it |
| AuthMiddleware.Middleware.ValidateApiToken | src/auth_middleware.py:91-106 | the verdict and new token store are those of the validation function |
| AuthMiddleware.Middleware.CheckRateLimit | src/auth_middleware.py:137-164 | the verdict and new rate store are those of one limiter step |
| AuthMiddleware.Middleware.AuthenticateRequest | src/auth_middleware.py:166-219 | the result and new state are those of the dispatch function |
| Keycloak.AuthParams | src/keycloak_auth.py:80-88 | four parameters, plus `state` only when given and non-empty |
| Keycloak.GetAuthUrl | src/keycloak_auth.py:78-91 | fails exactly without a redirect URI, and otherwise starts with the auth endpoint and `?` |
| Keycloak.AuthUrlQuery | src/keycloak_auth.py:78-91 | the query splits at `&` into client_id, redirect_uri, response_type=code, scope, then state, in that order |
| Keycloak.KeycloakAuth.CheckRequiredRoles | src/keycloak_auth.py:177-196 | true iff no roles are required or some required role is in `realm_access.roles` |
| Keycloak.CacheKeyShared | src/keycloak_auth.py:123 | as written, two tokens share a cache entry iff their first 16 characters agree |
| Keycloak.PrefixTokenAccepted | src/keycloak_auth.py:123-129 | as written, after one token is accepted, any token with the same first 16 characters is accepted as that user until expiry, whatever the server says |
| Keycloak.PrefixCollisionExample | src/keycloak_auth.py:123 | two distinct tokens with one 16-character JOSE header prefix |
| Keycloak.FullCacheKeyInjective | src/keycloak_auth.py:123 | the corrected whole-token key distinguishes every two tokens |
| Keycloak.OtherTokenAsksServer | src/keycloak_auth.py:120-175 | with whole-token keys, validating one token never answers for another: it still goes to the server and succeeds only if the server accepts it |
| Keycloak.CacheHitAnswers | src/keycloak_auth.py:124-127 | a live entry is returned whatever the server would say, with the cache unchanged |
| Keycloak.FreshValidation | src/keycloak_auth.py:129-168 | without a live entry: success iff active, user info 200 and roles satisfied; that result alone is cached, for `cache_duration` |
| Keycloak.ValidationKeepsCacheSound | src/keycloak_auth.py:120-175 | every cached and every accepted user has the required roles |
| Keycloak.BearerTokenIsRest | src/keycloak_auth.py:201-206 | the token is the text after `Bearer ` |
| Keycloak.NoBearerNoToken | src/keycloak_auth.py:203-204 | a header without the prefix yields no token |
| Keycloak.RequestOutcome | src/keycloak_auth.py:208-219 | a validated token gives the user built from its info, a failed one the validation's error, with the validation's cache |
| Keycloak.AuthenticateStep | src/keycloak_auth.py:198-219 | without a bearer header the request fails and the cache is unchanged; otherwise the outcome of validating the token with the whole-token key; success reports method `keycloak` |
| Keycloak.AuthenticateStepAsWritten | src/keycloak_auth.py:198-219 | as written, through the 16-character cache key: without a bearer header the request fails and the cache is unchanged; with one, the outcome is that of the as-written validation of the bearer token; success reports method `keycloak` |
| Keycloak.PrefixRequestAccepted | src/keycloak_auth.py:123-127 | as written, a request whose token shares the first 16 characters of an accepted one is authenticated as that user until expiry, whatever the server says |
| Keycloak.UserFrom | src/keycloak_auth.py:210-215 | the user carries the realm roles and method `keycloak` |
| Keycloak.LogoutUser | src/keycloak_auth.py:221-240 | no refresh token: true without contacting the server; otherwise true iff the server answers 204 |
| Keycloak.ValidateTokenAsWritten | src/keycloak_auth.py:120-175 | `validate_token` as written, keyed by `token_` plus the first 16 characters; a failure leaves the cache with that key evicted (the as-written half of the cache-key finding: PrefixTokenAccepted) |
| Keycloak.ValidateTokenStep | src/keycloak_auth.py:120-175 | `validate_token` keyed by the whole token; a failure leaves the cache with that key evicted (hits: CacheHitAnswers; server path: FreshValidation; the corrected half: OtherTokenAsksServer) |
| Keycloak.KeycloakAuth.ValidateToken | src/keycloak_auth.py:120-175 | the result and new cache are those of a validation step with whole-token keys |
| Keycloak.KeycloakAuth.AuthenticateRequest | src/keycloak_auth.py:198-219 | the result and new cache are those of a request step |
| TestGen.ModelForTier | tests/local_llm_testgen.py:41-50 | the tier's model, or `deepseek-coder:6.7b` for an unknown tier |
| TestGen.PatternTypeRules | tests/local_llm_testgen.py:89-97 | react_component, else unit_test, else simple_test, else unknown, each iff its condition and none before it |
| TestGen.ExtractPattern | tests/local_llm_testgen.py:78-106 | the pattern records the path and its content's type |
| TestGen.PatternsOfFiles | tests/local_llm_testgen.py:55-76 | one pattern per readable file, each for a file that was read |
| TestGen.SmartTestGenerator.AnalyzeExistingPatterns | tests/local_llm_testgen.py:55-76 | the field and the result are the patterns of the readable files |
| TestGen.WeakSpotsOfSurvivors | tests/local_llm_testgen.py:162-166 | one weak spot per survived mutant, each from a survivor |
| TestGen.KilledAndSurvivedBound | tests/local_llm_testgen.py:159-160 | killed plus survived is at most the number of mutants |
| TestGen.ParseMutationResults | tests/local_llm_testgen.py:153-174 | killed and survived counts, their weak spots, the score; an absent file gives score 0 and zero counts |
| TestGen.FirstOfType | tests/local_llm_testgen.py:235-241 | the first pattern of a type, None iff there is none |
| TestGen.SmartTestGenerator.FindRelevantPattern | tests/local_llm_testgen.py:227-243 | None with no patterns; a component file gets the first react pattern, None iff there is none; another `.ts` file that exports gets the first unit-test pattern, None iff there is none; every other file the first pattern |
| TestGen.SmartPrompt | tests/local_llm_testgen.py:182-225 | once the pattern is chosen (`PromptFor`): the prompt opens with the file head, ends with the requirements and holds the first 2000 characters; when given, it holds the whole pattern section (type, first three imports, setup, structure, first two mocking patterns) and the whole mutation section (score, first three weak spots); its length is exactly that of the head, the requirements and the given sections |
| TestGen.SmartTestGenerator.GenerateSmartPrompt | tests/local_llm_testgen.py:176-225 | `PromptFor` with the relevant pattern: file head first, requirements last, the first 2000 characters inside; the whole section of the relevant pattern when there is one and the whole mutation section when given; just head and requirements when there is neither |
| TestGen.NoFenceLeft | tests/local_llm_testgen.py:304-305 | no code fence survives fence removal |
| TestGen.CleanGeneratedTest | tests/local_llm_testgen.py:301-311 | (`CleanedFrom` the unfenced reply) the output contains the vitest import, has no fence and no surrounding white space, starts with the import line when it was missing, and contains the stripped reply with its fences removed |
| TestGen.PlainReplyKept | tests/local_llm_testgen.py:301-311 | a reply without backticks loses nothing to fence removal, and when it already imports the test functions, cleaning only strips it |
| Keywords.FoundCountsDistinct | tests/test_model_basic.py:117 | with distinct keywords, the score is the number of distinct keywords present |
| Keywords.ExtendedScore | tests/test_llama4_maverick.py:342 | appending text never lowers the score |
| ModelBasic.ChoosePrompt | tests/test_model_basic.py:29-39 | a programming prompt iff the lowercased name holds `deepseek-coder`, otherwise general, always with that type's text |
| ModelBasic.ValidateResponse | tests/test_model_basic.py:95-125 | a programming prompt type is valid iff the reply is longer than 30 and holds at least its type's number of distinct keywords, lowercased; any other type iff longer than 50 with two distinct history keywords |
| ModelBasic.ProgrammingThresholds | tests/test_model_basic.py:99-119 | valid iff longer than 30 with at least 3/2/2/3/3 distinct keywords |
| ModelBasic.OtherThreshold | tests/test_model_basic.py:120-125 | any other type is valid iff longer than 50 with two history keywords |
| ModelBasic.ValidIgnoresCase | tests/test_model_basic.py:97 | replies equal up to case get the same verdict |
| ModelBasic.ValidExtends | tests/test_model_basic.py:117-125 | a valid reply stays valid when extended |
| ModelBasic.TestModel | tests/test_model_basic.py:25-94 | success iff the call returns 200, with the reply text, its length, its verdict and the chosen type; `HTTP` + status otherwise; the exception text on error |
| ModelBasic.NonCoderGetsGeneral | tests/test_model_basic.py:30-39 | a non-coder model is always judged by the history rule |
| Maverick.RuleFor | tests/test_llama4_maverick.py:327-340 | a rule exactly for the three prompt types |
| Maverick.ValidateResponse | tests/test_llama4_maverick.py:323-343 | a known prompt type is valid iff the reply reaches its minimum length and its minimum number of distinct keywords, lowercased; an unknown type iff longer than 100 |
| Maverick.Thresholds | tests/test_llama4_maverick.py:327-343 | valid iff at least 500/300/300 long with 5/4/4 distinct keywords |
| Maverick.UnknownByLength | tests/test_llama4_maverick.py:339-340 | an unknown type is valid iff longer than 100 |
| Maverick.ValidIgnoresCase | tests/test_llama4_maverick.py:325 | replies equal up to case get the same verdict |
| Maverick.ValidExtends | tests/test_llama4_maverick.py:341-343 | a valid reply stays valid when extended |
| Maverick.RunOf | tests/test_llama4_maverick.py:284-318 | success iff generation returned, with its text, length, verdict, duration and tokens; otherwise the error and elapsed time |
| Maverick.TestPrompt | tests/test_llama4_maverick.py:271-278 | RuntimeError when not loaded, ValueError for an unknown type, and a run only otherwise |
| Maverick.GuardsPrecedeGeneration | tests/test_llama4_maverick.py:273-278 | a refused call does not depend on what generation would produce |
| Maverick.ValidCount | tests/test_llama4_maverick.py:370-371 | the valid tests among the successful ones are all valid tests |
| Maverick.Summarize | tests/test_llama4_maverick.py:369-382 | the counts of successful and valid tests; valid ≤ successful ≤ total; success rate × total = successful × 100, in [0, 100] and 100 iff all succeeded; when something succeeded, validity rate × successful = valid × 100 and average × successful = their summed durations, and both are 0 otherwise; the token total over all tests |
| Maverick.SuccessSums | tests/test_llama4_maverick.py:380 | summing tokens over the successful tests sums them over all tests |
| Maverick.RunComprehensiveTest | tests/test_llama4_maverick.py:345-384 | every prompt type in order, then the summary over them; an unloaded model raises RuntimeError |

## Left out

- AWS calls (SQS send, receive and delete; S3 put and get; CloudWatch metrics) are abstracted. Their answers are parameters, and the queue and store are logs in the coordinator's state. `_send_metric` is logging only.
- asyncio concurrency (semaphores, `gather`, `as_completed`, `sleep`) and the endless `process_test_jobs` loop are abstracted. The consumer is one message at a time, and completion order is a permutation given as a parameter.
- Clocks are whole seconds given as parameters. Durations and elapsed times are inputs, and the throughput metric's elapsed time is an input as well.
- Floating point is modelled as exact reals. `round(score, 2)` is proved not to change the exact priority (ErrorRouting.PriorityHasTwoDecimals).
- The regular expressions of the classifier tables are modelled by a small matcher for the features they use: literals, `\d+` (on ASCII digits only, where Python's `\d` takes any Unicode decimal digit), `.*` and alternation, all case-insensitive on ASCII letters only, where `re.IGNORECASE` also folds other letters (the Kelvin sign `K` against `k`, for one). The import, setup and mock extraction of `_extract_pattern` and `_extract_test_structure` are inputs to the model.
- Python's `lower()` is modelled on ASCII letters only.
- Nondeterministic ids are parameters: `time.time()`, `hash()`, `secrets.token_urlsafe` and `os.urandom`. The `random.choice` prompt pick is a number taken modulo 5.
- YAML loading and the `ENVIRONMENT` lookup are not modelled. The merge they feed is modelled, and so are the fallback configurations.
- The API-token fallback configuration has no `api_token` section, so `generate_api_token` would raise `KeyError` under it. The model takes the token settings from its configuration record.
- Flask routes and decorators, `exchange_code_for_token`, `run_mutation_testing`, `generate_test_with_ai`, `validate_generated_test`, `from_file_list`, `get_execution_stats` and all command-line blocks are left out. They are I/O or wiring without decisions of their own.
- Request headers are an exact-key map; HTTP's case-insensitive header names are not modelled.
- The STS identity, the Keycloak introspection and user-info replies, the Ollama reply and the Maverick provider's generation are outcomes given as parameters. `tests/providers/huggingface_provider.py` is not part of this model.
- The mutation score is carried as the text the report holds.
- The Maverick prompt texts are not modelled; only their keys are.
- `run_test_suite` of the basic tester is left out. It prints and stores one `test_model` result per model, and a repeated model name overwrites the earlier result.
- The simulated `_generate_tests` output is left out: generation is an input outcome.
- `ErrorDistributor.get_queue_stats` is left out; the executor uses the coordinator's, which is modelled.
- ErrorRouting.AggregateResults: the two averages are exact, without the final `round(_, 2)`. A missing result stands for a read that raised ClientError; a body that is not JSON makes `json.loads` raise out of `aggregate_results`, which the model does not represent.
- ModelBasic.TestModel: the duration field is left out, because it is wall-clock time.
- Keycloak.KeycloakAuth.ValidateToken: caches under the whole token rather than its first 16 characters, as recorded under Findings; ValidateTokenAsWritten keeps the original key.
- Keycloak.ValidateTokenStep and ValidateTokenAsWritten: a configuration without a cache duration gives the KeyError text `'keycloak'`, which is the text only when the `keycloak` section under `authentication` is missing; Python names the missing key when it is `authentication` or `cache_duration` instead, and the model does not tell these apart.
- Keycloak.AuthenticateStep and Keycloak.KeycloakAuth.AuthenticateRequest: validate through the whole-token key, so two tokens sharing their first 16 characters are told apart, unlike the source; AuthenticateStepAsWritten keeps the original key.
- Executor.SettleAll, ExecuteSequential, ExecuteParallelFiles, ExecuteParallelFunctions: `progress_callback` is not a parameter of these. Its exception escapes `execute_test_suite` in the windowed, all-at-once and hybrid strategies. In the sequential strategy it is caught and files a second result for the job, as SequentialWithProgress models and Findings records.
- TestGen.SmartTestGenerator.AnalyzeExistingPatterns: `files` stands for what `glob.glob` returns. File discovery is not modelled. Python's glob has no brace expansion, so `tests/**/*.test.{ts,tsx}` selects only names that end in the literal text `.test.{ts,tsx}`, and an ordinary `x.test.ts` is never analysed.
- A failed message delete after a successful job runs the except branch too, so the model resubmits a job that already completed, as the code does.

## Findings

| source | as written | input that shows it | evidently intended | confidence | as-written member | corrected member |
|---|---|---|---|---|---|---|
| src/keycloak_auth.py:123-127 | the token cache key is `"token_"` plus the first 16 characters of the token, and a live entry is returned without asking the server | tokens `eyJhbGciOiJSUzI1NiJ9.alice` and `eyJhbGciOiJSUzI1NiJ9.forged`: once the first is validated, the second is accepted as the same user for `cache_duration`, even when introspection would report it inactive | a cached verdict belongs to the token that was validated; an unvalidated token goes to the server | high (not executed) | Keycloak.PrefixTokenAccepted | Keycloak.OtherTokenAsksServer |
| src/parallel_executor.py:139-157 | `_execute_sequential` awaits the progress callback inside the `try` that turns an exception into a failure result, after the job's result was appended | one job that completes with a result and a callback that raises `boom`: the list holds the result and then a failure of the same job carrying `boom` | one result per job, with the callback's exception leaving the loop as it does in the other strategies | medium (not executed) | Executor.ProgressFailureDuplicates | Executor.ProgressFixedOneResultPerJob |

The strategies elsewhere in the model take no progress callback, which is
the case where both definitions agree with one settled result per job
(Executor.QuietProgress, Executor.ProgressFixedOneResultPerJob).
