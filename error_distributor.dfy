/** Error classification and routing: a table-driven pipeline from an error
    message and its file context to a type, a severity, a complexity tier, a
    recommended model and a priority score, plus the distributor's job maps
    and the aggregate statistics over fix results. */
module ErrorRouting {
  import opened Wrappers
  import opened Text
  import opened Seqs
  import opened Patterns

  datatype ErrorType = TypeScript | React | Test | Lint | Build | Runtime | Dependency | General

  /** The enum's string value. */
  function TypeName(t: ErrorType): string {
    match t
    case TypeScript => "typescript"
    case React => "react"
    case Test => "test"
    case Lint => "lint"
    case Build => "build"
    case Runtime => "runtime"
    case Dependency => "dependency"
    case General => "general"
  }

  datatype Severity = Critical | High | Medium | Low

  /** The enum's integer value: 1 is the most severe. */
  function SeverityValue(s: Severity): (v: int)
    ensures 1 <= v <= 4
  {
    match s
    case Critical => 1
    case High => 2
    case Medium => 3
    case Low => 4
  }

  datatype ErrorContext = ErrorContext(
    filePath: string,
    lineNumber: Option<int>,
    columnNumber: Option<int>,
    functionName: Option<string>,
    className: Option<string>,
    surroundingCode: Option<string>)

  datatype ErrorJob = ErrorJob(
    id: string,
    errorType: ErrorType,
    severity: Severity,
    message: string,
    context: ErrorContext,
    suggestedModel: string,
    priorityScore: real,
    retryCount: int,
    maxRetries: int,
    createdAt: string)

  datatype ErrorFixResult = ErrorFixResult(
    jobId: string,
    success: bool,
    fixedCode: Option<string>,
    explanation: Option<string>,
    confidenceScore: real,
    executionTimeMs: int,
    modelUsed: string,
    errorMessage: Option<string>,
    completedAt: string)

  // ---------------------------------------------------------------------
  // Pattern tables, in declaration order

  /** The order in which the type table is scanned (GENERAL has no patterns). */
  const TypeOrder: seq<ErrorType> := [TypeScript, React, Test, Lint, Build, Runtime, Dependency]

  lemma TypeOrderEntries()
    ensures |TypeOrder| == 7
    ensures TypeOrder[0] == TypeScript && TypeOrder[1] == React && TypeOrder[2] == Test && TypeOrder[3] == Lint
    ensures TypeOrder[4] == Build && TypeOrder[5] == Runtime && TypeOrder[6] == Dependency
  {
  }

  const SeverityOrder: seq<Severity> := [Critical, High, Medium, Low]

  function TypePatterns(t: ErrorType): seq<Pattern> {
    match t
    case TypeScript => [
      Lits("TS") + [Digits] + Lits(":"),
      Lits("Type '") + [AnyRun] + Lits("' is not assignable to type"),
      Lits("Property '") + [AnyRun] + Lits("' does not exist on type"),
      Lits("Cannot find name '") + [AnyRun] + Lits("'"),
      Lits("Expected ") + [Digits] + Lits(" arguments, but got ") + [Digits],
      Lits("Object is possibly 'null'"),
      Lits("Object is possibly 'undefined'")]
    case React => [
      Lits("React Hook"),
      Lits("Invalid hook call"),
      Lits("Cannot read propert") + [Alt(["y", "ies"])] + Lits(" of undefined"),
      Lits("Cannot read propert") + [Alt(["y", "ies"])] + Lits(" of null"),
      Lits("JSX element ") + [AnyRun] + Lits(" has no corresponding closing tag"),
      Lits("Expected an assignment or function call")]
    case Test => [
      Lits("Test failed"),
      Lits("expect(") + [AnyRun] + Lits(").to"),
      Lits("AssertionError"),
      Lits("ReferenceError") + [AnyRun] + Lits("describe"),
      Lits("ReferenceError") + [AnyRun] + Lits("it"),
      Lits("ReferenceError") + [AnyRun] + Lits("expect"),
      Lits("vitest"),
      Lits("jest")]
    case Lint => [
      Lits("eslint"),
      Lits("Parsing error"),
      Lits("'") + [AnyRun] + Lits("' is defined but never used"),
      Lits("Missing semicolon"),
      Lits("Unexpected token")]
    case Build => [
      Lits("Build failed"),
      Lits("Module not found"),
      Lits("Cannot resolve module"),
      Lits("Compilation error"),
      Lits("SyntaxError: Unexpected token")]
    case Runtime => [
      Lits("ReferenceError"),
      Lits("TypeError"),
      Lits("RangeError"),
      Lits("SyntaxError"),
      Lits("at runtime")]
    case Dependency => [
      Lits("npm ERR!"),
      Lits("yarn error"),
      Lits("Package ") + [AnyRun] + Lits(" not found"),
      Lits("Module ") + [AnyRun] + Lits(" not found"),
      Lits("Cannot find module")]
    case General => []
  }

  function SeverityPatterns(s: Severity): seq<Pattern> {
    match s
    case Critical => [
      Lits("Build failed"),
      Lits("Compilation error"),
      Lits("SyntaxError"),
      Lits("Cannot find module"),
      Lits("TS") + [Digits] + Lits(":")]
    case High => [
      Lits("TypeError"),
      Lits("ReferenceError"),
      Lits("Test failed"),
      Lits("Cannot read propert")]
    case Medium => [
      Lits("eslint"),
      Lits("Warning"),
      Lits("Deprecated")]
    case Low => [
      Lits("'") + [AnyRun] + Lits("' is defined but never used"),
      Lits("Missing semicolon"),
      Lits("Prefer const")]
  }

  /** Python's `any(re.search(p, msg, re.IGNORECASE) for p in pats)`. */
  predicate AnyMatches(pats: seq<Pattern>, msg: string) {
    exists i :: 0 <= i < |pats| && Search(pats[i], msg)
  }

  /** `order[i]` is the first key in `order` whose patterns match. */
  predicate FirstMatchAt<K>(order: seq<K>, table: K -> seq<Pattern>, msg: string, i: int) {
    0 <= i < |order| && AnyMatches(table(order[i]), msg)
    && forall j :: 0 <= j < i ==> !AnyMatches(table(order[j]), msg)
  }

  /** The early-return scan `for key, pats in table.items(): if any(...): return key`,
      falling back to `otherwise`. */
  function FirstMatch<K(==)>(order: seq<K>, table: K -> seq<Pattern>, msg: string, otherwise: K): (r: K)
    ensures (forall i :: 0 <= i < |order| ==> !AnyMatches(table(order[i]), msg)) ==> r == otherwise
    ensures (exists i :: 0 <= i < |order| && AnyMatches(table(order[i]), msg)) ==>
      exists i :: FirstMatchAt(order, table, msg, i) && r == order[i]
  {
    if order == [] then otherwise
    else if AnyMatches(table(order[0]), msg) then
      assert FirstMatchAt(order, table, msg, 0);
      order[0]
    else
      var r := FirstMatch(order[1..], table, msg, otherwise);
      FirstMatchShift(order, table, msg, r);
      r
  }

  /** If the head has no match, the first match in the tail is the first match overall. */
  lemma FirstMatchShift<K>(order: seq<K>, table: K -> seq<Pattern>, msg: string, r: K)
    requires order != [] && !AnyMatches(table(order[0]), msg)
    requires (exists i :: 0 <= i < |order[1..]| && AnyMatches(table(order[1..][i]), msg)) ==>
      exists i :: FirstMatchAt(order[1..], table, msg, i) && r == order[1..][i]
    ensures (exists i :: 0 <= i < |order| && AnyMatches(table(order[i]), msg)) ==>
      exists i :: FirstMatchAt(order, table, msg, i) && r == order[i]
  {
    if exists i :: 0 <= i < |order| && AnyMatches(table(order[i]), msg) {
      var i :| 0 <= i < |order| && AnyMatches(table(order[i]), msg);
      assert order[1..][i - 1] == order[i];
      var k :| FirstMatchAt(order[1..], table, msg, k) && r == order[1..][k];
      assert FirstMatchAt(order, table, msg, k + 1);
    }
  }

  /** A fallback that is not itself a key is returned exactly when no key matches. */
  lemma FirstMatchFallback<K>(order: seq<K>, table: K -> seq<Pattern>, msg: string, otherwise: K)
    requires otherwise !in order
    ensures FirstMatch(order, table, msg, otherwise) == otherwise <==>
      forall i :: 0 <= i < |order| ==> !AnyMatches(table(order[i]), msg)
  {
    var r := FirstMatch(order, table, msg, otherwise);
    if exists i :: 0 <= i < |order| && AnyMatches(table(order[i]), msg) {
      var i :| FirstMatchAt(order, table, msg, i) && r == order[i];
      assert order[i] in order;
    }
  }

  /** The scan stops at the first key that matches, so it never returns a
      key after one known to match. */
  lemma FirstMatchWithin<K>(order: seq<K>, table: K -> seq<Pattern>, msg: string, otherwise: K, k: nat) returns (i: nat)
    requires k < |order| && AnyMatches(table(order[k]), msg)
    ensures i <= k && FirstMatch(order, table, msg, otherwise) == order[i]
  {
    var r := FirstMatch(order, table, msg, otherwise);
    assert 0 <= k < |order| && AnyMatches(table(order[k]), msg);
    i :| FirstMatchAt(order, table, msg, i) && r == order[i];
  }

  // ---------------------------------------------------------------------
  // Classification

  /** `file_path.split('.')[-1].lower()` for a non-empty path, else "". */
  function FileExtension(path: string): (ext: string)
    ensures path == "" ==> ext == ""
    ensures '.' !in ext
  {
    if path == "" then ""
    else
      var parts := SplitChar(path, '.');
      Lower(parts[|parts| - 1])
  }

  /** The extension is the lowered text after the last dot. */
  lemma ExtensionAfterLastDot(stem: string, e: string)
    requires '.' !in e
    ensures FileExtension(stem + ['.'] + e) == Lower(e)
  {
    SplitLastPart(stem, '.', e);
  }

  predicate IsTypeScriptFile(path: string) {
    FileExtension(path) in ["ts", "tsx"]
  }

  predicate IsTestPath(path: string) {
    Contains(Lower(path), "test") || Contains(Lower(path), "spec")
  }

  predicate TypeMatches(t: ErrorType, msg: string) {
    AnyMatches(TypePatterns(t), msg)
  }

  /** The error type: the TypeScript-file rule, then the test-file rule, then
      the first type in declaration order with a matching pattern, else GENERAL. */
  function ClassifyType(msg: string, ctx: ErrorContext): (r: ErrorType)
    ensures IsTypeScriptFile(ctx.filePath) && TypeMatches(TypeScript, msg) ==> r == TypeScript
    ensures (!(IsTypeScriptFile(ctx.filePath) && TypeMatches(TypeScript, msg))
             && IsTestPath(ctx.filePath) && TypeMatches(Test, msg)) ==> r == Test
    ensures (!(IsTypeScriptFile(ctx.filePath) && TypeMatches(TypeScript, msg))
             && !(IsTestPath(ctx.filePath) && TypeMatches(Test, msg))) ==>
        (r == General && forall i :: 0 <= i < |TypeOrder| ==> !TypeMatches(TypeOrder[i], msg))
        || exists i :: FirstMatchAt(TypeOrder, TypePatterns, msg, i) && r == TypeOrder[i]
    ensures r != General ==> TypeMatches(r, msg)
    ensures r == General <==> forall i :: 0 <= i < |TypeOrder| ==> !TypeMatches(TypeOrder[i], msg)
  {
    if IsTypeScriptFile(ctx.filePath) && TypeMatches(TypeScript, msg) then
      assert TypeOrder[0] == TypeScript;
      TypeScript
    else if IsTestPath(ctx.filePath) && TypeMatches(Test, msg) then
      assert TypeOrder[2] == Test;
      Test
    else
      FirstMatchFallback(TypeOrder, TypePatterns, msg, General);
      FirstMatch(TypeOrder, TypePatterns, msg, General)
  }

  /** A message with a LINT pattern is TYPESCRIPT, REACT, TEST or LINT: the
      scan reaches LINT, and the file rules pick types before it. */
  lemma ClassifyUpToLint(msg: string, ctx: ErrorContext)
    requires TypeMatches(Lint, msg)
    ensures ClassifyType(msg, ctx) in {TypeScript, React, Test, Lint}
  {
    if !(IsTypeScriptFile(ctx.filePath) && TypeMatches(TypeScript, msg)) && !(IsTestPath(ctx.filePath) && TypeMatches(Test, msg)) {
      TypeOrderEntries();
      var i := FirstMatchWithin(TypeOrder, TypePatterns, msg, General, 3);
      if i == 0 {
      } else if i == 1 {
      } else if i == 2 {
      } else {
        assert i == 3;
      }
    }
  }

  /** The severity: the first of CRITICAL, HIGH, MEDIUM, LOW with a matching
      pattern, MEDIUM when none matches. */
  function ClassifySeverity(msg: string): (r: Severity)
    ensures (forall i :: 0 <= i < |SeverityOrder| ==> !AnyMatches(SeverityPatterns(SeverityOrder[i]), msg))
      ==> r == Medium
    ensures (exists i :: 0 <= i < |SeverityOrder| && AnyMatches(SeverityPatterns(SeverityOrder[i]), msg))
      ==> exists i :: FirstMatchAt(SeverityOrder, SeverityPatterns, msg, i) && r == SeverityOrder[i]
    ensures AnyMatches(SeverityPatterns(Critical), msg) ==> r == Critical
  {
    var r := FirstMatch(SeverityOrder, SeverityPatterns, msg, Medium);
    CriticalComesFirst(msg, r);
    r
  }

  lemma CriticalComesFirst(msg: string, r: Severity)
    requires (exists i :: 0 <= i < |SeverityOrder| && AnyMatches(SeverityPatterns(SeverityOrder[i]), msg)) ==>
      exists i :: FirstMatchAt(SeverityOrder, SeverityPatterns, msg, i) && r == SeverityOrder[i]
    ensures AnyMatches(SeverityPatterns(Critical), msg) ==> r == Critical
  {
    if AnyMatches(SeverityPatterns(Critical), msg) {
      assert SeverityOrder[0] == Critical;
      var k :| FirstMatchAt(SeverityOrder, SeverityPatterns, msg, k) && r == SeverityOrder[k];
    }
  }

  /** `classify_error`: the pair of type and severity. */
  function ClassifyError(msg: string, ctx: ErrorContext): (r: (ErrorType, Severity))
    ensures r.0 != General ==> TypeMatches(r.0, msg)
    ensures r.0 == General <==> forall i :: 0 <= i < |TypeOrder| ==> !TypeMatches(TypeOrder[i], msg)
    ensures (forall i :: 0 <= i < |SeverityOrder| ==> !AnyMatches(SeverityPatterns(SeverityOrder[i]), msg))
      ==> r.1 == Medium
    ensures (exists i :: 0 <= i < |SeverityOrder| && AnyMatches(SeverityPatterns(SeverityOrder[i]), msg))
      ==> exists i :: FirstMatchAt(SeverityOrder, SeverityPatterns, msg, i) && r.1 == SeverityOrder[i]
  {
    (ClassifyType(msg, ctx), ClassifySeverity(msg))
  }

  // ---------------------------------------------------------------------
  // Model recommendation

  const Tiers: seq<string> := ["simple", "complex", "advanced"]

  const DefaultModel := "deepseek-coder:1.3b"

  /** The recommendation table: every type has an entry for each tier. */
  function ModelTable(t: ErrorType): map<string, string> {
    match t
    case TypeScript => map["simple" := "deepseek-coder:1.3b", "complex" := "deepseek-coder:6.7b", "advanced" := "deepseek-coder:33b"]
    case React => map["simple" := "deepseek-coder:1.3b", "complex" := "deepseek-coder:6.7b", "advanced" := "deepseek-coder:33b"]
    case Test => map["simple" := "deepseek-coder:1.3b", "complex" := "deepseek-coder:6.7b", "advanced" := "deepseek-coder:6.7b"]
    case Lint => map["simple" := "deepseek-coder:1.3b", "complex" := "deepseek-coder:1.3b", "advanced" := "deepseek-coder:6.7b"]
    case Build => map["simple" := "deepseek-coder:6.7b", "complex" := "deepseek-coder:33b", "advanced" := "deepseek-coder:33b"]
    case Runtime => map["simple" := "deepseek-coder:1.3b", "complex" := "deepseek-coder:6.7b", "advanced" := "deepseek-coder:33b"]
    case Dependency => map["simple" := "llama3.2:1b", "complex" := "deepseek-coder:1.3b", "advanced" := "deepseek-coder:6.7b"]
    case General => map["simple" := "llama3.2:1b", "complex" := "deepseek-coder:1.3b", "advanced" := "deepseek-coder:6.7b"]
  }

  /** Parameter count of each model the table names, in hundreds of millions. */
  function ModelSize(model: string): int {
    if model == "llama3.2:1b" then 10
    else if model == "deepseek-coder:1.3b" then 13
    else if model == "deepseek-coder:6.7b" then 67
    else if model == "deepseek-coder:33b" then 330
    else 0
  }

  /** `recommend_model`: the table entry for the tier, the 1.3b coder for an unknown tier. */
  function RecommendModel(t: ErrorType, complexity: string): (model: string)
    ensures complexity !in Tiers ==> model == DefaultModel
    ensures complexity in Tiers ==> model == ModelTable(t)[complexity]
    ensures ModelSize(model) > 0
  {
    if complexity in ModelTable(t) then ModelTable(t)[complexity] else DefaultModel
  }

  /** A higher tier never gets a smaller model. */
  lemma RecommendModelGrowsWithTier(t: ErrorType)
    ensures ModelSize(RecommendModel(t, "simple")) <= ModelSize(RecommendModel(t, "complex"))
    ensures ModelSize(RecommendModel(t, "complex")) <= ModelSize(RecommendModel(t, "advanced"))
  {
  }

  // ---------------------------------------------------------------------
  // Priority

  /** Per-type multiplier, all positive. */
  function TypeMultiplier(t: ErrorType): (m: real)
    ensures m > 0.0
  {
    match t
    case TypeScript => 1.2
    case Build => 1.3
    case React => 1.1
    case Test => 1.0
    case Lint => 0.8
    case Runtime => 1.1
    case Dependency => 1.2
    case General => 0.9
  }

  const CriticalPaths: seq<string> := ["src/main", "src/app", "src/index", "package.json", "tsconfig.json", "vite.config"]

  predicate IsCriticalPath(path: string) {
    path != "" && exists i :: 0 <= i < |CriticalPaths| && Contains(Lower(path), CriticalPaths[i])
  }

  /** `calculate_priority_score` over exact reals. */
  function PriorityScore(t: ErrorType, sev: Severity, ctx: ErrorContext): (score: real)
    ensures score > 0.0
    ensures IsCriticalPath(ctx.filePath) ==> score == (10 - SeverityValue(sev)) as real * TypeMultiplier(t) * 1.2
    ensures !IsCriticalPath(ctx.filePath) ==> score == (10 - SeverityValue(sev)) as real * TypeMultiplier(t)
  {
    var score := (10 - SeverityValue(sev)) as real * TypeMultiplier(t);
    if IsCriticalPath(ctx.filePath) then score * 1.2 else score
  }

  /** The exact score already has at most two decimals, so `round(score, 2)` keeps it. */
  lemma PriorityHasTwoDecimals(t: ErrorType, sev: Severity, ctx: ErrorContext)
    ensures (PriorityScore(t, sev, ctx) * 100.0).Floor as real == PriorityScore(t, sev, ctx) * 100.0
  {
    var v := 10 - SeverityValue(sev);
    var m10 := MultiplierTenths(t);
    ScaledScore(v, m10);
    if IsCriticalPath(ctx.filePath) {
      assert PriorityScore(t, sev, ctx) * 100.0 == (v * m10 * 12) as real;
    } else {
      assert PriorityScore(t, sev, ctx) * 100.0 == (v * m10 * 10) as real;
    }
  }

  /** Every multiplier is a whole number of tenths. */
  lemma MultiplierTenths(t: ErrorType) returns (m10: int)
    ensures TypeMultiplier(t) == m10 as real / 10.0
  {
    m10 := match t
      case TypeScript => 12
      case Build => 13
      case React => 11
      case Test => 10
      case Lint => 8
      case Runtime => 11
      case Dependency => 12
      case General => 9;
  }

  /** A whole number times a multiple of 0.1, boosted or not, is a whole
      number of hundredths. */
  lemma ScaledScore(v: int, m10: int)
    ensures (v as real) * (m10 as real / 10.0) * 1.2 * 100.0 == (v * m10 * 12) as real
    ensures (v as real) * (m10 as real / 10.0) * 100.0 == (v * m10 * 10) as real
  {
    assert (v * m10) as real == (v as real) * (m10 as real);
  }

  /** A more severe error (smaller value) never scores lower, for the same type and file. */
  lemma PriorityMonotoneInSeverity(t: ErrorType, a: Severity, b: Severity, ctx: ErrorContext)
    requires SeverityValue(a) <= SeverityValue(b)
    ensures PriorityScore(t, a, ctx) >= PriorityScore(t, b, ctx)
  {
    var m := TypeMultiplier(t);
    var (va, vb) := ((10 - SeverityValue(a)) as real, (10 - SeverityValue(b)) as real);
    assert va * m >= vb * m;
  }

  /** The critical-file boost never lowers the score. */
  lemma CriticalPathNeverLowers(t: ErrorType, sev: Severity, ctx: ErrorContext, other: ErrorContext)
    requires IsCriticalPath(ctx.filePath) && !IsCriticalPath(other.filePath)
    ensures PriorityScore(t, sev, ctx) > PriorityScore(t, sev, other)
  {
    var base := (10 - SeverityValue(sev)) as real * TypeMultiplier(t);
    assert base > 0.0;
    assert base * 1.2 > base;
  }

  // ---------------------------------------------------------------------
  // Complexity

  const SimpleIndicators: seq<string> := ["Missing semicolon", "Unused variable", "Prefer const", "Missing return type", "Property does not exist"]
  const ComplexIndicators: seq<string> := ["Type is not assignable", "Cannot find name", "Hook call", "Test failed", "Cannot read property"]
  const AdvancedIndicators: seq<string> := ["Generic type", "Conditional type", "Mapped type", "Complex union", "Intersection type", "Build failed"]

  /** Some indicator occurs in the message, both lowered. */
  predicate HasIndicator(indicators: seq<string>, msg: string) {
    exists i :: 0 <= i < |indicators| && Contains(Lower(msg), Lower(indicators[i]))
  }

  /** The fallback rule: a long message, or a long surrounding snippet. */
  predicate IsLong(msg: string, ctx: ErrorContext) {
    |msg| > 200 || (ctx.surroundingCode.Some? && |ctx.surroundingCode.value| > 500)
  }

  /** `_determine_complexity`: advanced indicators, then complex, then simple,
      then the length rule. */
  function DetermineComplexity(msg: string, ctx: ErrorContext): (tier: string)
    ensures tier in Tiers
    ensures tier == "advanced" <==> HasIndicator(AdvancedIndicators, msg)
    ensures tier == "complex" <==>
      (!HasIndicator(AdvancedIndicators, msg)
       && (HasIndicator(ComplexIndicators, msg) || (!HasIndicator(SimpleIndicators, msg) && IsLong(msg, ctx))))
    ensures tier == "simple" ==> !IsLong(msg, ctx) || HasIndicator(SimpleIndicators, msg)
  {
    if HasIndicator(AdvancedIndicators, msg) then "advanced"
    else if HasIndicator(ComplexIndicators, msg) then "complex"
    else if HasIndicator(SimpleIndicators, msg) then "simple"
    else if IsLong(msg, ctx) then "complex"
    else "simple"
  }

  /** Routing by computed complexity always hits the table, never the fallback. */
  lemma RoutedModelFromTable(t: ErrorType, msg: string, ctx: ErrorContext)
    ensures RecommendModel(t, DetermineComplexity(msg, ctx)) == ModelTable(t)[DetermineComplexity(msg, ctx)]
  {
  }

  // ---------------------------------------------------------------------
  // Distribution and job status

  /** One entry of the input list of `distribute_errors`; absent keys are None. */
  datatype ErrorData = ErrorData(
    message: Option<string>,
    file: Option<string>,
    line: Option<int>,
    column: Option<int>,
    functionName: Option<string>,
    className: Option<string>,
    codeContext: Option<string>)

  function ContextOf(e: ErrorData): ErrorContext {
    ErrorContext(e.file.GetOr(""), e.line, e.column, e.functionName, e.className, e.codeContext)
  }

  /** The job built for an entry with a message; `id` and `stamp` stand for the
      time- and hash-derived id and the creation time. */
  function BuildJob(msg: string, ctx: ErrorContext, id: string, stamp: string): (job: ErrorJob)
    ensures job.message == msg && job.context == ctx && job.id == id
    ensures (job.errorType, job.severity) == ClassifyError(msg, ctx)
    ensures job.suggestedModel == RecommendModel(job.errorType, DetermineComplexity(msg, ctx))
    ensures job.priorityScore == PriorityScore(job.errorType, job.severity, ctx)
    ensures job.retryCount == 0 && job.maxRetries == 3
  {
    var (t, s) := ClassifyError(msg, ctx);
    ErrorJob(id, t, s, msg, ctx, RecommendModel(t, DetermineComplexity(msg, ctx)),
             PriorityScore(t, s, ctx), 0, 3, stamp)
  }

  /** The message ids `distribute_errors` returns: one per entry that has a
      message and whose send succeeded, in input order. */
  function DistributedIds(errors: seq<ErrorData>, replies: seq<Result<string>>): (ids: seq<string>)
    requires |replies| == |errors|
    ensures |ids| <= |errors|
    decreases |errors|
  {
    if errors == [] then []
    else
      var n := |errors| - 1;
      DistributedIds(errors[..n], replies[..n])
      + if errors[n].message.Some? && replies[n].Ok? then [replies[n].value] else []
  }

  /** The active map after `distribute_errors`, later entries overwriting earlier ones. */
  function DistributedJobs(active: map<string, ErrorJob>, errors: seq<ErrorData>, replies: seq<Result<string>>,
                           jobIds: seq<string>, stamp: string): map<string, ErrorJob>
    requires |replies| == |errors| == |jobIds|
    decreases |errors|
  {
    if errors == [] then active
    else
      var e := errors[|errors| - 1];
      var before := DistributedJobs(active, errors[..|errors| - 1], replies[..|errors| - 1], jobIds[..|errors| - 1], stamp);
      if e.message.Some? && replies[|errors| - 1].Ok? then
        before[jobIds[|errors| - 1] := BuildJob(e.message.value, ContextOf(e), jobIds[|errors| - 1], stamp)]
      else before
  }

  lemma DistributedPrefix(errors: seq<ErrorData>, replies: seq<Result<string>>, jobIds: seq<string>, i: nat)
    requires |replies| == |errors| == |jobIds| && i < |errors|
    ensures errors[..i + 1][..i] == errors[..i] && errors[..i + 1][i] == errors[i]
    ensures replies[..i + 1][..i] == replies[..i] && replies[..i + 1][i] == replies[i]
    ensures jobIds[..i + 1][..i] == jobIds[..i] && jobIds[..i + 1][i] == jobIds[i]
  {
  }

  datatype JobStatus =
    | Completed(success: bool, result: ErrorFixResult)
    | Processing(job: ErrorJob, submittedAt: string)
    | NotFound(message: string)

  class ErrorDistributor {
    var activeJobs: map<string, ErrorJob>
    var completedJobs: map<string, ErrorFixResult>

    constructor ()
      ensures activeJobs == map[] && completedJobs == map[]
    {
      activeJobs := map[];
      completedJobs := map[];
    }

    /** `_submit_error_job`: `reply` is the queue's answer, a message id or a
        client error. The job is recorded only when the send succeeded. */
    method SubmitErrorJob(job: ErrorJob, reply: Result<string>) returns (r: Result<string>)
      modifies this
      ensures r == reply
      ensures activeJobs == if reply.Ok? then old(activeJobs)[job.id := job] else old(activeJobs)
      ensures completedJobs == old(completedJobs)
    {
      if reply.Err? {
        return reply;
      }
      activeJobs := activeJobs[job.id := job];
      return reply;
    }

    /** `distribute_errors`: `jobIds[i]` and `replies[i]` are the id and the
        queue's answer for entry `i`. An entry without a message, or whose send
        fails, is skipped. */
    method DistributeErrors(errors: seq<ErrorData>, jobIds: seq<string>, replies: seq<Result<string>>, stamp: string)
      returns (ids: seq<string>)
      requires |replies| == |errors| == |jobIds|
      modifies this
      ensures ids == DistributedIds(errors, replies)
      ensures activeJobs == DistributedJobs(old(activeJobs), errors, replies, jobIds, stamp)
      ensures completedJobs == old(completedJobs)
    {
      ids := [];
      var i := 0;
      while i < |errors|
        invariant 0 <= i <= |errors|
        invariant ids == DistributedIds(errors[..i], replies[..i])
        invariant activeJobs == DistributedJobs(old(activeJobs), errors[..i], replies[..i], jobIds[..i], stamp)
        invariant completedJobs == old(completedJobs)
      {
        DistributedPrefix(errors, replies, jobIds, i);
        var e := errors[i];
        if e.message.Some? {
          var job := BuildJob(e.message.value, ContextOf(e), jobIds[i], stamp);
          var r := SubmitErrorJob(job, replies[i]);
          if r.Ok? {
            ids := ids + [r.value];
          }
        }
        i := i + 1;
      }
      assert errors[..i] == errors && replies[..i] == replies && jobIds[..i] == jobIds;
    }

    /** `get_job_status`: a completed id wins over an active one; an id in
        neither map is not found. */
    function GetJobStatus(jobId: string): (st: JobStatus)
      reads this
      ensures jobId in completedJobs ==> st == Completed(completedJobs[jobId].success, completedJobs[jobId])
      ensures jobId !in completedJobs && jobId in activeJobs ==>
        st.Processing? && st.job == activeJobs[jobId] && st.submittedAt == activeJobs[jobId].createdAt
      ensures st.NotFound? <==> jobId !in completedJobs && jobId !in activeJobs
      ensures st.NotFound? ==> st.message == "Job " + jobId + " not found"
    {
      if jobId in completedJobs then Completed(completedJobs[jobId].success, completedJobs[jobId])
      else if jobId in activeJobs then Processing(activeJobs[jobId], activeJobs[jobId].createdAt)
      else NotFound("Job " + jobId + " not found")
    }
  }

  // ---------------------------------------------------------------------
  // Aggregation

  /** A stored fix result as read back; absent keys are None. */
  datatype ResultRecord = ResultRecord(
    success: Option<bool>,
    confidenceScore: Option<real>,
    executionTimeMs: Option<real>,
    errorType: Option<string>)

  predicate Succeeded(r: ResultRecord) {
    r.success.GetOr(false)
  }

  function TypeKey(r: ResultRecord): string {
    r.errorType.GetOr("unknown")
  }

  datatype TypeStats = TypeStats(total: nat, successful: nat)

  /** The results that could be fetched, in job order. */
  function Fetched(fetched: seq<Option<ResultRecord>>): (results: seq<ResultRecord>)
    ensures |results| <= |fetched|
  {
    if fetched == [] then []
    else (if fetched[0].Some? then [fetched[0].value] else []) + Fetched(fetched[1..])
  }

  /** `error_type_stats` after counting `results` from left to right. */
  function Breakdown(results: seq<ResultRecord>): map<string, TypeStats>
    decreases |results|
  {
    if results == [] then map[]
    else
      var before := Breakdown(results[..|results| - 1]);
      var r := results[|results| - 1];
      var old_ := if TypeKey(r) in before then before[TypeKey(r)] else TypeStats(0, 0);
      before[TypeKey(r) := TypeStats(old_.total + 1, old_.successful + if Succeeded(r) then 1 else 0)]
  }

  /** Number of results of type `key`, and of those that succeeded. */
  function CountOfType(results: seq<ResultRecord>, key: string): (n: nat)
    ensures n <= |results|
  {
    if results == [] then 0
    else CountOfType(results[1..], key) + if TypeKey(results[0]) == key then 1 else 0
  }

  function SuccessesOfType(results: seq<ResultRecord>, key: string): (n: nat)
    ensures n <= CountOfType(results, key)
  {
    if results == [] then 0
    else SuccessesOfType(results[1..], key) + if TypeKey(results[0]) == key && Succeeded(results[0]) then 1 else 0
  }

  lemma {:induction false} CountOfTypeAppend(a: seq<ResultRecord>, r: ResultRecord, key: string)
    ensures CountOfType(a + [r], key) == CountOfType(a, key) + if TypeKey(r) == key then 1 else 0
    ensures SuccessesOfType(a + [r], key) == SuccessesOfType(a, key) + if TypeKey(r) == key && Succeeded(r) then 1 else 0
  {
    if a == [] {
      assert [r][1..] == [];
    } else {
      assert (a + [r])[1..] == a[1..] + [r];
      CountOfTypeAppend(a[1..], r, key);
    }
  }

  /** Each breakdown entry counts exactly the results of its type, and how
      many of them succeeded; types that did not occur have no entry. */
  lemma {:induction false} BreakdownCounts(results: seq<ResultRecord>, key: string)
    ensures key in Breakdown(results) <==> CountOfType(results, key) > 0
    ensures key in Breakdown(results) ==>
      Breakdown(results)[key] == TypeStats(CountOfType(results, key), SuccessesOfType(results, key))
    decreases |results|
  {
    if results != [] {
      var n := |results| - 1;
      BreakdownCounts(results[..n], key);
      assert results == results[..n] + [results[n]];
      CountOfTypeAppend(results[..n], results[n], key);
    }
  }

  function SumConfidence(results: seq<ResultRecord>): real {
    if results == [] then 0.0 else results[0].confidenceScore.GetOr(0.0) + SumConfidence(results[1..])
  }

  function SumTime(results: seq<ResultRecord>): real {
    if results == [] then 0.0 else results[0].executionTimeMs.GetOr(0.0) + SumTime(results[1..])
  }

  datatype Aggregate = Aggregate(
    totalJobs: nat,
    successfulFixes: nat,
    failedFixes: int,
    successRate: real,
    averageConfidence: real,
    averageExecutionTimeMs: real,
    breakdown: map<string, TypeStats>,
    results: seq<ResultRecord>)

  /** `aggregate_results`: `fetched[i]` is the stored result of `jobIds[i]`, or
      None when reading it raised a ClientError, the only exception the loop
      catches. Missing results count as failed. */
  method AggregateResults(jobIds: seq<string>, fetched: seq<Option<ResultRecord>>) returns (agg: Aggregate)
    requires |fetched| == |jobIds|
    ensures agg.results == Fetched(fetched)
    ensures agg.totalJobs == |jobIds|
    ensures agg.successfulFixes == CountWhere(agg.results, Succeeded)
    ensures agg.failedFixes == |jobIds| - agg.successfulFixes && agg.failedFixes >= 0
    ensures agg.successRate == Percentage(agg.successfulFixes, |jobIds|)
    ensures agg.averageConfidence == if agg.results == [] then 0.0 else SumConfidence(agg.results) / |agg.results| as real
    ensures agg.averageExecutionTimeMs == if agg.results == [] then 0.0 else SumTime(agg.results) / |agg.results| as real
    ensures agg.breakdown == Breakdown(agg.results)
  {
    var results := Fetched(fetched);
    var successful := CountWhere(results, Succeeded);
    var total := |jobIds|;
    var stats := CountByType(results);
    var rate := Percentage(successful, total);
    var avgConf := if results == [] then 0.0 else SumConfidence(results) / |results| as real;
    var avgTime := if results == [] then 0.0 else SumTime(results) / |results| as real;
    agg := Aggregate(total, successful, total - successful, rate, avgConf, avgTime, stats, results);
  }

  /** The grouping loop of `aggregate_results`. */
  method CountByType(results: seq<ResultRecord>) returns (stats: map<string, TypeStats>)
    ensures stats == Breakdown(results)
  {
    stats := map[];
    var i := 0;
    while i < |results|
      invariant 0 <= i <= |results|
      invariant stats == Breakdown(results[..i])
    {
      assert results[..i + 1][..i] == results[..i];
      var key := TypeKey(results[i]);
      if key !in stats {
        stats := stats[key := TypeStats(0, 0)];
      }
      var s := stats[key];
      stats := stats[key := TypeStats(s.total + 1, if Succeeded(results[i]) then s.successful + 1 else s.successful)];
      i := i + 1;
    }
    assert results[..i] == results;
  }
}
