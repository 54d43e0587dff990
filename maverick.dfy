/** The Llama 4 Maverick evaluation: three prompt types, a validator scoring
    each reply by keywords and length, a guarded single-prompt run and the
    summary of a comprehensive run. Model loading and generation are outcomes
    given as parameters. */
module Maverick {
  import opened Wrappers
  import opened Text
  import opened Seqs
  import opened Keywords

  /** The keys of the prompt table, in insertion order. The prompt texts
      themselves are not modelled. */
  const PromptTypes: seq<string> := ["enterprise_test_generation", "architectural_analysis", "complex_debugging"]

  const EnterpriseKeywords: seq<string> := ["test", "describe", "it", "expect", "mock", "render", "component", "async"]
  const ArchitectureKeywords: seq<string> := ["architecture", "pattern", "component", "structure", "recommendation", "scalability"]
  const DebuggingKeywords: seq<string> := ["debug", "issue", "memory", "leak", "performance", "useeffect", "state"]

  /** Keyword list, minimum keyword count and minimum length of a known type. */
  datatype Rule = Rule(keywords: seq<string>, minKeywords: nat, minLength: nat)

  function RuleFor(promptType: string): (r: Option<Rule>)
    ensures r.Some? <==> promptType in PromptTypes
  {
    if promptType == "enterprise_test_generation" then Some(Rule(EnterpriseKeywords, 5, 500))
    else if promptType == "architectural_analysis" then Some(Rule(ArchitectureKeywords, 4, 300))
    else if promptType == "complex_debugging" then Some(Rule(DebuggingKeywords, 4, 300))
    else None
  }

  /** `_validate_response`: a known type needs its minimum length and keyword
      count; anything else only more than 100 characters. */
  function ValidateResponse(response: string, promptType: string): (valid: bool)
    ensures RuleFor(promptType).None? ==> (valid <==> |response| > 100)
    ensures RuleFor(promptType).Some? ==>
      var rule := RuleFor(promptType).value;
      valid <==> |response| >= rule.minLength && |Matched(Lower(response), rule.keywords)| >= rule.minKeywords
  {
    match RuleFor(promptType)
    case None => |response| > 100
    case Some(rule) =>
      KeywordListsDistinct();
      FoundCountsDistinct(Lower(response), rule.keywords);
      |response| >= rule.minLength && Found(Lower(response), rule.keywords) >= rule.minKeywords
  }

  lemma KeywordListsDistinct()
    ensures Distinct(EnterpriseKeywords) && Distinct(ArchitectureKeywords) && Distinct(DebuggingKeywords)
  {
  }

  /** The three thresholds, counted as distinct keywords present. */
  lemma Thresholds(response: string)
    ensures ValidateResponse(response, "enterprise_test_generation") <==>
      |response| >= 500 && |Matched(Lower(response), EnterpriseKeywords)| >= 5
    ensures ValidateResponse(response, "architectural_analysis") <==>
      |response| >= 300 && |Matched(Lower(response), ArchitectureKeywords)| >= 4
    ensures ValidateResponse(response, "complex_debugging") <==>
      |response| >= 300 && |Matched(Lower(response), DebuggingKeywords)| >= 4
  {
    KeywordListsDistinct();
    FoundCountsDistinct(Lower(response), EnterpriseKeywords);
    FoundCountsDistinct(Lower(response), ArchitectureKeywords);
    FoundCountsDistinct(Lower(response), DebuggingKeywords);
  }

  /** An unknown type is judged by length alone. */
  lemma UnknownByLength(response: string, promptType: string)
    requires promptType !in PromptTypes
    ensures ValidateResponse(response, promptType) <==> |response| > 100
  {
  }

  /** Matching ignores case: replies equal up to ASCII case get the same verdict. */
  lemma ValidIgnoresCase(a: string, b: string, promptType: string)
    requires Lower(a) == Lower(b)
    ensures ValidateResponse(a, promptType) == ValidateResponse(b, promptType)
  {
    assert |a| == |Lower(a)| == |Lower(b)| == |b|;
  }

  /** The thresholds are lower bounds: a valid reply stays valid when extended. */
  lemma ValidExtends(a: string, b: string, promptType: string)
    requires ValidateResponse(a, promptType)
    ensures ValidateResponse(a + b, promptType)
  {
    if RuleFor(promptType).Some? {
      ExtendedScore(a, b, RuleFor(promptType).value.keywords);
    }
  }

  /** What the provider's `generate` did: a reply with its duration and token
      total, or an exception with its text and the time elapsed until then. */
  datatype Generation =
    | Generated(text: string, duration: real, totalTokens: nat)
    | Raised(error: string, elapsed: real)

  /** One `test_prompt` result. */
  datatype PromptRun =
    | Success(promptType: string, duration: real, response: string, isValid: bool, responseLength: nat, totalTokens: nat)
    | Failure(promptType: string, error: string, duration: real)

  /** The result of `test_prompt` once both guards have passed. */
  function RunOf(promptType: string, g: Generation): (r: PromptRun)
    ensures r.promptType == promptType
    ensures r.Success? <==> g.Generated?
    ensures r.Success? ==> (r.response == g.text && r.responseLength == |g.text| &&
      r.isValid == ValidateResponse(g.text, promptType) && r.duration == g.duration && r.totalTokens == g.totalTokens)
    ensures r.Failure? ==> r.error == g.error && r.duration == g.elapsed
  {
    match g
    case Generated(text, duration, tokens) =>
      Success(promptType, duration, text, ValidateResponse(text, promptType), |text|, tokens)
    case Raised(e, elapsed) => Failure(promptType, e, elapsed)
  }

  /** `test_prompt`: a model that is not loaded raises `RuntimeError`, an
      unknown prompt type `ValueError`, both before anything is generated. */
  function TestPrompt(loaded: bool, promptType: string, g: Generation): (r: Result<PromptRun>)
    ensures !loaded ==> r == Err("RuntimeError: Model not loaded")
    ensures loaded && promptType !in PromptTypes ==> r == Err("ValueError: Unknown prompt type: " + promptType)
    ensures r.Ok? <==> loaded && promptType in PromptTypes
    ensures r.Ok? ==> r.value == RunOf(promptType, g)
  {
    if !loaded then Err("RuntimeError: Model not loaded")
    else if RuleFor(promptType).None? then Err("ValueError: Unknown prompt type: " + promptType)
    else Ok(RunOf(promptType, g))
  }

  /** A refused call does not depend on what generation would have produced. */
  lemma GuardsPrecedeGeneration(loaded: bool, promptType: string, g1: Generation, g2: Generation)
    requires !loaded || promptType !in PromptTypes
    ensures TestPrompt(loaded, promptType, g1).Err?
    ensures TestPrompt(loaded, promptType, g1) == TestPrompt(loaded, promptType, g2)
  {
  }

  predicate IsSuccess(r: PromptRun) {
    r.Success?
  }

  predicate IsValidRun(r: PromptRun) {
    r.Success? && r.isValid
  }

  function SumDurations(rs: seq<PromptRun>): real {
    if rs == [] then 0.0 else rs[0].duration + SumDurations(rs[1..])
  }

  function SumTokens(rs: seq<PromptRun>): nat {
    if rs == [] then 0 else (if rs[0].Success? then rs[0].totalTokens else 0) + SumTokens(rs[1..])
  }

  /** Only successful runs carry tokens, so summing over them sums over all runs. */
  lemma {:induction false} SuccessSums(tests: seq<PromptRun>)
    ensures SumTokens(Filter(tests, IsSuccess)) == SumTokens(tests)
  {
    if tests != [] {
      SuccessSums(tests[1..]);
      if tests[0].Success? {
        assert Filter(tests, IsSuccess) == [tests[0]] + Filter(tests[1..], IsSuccess);
        assert ([tests[0]] + Filter(tests[1..], IsSuccess))[1..] == Filter(tests[1..], IsSuccess);
      }
    }
  }

  datatype Summary = Summary(
    totalTests: nat, successfulTests: nat, validTests: nat,
    successRate: real, validityRate: real, averageDuration: real, totalTokens: nat)

  /** The summary of a comprehensive run; `tests` is never empty there, and
      an empty one would divide by zero. */
  function Summarize(tests: seq<PromptRun>): (s: Summary)
    requires tests != []
    ensures s.totalTests == |tests|
    ensures s.successfulTests == CountWhere(tests, IsSuccess)
    ensures s.validTests == CountWhere(tests, IsValidRun)
    ensures s.validTests <= s.successfulTests <= s.totalTests
    ensures 0.0 <= s.successRate <= 100.0
    ensures s.successRate == 100.0 <==> s.successfulTests == s.totalTests
    ensures 0.0 <= s.validityRate <= 100.0
    ensures s.successfulTests == 0 ==> s.validityRate == 0.0 && s.averageDuration == 0.0
    ensures s.totalTokens == SumTokens(tests)
    ensures IsShare(s.successRate, s.successfulTests, s.totalTests)
    ensures s.successfulTests > 0 ==> IsShare(s.validityRate, s.validTests, s.successfulTests)
    ensures s.successfulTests > 0 ==> IsMean(s.averageDuration, SumDurations(Filter(tests, IsSuccess)), s.successfulTests)
  {
    var successful := Filter(tests, IsSuccess);
    var valid := Filter(successful, IsValidRun);
    var n := |successful|;
    ValidCount(tests);
    SuccessSums(tests);
    var successRate := Percentage(n, |tests|);
    var validityRate := Percentage(|valid|, n);
    PercentageShare(n, |tests|);
    PercentageShare(|valid|, n);
    var average := if n > 0 then Mean(SumDurations(successful), n) else 0.0;
    Summary(|tests|, n, |valid|, successRate, validityRate, average, SumTokens(successful))
  }

  /** Filtering the successful tests first loses no valid one. */
  lemma {:induction false} ValidCount(tests: seq<PromptRun>)
    ensures |Filter(Filter(tests, IsSuccess), IsValidRun)| == CountWhere(tests, IsValidRun)
  {
    if tests != [] {
      ValidCount(tests[1..]);
    }
  }

  datatype Report = Report(tests: seq<PromptRun>, summary: Summary)

  /** `run_comprehensive_test`: every prompt type in order, then the summary;
      `outcomes[i]` is what generation does for the i-th type. A model that is
      not loaded makes the first `test_prompt` raise, and the run with it. */
  method RunComprehensiveTest(loaded: bool, outcomes: seq<Generation>) returns (r: Result<Report>)
    requires |outcomes| == |PromptTypes|
    ensures r.Err? <==> !loaded
    ensures !loaded ==> r.error == "RuntimeError: Model not loaded"
    ensures r.Ok? ==> (|r.value.tests| == |PromptTypes| &&
      forall i :: 0 <= i < |PromptTypes| ==> r.value.tests[i] == RunOf(PromptTypes[i], outcomes[i]))
    ensures r.Ok? ==> r.value.summary == Summarize(r.value.tests)
  {
    var tests: seq<PromptRun> := [];
    for i := 0 to |PromptTypes|
      invariant i > 0 ==> loaded
      invariant |tests| == i
      invariant forall j :: 0 <= j < i ==> tests[j] == RunOf(PromptTypes[j], outcomes[j])
    {
      var res := TestPrompt(loaded, PromptTypes[i], outcomes[i]);
      if res.Err? {
        return Err(res.error);
      }
      tests := tests + [res.value];
    }
    return Ok(Report(tests, Summarize(tests)));
  }
}
