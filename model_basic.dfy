/** The basic model check: one deterministic prompt per model, chosen by the
    model's name, and a validator that scores the reply by keywords and length. */
module ModelBasic {
  import opened Wrappers
  import opened Text
  import opened Keywords

  const General := "general"
  const ProgrammingTypes: seq<string> := ["programming", "code_reasoning", "debugging", "algorithm", "typescript"]

  /** The prompt sent for each prompt type. */
  const TestPrompts: map<string, string> := map[
    "general" := "Tell me who was the president of USA in 2000",
    "programming" := "Write a simple JavaScript function that adds two numbers and returns the result",
    "code_reasoning" := "Explain what this code does: const arr = [1,2,3]; const doubled = arr.map(x => x * 2); console.log(doubled);",
    "debugging" := "Find the bug in this code: function factorial(n) { if (n <= 1) return 1; return n * factorial(n); }",
    "algorithm" := "Write a function to find the maximum number in an array without using Math.max",
    "typescript" := "Create a TypeScript interface for a User with name (string), age (number), and optional email (string)"
  ]

  const ProgrammingKeywords: seq<string> := ["function", "return", "add", "number", "javascript", "{", "}"]
  const ReasoningKeywords: seq<string> := ["array", "map", "function", "doubled", "console", "log", "multiply"]
  const DebuggingKeywords: seq<string> := ["bug", "error", "factorial", "infinite", "recursion", "missing", "n-1"]
  const AlgorithmKeywords: seq<string> := ["function", "array", "maximum", "loop", "for", "if", "return"]
  const TypeScriptKeywords: seq<string> := ["interface", "user", "string", "number", "optional", "type"]
  const HistoryKeywords: seq<string> := ["bush", "clinton", "president", "2000", "george", "bill"]

  /** The prompt type and its text. */
  datatype Choice = Choice(promptType: string, prompt: string)

  /** A model whose lowercased name holds `deepseek-coder` gets one of the
      programming prompts; `pick` stands for the seeded `random.choice`. Any
      other model gets the general prompt. */
  function ChoosePrompt(modelName: string, pick: nat): (c: Choice)
    ensures c.promptType in TestPrompts && c.prompt == TestPrompts[c.promptType]
    ensures c.promptType in ProgrammingTypes <==> Contains(Lower(modelName), "deepseek-coder")
    ensures !Contains(Lower(modelName), "deepseek-coder") ==> c.promptType == General
  {
    if Contains(Lower(modelName), "deepseek-coder") then
      var t := ProgrammingTypes[pick % |ProgrammingTypes|];
      Choice(t, TestPrompts[t])
    else
      Choice(General, TestPrompts[General])
  }

  /** The keyword list and minimum count of a programming prompt type. */
  function Rule(promptType: string): (seq<string>, nat)
    requires promptType in ProgrammingTypes
  {
    if promptType == "programming" then (ProgrammingKeywords, 3)
    else if promptType == "code_reasoning" then (ReasoningKeywords, 2)
    else if promptType == "debugging" then (DebuggingKeywords, 2)
    else if promptType == "algorithm" then (AlgorithmKeywords, 3)
    else (TypeScriptKeywords, 3)
  }

  /** `_validate_response`: a programming reply needs more than 30 characters
      and its type's keyword count; any other reply more than 50 characters and
      two history keywords. */
  function ValidateResponse(response: string, promptType: string): (valid: bool)
    ensures promptType in ProgrammingTypes ==>
      (valid <==> |response| > 30 && |Matched(Lower(response), Rule(promptType).0)| >= Rule(promptType).1)
    ensures promptType !in ProgrammingTypes ==>
      (valid <==> |response| > 50 && |Matched(Lower(response), HistoryKeywords)| >= 2)
  {
    var lowered := Lower(response);
    KeywordListsDistinct();
    if promptType in ProgrammingTypes then
      var (keywords, minKeywords) := Rule(promptType);
      FoundCountsDistinct(lowered, keywords);
      |response| > 30 && Found(lowered, keywords) >= minKeywords
    else
      FoundCountsDistinct(lowered, HistoryKeywords);
      |response| > 50 && Found(lowered, HistoryKeywords) >= 2
  }

  lemma KeywordListsDistinct()
    ensures Distinct(ProgrammingKeywords) && Distinct(ReasoningKeywords) && Distinct(DebuggingKeywords)
    ensures Distinct(AlgorithmKeywords) && Distinct(TypeScriptKeywords) && Distinct(HistoryKeywords)
  {
  }

  /** The programming thresholds, counted as distinct keywords present. */
  lemma ProgrammingThresholds(response: string)
    ensures ValidateResponse(response, "programming") <==>
      |response| > 30 && |Matched(Lower(response), ProgrammingKeywords)| >= 3
    ensures ValidateResponse(response, "code_reasoning") <==>
      |response| > 30 && |Matched(Lower(response), ReasoningKeywords)| >= 2
    ensures ValidateResponse(response, "debugging") <==>
      |response| > 30 && |Matched(Lower(response), DebuggingKeywords)| >= 2
    ensures ValidateResponse(response, "algorithm") <==>
      |response| > 30 && |Matched(Lower(response), AlgorithmKeywords)| >= 3
    ensures ValidateResponse(response, "typescript") <==>
      |response| > 30 && |Matched(Lower(response), TypeScriptKeywords)| >= 3
  {
    KeywordListsDistinct();
    var lowered := Lower(response);
    FoundCountsDistinct(lowered, ProgrammingKeywords);
    FoundCountsDistinct(lowered, ReasoningKeywords);
    FoundCountsDistinct(lowered, DebuggingKeywords);
    FoundCountsDistinct(lowered, AlgorithmKeywords);
    FoundCountsDistinct(lowered, TypeScriptKeywords);
  }

  /** Every other prompt type, the general one included, is judged as history. */
  lemma OtherThreshold(response: string, promptType: string)
    requires promptType !in ProgrammingTypes
    ensures ValidateResponse(response, promptType) <==>
      |response| > 50 && |Matched(Lower(response), HistoryKeywords)| >= 2
  {
    KeywordListsDistinct();
    FoundCountsDistinct(Lower(response), HistoryKeywords);
  }

  /** Matching ignores case: replies equal up to ASCII case get the same verdict. */
  lemma ValidIgnoresCase(a: string, b: string, promptType: string)
    requires Lower(a) == Lower(b)
    ensures ValidateResponse(a, promptType) == ValidateResponse(b, promptType)
  {
    assert |a| == |Lower(a)| == |Lower(b)| == |b|;
  }

  /** The thresholds are lower bounds: a valid reply stays valid when extended. */
  lemma ValidExtends(a: string, b: string, promptType: string)
    requires ValidateResponse(a, promptType)
    ensures ValidateResponse(a + b, promptType)
  {
    if promptType in ProgrammingTypes {
      ExtendedScore(a, b, Rule(promptType).0);
    } else {
      ExtendedScore(a, b, HistoryKeywords);
    }
  }

  /** The reply of Ollama's generate endpoint: the status code and the
      `response` field, if the JSON body has one. */
  datatype Reply = Reply(status: int, response: Option<string>)

  /** One `test_model` result; the duration is left out. */
  datatype ModelRun =
    | Success(model: string, response: string, isValid: bool, responseLength: nat, promptType: string)
    | Failure(model: string, error: string)

  /** `test_model`: `reply` is the outcome of the HTTP call, `Err` carrying the
      text of the exception. */
  function TestModel(modelName: string, pick: nat, reply: Result<Reply>): (r: ModelRun)
    ensures r.model == modelName
    ensures r.Success? <==> reply.Ok? && reply.value.status == 200
    ensures r.Success? ==>
      r.promptType == ChoosePrompt(modelName, pick).promptType &&
      r.response == reply.value.response.GetOr("") &&
      r.responseLength == |r.response| &&
      r.isValid == ValidateResponse(r.response, r.promptType)
    ensures reply.Err? ==> r == Failure(modelName, reply.error)
    ensures reply.Ok? && reply.value.status != 200 ==> r.error == "HTTP " + IntToString(reply.value.status)
  {
    var choice := ChoosePrompt(modelName, pick);
    match reply
    case Err(e) => Failure(modelName, e)
    case Ok(rep) =>
      if rep.status == 200 then
        var text := rep.response.GetOr("");
        Success(modelName, text, ValidateResponse(text, choice.promptType), |text|, choice.promptType)
      else
        Failure(modelName, "HTTP " + IntToString(rep.status))
  }

  /** A model that is not a deepseek coder is always judged on the general
      prompt, whatever the pick. */
  lemma NonCoderGetsGeneral(modelName: string, pick: nat, reply: Result<Reply>)
    requires !Contains(Lower(modelName), "deepseek-coder")
    requires reply.Ok? && reply.value.status == 200
    ensures TestModel(modelName, pick, reply).promptType == General
    ensures TestModel(modelName, pick, reply).isValid <==>
      |reply.value.response.GetOr("")| > 50 &&
      |Matched(Lower(reply.value.response.GetOr("")), HistoryKeywords)| >= 2
  {
    assert General !in ProgrammingTypes;
    OtherThreshold(reply.value.response.GetOr(""), General);
  }
}
