/** The test-generation helpers: the model tier table, the classification of
    existing test files into patterns, the choice of a pattern for a file to
    test, the reading of a mutation report, the assembly of the prompt and
    the cleaning of the text the model returns. What the regular expressions
    extract from a test file, the files themselves and the mutation report
    are inputs of the model. */
module TestGen {
  import opened Wrappers
  import opened Text
  import opened Seqs

  // ---------------------------------------------------------------- tiers

  const DefaultModel := "deepseek-coder:6.7b"

  const ModelTiers: map<string, string> := map[
    "fast" := "deepseek-coder:1.3b",
    "default" := "deepseek-coder:6.7b",
    "quality" := "deepseek-coder:33b",
    "context" := "llama3.1:70b",
    "behemoth" := "llama4-behemoth:288b",
    "scout" := "llama4-scout:17b",
    "maverick" := "llama4-maverick:17b"]

  /** The model used for a tier; an unknown tier gets the default tier's model. */
  function ModelForTier(tier: string): (m: string)
    ensures tier in ModelTiers ==> m == ModelTiers[tier]
    ensures tier !in ModelTiers ==> m == ModelTiers["default"]
    ensures m in ModelTiers.Values
  {
    if tier in ModelTiers then ModelTiers[tier] else DefaultModel
  }

  // ---------------------------------------------------------------- patterns

  /** What the regular expressions find in a test file. */
  datatype Extracted = Extracted(imports: seq<string>, setupCode: string, testStructure: string, mockingPatterns: seq<string>)

  datatype TestPattern = TestPattern(
    patternType: string,
    filePath: string,
    imports: seq<string>,
    setupCode: string,
    testStructure: string,
    mockingPatterns: seq<string>)

  /** A test file found on disk: its text, or the error reading it raised. */
  datatype TestFile = TestFile(path: string, content: Result<string>, extracted: Extracted)

  predicate IsReactTest(content: string) {
    Contains(content, "render(") && Contains(content, "@testing-library/react")
  }

  predicate IsUnitTest(content: string) {
    Contains(content, "describe(") && Contains(content, "it(")
  }

  /** The pattern type of a test file, the first rule that applies. */
  function PatternType(content: string): (t: string)
    ensures t in {"react_component", "unit_test", "simple_test", "unknown"}
  {
    if IsReactTest(content) then "react_component"
    else if IsUnitTest(content) then "unit_test"
    else if Contains(content, "test(") then "simple_test"
    else "unknown"
  }

  /** Each type holds exactly when its rule is the first that applies. */
  lemma PatternTypeRules(content: string)
    ensures PatternType(content) == "react_component" <==> IsReactTest(content)
    ensures PatternType(content) == "unit_test" <==> !IsReactTest(content) && IsUnitTest(content)
    ensures PatternType(content) == "simple_test" <==>
      !IsReactTest(content) && !IsUnitTest(content) && Contains(content, "test(")
    ensures PatternType(content) == "unknown" <==>
      !IsReactTest(content) && !IsUnitTest(content) && !Contains(content, "test(")
  {
  }

  /** `_extract_pattern`: every readable test file yields a pattern. */
  function ExtractPattern(path: string, content: string, x: Extracted): (p: TestPattern)
    ensures p.filePath == path && p.patternType == PatternType(content)
  {
    TestPattern(PatternType(content), path, x.imports, x.setupCode, x.testStructure, x.mockingPatterns)
  }

  /** The patterns of the readable files, in the order of the files. */
  function PatternsOf(files: seq<TestFile>): (ps: seq<TestPattern>)
    ensures |ps| <= |files|
  {
    if files == [] then []
    else
      var f := files[|files| - 1];
      PatternsOf(files[..|files| - 1])
        + if f.content.Ok? then [ExtractPattern(f.path, f.content.value, f.extracted)] else []
  }

  predicate Readable(f: TestFile) {
    f.content.Ok?
  }

  /** `path` is the path of some readable file of `files`. */
  predicate NamesReadable(files: seq<TestFile>, path: string) {
    exists j :: 0 <= j < |files| && Readable(files[j]) && files[j].path == path
  }

  /** One pattern per readable file, each naming a readable file. */
  lemma PatternsOfFiles(files: seq<TestFile>)
    ensures |PatternsOf(files)| == CountWhere(files, Readable)
    ensures forall k :: 0 <= k < |PatternsOf(files)| ==> NamesReadable(files, PatternsOf(files)[k].filePath)
  {
    PatternCount(files);
    forall k | 0 <= k < |PatternsOf(files)|
      ensures NamesReadable(files, PatternsOf(files)[k].filePath)
    {
      var j := PatternSource(files, k);
      assert 0 <= j < |files| && Readable(files[j]) && files[j].path == PatternsOf(files)[k].filePath;
    }
  }

  lemma {:induction false} PatternCount(files: seq<TestFile>)
    ensures |PatternsOf(files)| == CountWhere(files, Readable)
  {
    if files != [] {
      var init := files[..|files| - 1];
      var f := files[|files| - 1];
      PatternCount(init);
      assert files == init + [f];
      CountAppend(init, [f], Readable);
      assert CountWhere([f], Readable) == if Readable(f) then 1 else 0 by {
        assert [f][1..] == [];
      }
      var last := if f.content.Ok? then [ExtractPattern(f.path, f.content.value, f.extracted)] else [];
      assert PatternsOf(files) == PatternsOf(init) + last;
    }
  }

  /** The readable file the `k`-th pattern was extracted from. */
  lemma {:induction false} PatternSource(files: seq<TestFile>, k: nat) returns (j: nat)
    requires k < |PatternsOf(files)|
    ensures j < |files| && files[j].content.Ok? && files[j].path == PatternsOf(files)[k].filePath
  {
    var init := files[..|files| - 1];
    var f := files[|files| - 1];
    var last := if f.content.Ok? then [ExtractPattern(f.path, f.content.value, f.extracted)] else [];
    assert PatternsOf(files) == PatternsOf(init) + last;
    if k < |PatternsOf(init)| {
      j := PatternSource(init, k);
      assert files[j] == init[j];
    } else {
      j := |files| - 1;
    }
  }

  /** The first pattern of a type, Python's `[p for p in ps if ...][0]`. */
  function FirstOfType(ps: seq<TestPattern>, t: string): (r: Option<TestPattern>)
    ensures r.None? <==> forall k :: 0 <= k < |ps| ==> ps[k].patternType != t
    ensures r.Some? ==> IsFirstOfType(ps, t, r.value)
  {
    if ps == [] then None
    else if ps[0].patternType == t then Some(ps[0])
    else
      var r := FirstOfType(ps[1..], t);
      if r.Some? then
        var k :| 0 <= k < |ps[1..]| && ps[1..][k] == r.value && forall j :: 0 <= j < k ==> ps[1..][j].patternType != t;
        assert ps[k + 1] == r.value;
        r
      else r
  }

  // ---------------------------------------------------------------- mutation report

  datatype Mutant = Mutant(status: Option<string>, line: Option<int>, mutatorName: Option<string>)

  /** The entry of one file in the report; `mutationScore` is the score as
      the report prints it. */
  datatype FileReport = FileReport(mutationScore: Option<string>, mutants: Option<seq<Mutant>>)

  datatype MutationResult = MutationResult(
    filePath: string,
    mutationScore: string,
    killedMutants: nat,
    survivedMutants: nat,
    weakSpots: seq<string>)

  predicate Killed(m: Mutant) {
    m.status == Some("Killed")
  }

  predicate Survived(m: Mutant) {
    m.status == Some("Survived")
  }

  function WeakSpot(m: Mutant): string {
    "Line " + (if m.line.Some? then IntToString(m.line.value) else "unknown") + ": " + m.mutatorName.GetOr("unknown")
  }

  /** The weak spots of survived mutants, in report order. */
  function WeakSpots(ms: seq<Mutant>): seq<string> {
    if ms == [] then []
    else WeakSpots(ms[..|ms| - 1]) + if Survived(ms[|ms| - 1]) then [WeakSpot(ms[|ms| - 1])] else []
  }

  /** `s` is the weak spot of some survived mutant of `ms`. */
  predicate NamesSurvivor(ms: seq<Mutant>, s: string) {
    exists j :: 0 <= j < |ms| && Survived(ms[j]) && s == WeakSpot(ms[j])
  }

  /** There is one weak spot per survived mutant, and each names one. */
  lemma WeakSpotsOfSurvivors(ms: seq<Mutant>)
    ensures |WeakSpots(ms)| == CountWhere(ms, Survived)
    ensures forall k :: 0 <= k < |WeakSpots(ms)| ==> NamesSurvivor(ms, WeakSpots(ms)[k])
  {
    WeakSpotCount(ms);
    forall k | 0 <= k < |WeakSpots(ms)|
      ensures NamesSurvivor(ms, WeakSpots(ms)[k])
    {
      var j := WeakSpotSource(ms, k);
      assert 0 <= j < |ms| && Survived(ms[j]) && WeakSpots(ms)[k] == WeakSpot(ms[j]);
    }
  }

  lemma {:induction false} WeakSpotCount(ms: seq<Mutant>)
    ensures |WeakSpots(ms)| == CountWhere(ms, Survived)
  {
    if ms != [] {
      var init := ms[..|ms| - 1];
      var m := ms[|ms| - 1];
      WeakSpotCount(init);
      assert ms == init + [m];
      CountAppend(init, [m], Survived);
      assert CountWhere([m], Survived) == if Survived(m) then 1 else 0 by {
        assert [m][1..] == [];
      }
      assert WeakSpots(ms) == WeakSpots(init) + if Survived(m) then [WeakSpot(m)] else [];
    }
  }

  /** The survived mutant the `k`-th weak spot describes. */
  lemma {:induction false} WeakSpotSource(ms: seq<Mutant>, k: nat) returns (j: nat)
    requires k < |WeakSpots(ms)|
    ensures j < |ms| && Survived(ms[j]) && WeakSpots(ms)[k] == WeakSpot(ms[j])
  {
    var init := ms[..|ms| - 1];
    var m := ms[|ms| - 1];
    assert WeakSpots(ms) == WeakSpots(init) + if Survived(m) then [WeakSpot(m)] else [];
    if k < |WeakSpots(init)| {
      j := WeakSpotSource(init, k);
      assert ms[j] == init[j];
    } else {
      j := |ms| - 1;
    }
  }

  /** A mutant is killed or survived, not both, so the two counts together
      never exceed the number of mutants. */
  lemma {:induction false} KilledAndSurvivedBound(ms: seq<Mutant>)
    ensures CountWhere(ms, Killed) + CountWhere(ms, Survived) <= |ms|
  {
    if ms != [] {
      KilledAndSurvivedBound(ms[1..]);
    }
  }

  function ReportMutants(report: map<string, FileReport>, filePath: string): seq<Mutant> {
    if filePath in report then report[filePath].mutants.GetOr([]) else []
  }

  /** `_parse_mutation_results` over the report's `files` table: a file the
      report does not mention has score 0 and no mutants. */
  method ParseMutationResults(filePath: string, report: map<string, FileReport>) returns (r: MutationResult)
    ensures var ms := ReportMutants(report, filePath);
      && r.filePath == filePath
      && r.killedMutants == CountWhere(ms, Killed)
      && r.survivedMutants == CountWhere(ms, Survived)
      && r.weakSpots == WeakSpots(ms)
    ensures r.mutationScore == if filePath in report then report[filePath].mutationScore.GetOr("0") else "0"
    ensures filePath !in report ==> r == MutationResult(filePath, "0", 0, 0, [])
  {
    var score := "0";
    var mutants: seq<Mutant> := [];
    if filePath in report {
      score := report[filePath].mutationScore.GetOr("0");
      mutants := report[filePath].mutants.GetOr([]);
    }
    var killed := CountWhere(mutants, Killed);
    var survived := CountWhere(mutants, Survived);
    var weakSpots: seq<string> := [];
    var i := 0;
    while i < |mutants|
      invariant 0 <= i <= |mutants|
      invariant weakSpots == WeakSpots(mutants[..i])
    {
      assert mutants[..i + 1][..i] == mutants[..i];
      if Survived(mutants[i]) {
        weakSpots := weakSpots + [WeakSpot(mutants[i])];
      }
      i := i + 1;
    }
    assert mutants[..|mutants|] == mutants;
    r := MutationResult(filePath, score, killed, survived, weakSpots);
  }

  // ---------------------------------------------------------------- prompt

  const Instruction := "\nGenerate comprehensive Vitest tests for this TypeScript/React file following the project's established patterns.\n\nFILE TO TEST: "

  function FileIntro(filePath: string): string {
    Instruction + filePath + "\n```typescript\n"
  }

  const CodeClose := "...\n```\n\nPROJECT PATTERNS TO FOLLOW:\n"

  /** The opening of every prompt: the path and the first 2000 characters of
      the file. */
  function PromptHead(filePath: string, content: string): string {
    FileIntro(filePath) + Take(content, 2000) + CodeClose
  }

  const PatternMarker := "\n- Pattern Type: "

  function PatternDetails(p: TestPattern): string {
    "\n- Common Imports: " + JoinOn(Take(p.imports, 3), ", ")
      + "\n- Setup Pattern: " + Take(p.setupCode, 200)
      + "\n- Test Structure: " + Take(p.testStructure, 200)
      + "\n- Mocking Patterns: " + JoinOn(Take(p.mockingPatterns, 2), ", ") + "\n"
  }

  function PatternSection(p: TestPattern): string {
    PatternMarker + p.patternType + PatternDetails(p)
  }

  const MutationMarker := "\n\nMUTATION TESTING INSIGHTS:\n- Current Mutation Score: "

  function MutationDetails(m: MutationResult): string {
    "%\n- Weak Spots to Target: " + JoinOn(Take(m.weakSpots, 3), ", ")
      + "\n- Focus on improving test coverage for survived mutants\n"
  }

  function MutationSection(m: MutationResult): string {
    MutationMarker + m.mutationScore + MutationDetails(m)
  }

  const PromptRequirements := "\n\nREQUIREMENTS:\n1. Follow the existing project patterns shown above\n"
    + "2. Use Vitest syntax (describe, it, expect, vi.mock)\n3. Include proper TypeScript types\n"
    + "4. Mock external dependencies appropriately\n5. Test edge cases and error conditions\n"
    + "6. Ensure tests are deterministic and reliable\n"
    + "7. Focus on areas identified by mutation testing (if provided)\n\n"
    + "GENERATE: Complete test file with imports, setup, and comprehensive test cases.\n"

  function PatternPart(pattern: Option<TestPattern>): string {
    if pattern.Some? then PatternSection(pattern.value) else ""
  }

  function MutationPart(mutation: Option<MutationResult>): string {
    if mutation.Some? then MutationSection(mutation.value) else ""
  }

  /** What a prompt for a file, a chosen pattern and a mutation report holds:
      it opens with the file head, ends with the requirements and holds the
      first 2000 characters of the file; it holds the pattern section, with
      its marker and type, when a pattern is given, and the mutation section,
      with its marker and score, when a report is given; and its length is
      exactly that of the given parts together. */
  ghost predicate PromptFor(prompt: string, filePath: string, content: string,
                            pattern: Option<TestPattern>, mutation: Option<MutationResult>) {
    && StartsWith(prompt, PromptHead(filePath, content))
    && EndsWith(prompt, PromptRequirements)
    && Contains(prompt, Take(content, 2000))
    && (pattern.Some? ==> Contains(prompt, PatternMarker + pattern.value.patternType))
    && (pattern.Some? ==> Contains(prompt, PatternSection(pattern.value)))
    && (mutation.Some? ==> Contains(prompt, MutationMarker + mutation.value.mutationScore))
    && (mutation.Some? ==> Contains(prompt, MutationSection(mutation.value)))
    && |prompt| == |PromptHead(filePath, content)| + |PromptRequirements|
      + (if pattern.Some? then |PatternSection(pattern.value)| else 0)
      + (if mutation.Some? then |MutationSection(mutation.value)| else 0)
  }

  /** `generate_smart_prompt` once the relevant pattern is chosen. */
  function SmartPrompt(filePath: string, content: string, pattern: Option<TestPattern>, mutation: Option<MutationResult>): (prompt: string)
    ensures PromptFor(prompt, filePath, content, pattern, mutation)
  {
    var head := PromptHead(filePath, content);
    PromptParts(FileIntro(filePath), Take(content, 2000), CodeClose, PatternPart(pattern), MutationPart(mutation), PromptRequirements);
    PartLengths(pattern, mutation);
    PatternInPrompt(head, pattern, MutationPart(mutation), PromptRequirements);
    MutationInPrompt(head, PatternPart(pattern), mutation, PromptRequirements);
    head + PatternPart(pattern) + MutationPart(mutation) + PromptRequirements
  }

  /** The shape of a prompt assembled from its parts. */
  lemma PromptParts(intro: string, code: string, close: string, ps: string, ms: string, req: string)
    ensures var prompt := intro + code + close + ps + ms + req;
      && StartsWith(prompt, intro + code + close)
      && EndsWith(prompt, req)
      && Contains(prompt, code)
      && |prompt| == |intro + code + close| + |req| + |ps| + |ms|
  {
    var prompt := intro + code + close + ps + ms + req;
    assert prompt == intro + code + (close + ps + ms + req);
    ContainsInfix(intro, code, close + ps + ms + req);
    assert prompt[..|intro + code + close|] == intro + code + close;
    assert prompt[|prompt| - |req|..] == req;
  }

  /** A section that opens with a marker puts the marker in the prompt. */
  lemma MarkerInSecond(head: string, mark: string, rest: string, x: string, y: string)
    ensures Contains(head + (mark + rest) + x + y, mark)
  {
    assert head + (mark + rest) + x + y == head + mark + (rest + x + y);
    ContainsInfix(head, mark, rest + x + y);
  }

  lemma MarkerInThird(head: string, x: string, mark: string, rest: string, y: string)
    ensures Contains(head + x + (mark + rest) + y, mark)
  {
    assert head + x + (mark + rest) + y == (head + x) + mark + (rest + y);
    ContainsInfix(head + x, mark, rest + y);
  }

  lemma PatternInPrompt(head: string, pattern: Option<TestPattern>, ms: string, req: string)
    ensures pattern.Some? ==> Contains(head + PatternPart(pattern) + ms + req, PatternMarker + pattern.value.patternType)
    ensures pattern.Some? ==> Contains(head + PatternPart(pattern) + ms + req, PatternSection(pattern.value))
  {
    if pattern.Some? {
      MarkerInSecond(head, PatternMarker + pattern.value.patternType, PatternDetails(pattern.value), ms, req);
      assert head + PatternPart(pattern) + ms + req == head + PatternSection(pattern.value) + (ms + req);
      ContainsInfix(head, PatternSection(pattern.value), ms + req);
    }
  }

  lemma MutationInPrompt(head: string, ps: string, mutation: Option<MutationResult>, req: string)
    ensures mutation.Some? ==> Contains(head + ps + MutationPart(mutation) + req, MutationMarker + mutation.value.mutationScore)
    ensures mutation.Some? ==> Contains(head + ps + MutationPart(mutation) + req, MutationSection(mutation.value))
  {
    if mutation.Some? {
      MarkerInThird(head, ps, MutationMarker + mutation.value.mutationScore, MutationDetails(mutation.value), req);
      ContainsInfix(head + ps, MutationSection(mutation.value), req);
    }
  }

  lemma PartLengths(pattern: Option<TestPattern>, mutation: Option<MutationResult>)
    ensures |PatternPart(pattern)| == if pattern.Some? then |PatternSection(pattern.value)| else 0
    ensures |MutationPart(mutation)| == if mutation.Some? then |MutationSection(mutation.value)| else 0
  {
  }

  // ---------------------------------------------------------------- cleaning

  const Fence := "```"
  const ImportNeedle := "import { describe, it, expect"
  const ImportTail := ", vi } from 'vitest';"
  const ImportStatement := ImportNeedle + ImportTail

  /** `re.sub(fence + "\n?", "", s)` for a fence of literal characters:
      each occurrence, scanning from the left, goes together with one
      newline right after it. */
  function RemoveFence(s: string, fence: string): string
    requires fence != []
    decreases |s|
  {
    if s == [] then []
    else if StartsWith(s, fence) then
      var rest := s[|fence|..];
      if rest != [] && rest[0] == '\n' then RemoveFence(rest[1..], fence) else RemoveFence(rest, fence)
    else [s[0]] + RemoveFence(s[1..], fence)
  }

  lemma KeepsPlainHead(t: string)
    requires t != [] && t[0] != '`'
    ensures RemoveFence(t, Fence) == [t[0]] + RemoveFence(t[1..], Fence)
  {
    assert !StartsWith(t, Fence) by { assert Fence[0] == '`'; }
  }

  /** Removing every code fence leaves no code fence. */
  lemma {:induction false} NoFenceLeft(s: string)
    ensures !Contains(RemoveFence(s, Fence), Fence)
    decreases |s|
  {
    if s == [] {
    } else if StartsWith(s, Fence) {
      var rest := s[|Fence|..];
      if rest != [] && rest[0] == '\n' {
        NoFenceLeft(rest[1..]);
      } else {
        NoFenceLeft(rest);
      }
    } else {
      var t := s[1..];
      var rt := RemoveFence(t, Fence);
      var x := RemoveFence(s, Fence);
      assert x == [s[0]] + rt;
      NoFenceLeft(t);
      forall i | 0 <= i <= |x|
        ensures !OccursAt(x, Fence, i)
      {
        if i >= 1 {
          assert OccursAt(x, Fence, i) == OccursAt(rt, Fence, i - 1);
        } else if s[0] != '`' {
          assert x[0] != '`';
        } else if t == [] {
          assert |x| == 1;
        } else if t[0] != '`' {
          KeepsPlainHead(t);
          assert x[1] == t[0];
        } else if |t| == 1 {
          KeepsPlainHead2(t);
          assert |x| == 2;
        } else {
          assert s[..3] != Fence;
          assert s[2] != '`';
          KeepsPlainHead2(t);
          KeepsPlainHead(t[1..]);
          assert x[2] == t[1];
        }
      }
    }
  }

  /** A text opening with a lone backtick keeps it. */
  lemma KeepsPlainHead2(t: string)
    requires t != [] && t[0] == '`' && (|t| == 1 || t[1] != '`')
    ensures RemoveFence(t, Fence) == [t[0]] + RemoveFence(t[1..], Fence)
  {
    assert !StartsWith(t, Fence) by {
      if |t| >= 3 {
        assert t[..3][1] == t[1] != Fence[1];
      }
    }
  }

  /** A plain prefix brings in no code fence. */
  lemma NoFenceAfterPlain(p: string, t: string)
    requires '`' !in p && !Contains(t, Fence)
    ensures !Contains(p + t, Fence)
  {
    var x := p + t;
    forall i | 0 <= i <= |x|
      ensures !OccursAt(x, Fence, i)
    {
      if i < |p| {
        assert x[i] == p[i];
      } else {
        assert OccursAt(x, Fence, i) == OccursAt(t, Fence, i - |p|);
      }
    }
  }

  const TypeScriptFence := "```typescript"

  /** The raw reply with both kinds of code fence removed, and no fence left. */
  function Unfenced(raw: string): (t: string)
    ensures !Contains(t, Fence)
  {
    NoFenceLeft(RemoveFence(raw, TypeScriptFence));
    RemoveFence(RemoveFence(raw, TypeScriptFence), Fence)
  }

  /** What cleaning a fence-free reply `t` promises of its result `r`: it
      imports the test functions, holds no code fence and no surrounding white
      space, opens with the import statement when `t` lacked it, and contains
      `t` stripped. */
  ghost predicate CleanedFrom(r: string, t: string) {
    && Contains(r, ImportNeedle) && !Contains(r, Fence)
    && r != [] && !IsSpace(r[0]) && !IsSpace(r[|r| - 1])
    && (!Contains(t, ImportNeedle) ==> StartsWith(r, ImportStatement))
    && Contains(r, Strip(t))
  }

  /** `_clean_generated_test`: the reply without its fences, cleaned. */
  function CleanGeneratedTest(raw: string): (r: string)
    ensures CleanedFrom(r, Unfenced(raw))
  {
    var t := Unfenced(raw);
    CleanedShape(t);
    Strip(WithImport(t))
  }

  /** The text with the import line put in front when it lacks the needle. */
  function WithImport(t: string): string {
    if Contains(t, ImportNeedle) then t else ImportStatement + "\n" + t
  }

  /** The stripped reply survives the cleaning: adding the import line in
      front and stripping again keep it. */
  lemma KeepsReply(t: string)
    ensures Contains(Strip(WithImport(t)), Strip(t))
  {
    var u := WithImport(t);
    if Strip(t) == [] {
      ContainsAt(Strip(u), [], 0);
    } else {
      var d := StripIsSlice(t);
      ContainsAt(t, Strip(t), d);
      if !Contains(t, ImportNeedle) {
        ContainsRight(ImportStatement + "\n", t, Strip(t));
      }
      StripKeepsContains(u, Strip(t));
    }
  }

  /** Fence removal leaves a text alone that lacks the fence's first character. */
  lemma {:induction false} RemoveFenceWithout(s: string, fence: string)
    requires fence != [] && fence[0] !in s
    ensures RemoveFence(s, fence) == s
    decreases |s|
  {
    if s != [] {
      assert !StartsWith(s, fence) by {
        if |fence| <= |s| {
          assert s[..|fence|][0] == s[0];
        }
      }
      assert s[0] in s;
      assert forall c :: c in s[1..] ==> c in s;
      RemoveFenceWithout(s[1..], fence);
      assert s == [s[0]] + s[1..];
    }
  }

  /** A reply without backticks keeps its text: it loses no fence, and when it
      already imports the test functions, cleaning only strips it. */
  lemma PlainReplyKept(raw: string)
    requires '`' !in raw
    ensures Unfenced(raw) == raw
    ensures Contains(raw, ImportNeedle) ==> CleanGeneratedTest(raw) == Strip(raw)
  {
    RemoveFenceWithout(raw, TypeScriptFence);
    RemoveFenceWithout(raw, Fence);
  }

  /** Cleaning a fence-free text: the import goes in front when it is missing,
      then the ends are stripped. */
  lemma CleanedShape(t: string)
    requires !Contains(t, Fence)
    ensures CleanedFrom(Strip(WithImport(t)), t)
  {
    KeepsReply(t);
    ImportStatementFacts();
    if Contains(t, ImportNeedle) {
      CleanedText(t, ImportStatement, ImportNeedle);
    } else {
      Prefixed(ImportStatement, ImportNeedle, t);
      CleanedText(ImportStatement + "\n" + t, ImportStatement, ImportNeedle);
    }
  }

  /** The import statement is free of backticks, opens with the needle, and
      neither it nor the needle has white space at its ends. */
  lemma ImportStatementFacts()
    ensures '`' !in ImportStatement + "\n"
    ensures StartsWith(ImportStatement + "\n", ImportNeedle)
    ensures ImportStatement != [] && !IsSpace(ImportStatement[0]) && !IsSpace(ImportStatement[|ImportStatement| - 1])
    ensures ImportNeedle != [] && !IsSpace(ImportNeedle[0]) && !IsSpace(ImportNeedle[|ImportNeedle| - 1])
  {
    NoBacktickInImport();
    assert (ImportStatement + "\n")[..|ImportNeedle|] == ImportNeedle;
  }

  lemma NoBacktickInImport()
    ensures '`' !in ImportStatement
  {
    assert '`' !in ImportNeedle;
    assert '`' !in ImportTail;
  }

  /** Stripping a text that holds the needle and no fence keeps both facts,
      and keeps a prefix without white space at its ends. */
  lemma CleanedText(u: string, stmt: string, needle: string)
    requires Contains(u, needle) && !Contains(u, Fence)
    requires needle != [] && !IsSpace(needle[0]) && !IsSpace(needle[|needle| - 1])
    ensures var r := Strip(u);
      Contains(r, needle) && !Contains(r, Fence) && r != [] && !IsSpace(r[0]) && !IsSpace(r[|r| - 1])
  {
    StripKeepsContains(u, needle);
    StripContainsOnly(u, Fence);
    var i :| 0 <= i <= |Strip(u)| && OccursAt(Strip(u), needle, i);
    assert Strip(u)[i] == needle[0];
  }

  /** Adding the import line in front of a fence-free text. */
  lemma Prefixed(stmt: string, needle: string, t: string)
    requires '`' !in stmt + "\n" && StartsWith(stmt + "\n", needle)
    requires stmt != [] && !IsSpace(stmt[0]) && !IsSpace(stmt[|stmt| - 1])
    requires !Contains(t, Fence)
    ensures var u := stmt + "\n" + t;
      Contains(u, needle) && !Contains(u, Fence) && StartsWith(Strip(u), stmt)
  {
    var line := stmt + "\n";
    NoFenceAfterPlain(line, t);
    StartsWithContains(line, needle);
    ContainsLeft(line, t, needle);
    assert line + t == stmt + ("\n" + t);
    StripKeepsPrefix(stmt, "\n" + t);
    StripRightKeepsPrefix(stmt, "\n" + t);
  }

  // ---------------------------------------------------------------- generator

  class SmartTestGenerator {
    const model: string
    var testPatterns: seq<TestPattern>

    constructor (modelTier: string)
      ensures model == ModelForTier(modelTier) && testPatterns == []
    {
      model := ModelForTier(modelTier);
      testPatterns := [];
    }

    /** `analyze_existing_patterns`: a pattern for each test file that could
        be read, an unreadable one being skipped. */
    method AnalyzeExistingPatterns(files: seq<TestFile>) returns (patterns: seq<TestPattern>)
      modifies this
      ensures patterns == PatternsOf(files) && testPatterns == patterns
    {
      patterns := [];
      var i := 0;
      while i < |files|
        invariant 0 <= i <= |files|
        invariant patterns == PatternsOf(files[..i])
      {
        assert files[..i + 1][..i] == files[..i];
        var f := files[i];
        if f.content.Ok? {
          patterns := patterns + [ExtractPattern(f.path, f.content.value, f.extracted)];
        }
        i := i + 1;
      }
      assert files[..|files|] == files;
      testPatterns := patterns;
    }

    /** `_find_relevant_pattern`: a React component looks for a component
        pattern, another TypeScript module for a unit-test pattern, and
        anything else takes the first pattern. */
    function FindRelevantPattern(filePath: string, content: string): (r: Option<TestPattern>)
      reads this
      ensures testPatterns == [] ==> r.None?
      ensures r.Some? ==> r.value in testPatterns
      ensures testPatterns != [] && IsComponentFile(filePath, content) ==>
        && (r.None? <==> forall k :: 0 <= k < |testPatterns| ==> testPatterns[k].patternType != "react_component")
        && (r.Some? ==> IsFirstOfType(testPatterns, "react_component", r.value))
      ensures testPatterns != [] && IsUtilityFile(filePath, content) ==>
        && (r.None? <==> forall k :: 0 <= k < |testPatterns| ==> testPatterns[k].patternType != "unit_test")
        && (r.Some? ==> IsFirstOfType(testPatterns, "unit_test", r.value))
      ensures testPatterns != [] && !IsComponentFile(filePath, content) && !IsUtilityFile(filePath, content) ==>
        r == Some(testPatterns[0])
    {
      if testPatterns == [] then None
      else if IsComponentFile(filePath, content) then
        FirstOfType(testPatterns, "react_component")
      else if IsUtilityFile(filePath, content) then
        FirstOfType(testPatterns, "unit_test")
      else Some(testPatterns[0])
    }

    /** `generate_smart_prompt`: the prompt around the file head, with the
        section of the relevant pattern when there is one. */
    function GenerateSmartPrompt(filePath: string, content: string, mutation: Option<MutationResult>): (prompt: string)
      reads this
      ensures PromptFor(prompt, filePath, content, FindRelevantPattern(filePath, content), mutation)
    {
      var pattern := FindRelevantPattern(filePath, content);
      SmartPrompt(filePath, content, pattern, mutation)
    }
  }

  /** A `.tsx` file that exports a default or holds a function is taken for a React component. */
  predicate IsComponentFile(filePath: string, content: string) {
    Contains(filePath, ".tsx") && (Contains(content, "export default") || Contains(content, "function"))
  }

  /** A TypeScript module that is not a React component but exports something. */
  predicate IsUtilityFile(filePath: string, content: string) {
    !IsComponentFile(filePath, content) && Contains(filePath, ".ts") && Contains(content, "export")
  }

  /** `p` is the pattern at the first position whose type is `t`. */
  predicate IsFirstOfType(ps: seq<TestPattern>, t: string, p: TestPattern) {
    p.patternType == t && exists k :: 0 <= k < |ps| && ps[k] == p && forall j :: 0 <= j < k ==> ps[j].patternType != t
  }

  /** A `.tsx` path contains `.ts`, so a file that is not a React component
      with an export still looks for a unit-test pattern. */
  lemma TsxIsTs(filePath: string)
    requires Contains(filePath, ".tsx")
    ensures Contains(filePath, ".ts")
  {
    var i :| 0 <= i <= |filePath| && OccursAt(filePath, ".tsx", i);
    assert filePath[i..i + 4] == ".tsx";
    assert filePath[i..i + 3] == filePath[i..i + 4][..3] == ".ts";
    ContainsAt(filePath, ".ts", i);
  }
}
