/** Worked examples and cross-rule facts about the error classifier. */
module ErrorExamples {
  import opened Wrappers
  import opened Text
  import opened Patterns
  import opened ErrorRouting

  /** A TypeScript compiler code in an application entry file: TYPESCRIPT,
      CRITICAL, and the critical-file boost on top of the TypeScript multiplier. */
  lemma TypeScriptCodeExample()
    ensures var ctx := ErrorContext("src/app.ts", None, None, None, None, None);
      ClassifyError("TS2345: bad", ctx) == (TypeScript, Critical)
      && PriorityScore(TypeScript, Critical, ctx) == 12.96
  {
    var ctx := ErrorContext("src/app.ts", None, None, None, None, None);
    var p := Lits("TS") + [Digits] + Lits(":");
    CompilerCodeFound();
    assert TypePatterns(TypeScript)[0] == p;
    assert SeverityPatterns(Critical)[4] == p;
    assert TypeMatches(TypeScript, "TS2345: bad");
    assert AnyMatches(SeverityPatterns(Critical), "TS2345: bad");
    AppFileIsTypeScript();
    AppFileIsCritical();
    assert ClassifyType("TS2345: bad", ctx) == TypeScript;
    assert ClassifySeverity("TS2345: bad") == Critical;
    assert PriorityScore(TypeScript, Critical, ctx) == 9.0 * 1.2 * 1.2;
  }

  lemma CompilerCodeFound()
    ensures Search(Lits("TS") + [Digits] + Lits(":"), "TS2345: bad")
  {
    var msg := "TS2345: bad";
    var p := Lits("TS") + [Digits] + Lits(":");
    assert p == Lits("TS") + ([Digits] + Lits(":"));
    MatchLits("TS", [Digits] + Lits(":"), msg);
    assert msg[..2] == "TS" && msg[2..] == "2345: bad";
    MatchLits(":", [], ": bad");
    assert Lits(":") + [] == Lits(":");
    assert Match([Digits] + Lits(":"), "5: bad");
    assert Match([Digits] + Lits(":"), "45: bad");
    assert Match([Digits] + Lits(":"), "345: bad");
    assert Match([Digits] + Lits(":"), "2345: bad");
  }

  lemma AppFileIsTypeScript()
    ensures IsTypeScriptFile("src/app.ts")
  {
    assert "src/app.ts" == "src/app" + ['.'] + "ts";
    ExtensionAfterLastDot("src/app", "ts");
    assert Lower("ts") == "ts";
  }

  lemma AppFileIsCritical()
    ensures IsCriticalPath("src/app.ts")
  {
    assert Lower("src/app.ts") == "src/app.ts";
    assert OccursAt(Lower("src/app.ts"), CriticalPaths[1], 0);
  }

  /** A message containing `SyntaxError: Unexpected token` is never routed to
      BUILD, whose table lists exactly that text: LINT's `Unexpected token`
      comes first in the scan. Unless a TypeScript, React or test pattern also
      matches, it is LINT; in every case it is CRITICAL. */
  lemma SyntaxErrorIsLint(msg: string, ctx: ErrorContext)
    requires ContainsIgnoreCase(msg, "SyntaxError: Unexpected token")
    ensures ClassifyType(msg, ctx) in {TypeScript, React, Test, Lint}
    ensures !TypeMatches(TypeScript, msg) && !TypeMatches(React, msg) && !TypeMatches(Test, msg) ==>
      ClassifyType(msg, ctx) == Lint
    ensures ClassifySeverity(msg) == Critical
  {
    var i :| 0 <= i <= |Lower(msg)| && OccursAt(Lower(msg), Lower("SyntaxError: Unexpected token"), i);
    SyntaxErrorParts(msg, i);
    LintEvidence(msg);
    CriticalEvidence(msg);
    ClassifyUpToLint(msg, ctx);
  }

  lemma SyntaxErrorParts(msg: string, i: int)
    requires OccursAt(Lower(msg), Lower("SyntaxError: Unexpected token"), i)
    ensures ContainsIgnoreCase(msg, "SyntaxError") && ContainsIgnoreCase(msg, "Unexpected token")
  {
    assert "SyntaxError: Unexpected token" == "SyntaxError" + ": Unexpected token";
    LowerAppend("SyntaxError", ": Unexpected token");
    OccursParts(Lower(msg), Lower("SyntaxError"), Lower(": Unexpected token"), i);
    ContainsAt(Lower(msg), Lower("SyntaxError"), i);
    UnexpectedTokenPart(msg, i);
  }

  lemma UnexpectedTokenPart(msg: string, i: int)
    requires OccursAt(Lower(msg), Lower("SyntaxError: Unexpected token"), i)
    ensures ContainsIgnoreCase(msg, "Unexpected token")
  {
    assert "SyntaxError: Unexpected token" == "SyntaxError: " + "Unexpected token";
    LowerAppend("SyntaxError: ", "Unexpected token");
    OccursParts(Lower(msg), Lower("SyntaxError: "), Lower("Unexpected token"), i);
    ContainsAt(Lower(msg), Lower("Unexpected token"), i + 13);
  }

  lemma LintEvidence(msg: string)
    requires ContainsIgnoreCase(msg, "Unexpected token")
    ensures TypeMatches(Lint, msg)
  {
    SearchLiteral("Unexpected token", msg);
    assert TypePatterns(Lint)[4] == Lits("Unexpected token");
  }

  lemma CriticalEvidence(msg: string)
    requires ContainsIgnoreCase(msg, "SyntaxError")
    ensures AnyMatches(SeverityPatterns(Critical), msg)
  {
    SearchLiteral("SyntaxError", msg);
    assert SeverityPatterns(Critical)[2] == Lits("SyntaxError");
  }
}
