/** AIDetector: line-by-line pattern tables that flag code which looks
    AI-generated (indicators) and risky or unfinished constructs in it
    (AI-001 and AI-002 violations). Unlike SecurityRuleEngine, every matching
    pattern reports: there is no early exit. */
module AiDetector {
  import opened Wrappers
  import opened Text
  import opened Models
  import opened Collections
  import SecurityScan

  const CopilotIndicators: seq<Pattern> := [
    Pattern("# This is a\\s+", "Copilot starter comment pattern"),
    Pattern("# TODO: Implement", "Generic TODO comment pattern"),
    Pattern("# Replace with your", "Placeholder pattern"),
    Pattern("# Add your logic here", "Generic implementation placeholder"),
    Pattern("pass\\s*#\\s*TODO", "Incomplete stub with TODO")
  ]

  const AiRiskPatterns: seq<Pattern> := [
    Pattern("@app\\.route.*\\n\\s+def\\s+\\w+\\(\\):\\s*\\n\\s+return", "Oversimplified route handler"),
    Pattern("except\\s*:\\s*pass", "Bare except without handling"),
    Pattern("except\\s+Exception\\s*:\\s*pass", "Generic exception suppression"),
    Pattern("if\\s+\\w+:\\s*pass\\s*else:", "Empty if branch"),
    Pattern("# type:\\s*ignore", "Type checking ignored"),
    Pattern("# noqa", "Linting warning suppressed")
  ]

  const IncompletePatterns: seq<Pattern> := [
    Pattern("def\\s+\\w+\\([^)]*\\):\\s*pass\\s*$", "Empty function stub"),
    Pattern("raise\\s+NotImplementedError", "Unimplemented required method"),
    Pattern("def\\s+\\w+\\([^)]*\\):\\s*\\.\\.\\.\\s*$", "Ellipsis placeholder function"),
    Pattern("TODO.*CRITICAL", "Critical unfinished work")
  ]

  /** One `(indicator_type, line_number, stripped line)` tuple. */
  datatype Indicator = Indicator(indicatorType: string, lineNumber: int, line: string)

  /** What one indicator pattern adds for one line. */
  function IndicatorHit(lineNumber: int, line: string, search: Search, p: Pattern): seq<Indicator>
  {
    if search(p.regex, line) then [Indicator(p.message, lineNumber, Strip(line))] else []
  }

  function IndicatorHits(lineNumber: int, line: string, search: Search): Pattern -> seq<Indicator>
  {
    (p: Pattern) => IndicatorHit(lineNumber, line, search, p)
  }

  /** What the inner loop of `detect_ai_indicators` adds for one line. */
  function LineIndicator(indicators: seq<Pattern>, search: Search, l: (int, string)): seq<Indicator>
  {
    ConcatMap(indicators, IndicatorHits(l.0, l.1, search))
  }

  function LineIndicators(indicators: seq<Pattern>, search: Search): ((int, string)) -> seq<Indicator>
  {
    (l: (int, string)) => LineIndicator(indicators, search, l)
  }

  /** What `detect_ai_indicators` returns for the lines of its code, with
      the indicator table `indicators`. */
  function IndicatorsSpec(indicators: seq<Pattern>, lines: seq<string>, search: Search): seq<Indicator>
  {
    ConcatMap(NumberedLines(lines), LineIndicators(indicators, search))
  }

  /** `detect_ai_indicators`. */
  method DetectAiIndicators(code: string, filePath: string, search: Search) returns (found: seq<Indicator>)
    ensures found == IndicatorsSpec(CopilotIndicators, Split(code, '\n'), search)
  {
    found := DetectIndicatorsWith(CopilotIndicators, code, search);
  }

  /** The two loops of `detect_ai_indicators` over the table `indicators`:
      every line, comments included, against every pattern. */
  method DetectIndicatorsWith(indicators: seq<Pattern>, code: string, search: Search) returns (found: seq<Indicator>)
    ensures found == IndicatorsSpec(indicators, Split(code, '\n'), search)
  {
    var lines := Split(code, '\n');
    ghost var numbered := NumberedLines(lines);
    ghost var perLine := LineIndicators(indicators, search);
    found := [];
    var n := 0;
    while n < |lines|
      invariant 0 <= n <= |lines|
      invariant found == ConcatMap(numbered[..n], perLine)
    {
      var line := lines[n];
      ghost var before := found;
      ghost var hits := IndicatorHits(n + 1, line, search);
      var j := 0;
      while j < |indicators|
        invariant 0 <= j <= |indicators|
        invariant found == before + ConcatMap(indicators[..j], hits)
      {
        ConcatMapStep(indicators, hits, j);
        if search(indicators[j].regex, line) {
          found := found + [Indicator(indicators[j].message, n + 1, Strip(line))];
        }
        j := j + 1;
      }
      assert indicators[..j] == indicators;
      assert numbered[n] == (n + 1, line);
      ConcatMapStep(numbered, perLine, n);
      n := n + 1;
    }
    assert numbered[..n] == numbered;
  }

  /** One tuple per line and matching indicator, comment lines included,
      with the line's 1-based number, the indicator's label and the
      stripped line. */
  lemma IndicatorsMembership(indicators: seq<Pattern>, lines: seq<string>, search: Search, x: Indicator)
    ensures x in IndicatorsSpec(indicators, lines, search) <==>
              exists i, j :: 0 <= i < |lines| && 0 <= j < |indicators|
                             && search(indicators[j].regex, lines[i])
                             && x == Indicator(indicators[j].message, i + 1, Strip(lines[i]))
  {
    if x in IndicatorsSpec(indicators, lines, search) {
      IndicatorFromSomeLine(indicators, lines, search, x);
    }
    if exists i, j :: 0 <= i < |lines| && 0 <= j < |indicators|
                      && search(indicators[j].regex, lines[i])
                      && x == Indicator(indicators[j].message, i + 1, Strip(lines[i])) {
      var i, j :| 0 <= i < |lines| && 0 <= j < |indicators|
                  && search(indicators[j].regex, lines[i])
                  && x == Indicator(indicators[j].message, i + 1, Strip(lines[i]));
      IndicatorOfLine(indicators, lines, search, i, j);
    }
  }

  /** A reported indicator comes from a line matching one of the patterns. */
  lemma IndicatorFromSomeLine(indicators: seq<Pattern>, lines: seq<string>, search: Search, x: Indicator)
    requires x in IndicatorsSpec(indicators, lines, search)
    ensures exists i, j :: 0 <= i < |lines| && 0 <= j < |indicators|
                           && search(indicators[j].regex, lines[i])
                           && x == Indicator(indicators[j].message, i + 1, Strip(lines[i]))
  {
    var numbered := NumberedLines(lines);
    ConcatMapMembership(numbered, LineIndicators(indicators, search), x);
    var i :| 0 <= i < |numbered| && x in LineIndicators(indicators, search)(numbered[i]);
    ConcatMapMembership(indicators, IndicatorHits(i + 1, lines[i], search), x);
    var j :| 0 <= j < |indicators| && x in IndicatorHits(i + 1, lines[i], search)(indicators[j]);
    assert search(indicators[j].regex, lines[i]);
  }

  /** A line matching a pattern is reported with that pattern's label. */
  lemma IndicatorOfLine(indicators: seq<Pattern>, lines: seq<string>, search: Search, i: int, j: int)
    requires 0 <= i < |lines| && 0 <= j < |indicators| && search(indicators[j].regex, lines[i])
    ensures Indicator(indicators[j].message, i + 1, Strip(lines[i])) in IndicatorsSpec(indicators, lines, search)
  {
    var x := Indicator(indicators[j].message, i + 1, Strip(lines[i]));
    var numbered := NumberedLines(lines);
    ConcatMapMembership(indicators, IndicatorHits(i + 1, lines[i], search), x);
    assert x in LineIndicators(indicators, search)(numbered[i]);
    ConcatMapMembership(numbered, LineIndicators(indicators, search), x);
  }

  /** `detect_ai_risks` passes over lines that are blank or start with `#`
      once stripped; `//` lines are scanned. */
  predicate AiSkipped(line: string)
  {
    var t := Strip(line);
    t == [] || t[0] == '#'
  }

  /** The fixed fields of the two AI rules. */
  datatype AiRule = AiRule(ruleId: string, ruleName: string, messagePrefix: string, cweId: string, owaspCategory: string)

  const Ai001 := AiRule("AI-001", "Incomplete AI-Generated Code",
                        "Potentially incomplete AI-generated implementation: ",
                        "CWE-1077", "A06:2021 \U{2013} Vulnerable and Outdated Components")

  const Ai002 := AiRule("AI-002", "Risky AI-Generated Pattern",
                        "AI-generated code with risky pattern: ",
                        "CWE-1050", "Code Quality Issue")

  /** The violation `detect_ai_risks` appends when pattern `p` of `rule`
      matches: always MEDIUM, CODE_QUALITY and flagged as Copilot output. */
  function AiViolation(rule: AiRule, p: Pattern, filePath: string, lineNumber: int, line: string): Violation
  {
    Violation(rule.ruleId, rule.ruleName, CodeQuality, Medium, rule.messagePrefix + p.message,
              filePath, lineNumber, Strip(line), Some(rule.cweId), Some(rule.owaspCategory), true, None)
  }

  /** What one pattern of `rule` adds for one line. */
  function RuleHit(rule: AiRule, filePath: string, lineNumber: int, line: string, search: Search, p: Pattern): seq<Violation>
  {
    if search(p.regex, line) then [AiViolation(rule, p, filePath, lineNumber, line)] else []
  }

  function RuleHits(rule: AiRule, filePath: string, lineNumber: int, line: string, search: Search): Pattern -> seq<Violation>
  {
    (p: Pattern) => RuleHit(rule, filePath, lineNumber, line, search, p)
  }

  /** What `detect_ai_risks` adds for one numbered line: nothing for a
      skipped line, else every incomplete-pattern hit (AI-001) and then every
      risky-pattern hit (AI-002). */
  function LineRisk(incomplete: seq<Pattern>, risky: seq<Pattern>, filePath: string, search: Search, l: (int, string)): seq<Violation>
  {
    if AiSkipped(l.1) then []
    else ConcatMap(incomplete, RuleHits(Ai001, filePath, l.0, l.1, search))
         + ConcatMap(risky, RuleHits(Ai002, filePath, l.0, l.1, search))
  }

  function LineRisks(incomplete: seq<Pattern>, risky: seq<Pattern>, filePath: string, search: Search): ((int, string)) -> seq<Violation>
  {
    (l: (int, string)) => LineRisk(incomplete, risky, filePath, search, l)
  }

  /** What `detect_ai_risks` returns for the lines of its code, with the
      tables `incomplete` and `risky`. */
  function RisksSpec(incomplete: seq<Pattern>, risky: seq<Pattern>, lines: seq<string>, filePath: string, search: Search): seq<Violation>
  {
    ConcatMap(NumberedLines(lines), LineRisks(incomplete, risky, filePath, search))
  }

  /** `detect_ai_risks`. */
  method DetectAiRisks(code: string, filePath: string, search: Search) returns (violations: seq<Violation>)
    ensures violations == RisksSpec(IncompletePatterns, AiRiskPatterns, Split(code, '\n'), filePath, search)
  {
    violations := DetectRisksWith(IncompletePatterns, AiRiskPatterns, code, filePath, search);
  }

  /** The loops of `detect_ai_risks` over the tables `incomplete` and `risky`. */
  method DetectRisksWith(incomplete: seq<Pattern>, risky: seq<Pattern>, code: string, filePath: string, search: Search)
    returns (violations: seq<Violation>)
    ensures violations == RisksSpec(incomplete, risky, Split(code, '\n'), filePath, search)
  {
    var lines := Split(code, '\n');
    ghost var numbered := NumberedLines(lines);
    ghost var perLine := LineRisks(incomplete, risky, filePath, search);
    violations := [];
    var n := 0;
    while n < |lines|
      invariant 0 <= n <= |lines|
      invariant violations == ConcatMap(numbered[..n], perLine)
    {
      var line := lines[n];
      assert numbered[n] == (n + 1, line);
      ConcatMapStep(numbered, perLine, n);
      assert perLine(numbered[n]) == LineRisk(incomplete, risky, filePath, search, (n + 1, line));
      n := n + 1;
      var t := Strip(line);
      if t == [] || t[0] == '#' {
        continue;
      }
      var hits := LineRiskHits(Ai001, incomplete, filePath, n, line, search);
      var riskyHits := LineRiskHits(Ai002, risky, filePath, n, line, search);
      violations := violations + hits + riskyHits;
    }
    assert numbered[..n] == numbered;
  }

  /** One inner loop of `detect_ai_risks`: every pattern of `patterns` that
      matches adds a violation of `rule`. */
  method LineRiskHits(rule: AiRule, patterns: seq<Pattern>, filePath: string, lineNumber: int, line: string, search: Search)
    returns (hits: seq<Violation>)
    ensures hits == ConcatMap(patterns, RuleHits(rule, filePath, lineNumber, line, search))
  {
    hits := [];
    var j := 0;
    while j < |patterns|
      invariant 0 <= j <= |patterns|
      invariant hits == ConcatMap(patterns[..j], RuleHits(rule, filePath, lineNumber, line, search))
    {
      ConcatMapStep(patterns, RuleHits(rule, filePath, lineNumber, line, search), j);
      if search(patterns[j].regex, line) {
        hits := hits + [AiViolation(rule, patterns[j], filePath, lineNumber, line)];
      }
      j := j + 1;
    }
    assert patterns[..j] == patterns;
  }

  /** Every violation of one rule's loop is that rule's, for that line. */
  lemma RuleHitsFacts(rule: AiRule, patterns: seq<Pattern>, filePath: string, lineNumber: int, line: string, search: Search)
    ensures forall v :: v in ConcatMap(patterns, RuleHits(rule, filePath, lineNumber, line, search)) ==>
              exists j :: 0 <= j < |patterns| && search(patterns[j].regex, line)
                          && v == AiViolation(rule, patterns[j], filePath, lineNumber, line)
  {
    forall v | v in ConcatMap(patterns, RuleHits(rule, filePath, lineNumber, line, search))
      ensures exists j :: 0 <= j < |patterns| && search(patterns[j].regex, line)
                          && v == AiViolation(rule, patterns[j], filePath, lineNumber, line)
    {
      ConcatMapMembership(patterns, RuleHits(rule, filePath, lineNumber, line, search), v);
    }
  }

  /** No early exit: one line yields one violation per matching pattern of
      each table, AI-001 ones before AI-002 ones. */
  lemma LineRisksComplete(incomplete: seq<Pattern>, risky: seq<Pattern>, filePath: string, lineNumber: int, line: string, search: Search)
    requires !AiSkipped(line)
    ensures var r := LineRisk(incomplete, risky, filePath, search, (lineNumber, line));
            && |r| == |Filter(incomplete, (p: Pattern) => search(p.regex, line))|
                      + |Filter(risky, (p: Pattern) => search(p.regex, line))|
            && forall i, j :: 0 <= i < j < |r| ==> !(r[i].ruleId == Ai002.ruleId && r[j].ruleId == Ai001.ruleId)
  {
    var matches := (p: Pattern) => search(p.regex, line);
    var first := ConcatMap(incomplete, RuleHits(Ai001, filePath, lineNumber, line, search));
    var second := ConcatMap(risky, RuleHits(Ai002, filePath, lineNumber, line, search));
    ConcatMapSingletons(incomplete, RuleHits(Ai001, filePath, lineNumber, line, search), matches);
    ConcatMapSingletons(risky, RuleHits(Ai002, filePath, lineNumber, line, search), matches);
    RuleHitsFacts(Ai001, incomplete, filePath, lineNumber, line, search);
    RuleHitsFacts(Ai002, risky, filePath, lineNumber, line, search);
    var r := first + second;
    forall i, j | 0 <= i < j < |r|
      ensures !(r[i].ruleId == Ai002.ruleId && r[j].ruleId == Ai001.ruleId)
    {
      if i < |first| {
        assert r[i] in first;
      } else {
        assert r[i] in second && r[j] in second;
      }
    }
  }

  /** `v` is what `detect_ai_risks` reports for the line `line` at
      `lineNumber`: an AI-001 or AI-002 MEDIUM CODE_QUALITY violation flagged
      as Copilot output, naming the file, the line's number and its stripped
      text, for a line that is not skipped. */
  predicate RiskReported(v: Violation, filePath: string, lineNumber: int, line: string)
  {
    && (v.ruleId == Ai001.ruleId || v.ruleId == Ai002.ruleId)
    && v.severity == Medium && v.category == CodeQuality && v.isCopilotGenerated
    && v.filePath == filePath && v.lineNumber == lineNumber
    && !AiSkipped(line) && v.lineContent == Strip(line)
  }

  /** What one line yields is reported for that line. */
  lemma LineRisksFacts(incomplete: seq<Pattern>, risky: seq<Pattern>, filePath: string, lineNumber: int, line: string, search: Search)
    ensures forall v :: v in LineRisk(incomplete, risky, filePath, search, (lineNumber, line)) ==>
              RiskReported(v, filePath, lineNumber, line)
  {
    RuleHitsFacts(Ai001, incomplete, filePath, lineNumber, line, search);
    RuleHitsFacts(Ai002, risky, filePath, lineNumber, line, search);
  }

  lemma RiskFromSomeLine(incomplete: seq<Pattern>, risky: seq<Pattern>, lines: seq<string>, filePath: string, search: Search, v: Violation)
    requires v in RisksSpec(incomplete, risky, lines, filePath, search)
    ensures exists i :: 0 <= i < |lines| && RiskReported(v, filePath, i + 1, lines[i])
  {
    var numbered := NumberedLines(lines);
    var perLine := LineRisks(incomplete, risky, filePath, search);
    ConcatMapMembership(numbered, perLine, v);
    var i :| 0 <= i < |numbered| && v in perLine(numbered[i]);
    assert numbered[i] == (i + 1, lines[i]);
    LineRisksFacts(incomplete, risky, filePath, i + 1, lines[i], search);
    assert RiskReported(v, filePath, i + 1, lines[i]);
  }

  /** Every violation of `detect_ai_risks` is reported for one of the lines,
      named by its 1-based number (`RiskReported` fixes `v.lineNumber`). */
  lemma RisksFacts(incomplete: seq<Pattern>, risky: seq<Pattern>, lines: seq<string>, filePath: string, search: Search)
    ensures forall v :: v in RisksSpec(incomplete, risky, lines, filePath, search) ==>
              exists i :: 0 <= i < |lines| && RiskReported(v, filePath, i + 1, lines[i])
  {
    forall v | v in RisksSpec(incomplete, risky, lines, filePath, search)
      ensures exists i :: 0 <= i < |lines| && RiskReported(v, filePath, i + 1, lines[i])
    {
      RiskFromSomeLine(incomplete, risky, lines, filePath, search, v);
    }
  }

  /** A line whose stripped form starts with `//` is passed over by
      `scan_code` but scanned in full by `detect_ai_risks`. */
  lemma SlashCommentIsScanned(incomplete: seq<Pattern>, risky: seq<Pattern>, filePath: string, lineNumber: int, line: string, search: Search)
    requires |Strip(line)| >= 2 && Strip(line)[0] == '/' && Strip(line)[1] == '/'
    ensures SecurityScan.Skipped(line)
    ensures LineRisk(incomplete, risky, filePath, search, (lineNumber, line))
            == ConcatMap(incomplete, RuleHits(Ai001, filePath, lineNumber, line, search))
               + ConcatMap(risky, RuleHits(Ai002, filePath, lineNumber, line, search))
  {
  }

  const AlertHead := "\n\U{26A0}\U{FE0F} **AI-Generated Code Alert**: "
  const AlertTail := " issues found in Copilot-generated code.\nThis code received stricter analysis due to AI origin. Human review recommended.\n"

  /** The violations flagged as Copilot output, in order. */
  function CopilotViolations(violations: seq<Violation>): seq<Violation>
  {
    Filter(violations, (v: Violation) => v.isCopilotGenerated)
  }

  /** `suggest_copilot_context`: an alert naming the number of
      Copilot-flagged violations, or the empty text when there are none. */
  function SuggestCopilotContext(violations: seq<Violation>): (context: string)
    ensures context == "" <==> forall v :: v in violations ==> !v.isCopilotGenerated
    ensures context != "" ==> Contains(context, NatToString(|CopilotViolations(violations)|))
  {
    var flagged := CopilotViolations(violations);
    forall v | v in violations
      ensures v.isCopilotGenerated ==> v in flagged
    {
      FilterMembership(violations, (v: Violation) => v.isCopilotGenerated, v);
    }
    if |flagged| == 0 then ""
    else
      var count := NatToString(|flagged|);
      ContainsMiddle(AlertHead, count, AlertTail);
      assert flagged[0] in violations by {
        FilterMembership(violations, (v: Violation) => v.isCopilotGenerated, flagged[0]);
      }
      AlertHead + count + AlertTail
  }
}
