/** The deterministic part of the AI reviewer: reading a model's answer
    into corrected code and an explanation, and the rule-based fix,
    explanation and documentation link for a violation. The calls to the
    hosted models are not part of this model. */
module AiReviewer {
  import opened Wrappers
  import opened Text
  import opened Models

  const CodeMarker := "CORRECTED_CODE:"
  const ExplanationMarker := "EXPLANATION:"
  const BestPracticesMarker := "BEST_PRACTICES:"
  const Fence := "```"
  const PythonFence := "```python"

  /** The section of the answer a line belongs to. */
  datatype Section = NoSection | CodeSection | ExplanationSection | BestPracticesSection

  /** The section in effect and the text gathered so far. */
  datatype ParseState = ParseState(section: Section, code: string, explanation: string)

  const Start := ParseState(NoSection, "", "")

  /** A line that opens a section. */
  predicate IsMarker(line: string)
  {
    Contains(line, CodeMarker) || Contains(line, ExplanationMarker) || Contains(line, BestPracticesMarker)
  }

  /** What a line does to the parse: open one of the three sections, or
      carry text. A line naming several markers opens the first section
      in the order code, explanation, best practices. */
  datatype LineKind = OpensCode | OpensExplanation | OpensBestPractices | TextLine

  function Kind(line: string): (k: LineKind)
    ensures k == TextLine <==> !IsMarker(line)
    ensures k == OpensCode <==> Contains(line, CodeMarker)
    ensures k == OpensExplanation <==> !Contains(line, CodeMarker) && Contains(line, ExplanationMarker)
  {
    if Contains(line, CodeMarker) then OpensCode
    else if Contains(line, ExplanationMarker) then OpensExplanation
    else if Contains(line, BestPracticesMarker) then OpensBestPractices
    else TextLine
  }

  predicate NoMarkers(lines: seq<string>)
  {
    forall k :: 0 <= k < |lines| ==> Kind(lines[k]) == TextLine
  }

  /** A code line without its fence markers. */
  function CleanLine(line: string): (clean: string)
    ensures |clean| <= |line|
  {
    RemoveAll(RemoveAll(line, PythonFence), Fence)
  }

  /** What a line of the code section adds to the code: nothing for a
      fence line that is blank without its markers, the cleaned line
      otherwise. */
  function CodePiece(line: string): string
  {
    if KeepCodeLine(line) then CleanLine(line) + "\n" else ""
  }

  /** Whether a line of the code section is kept: unless it starts with a
      fence and is blank once the fence markers are removed. */
  predicate KeepCodeLine(line: string)
  {
    Strip(CleanLine(line)) != "" || !StartsWith(line, Fence)
  }

  /** One line of `_parse_ai_response`: a marker line switches the section
      and adds no text; any other line adds text to the section in effect
      only, and none before the first marker or after `BEST_PRACTICES:`. */
  function Step(p: ParseState, line: string): (r: ParseState)
    ensures IsMarker(line) ==> r.code == p.code && r.explanation == p.explanation
    ensures !IsMarker(line) ==> r.section == p.section
    ensures !IsMarker(line) && p.section == CodeSection ==> r == p.(code := p.code + CodePiece(line))
    ensures !IsMarker(line) && p.section == ExplanationSection ==> r == p.(explanation := p.explanation + line + "\n")
    ensures !IsMarker(line) && (p.section == NoSection || p.section == BestPracticesSection) ==> r == p
  {
    match Kind(line)
    case OpensCode => p.(section := CodeSection)
    case OpensExplanation => p.(section := ExplanationSection)
    case OpensBestPractices => p.(section := BestPracticesSection)
    case TextLine =>
      if p.section == CodeSection then p.(code := p.code + CodePiece(line))
      else if p.section == ExplanationSection then p.(explanation := p.explanation + line + "\n")
      else p
  }

  /** The state after reading the lines in order. */
  function Run(p: ParseState, lines: seq<string>): ParseState
  {
    if |lines| == 0 then p else Step(Run(p, lines[..|lines| - 1]), lines[|lines| - 1])
  }

  /** The lines, each followed by a newline. */
  function LinesText(lines: seq<string>): string
  {
    if |lines| == 0 then "" else LinesText(lines[..|lines| - 1]) + lines[|lines| - 1] + "\n"
  }

  /** The code the lines of a code section add. */
  function CodeText(lines: seq<string>): string
  {
    Pieces(lines, CodePiece)
  }

  /** The pieces `f` makes of the lines, one after the other. */
  function Pieces(lines: seq<string>, f: string -> string): string
  {
    if |lines| == 0 then "" else Pieces(lines[..|lines| - 1], f) + f(lines[|lines| - 1])
  }

  /** `_parse_ai_response`: the stripped code and explanation sections of
      the answer. */
  method ParseAiResponse(responseText: string) returns (suggestedCode: string, explanation: string)
    ensures var final := Run(Start, Split(responseText, '\n'));
            suggestedCode == Strip(final.code) && explanation == Strip(final.explanation)
    ensures NoMarkers(Split(responseText, '\n')) ==> suggestedCode == "" && explanation == ""
  {
    var lines := Split(responseText, '\n');
    var code := "";
    var text := "";
    var section := NoSection;
    for i := 0 to |lines|
      invariant Run(Start, lines[..i]) == ParseState(section, code, text)
    {
      assert lines[..i + 1][..i] == lines[..i];
      var line := lines[i];
      if Contains(line, CodeMarker) {
        section := CodeSection;
      } else if Contains(line, ExplanationMarker) {
        section := ExplanationSection;
      } else if Contains(line, BestPracticesMarker) {
        section := BestPracticesSection;
      } else if section == CodeSection {
        var cleanLine := RemoveAll(RemoveAll(line, PythonFence), Fence);
        if Strip(cleanLine) != "" || !StartsWith(line, Fence) {
          code := code + cleanLine + "\n";
        }
      } else if section == ExplanationSection {
        text := text + line + "\n";
      }
    }
    assert lines[..|lines|] == lines;
    suggestedCode := Strip(code);
    explanation := Strip(text);
    if NoMarkers(lines) {
      NoMarkersNoOutput(lines);
      StripFacts("");
    }
  }

  /** Reading `a` then `b` is reading `a + b`. */
  lemma {:induction false} RunConcat(p: ParseState, a: seq<string>, b: seq<string>)
    ensures Run(p, a + b) == Run(Run(p, a), b)
    decreases |b|
  {
    if |b| == 0 {
      assert a + b == a;
    } else {
      assert (a + b)[..|a + b| - 1] == a + b[..|b| - 1];
      RunConcat(p, a, b[..|b| - 1]);
    }
  }

  /** Outside the code and explanation sections, lines without a marker
      change nothing. */
  lemma {:induction false} Quiet(p: ParseState, lines: seq<string>)
    requires p.section == NoSection || p.section == BestPracticesSection
    requires NoMarkers(lines)
    ensures Run(p, lines) == p
  {
    if |lines| > 0 {
      Quiet(p, lines[..|lines| - 1]);
    }
  }

  /** An answer without any marker gives neither code nor explanation. */
  lemma NoMarkersNoOutput(lines: seq<string>)
    requires NoMarkers(lines)
    ensures Run(Start, lines) == Start
  {
    Quiet(Start, lines);
  }

  /** The lines before the first marker are ignored. */
  lemma PreambleIgnored(preamble: seq<string>, rest: seq<string>)
    requires NoMarkers(preamble)
    ensures Run(Start, preamble + rest) == Run(Start, rest)
  {
    RunConcat(Start, preamble, rest);
    Quiet(Start, preamble);
  }

  /** The lines after a closing `BEST_PRACTICES:` marker change neither
      output. */
  lemma TrailingBestPracticesIgnored(a: seq<string>, marker: string, b: seq<string>)
    requires Kind(marker) == OpensBestPractices
    requires NoMarkers(b)
    ensures Run(Start, a + [marker] + b).code == Run(Start, a).code
    ensures Run(Start, a + [marker] + b).explanation == Run(Start, a).explanation
  {
    RunConcat(Start, a + [marker], b);
    RunConcat(Start, a, [marker]);
    assert [marker][..0] == [];
    Quiet(Step(Run(Start, a), marker), b);
  }

  /** In the explanation section every line, with its newline, is added
      to the explanation. */
  lemma {:induction false} ExplanationRun(p: ParseState, lines: seq<string>)
    requires p.section == ExplanationSection && NoMarkers(lines)
    ensures Run(p, lines) == p.(explanation := p.explanation + LinesText(lines))
  {
    if |lines| > 0 {
      var init, last := lines[..|lines| - 1], lines[|lines| - 1];
      ExplanationRun(p, init);
      assert p.explanation + LinesText(init) + last + "\n" == p.explanation + (LinesText(init) + last + "\n");
    }
  }

  /** In the code section every line adds its code piece to the code. */
  lemma {:induction false} CodeRun(p: ParseState, lines: seq<string>)
    requires p.section == CodeSection && NoMarkers(lines)
    ensures var r := Run(p, lines); r.section == CodeSection && r.explanation == p.explanation && r.code == p.code + CodeText(lines)
  {
    if |lines| > 0 {
      var init, last := lines[..|lines| - 1], lines[|lines| - 1];
      CodeRun(p, init);
      var q := Run(p, init);
      CodeStep(q, last);
      assert q.code + CodePiece(last) == p.code + (CodeText(init) + CodePiece(last));
    }
  }

  lemma CodeStep(q: ParseState, line: string)
    requires q.section == CodeSection && Kind(line) == TextLine
    ensures var r := Step(q, line); r.section == CodeSection && r.explanation == q.explanation && r.code == q.code + CodePiece(line)
  {
  }

  /** After an `EXPLANATION:` marker, the explanation grows by exactly the
      following unmarked lines, and the code does not change. */
  lemma ExplanationSectionText(a: seq<string>, marker: string, b: seq<string>)
    requires Kind(marker) == OpensExplanation
    requires NoMarkers(b)
    ensures Run(Start, a + [marker] + b).explanation == Run(Start, a).explanation + LinesText(b)
    ensures Run(Start, a + [marker] + b).code == Run(Start, a).code
  {
    RunConcat(Start, a + [marker], b);
    RunConcat(Start, a, [marker]);
    assert [marker][..0] == [];
    ExplanationRun(Step(Run(Start, a), marker), b);
  }

  /** After a `CORRECTED_CODE:` marker, the code grows by exactly the code
      pieces of the following unmarked lines, and the explanation does
      not change. */
  lemma CodeSectionText(a: seq<string>, marker: string, b: seq<string>)
    requires Kind(marker) == OpensCode
    requires NoMarkers(b)
    ensures Run(Start, a + [marker] + b).code == Run(Start, a).code + CodeText(b)
    ensures Run(Start, a + [marker] + b).explanation == Run(Start, a).explanation
  {
    RunConcat(Start, a + [marker], b);
    RunConcat(Start, a, [marker]);
    assert [marker][..0] == [];
    CodeRun(Step(Run(Start, a), marker), b);
  }

  const ReviewCode := "# Review code"

  const Sec001Fix := "# Use environment variables for secrets\nimport os\napi_key = os.getenv('API_KEY')"
  const Sec001Why := "Hardcoded secrets expose sensitive data. Always use environment variables or secret management systems."
  const Sec002Fix := "# Use parameterized queries\nquery = 'SELECT * FROM users WHERE id = %s'\ncursor.execute(query, (user_id,))"
  const Sec002Why := "SQL injection allows attackers to manipulate queries. Always use parameterized queries with prepared statements."
  const Sec003Fix := "import json\ndata = json.loads(user_input)  # JSON is safe\n# For YAML, use yaml.safe_load()"
  const Sec003Why := "Insecure deserialization can execute arbitrary code. Use safe deserializers or validate input."
  const Sec004Fix := "# Avoid eval and exec\nimport ast\ntree = ast.parse(user_input, mode='eval')"
  const Sec004Why := "eval() and exec() execute arbitrary Python code. Use ast.parse() or other safe alternatives."
  const Sec005Fix := "import hashlib\nhash_obj = hashlib.sha256(data)  # Use SHA256 instead"
  const Sec005Why := "MD5 and SHA1 are cryptographically broken. Use SHA256 or stronger algorithms."
  const Ai001Fix := "# Implement full logic instead of leaving as TODO\ndef handle_request(request):\n    # Your implementation here"
  const Ai001Why := "Incomplete AI-generated code can cause runtime errors. Always implement full logic."
  const Ip001Fix := "# Properly attribute source code\n# Source: https://github.com/owner/repo\n# License: MIT"
  const Ip001Why := "Always include proper attribution and verify license compatibility when using external code."

  /** The fixes `_rule_based_suggest_fix` knows. */
  const FixTable: map<string, (string, string)> := map[
    "SEC-001" := (Sec001Fix, Sec001Why),
    "SEC-002" := (Sec002Fix, Sec002Why),
    "SEC-003" := (Sec003Fix, Sec003Why),
    "SEC-004" := (Sec004Fix, Sec004Why),
    "SEC-005" := (Sec005Fix, Sec005Why),
    "AI-001" := (Ai001Fix, Ai001Why),
    "IP-001" := (Ip001Fix, Ip001Why)]

  /** `_rule_based_suggest_fix`: the known fix for the rule, or a generic
      review hint with the violation's own message. */
  function RuleBasedSuggestFix(violation: Violation): (r: (string, string))
    ensures violation.ruleId in FixTable ==> r == FixTable[violation.ruleId]
    ensures violation.ruleId !in FixTable ==> r == (ReviewCode, violation.message)
  {
    if violation.ruleId in FixTable then FixTable[violation.ruleId] else (ReviewCode, violation.message)
  }

  /** Exactly seven rules have a fix. */
  lemma FixTableFacts()
    ensures FixTable.Keys == {"SEC-001", "SEC-002", "SEC-003", "SEC-004", "SEC-005", "AI-001", "IP-001"}
  {
  }

  const Sec001Text := "Hardcoded credentials can be exposed in version control. Store secrets in environment variables or secret management systems."
  const Sec002Text := "SQL injection allows attackers to manipulate database queries. Always use parameterized queries."
  const Sec003Text := "Unsafe deserialization can lead to remote code execution. Use safe alternatives like json.loads()."
  const Sec004Text := "eval() and exec() execute arbitrary code. Avoid them in production."
  const Sec005Text := "MD5 and SHA1 are weak. Use SHA256 or stronger algorithms."
  const Sec006Text := "Insecure headers can enable attacks. Set appropriate security headers."
  const Sec007Text := "Unsafe file operations can enable directory traversal or XXE attacks."
  const Sec008Text := "random module is not cryptographically secure. Use secrets module instead."
  const Sec009Text := "Logging sensitive data can expose secrets. Sanitize logs."
  const Sec010Text := "SSL verification disabled allows MITM attacks. Always verify certificates."
  const Ai001Text := "Incomplete AI-generated code needs full implementation."
  const Ip001Text := "Always verify license compatibility when using external code."

  /** The explanations `generate_explanation` knows. */
  const ExplanationTable: map<string, string> := map[
    "SEC-001" := Sec001Text, "SEC-002" := Sec002Text, "SEC-003" := Sec003Text, "SEC-004" := Sec004Text,
    "SEC-005" := Sec005Text, "SEC-006" := Sec006Text, "SEC-007" := Sec007Text, "SEC-008" := Sec008Text,
    "SEC-009" := Sec009Text, "SEC-010" := Sec010Text, "AI-001" := Ai001Text, "IP-001" := Ip001Text]

  /** `generate_explanation`: the known explanation for the rule, or the
      violation's own message. */
  function GenerateExplanation(violation: Violation): (r: string)
    ensures violation.ruleId in ExplanationTable ==> r == ExplanationTable[violation.ruleId]
    ensures violation.ruleId !in ExplanationTable ==> r == violation.message
  {
    if violation.ruleId in ExplanationTable then ExplanationTable[violation.ruleId] else violation.message
  }

  /** Every rule with a known fix also has a known explanation, so a fixed
      violation is never explained by its bare message. */
  lemma FixesAreExplained(violation: Violation)
    requires violation.ruleId in FixTable
    ensures violation.ruleId in ExplanationTable
    ensures GenerateExplanation(violation) == ExplanationTable[violation.ruleId]
  {
    FixTableFacts();
  }

  const OwaspLink := "https://owasp.org/Top10/"
  const CweLink := "https://cwe.mitre.org/"
  const ProfileLink := "https://docs.python.org/3/library/profile.html"
  const CopilotLink := "https://github.com/github/copilot-safety"
  const LicensesLink := "https://opensource.org/licenses/"

  /** The prefix table of `suggest_category_link`, in its order. */
  const CategoryLinks: seq<(string, string)> := [
    ("SEC", OwaspLink), ("CWE", CweLink), ("PERF", ProfileLink), ("AI", CopilotLink), ("IP", LicensesLink)]

  /** No two prefixes of the table can start the same rule id, so the
      table order never decides which link is suggested. */
  lemma PrefixesExclusive(ruleId: string, i: nat, j: nat)
    requires i < j < |CategoryLinks|
    ensures !(StartsWith(ruleId, CategoryLinks[i].0) && StartsWith(ruleId, CategoryLinks[j].0))
  {
    FirstChar(ruleId, CategoryLinks[i].0);
    FirstChar(ruleId, CategoryLinks[j].0);
    assert CategoryLinks[i].0[0] != CategoryLinks[j].0[0];
  }

  lemma FirstChar(s: string, prefix: string)
    requires |prefix| > 0
    ensures StartsWith(s, prefix) ==> s[0] == prefix[0]
  {
  }

  /** `suggest_category_link`: the link of the first prefix that starts
      the rule id, or None when none does. */
  method SuggestCategoryLink(violation: Violation) returns (link: Option<string>)
    ensures link.None? <==> forall k :: 0 <= k < |CategoryLinks| ==> !StartsWith(violation.ruleId, CategoryLinks[k].0)
    ensures link.Some? ==> exists k :: 0 <= k < |CategoryLinks| && StartsWith(violation.ruleId, CategoryLinks[k].0)
                                       && link.value == CategoryLinks[k].1
                                       && forall j :: 0 <= j < k ==> !StartsWith(violation.ruleId, CategoryLinks[j].0)
  {
    for i := 0 to |CategoryLinks|
      invariant forall j :: 0 <= j < i ==> !StartsWith(violation.ruleId, CategoryLinks[j].0)
    {
      var (prefix, url) := CategoryLinks[i];
      if StartsWith(violation.ruleId, prefix) {
        return Some(url);
      }
    }
    return None;
  }
}
