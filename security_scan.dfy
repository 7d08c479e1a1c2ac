/** The machinery of SecurityRuleEngine, independent of its tables: one
    `scan_line` call tries a group's patterns in order and stops at the first
    match; `scan_code` walks the lines of a change, passes over blank and
    comment lines, and makes every group's call on the others. */
module SecurityScan {
  import opened Wrappers
  import opened Text
  import opened Models

  /** The arguments one `scan_line` call passes besides the line itself. */
  datatype RuleGroup = RuleGroup(
    ruleId: string,
    patterns: seq<Pattern>,
    cweId: string,
    owaspCategory: string,
    severity: Severity)

  /** Position of a SEC rule id in the order `scan_code` checks the groups. */
  function Rank(ruleId: string): int
  {
    if ruleId == "SEC-001" then 0
    else if ruleId == "SEC-002" then 1
    else if ruleId == "SEC-003" then 2
    else if ruleId == "SEC-004" then 3
    else if ruleId == "SEC-005" then 4
    else 5
  }

  /** The severity each SEC rule is reported with. */
  function FixedSeverity(ruleId: string): Severity
  {
    if ruleId == "SEC-003" || ruleId == "SEC-005" then High else Critical
  }

  /** What `scan_line` appends to a pattern's message. */
  const ExposureWarning := ". This could expose sensitive data or enable attacks."

  function SecurityViolation(p: Pattern, g: RuleGroup, filePath: string, lineNumber: int, line: string): Violation
  {
    Violation(g.ruleId, p.message, Security, g.severity,
              p.message + ExposureWarning,
              filePath, lineNumber, Strip(line), Some(g.cweId), Some(g.owaspCategory), false, None)
  }

  /** The index of the first pattern, from `i` on, whose regex matches `line`. */
  function FirstMatchFrom(patterns: seq<Pattern>, line: string, search: Search, i: nat): Option<nat>
    requires i <= |patterns|
    decreases |patterns| - i
  {
    if i == |patterns| then None
    else if search(patterns[i].regex, line) then Some(i)
    else FirstMatchFrom(patterns, line, search, i + 1)
  }

  /** `FirstMatchFrom` finds the first match at or after `i`, and finds none
      exactly when no pattern from `i` on matches. */
  lemma {:induction false} FirstMatchFromFacts(patterns: seq<Pattern>, line: string, search: Search, i: nat)
    requires i <= |patterns|
    ensures var r := FirstMatchFrom(patterns, line, search, i);
            && (r.Some? ==> i <= r.value < |patterns| && search(patterns[r.value].regex, line))
            && (r.Some? ==> forall j :: i <= j < r.value ==> !search(patterns[j].regex, line))
            && (r.None? <==> forall j :: i <= j < |patterns| ==> !search(patterns[j].regex, line))
    decreases |patterns| - i
  {
    if i < |patterns| && !search(patterns[i].regex, line) {
      FirstMatchFromFacts(patterns, line, search, i + 1);
    }
  }

  /** What one `scan_line` call reports: one violation for the first pattern
      that matches, carrying the group's metadata, or nothing. */
  function GroupViolations(g: RuleGroup, filePath: string, lineNumber: int, line: string, search: Search): (r: seq<Violation>)
    ensures |r| <= 1
  {
    FirstMatchFromFacts(g.patterns, line, search, 0);
    match FirstMatchFrom(g.patterns, line, search, 0)
    case None => []
    case Some(k) => [SecurityViolation(g.patterns[k], g, filePath, lineNumber, line)]
  }

  /** A group reports nothing exactly when none of its patterns matches, and
      otherwise reports the first pattern that matches. */
  lemma GroupViolationsFirstMatch(g: RuleGroup, filePath: string, lineNumber: int, line: string, search: Search)
    ensures GroupViolations(g, filePath, lineNumber, line, search) == []
            <==> forall j :: 0 <= j < |g.patterns| ==> !search(g.patterns[j].regex, line)
    ensures GroupViolations(g, filePath, lineNumber, line, search) != [] ==>
              exists k :: 0 <= k < |g.patterns| && search(g.patterns[k].regex, line)
                          && (forall j :: 0 <= j < k ==> !search(g.patterns[j].regex, line))
                          && GroupViolations(g, filePath, lineNumber, line, search)[0]
                             == SecurityViolation(g.patterns[k], g, filePath, lineNumber, line)
  {
    FirstMatchFromFacts(g.patterns, line, search, 0);
  }

  /** `scan_line`: try the patterns in order and stop at the first match. */
  method ScanLine(line: string, filePath: string, lineNumber: int, g: RuleGroup, search: Search)
    returns (violations: seq<Violation>)
    ensures violations == GroupViolations(g, filePath, lineNumber, line, search)
  {
    violations := [];
    var i := 0;
    while i < |g.patterns|
      invariant 0 <= i <= |g.patterns|
      invariant violations == []
      invariant FirstMatchFrom(g.patterns, line, search, 0) == FirstMatchFrom(g.patterns, line, search, i)
    {
      if search(g.patterns[i].regex, line) {
        violations := [SecurityViolation(g.patterns[i], g, filePath, lineNumber, line)];
        break;
      }
      i := i + 1;
    }
  }

  /** `scan_code` passes over lines that are blank or start with `#` or `//`
      once stripped. */
  predicate Skipped(line: string)
  {
    var t := Strip(line);
    t == [] || t[0] == '#' || (|t| >= 2 && t[0] == '/' && t[1] == '/')
  }

  /** The first `k` groups' reports for one line, in group order. */
  function GroupsUpTo(groups: seq<RuleGroup>, k: nat, filePath: string, lineNumber: int, line: string, search: Search): seq<Violation>
    requires k <= |groups|
  {
    if k == 0 then []
    else GroupsUpTo(groups, k - 1, filePath, lineNumber, line, search)
         + GroupViolations(groups[k - 1], filePath, lineNumber, line, search)
  }

  /** Everything `scan_code` reports for the line at (1-based) `lineNumber`,
      checking `groups` in order. */
  function LineViolations(groups: seq<RuleGroup>, filePath: string, lineNumber: int, line: string, search: Search): seq<Violation>
  {
    if Skipped(line) then [] else GroupsUpTo(groups, |groups|, filePath, lineNumber, line, search)
  }

  /** The reports for the first `k` lines. */
  function ScanUpTo(groups: seq<RuleGroup>, lines: seq<string>, k: nat, filePath: string, search: Search): seq<Violation>
    requires k <= |lines|
  {
    if k == 0 then []
    else ScanUpTo(groups, lines, k - 1, filePath, search) + LineViolations(groups, filePath, k, lines[k - 1], search)
  }

  /** The loop of `scan_code` over its lines, making the `scan_line` calls
      listed in `groups`. */
  method ScanLines(groups: seq<RuleGroup>, lines: seq<string>, filePath: string, search: Search) returns (violations: seq<Violation>)
    ensures violations == ScanUpTo(groups, lines, |lines|, filePath, search)
  {
    violations := [];
    var n := 0;
    while n < |lines|
      invariant 0 <= n <= |lines|
      invariant violations == ScanUpTo(groups, lines, n, filePath, search)
    {
      var hits := ScanCodeLine(groups, lines[n], filePath, n + 1, search);
      ScanUpToStep(groups, lines, n, filePath, search);
      violations := violations + hits;
      n := n + 1;
    }
  }

  lemma ScanUpToStep(groups: seq<RuleGroup>, lines: seq<string>, n: nat, filePath: string, search: Search)
    requires n < |lines|
    ensures ScanUpTo(groups, lines, n + 1, filePath, search)
            == ScanUpTo(groups, lines, n, filePath, search) + LineViolations(groups, filePath, n + 1, lines[n], search)
  {
  }

  /** `scan_code` over the rule groups `groups`: split the code on newlines
      and scan the lines in order. */
  method ScanCodeWith(groups: seq<RuleGroup>, code: string, filePath: string, search: Search) returns (violations: seq<Violation>)
    ensures violations == ScanUpTo(groups, Split(code, '\n'), |Split(code, '\n')|, filePath, search)
  {
    violations := ScanLines(groups, Split(code, '\n'), filePath, search);
  }

  /** The body of `scan_code`'s loop for one line: skip it, or make the
      `scan_line` calls for every group in order. */
  method ScanCodeLine(groups: seq<RuleGroup>, line: string, filePath: string, lineNumber: int, search: Search)
    returns (violations: seq<Violation>)
    ensures violations == LineViolations(groups, filePath, lineNumber, line, search)
  {
    violations := [];
    if Skipped(line) {
      return;
    }
    var k := 0;
    while k < |groups|
      invariant 0 <= k <= |groups|
      invariant violations == GroupsUpTo(groups, k, filePath, lineNumber, line, search)
    {
      var hits := ScanLine(line, filePath, lineNumber, groups[k], search);
      violations := violations + hits;
      k := k + 1;
    }
  }

  /** Each group sits at its rule's rank and carries its rule's severity. */
  predicate WellRanked(groups: seq<RuleGroup>)
  {
    forall i :: 0 <= i < |groups| ==> Rank(groups[i].ruleId) == i && FixedSeverity(groups[i].ruleId) == groups[i].severity
  }

  /** The reports of the first `k` groups for one line: at most one per
      group, in group order, each with its group's fixed metadata. */
  lemma {:induction false} GroupsUpToFacts(groups: seq<RuleGroup>, k: nat, filePath: string, lineNumber: int, line: string, search: Search)
    requires k <= |groups| && WellRanked(groups)
    ensures |GroupsUpTo(groups, k, filePath, lineNumber, line, search)| <= k
    ensures forall v :: v in GroupsUpTo(groups, k, filePath, lineNumber, line, search) ==>
              && 0 <= Rank(v.ruleId) < k
              && v.severity == FixedSeverity(v.ruleId)
              && v.category == Security
              && v.lineNumber == lineNumber
              && v.lineContent == Strip(line)
              && !v.isCopilotGenerated
    ensures forall i, j :: 0 <= i < j < |GroupsUpTo(groups, k, filePath, lineNumber, line, search)| ==>
              Rank(GroupsUpTo(groups, k, filePath, lineNumber, line, search)[i].ruleId)
                < Rank(GroupsUpTo(groups, k, filePath, lineNumber, line, search)[j].ruleId)
  {
    if k > 0 {
      var prev := GroupsUpTo(groups, k - 1, filePath, lineNumber, line, search);
      var last := GroupViolations(groups[k - 1], filePath, lineNumber, line, search);
      GroupsUpToFacts(groups, k - 1, filePath, lineNumber, line, search);
      assert GroupsUpTo(groups, k, filePath, lineNumber, line, search) == prev + last;
      assert Rank(groups[k - 1].ruleId) == k - 1;
    }
  }

  /** What a violation reported for the line `line` at `lineNumber` says:
      the line was scanned, and the violation carries its number, its
      stripped text, the SECURITY category and its rule's fixed severity. */
  predicate ReportedFor(groups: seq<RuleGroup>, v: Violation, lineNumber: int, line: string)
  {
    && v.lineNumber == lineNumber
    && !Skipped(line)
    && v.lineContent == Strip(line)
    && v.category == Security
    && v.severity == FixedSeverity(v.ruleId)
    && 0 <= Rank(v.ruleId) < |groups|
  }

  lemma LineFacts(groups: seq<RuleGroup>, filePath: string, lineNumber: int, line: string, search: Search)
    requires WellRanked(groups)
    ensures forall v :: v in LineViolations(groups, filePath, lineNumber, line, search) ==>
              ReportedFor(groups, v, lineNumber, line)
  {
    if !Skipped(line) {
      GroupsUpToFacts(groups, |groups|, filePath, lineNumber, line, search);
    }
  }

  /** `v` names one of `lines` by its 1-based number and was reported for it. */
  predicate ReportedIn(groups: seq<RuleGroup>, lines: seq<string>, v: Violation)
  {
    1 <= v.lineNumber <= |lines| && ReportedFor(groups, v, v.lineNumber, lines[v.lineNumber - 1])
  }

  lemma ReportedAppend(groups: seq<RuleGroup>, lines: seq<string>, prev: seq<Violation>, last: seq<Violation>, k: nat)
    requires 1 <= k <= |lines|
    requires forall v :: v in prev ==> v.lineNumber < k && ReportedIn(groups, lines, v)
    requires forall v :: v in last ==> ReportedFor(groups, v, k, lines[k - 1])
    ensures forall v :: v in prev + last ==> v.lineNumber <= k && ReportedIn(groups, lines, v)
  {
  }

  /** Over the first `k` lines: every violation names a line among them, by
      its 1-based number, and was reported for that line. */
  lemma {:induction false} ScanUpToFacts(groups: seq<RuleGroup>, lines: seq<string>, k: nat, filePath: string, search: Search)
    requires k <= |lines| && WellRanked(groups)
    ensures forall v :: v in ScanUpTo(groups, lines, k, filePath, search) ==>
              v.lineNumber <= k && ReportedIn(groups, lines, v)
  {
    if k > 0 {
      var prev: seq<Violation> := ScanUpTo(groups, lines, k - 1, filePath, search);
      var last: seq<Violation> := LineViolations(groups, filePath, k, lines[k - 1], search);
      ScanUpToFacts(groups, lines, k - 1, filePath, search);
      LineFacts(groups, filePath, k, lines[k - 1], search);
      ReportedAppend(groups, lines, prev, last, k);
      ScanUpToStep(groups, lines, k - 1, filePath, search);
    }
  }

  /** Every report for one line carries that line's number. */
  lemma {:induction false} GroupsUpToLineNumber(groups: seq<RuleGroup>, k: nat, filePath: string, lineNumber: int, line: string, search: Search)
    requires k <= |groups|
    ensures forall v :: v in GroupsUpTo(groups, k, filePath, lineNumber, line, search) ==> v.lineNumber == lineNumber
  {
    if k > 0 {
      GroupsUpToLineNumber(groups, k - 1, filePath, lineNumber, line, search);
    }
  }

  /** Every report for one line carries that line's number. */
  lemma LineViolationsLineNumber(groups: seq<RuleGroup>, filePath: string, lineNumber: int, line: string, search: Search)
    ensures forall v :: v in LineViolations(groups, filePath, lineNumber, line, search) ==> v.lineNumber == lineNumber
  {
    if !Skipped(line) {
      GroupsUpToLineNumber(groups, |groups|, filePath, lineNumber, line, search);
    }
  }

  /** Every report for one line names the scanned file and is not flagged
      as Copilot output. */
  lemma {:induction false} GroupsUpToOrigin(groups: seq<RuleGroup>, k: nat, filePath: string, lineNumber: int, line: string, search: Search)
    requires k <= |groups|
    ensures forall v :: v in GroupsUpTo(groups, k, filePath, lineNumber, line, search) ==>
              v.filePath == filePath && !v.isCopilotGenerated
  {
    if k > 0 {
      GroupsUpToOrigin(groups, k - 1, filePath, lineNumber, line, search);
    }
  }

  lemma OriginAppend(prev: seq<Violation>, last: seq<Violation>, filePath: string)
    requires forall v :: v in prev ==> v.filePath == filePath && !v.isCopilotGenerated
    requires forall v :: v in last ==> v.filePath == filePath && !v.isCopilotGenerated
    ensures forall v :: v in prev + last ==> v.filePath == filePath && !v.isCopilotGenerated
  {
  }

  /** Every report of a scan names the scanned file and is not flagged as
      Copilot output. */
  lemma {:induction false} ScanUpToOrigin(groups: seq<RuleGroup>, lines: seq<string>, k: nat, filePath: string, search: Search)
    requires k <= |lines|
    ensures forall v :: v in ScanUpTo(groups, lines, k, filePath, search) ==>
              v.filePath == filePath && !v.isCopilotGenerated
  {
    if k > 0 {
      var prev: seq<Violation> := ScanUpTo(groups, lines, k - 1, filePath, search);
      var last: seq<Violation> := LineViolations(groups, filePath, k, lines[k - 1], search);
      ScanUpToOrigin(groups, lines, k - 1, filePath, search);
      if !Skipped(lines[k - 1]) {
        GroupsUpToOrigin(groups, |groups|, filePath, k, lines[k - 1], search);
      }
      OriginAppend(prev, last, filePath);
      ScanUpToStep(groups, lines, k - 1, filePath, search);
    }
  }

  /** Line numbers never decrease along `s`. */
  predicate InLineOrder(s: seq<Violation>)
  {
    forall i, j :: 0 <= i < j < |s| ==> s[i].lineNumber <= s[j].lineNumber
  }

  /** Appending the reports of line `k` to reports of earlier lines keeps
      line order. */
  lemma InLineOrderAppend(prev: seq<Violation>, last: seq<Violation>, k: int)
    requires InLineOrder(prev) && k >= 1
    requires forall v :: v in prev ==> 1 <= v.lineNumber < k
    requires forall v :: v in last ==> v.lineNumber == k
    ensures InLineOrder(prev + last)
    ensures forall v :: v in prev + last ==> 1 <= v.lineNumber <= k
  {
    forall i, j | 0 <= i < j < |prev + last|
      ensures (prev + last)[i].lineNumber <= (prev + last)[j].lineNumber
    {
      if j >= |prev| {
        assert (prev + last)[j] == last[j - |prev|];
        assert last[j - |prev|] in last;
        if i < |prev| {
          assert prev[i] in prev;
        } else {
          assert last[i - |prev|] in last;
        }
      }
    }
  }

  /** Violations come out in line order, each naming one of the first `k`
      lines by its 1-based number. */
  lemma {:induction false} ScanUpToOrdered(groups: seq<RuleGroup>, lines: seq<string>, k: nat, filePath: string, search: Search)
    requires k <= |lines|
    ensures InLineOrder(ScanUpTo(groups, lines, k, filePath, search))
    ensures forall v :: v in ScanUpTo(groups, lines, k, filePath, search) ==> 1 <= v.lineNumber <= k
  {
    if k > 0 {
      var prev: seq<Violation> := ScanUpTo(groups, lines, k - 1, filePath, search);
      var last: seq<Violation> := LineViolations(groups, filePath, k, lines[k - 1], search);
      ScanUpToOrdered(groups, lines, k - 1, filePath, search);
      LineViolationsLineNumber(groups, filePath, k, lines[k - 1], search);
      InLineOrderAppend(prev, last, k);
      ScanUpToStep(groups, lines, k - 1, filePath, search);
    }
  }

  /** Splitting a line that holds no newline gives the line alone. */
  lemma SplitSingleLine(line: string)
    requires '\n' !in line
    ensures Split(line, '\n') == [line]
  {
    SplitJoin([line], '\n');
  }

  /** When the first group reports something for a line that is not
      skipped, that report leads the line's violations. */
  lemma FirstGroupLeads(groups: seq<RuleGroup>, filePath: string, lineNumber: int, line: string, search: Search)
    requires |groups| >= 1 && !Skipped(line)
    requires GroupViolations(groups[0], filePath, lineNumber, line, search) != []
    ensures |LineViolations(groups, filePath, lineNumber, line, search)| >= 1
    ensures LineViolations(groups, filePath, lineNumber, line, search)[0]
            == GroupViolations(groups[0], filePath, lineNumber, line, search)[0]
  {
    var first := GroupViolations(groups[0], filePath, lineNumber, line, search);
    assert GroupsUpTo(groups, 1, filePath, lineNumber, line, search) == first;
    GroupsPrefix(groups, 1, |groups|, filePath, lineNumber, line, search);
  }

  /** The reports of fewer groups are a prefix of the reports of more. */
  lemma {:induction false} GroupsPrefix(groups: seq<RuleGroup>, j: nat, k: nat, filePath: string, lineNumber: int, line: string, search: Search)
    requires j <= k <= |groups|
    ensures GroupsUpTo(groups, j, filePath, lineNumber, line, search) <= GroupsUpTo(groups, k, filePath, lineNumber, line, search)
    decreases k - j
  {
    if j < k {
      GroupsPrefix(groups, j, k - 1, filePath, lineNumber, line, search);
      var prev := GroupsUpTo(groups, k - 1, filePath, lineNumber, line, search);
      assert GroupsUpTo(groups, k, filePath, lineNumber, line, search)
          == prev + GroupViolations(groups[k - 1], filePath, lineNumber, line, search);
    }
  }
}
