/** CodeAnalyzer: pull the added lines out of each file's unified diff, keep
    the files whose extension marks them as code, run the security scan on
    the added text, and flag what comes from Copilot-generated files. */
module CodeAnalyzer {
  import opened Wrappers
  import opened Text
  import opened Models
  import opened Collections
  import opened SecurityScan
  import opened SecurityRules

  /** A diff line `parse_diff` keeps: it starts with `+` but not with `+++`. */
  predicate IsAddedLine(line: string)
  {
    |line| >= 1 && line[0] == '+' && !(|line| >= 3 && line[1] == '+' && line[2] == '+')
  }

  /** The kept lines with their leading `+` removed, in diff order. */
  function AddedLines(lines: seq<string>): seq<string>
  {
    var kept := Filter(lines, IsAddedLine);
    seq(|kept|, i requires 0 <= i < |kept| => kept[i][1..])
  }

  /** What `parse_diff` returns for `diff`. */
  function AddedCode(diff: string): string
  {
    Join(AddedLines(Split(diff, '\n')), "\n")
  }

  /** `parse_diff`: keep the `+` lines (not `+++`), drop the `+`, and join
      them with newlines. Hunk headers are not read. */
  method ParseDiff(diff: string, filePath: string) returns (code: string)
    ensures code == AddedCode(diff)
  {
    var lines := Split(diff, '\n');
    var addedCode: seq<string> := [];
    var n := 0;
    while n < |lines|
      invariant 0 <= n <= |lines|
      invariant addedCode == AddedLines(lines[..n])
    {
      var line := lines[n];
      assert lines[..n + 1] == lines[..n] + [line];
      FilterConcat(lines[..n], [line], IsAddedLine);
      assert Filter([line], IsAddedLine) == Filter([], IsAddedLine) + (if IsAddedLine(line) then [line] else []);
      if |line| >= 1 && line[0] == '+' && !(|line| >= 3 && line[1] == '+' && line[2] == '+') {
        addedCode := addedCode + [line[1..]];
      }
      n := n + 1;
    }
    assert lines[..n] == lines;
    code := Join(addedCode, "\n");
  }

  /** The extracted lines are exactly the kept diff lines without their `+`,
      and there are never more of them than diff lines. */
  lemma AddedLinesFacts(lines: seq<string>, x: string)
    ensures |AddedLines(lines)| <= |lines|
    ensures x in AddedLines(lines) <==> exists line :: line in lines && IsAddedLine(line) && line[1..] == x
  {
    var kept := Filter(lines, IsAddedLine);
    if x in AddedLines(lines) {
      var i :| 0 <= i < |kept| && AddedLines(lines)[i] == x;
      FilterMembership(lines, IsAddedLine, kept[i]);
    }
    if exists line :: line in lines && IsAddedLine(line) && line[1..] == x {
      var line :| line in lines && IsAddedLine(line) && line[1..] == x;
      FilterMembership(lines, IsAddedLine, line);
      var i :| 0 <= i < |kept| && kept[i] == line;
      assert AddedLines(lines)[i] == x;
    }
  }

  /** A diff without a kept line gives the empty text. */
  lemma NoAddedLineGivesEmpty(diff: string)
    requires forall line :: line in Split(diff, '\n') ==> !IsAddedLine(line)
    ensures AddedCode(diff) == ""
  {
    var lines := Split(diff, '\n');
    if |AddedLines(lines)| > 0 {
      var x := AddedLines(lines)[0];
      AddedLinesFacts(lines, x);
    }
  }

  /** Splitting the extracted text on newlines gives back the extracted lines
      (when there is at least one): nothing is merged or cut. */
  lemma AddedCodeSplits(diff: string)
    requires |AddedLines(Split(diff, '\n'))| >= 1
    ensures Split(AddedCode(diff), '\n') == AddedLines(Split(diff, '\n'))
  {
    var lines := Split(diff, '\n');
    var added := AddedLines(lines);
    forall k | 0 <= k < |added|
      ensures '\n' !in added[k]
    {
      var kept := Filter(lines, IsAddedLine);
      FilterMembership(lines, IsAddedLine, kept[k]);
      var j :| 0 <= j < |lines| && lines[j] == kept[k];
      assert added[k] == lines[j][1..];
      assert forall c :: c in lines[j][1..] ==> c in lines[j];
    }
    SplitJoin(added, '\n');
  }

  /** The extensions `_is_code_file` accepts. */
  const CodeExtensions: seq<string> := [
    ".py", ".js", ".ts", ".tsx", ".jsx", ".java", ".cs", ".cpp",
    ".c", ".go", ".rb", ".php", ".sql", ".scala", ".kt"
  ]

  /** Whether one of `exts[i..]` ends `filePath`. */
  function AnyExtensionFrom(filePath: string, exts: seq<string>, i: nat): bool
    requires i <= |exts|
    decreases |exts| - i
  {
    if i == |exts| then false
    else EndsWith(filePath, exts[i]) || AnyExtensionFrom(filePath, exts, i + 1)
  }

  lemma {:induction false} AnyExtensionFromMeaning(filePath: string, exts: seq<string>, i: nat)
    requires i <= |exts|
    ensures AnyExtensionFrom(filePath, exts, i) <==> exists j :: i <= j < |exts| && EndsWith(filePath, exts[j])
    decreases |exts| - i
  {
    if i < |exts| {
      AnyExtensionFromMeaning(filePath, exts, i + 1);
    }
  }

  /** `_is_code_file`. */
  function IsCodeFile(filePath: string): (b: bool)
    ensures b <==> exists ext :: ext in CodeExtensions && EndsWith(filePath, ext)
  {
    AnyExtensionFromMeaning(filePath, CodeExtensions, 0);
    AnyExtensionFrom(filePath, CodeExtensions, 0)
  }

  /** A Python file is code; a Markdown file is not. */
  lemma CodeFileExamples()
    ensures IsCodeFile("app/main.py")
    ensures !IsCodeFile("README.md")
  {
    assert EndsWith("app/main.py", ".py");
    forall ext | ext in CodeExtensions
      ensures !EndsWith("README.md", ext)
    {
    }
  }

  /** The fields of an analysis request `analyze_files` reads, with `files`
      given as the items of the request's dictionary, in its order. */
  datatype AnalysisRequest = AnalysisRequest(
    repoName: string,
    prNumber: int,
    commitHash: string,
    files: seq<(string, string)>,
    copilotGeneratedFiles: Option<seq<string>>)

  /** Whether the request lists `filePath` as Copilot-generated. */
  predicate IsCopilotFile(copilotGeneratedFiles: Option<seq<string>>, filePath: string)
  {
    copilotGeneratedFiles.Some? && filePath in copilotGeneratedFiles.value
  }

  /** Every violation with its Copilot flag set. */
  function MarkCopilot(vs: seq<Violation>): seq<Violation>
  {
    seq(|vs|, i requires 0 <= i < |vs| => vs[i].(isCopilotGenerated := true))
  }

  /** What `analyze_files` contributes for one file. */
  function FileViolations(groups: seq<RuleGroup>, filePath: string, diff: string, copilotGeneratedFiles: Option<seq<string>>, search: Search): seq<Violation>
  {
    if !IsCodeFile(filePath) then []
    else
      var code := AddedCode(diff);
      if Strip(code) == [] then []
      else
        var lines := Split(code, '\n');
        var found := ScanUpTo(groups, lines, |lines|, filePath, search);
        if IsCopilotFile(copilotGeneratedFiles, filePath) then MarkCopilot(found) else found
  }

  /** The per-file step of `analyze_files` as a function of the file's
      dictionary item. */
  function PerFile(groups: seq<RuleGroup>, copilotGeneratedFiles: Option<seq<string>>, search: Search): ((string, string)) -> seq<Violation>
  {
    (file: (string, string)) => FileViolations(groups, file.0, file.1, copilotGeneratedFiles, search)
  }

  /** What `analyze_files` returns: the per-file results concatenated in
      dictionary order. */
  function AnalyzeSpec(groups: seq<RuleGroup>, request: AnalysisRequest, search: Search): seq<Violation>
  {
    ConcatMap(request.files, PerFile(groups, request.copilotGeneratedFiles, search))
  }

  /** `analyze_files`, each file scanned with SecurityRuleEngine's five groups. */
  method AnalyzeFiles(request: AnalysisRequest, search: Search) returns (allViolations: seq<Violation>)
    ensures allViolations == AnalyzeSpec(Groups, request, search)
  {
    allViolations := AnalyzeFilesWith(Groups, request, search);
  }

  /** The loop of `analyze_files`, scanning with the rule groups `groups`. */
  method AnalyzeFilesWith(groups: seq<RuleGroup>, request: AnalysisRequest, search: Search) returns (allViolations: seq<Violation>)
    ensures allViolations == AnalyzeSpec(groups, request, search)
  {
    var files, copilot := request.files, request.copilotGeneratedFiles;
    allViolations := [];
    var k := 0;
    while k < |files|
      invariant 0 <= k <= |files|
      invariant allViolations == ConcatMap(files[..k], PerFile(groups, copilot, search))
    {
      var (filePath, diff) := files[k];
      var found := AnalyzeFile(groups, filePath, diff, copilot, search);
      ConcatMapStep(files, PerFile(groups, copilot, search), k);
      allViolations := allViolations + found;
      k := k + 1;
    }
    assert files[..k] == files;
  }

  /** One pass of the loop of `analyze_files`. */
  method AnalyzeFile(groups: seq<RuleGroup>, filePath: string, diff: string, copilotGeneratedFiles: Option<seq<string>>, search: Search)
    returns (violations: seq<Violation>)
    ensures violations == FileViolations(groups, filePath, diff, copilotGeneratedFiles, search)
  {
    violations := [];
    if !IsCodeFile(filePath) {
      return;
    }
    var addedCode := ParseDiff(diff, filePath);
    if Strip(addedCode) == [] {
      return;
    }
    violations := ScanCodeWith(groups, addedCode, filePath, search);
    if copilotGeneratedFiles.Some? && filePath in copilotGeneratedFiles.value {
      violations := SetCopilotFlags(violations);
    }
  }

  /** The loop that sets `is_copilot_generated` on each violation. */
  method SetCopilotFlags(vs: seq<Violation>) returns (marked: seq<Violation>)
    ensures marked == MarkCopilot(vs)
  {
    marked := vs;
    var i := 0;
    while i < |marked|
      invariant 0 <= i <= |marked| == |vs|
      invariant forall j :: 0 <= j < i ==> marked[j] == vs[j].(isCopilotGenerated := true)
      invariant forall j :: i <= j < |marked| ==> marked[j] == vs[j]
    {
      marked := marked[i := marked[i].(isCopilotGenerated := true)];
      i := i + 1;
    }
  }

  /** Marking changes the Copilot flag of each violation and nothing else. */
  lemma MarkCopilotFacts(vs: seq<Violation>)
    ensures |MarkCopilot(vs)| == |vs|
    ensures forall i :: 0 <= i < |vs| ==>
              MarkCopilot(vs)[i].isCopilotGenerated
              && MarkCopilot(vs)[i].(isCopilotGenerated := vs[i].isCopilotGenerated) == vs[i]
  {
  }

  /** A file that is not code, or whose added text is blank, contributes
      nothing. */
  lemma SkippedFileContributesNothing(groups: seq<RuleGroup>, filePath: string, diff: string, copilotGeneratedFiles: Option<seq<string>>, search: Search)
    requires !IsCodeFile(filePath) || Strip(AddedCode(diff)) == []
    ensures FileViolations(groups, filePath, diff, copilotGeneratedFiles, search) == []
  {
  }

  /** Each violation of a file names that file, which is code with added
      text that is not blank, and is flagged as Copilot output exactly when
      the request lists the file. */
  lemma FileViolationsOrigin(groups: seq<RuleGroup>, filePath: string, diff: string, copilotGeneratedFiles: Option<seq<string>>, search: Search)
    ensures forall v :: v in FileViolations(groups, filePath, diff, copilotGeneratedFiles, search) ==>
              && v.filePath == filePath && IsCodeFile(filePath) && Strip(AddedCode(diff)) != []
              && (v.isCopilotGenerated <==> IsCopilotFile(copilotGeneratedFiles, filePath))
  {
    if IsCodeFile(filePath) && Strip(AddedCode(diff)) != [] {
      var code := AddedCode(diff);
      var lines := Split(code, '\n');
      ScanUpToOrigin(groups, lines, |lines|, filePath, search);
    }
  }

  /** Over the whole request: every violation names a code file of the
      request whose added text is not blank, and is flagged as Copilot
      output exactly when that file is listed as Copilot-generated. */
  lemma AnalyzeOrigin(groups: seq<RuleGroup>, request: AnalysisRequest, search: Search)
    ensures forall v :: v in AnalyzeSpec(groups, request, search) ==>
              && (exists i :: 0 <= i < |request.files| && request.files[i].0 == v.filePath && Strip(AddedCode(request.files[i].1)) != [])
              && IsCodeFile(v.filePath)
              && (v.isCopilotGenerated <==> IsCopilotFile(request.copilotGeneratedFiles, v.filePath))
  {
    var f := PerFile(groups, request.copilotGeneratedFiles, search);
    forall v | v in AnalyzeSpec(groups, request, search)
      ensures && (exists i :: 0 <= i < |request.files| && request.files[i].0 == v.filePath && Strip(AddedCode(request.files[i].1)) != [])
              && IsCodeFile(v.filePath)
              && (v.isCopilotGenerated <==> IsCopilotFile(request.copilotGeneratedFiles, v.filePath))
    {
      ConcatMapMembership(request.files, f, v);
      var i :| 0 <= i < |request.files| && v in f(request.files[i]);
      var (filePath, diff) := request.files[i];
      FileViolationsOrigin(groups, filePath, diff, request.copilotGeneratedFiles, search);
    }
  }

  /** The record `create_scan_result` builds; the scan id and the time are
      supplied by the caller. */
  datatype ScanResult = ScanResult(
    scanId: string,
    repoName: string,
    prNumber: int,
    commitHash: string,
    violations: seq<Violation>,
    timestamp: int,
    scanStatus: string)

  /** `create_scan_result`: a completed scan of the request's repository,
      pull request and commit, holding the given violations. */
  function CreateScanResult(request: AnalysisRequest, violations: seq<Violation>, scanId: string, now: int): (r: ScanResult)
    ensures r.repoName == request.repoName && r.prNumber == request.prNumber && r.commitHash == request.commitHash
    ensures r.violations == violations && r.scanStatus == "completed"
  {
    ScanResult(scanId, request.repoName, request.prNumber, request.commitHash, violations, now, "completed")
  }
}
