/** LicenseCompliance: license declarations found in code, their
    compatibility with an allow-list, copy-paste and import markers that
    signal IP risk (IP-001, IP-002), the license of a dependency line, and
    LICENSE-001 violations for declarations outside the allow-list. */
module LicenseChecker {
  import opened Wrappers
  import opened Text
  import opened Models
  import opened Collections

  /** A license pattern of `detect_license_declarations`: its regex, its
      label, and whether the regex has a capture group. */
  datatype LicensePattern = LicensePattern(regex: string, name: string, hasGroup: bool)

  /** The text a regex's first capture group matched in a line; regex
      evaluation is not modelled, so it is supplied by the caller. */
  type Capture = (string, string) -> string

  const LicensePatterns: seq<LicensePattern> := [
    LicensePattern("SPDX-License-Identifier:\\s*([A-Za-z0-9\\.\\-]+)", "SPDX", true),
    LicensePattern("License:\\s*([A-Za-z0-9\\.\\-\\s]+)", "License Comment", true),
    LicensePattern("MIT", "MIT", false),
    LicensePattern("Apache-2\\.0|Apache License 2\\.0", "Apache-2.0", false),
    LicensePattern("GPL-3\\.0|GNU General Public License v3", "GPL-3.0", false)
  ]

  const SuspiciousImports: seq<Pattern> := [
    Pattern("from\\s+some_library\\s+import", "Placeholder import - likely from copied code"),
    Pattern("import\\s+TODO\\s+", "Placeholder import with TODO marker"),
    Pattern("import\\s+\\*\\s+#\\s*All", "Wildcard import - code review recommended")
  ]

  const CopyPasteIndicators: seq<Pattern> := [
    Pattern("# This is copied from", "Copied code marker"),
    Pattern("# Source:\\s*", "Attribution comment (good practice)"),
    Pattern("# Based on", "Code derivative marker"),
    Pattern("/\\*.*[Cc]opyright\\s+\\d{4}-\\d{4}\\s+\\w+", "Copyright header - verify license compatibility")
  ]

  /** One entry of `detect_license_declarations`: the `type`, `detected`
      and `line` keys of its dictionary. */
  datatype LicenseDeclaration = LicenseDeclaration(licenseType: string, detected: string, line: string)

  /** The license a matching pattern reports: its capture group when it has
      one, otherwise its label. */
  function Detected(p: LicensePattern, line: string, capture: Capture): string
  {
    if p.hasGroup then capture(p.regex, line) else p.name
  }

  /** What one pattern adds for one line. */
  function DeclarationHit(line: string, search: Search, capture: Capture, p: LicensePattern): seq<LicenseDeclaration>
  {
    if search(p.regex, line) then [LicenseDeclaration(p.name, Detected(p, line, capture), Strip(line))] else []
  }

  function DeclarationHits(line: string, search: Search, capture: Capture): LicensePattern -> seq<LicenseDeclaration>
  {
    (p: LicensePattern) => DeclarationHit(line, search, capture, p)
  }

  /** What the inner loop adds for one line. */
  function LineDeclaration(patterns: seq<LicensePattern>, search: Search, capture: Capture, line: string): seq<LicenseDeclaration>
  {
    ConcatMap(patterns, DeclarationHits(line, search, capture))
  }

  function LineDeclarations(patterns: seq<LicensePattern>, search: Search, capture: Capture): string -> seq<LicenseDeclaration>
  {
    (line: string) => LineDeclaration(patterns, search, capture, line)
  }

  /** What `detect_license_declarations` returns for the lines of its code. */
  function DeclarationsSpec(patterns: seq<LicensePattern>, lines: seq<string>, search: Search, capture: Capture): seq<LicenseDeclaration>
  {
    ConcatMap(lines, LineDeclarations(patterns, search, capture))
  }

  /** `detect_license_declarations`. */
  method DetectLicenseDeclarations(code: string, filePath: string, search: Search, capture: Capture)
    returns (licenses: seq<LicenseDeclaration>)
    ensures licenses == DeclarationsSpec(LicensePatterns, Split(code, '\n'), search, capture)
  {
    licenses := DetectDeclarationsWith(LicensePatterns, code, search, capture);
  }

  /** The two loops of `detect_license_declarations` over the table `patterns`. */
  method DetectDeclarationsWith(patterns: seq<LicensePattern>, code: string, search: Search, capture: Capture)
    returns (licenses: seq<LicenseDeclaration>)
    ensures licenses == DeclarationsSpec(patterns, Split(code, '\n'), search, capture)
  {
    var lines := Split(code, '\n');
    ghost var perLine := LineDeclarations(patterns, search, capture);
    licenses := [];
    var n := 0;
    while n < |lines|
      invariant 0 <= n <= |lines|
      invariant licenses == ConcatMap(lines[..n], perLine)
    {
      var line := lines[n];
      ghost var before := licenses;
      ghost var hits := DeclarationHits(line, search, capture);
      var j := 0;
      while j < |patterns|
        invariant 0 <= j <= |patterns|
        invariant licenses == before + ConcatMap(patterns[..j], hits)
      {
        ConcatMapStep(patterns, hits, j);
        var p := patterns[j];
        if search(p.regex, line) {
          var detected := if p.hasGroup then capture(p.regex, line) else p.name;
          licenses := licenses + [LicenseDeclaration(p.name, detected, Strip(line))];
        }
        j := j + 1;
      }
      assert patterns[..j] == patterns;
      ConcatMapStep(lines, perLine, n);
      assert perLine(lines[n]) == LineDeclaration(patterns, search, capture, line);
      n := n + 1;
    }
    assert lines[..n] == lines;
  }

  /** One entry per line and matching pattern, carrying the pattern's label,
      the capture group or the label, and the stripped line. */
  lemma DeclarationsMembership(patterns: seq<LicensePattern>, lines: seq<string>, search: Search, capture: Capture, d: LicenseDeclaration)
    ensures d in DeclarationsSpec(patterns, lines, search, capture) <==>
              exists i, j :: 0 <= i < |lines| && 0 <= j < |patterns| && search(patterns[j].regex, lines[i])
                             && d == LicenseDeclaration(patterns[j].name, Detected(patterns[j], lines[i], capture), Strip(lines[i]))
  {
    ConcatMapMembership(lines, LineDeclarations(patterns, search, capture), d);
    if d in DeclarationsSpec(patterns, lines, search, capture) {
      var i :| 0 <= i < |lines| && d in LineDeclarations(patterns, search, capture)(lines[i]);
      ConcatMapMembership(patterns, DeclarationHits(lines[i], search, capture), d);
      var j :| 0 <= j < |patterns| && d in DeclarationHits(lines[i], search, capture)(patterns[j]);
      assert search(patterns[j].regex, lines[i]);
    }
    if exists i, j :: 0 <= i < |lines| && 0 <= j < |patterns| && search(patterns[j].regex, lines[i])
                      && d == LicenseDeclaration(patterns[j].name, Detected(patterns[j], lines[i], capture), Strip(lines[i])) {
      var i, j :| 0 <= i < |lines| && 0 <= j < |patterns| && search(patterns[j].regex, lines[i])
                  && d == LicenseDeclaration(patterns[j].name, Detected(patterns[j], lines[i], capture), Strip(lines[i]));
      ConcatMapMembership(patterns, DeclarationHits(lines[i], search, capture), d);
      assert d in LineDeclarations(patterns, search, capture)(lines[i]);
    }
  }

  /** The licenses of `detected` outside `allowed`, in order. */
  function Incompatible(detected: seq<string>, allowed: seq<string>): seq<string>
  {
    Filter(detected, (l: string) => l !in allowed)
  }

  /** `check_license_compatibility`. */
  method CheckLicenseCompatibility(detected: seq<string>, allowed: seq<string>) returns (compatible: bool, incompatible: seq<string>)
    ensures incompatible == Incompatible(detected, allowed)
    ensures compatible <==> incompatible == []
  {
    incompatible := [];
    var i := 0;
    while i < |detected|
      invariant 0 <= i <= |detected|
      invariant incompatible == Incompatible(detected[..i], allowed)
    {
      assert detected[..i + 1][..i] == detected[..i];
      if detected[i] !in allowed {
        incompatible := incompatible + [detected[i]];
      }
      i := i + 1;
    }
    assert detected[..i] == detected;
    compatible := |incompatible| == 0;
  }

  /** The check passes exactly when every detected license is allowed, and
      the incompatible list holds exactly the detected licenses that are
      not, none of them allowed. */
  lemma CompatibilityMeaning(detected: seq<string>, allowed: seq<string>, l: string)
    ensures Incompatible(detected, allowed) == [] <==> forall x :: x in detected ==> x in allowed
    ensures l in Incompatible(detected, allowed) <==> l in detected && l !in allowed
  {
    var notAllowed := (x: string) => x !in allowed;
    FilterMembership(detected, notAllowed, l);
    if Incompatible(detected, allowed) != [] {
      FilterMembership(detected, notAllowed, Incompatible(detected, allowed)[0]);
    }
    forall x | x in detected && x !in allowed
      ensures x in Incompatible(detected, allowed)
    {
      FilterMembership(detected, notAllowed, x);
    }
  }

  const SourceMarker := "Source:"
  const BasedOnMarker := "Based on"
  const IpRisk := "IP/License Risk"
  const IpCwe := "CWE-1104"
  const CopyMessageHead := "IP compliance check: "
  const CopyMessageTail := ". Verify license compatibility."
  const ImportMessageHead := "IP risk: "

  /** IP-001 is informational on a line that cites its origin, MEDIUM
      otherwise. */
  function CopySeverity(line: string): Severity
  {
    if Contains(line, SourceMarker) || Contains(line, BasedOnMarker) then Info else Medium
  }

  /** The IP-001 violation a copy-paste indicator adds. */
  function CopyViolation(p: Pattern, filePath: string, lineNumber: int, line: string): Violation
  {
    Violation("IP-001", "Code Derivative Detection", License, CopySeverity(line),
              CopyMessageHead + p.message + CopyMessageTail,
              filePath, lineNumber, Strip(line), Some(IpCwe), Some(IpRisk), false, None)
  }

  /** The IP-002 violation a suspicious import adds. */
  function ImportViolation(p: Pattern, filePath: string, lineNumber: int, line: string): Violation
  {
    Violation("IP-002", "Suspicious Import Pattern", License, Medium,
              ImportMessageHead + p.message,
              filePath, lineNumber, Strip(line), Some(IpCwe), Some(IpRisk), false, None)
  }

  function CopyHit(filePath: string, lineNumber: int, line: string, search: Search, p: Pattern): seq<Violation>
  {
    if search(p.regex, line) then [CopyViolation(p, filePath, lineNumber, line)] else []
  }

  function CopyHits(filePath: string, lineNumber: int, line: string, search: Search): Pattern -> seq<Violation>
  {
    (p: Pattern) => CopyHit(filePath, lineNumber, line, search, p)
  }

  function ImportHit(filePath: string, lineNumber: int, line: string, search: Search, p: Pattern): seq<Violation>
  {
    if search(p.regex, line) then [ImportViolation(p, filePath, lineNumber, line)] else []
  }

  function ImportHits(filePath: string, lineNumber: int, line: string, search: Search): Pattern -> seq<Violation>
  {
    (p: Pattern) => ImportHit(filePath, lineNumber, line, search, p)
  }

  /** What `detect_ip_risks` adds for one numbered line: every copy-paste
      hit (IP-001), then every suspicious-import hit (IP-002). No line is
      skipped. */
  function LineIpRisk(copyPaste: seq<Pattern>, imports: seq<Pattern>, filePath: string, search: Search, l: (int, string)): seq<Violation>
  {
    ConcatMap(copyPaste, CopyHits(filePath, l.0, l.1, search))
    + ConcatMap(imports, ImportHits(filePath, l.0, l.1, search))
  }

  function LineIpRisks(copyPaste: seq<Pattern>, imports: seq<Pattern>, filePath: string, search: Search): ((int, string)) -> seq<Violation>
  {
    (l: (int, string)) => LineIpRisk(copyPaste, imports, filePath, search, l)
  }

  /** What `detect_ip_risks` returns for the lines of its code. */
  function IpRisksSpec(copyPaste: seq<Pattern>, imports: seq<Pattern>, lines: seq<string>, filePath: string, search: Search): seq<Violation>
  {
    ConcatMap(NumberedLines(lines), LineIpRisks(copyPaste, imports, filePath, search))
  }

  /** `detect_ip_risks`. */
  method DetectIpRisks(code: string, filePath: string, search: Search) returns (violations: seq<Violation>)
    ensures violations == IpRisksSpec(CopyPasteIndicators, SuspiciousImports, Split(code, '\n'), filePath, search)
  {
    violations := DetectIpRisksWith(CopyPasteIndicators, SuspiciousImports, code, filePath, search);
  }

  /** The loops of `detect_ip_risks` over the tables `copyPaste` and `imports`. */
  method DetectIpRisksWith(copyPaste: seq<Pattern>, imports: seq<Pattern>, code: string, filePath: string, search: Search)
    returns (violations: seq<Violation>)
    ensures violations == IpRisksSpec(copyPaste, imports, Split(code, '\n'), filePath, search)
  {
    var lines := Split(code, '\n');
    ghost var numbered := NumberedLines(lines);
    ghost var perLine := LineIpRisks(copyPaste, imports, filePath, search);
    violations := [];
    var n := 0;
    while n < |lines|
      invariant 0 <= n <= |lines|
      invariant violations == ConcatMap(numbered[..n], perLine)
    {
      var line := lines[n];
      assert numbered[n] == (n + 1, line);
      ConcatMapStep(numbered, perLine, n);
      assert perLine(numbered[n]) == LineIpRisk(copyPaste, imports, filePath, search, (n + 1, line));
      var hits := LineIpRiskLoops(copyPaste, imports, filePath, n + 1, line, search);
      violations := violations + hits;
      n := n + 1;
    }
    assert numbered[..n] == numbered;
  }

  /** The body of the line loop of `detect_ip_risks`: its two inner loops. */
  method LineIpRiskLoops(copyPaste: seq<Pattern>, imports: seq<Pattern>, filePath: string, lineNumber: int, line: string, search: Search)
    returns (hits: seq<Violation>)
    ensures hits == LineIpRisk(copyPaste, imports, filePath, search, (lineNumber, line))
  {
    var copied := CopyPasteLoop(copyPaste, filePath, lineNumber, line, search);
    var imported := ImportLoop(imports, filePath, lineNumber, line, search);
    hits := copied + imported;
  }

  /** The copy-paste loop of `detect_ip_risks` for one line, with its
      severity choice. */
  method CopyPasteLoop(copyPaste: seq<Pattern>, filePath: string, lineNumber: int, line: string, search: Search)
    returns (hits: seq<Violation>)
    ensures hits == ConcatMap(copyPaste, CopyHits(filePath, lineNumber, line, search))
  {
    hits := [];
    var j := 0;
    while j < |copyPaste|
      invariant 0 <= j <= |copyPaste|
      invariant hits == ConcatMap(copyPaste[..j], CopyHits(filePath, lineNumber, line, search))
    {
      ConcatMapStep(copyPaste, CopyHits(filePath, lineNumber, line, search), j);
      var p := copyPaste[j];
      if search(p.regex, line) {
        var severity;
        if Contains(line, SourceMarker) || Contains(line, BasedOnMarker) {
          severity := Info;
        } else {
          severity := Medium;
        }
        hits := hits + [Violation("IP-001", "Code Derivative Detection", License, severity,
                                  CopyMessageHead + p.message + CopyMessageTail,
                                  filePath, lineNumber, Strip(line), Some(IpCwe), Some(IpRisk), false, None)];
      }
      j := j + 1;
    }
    assert copyPaste[..j] == copyPaste;
  }

  /** The suspicious-import loop of `detect_ip_risks` for one line. */
  method ImportLoop(imports: seq<Pattern>, filePath: string, lineNumber: int, line: string, search: Search)
    returns (hits: seq<Violation>)
    ensures hits == ConcatMap(imports, ImportHits(filePath, lineNumber, line, search))
  {
    hits := [];
    var j := 0;
    while j < |imports|
      invariant 0 <= j <= |imports|
      invariant hits == ConcatMap(imports[..j], ImportHits(filePath, lineNumber, line, search))
    {
      ConcatMapStep(imports, ImportHits(filePath, lineNumber, line, search), j);
      if search(imports[j].regex, line) {
        hits := hits + [ImportViolation(imports[j], filePath, lineNumber, line)];
      }
      j := j + 1;
    }
    assert imports[..j] == imports;
  }

  /** `v` is what `detect_ip_risks` reports for the line `line` at
      `lineNumber`: a LICENSE violation with CWE-1104, either IP-001 at INFO
      exactly when the line cites `Source:` or `Based on` (MEDIUM otherwise),
      or IP-002 at MEDIUM. */
  predicate IpReported(v: Violation, filePath: string, lineNumber: int, line: string)
  {
    && v.category == License && v.cweId == Some(IpCwe)
    && v.filePath == filePath && v.lineNumber == lineNumber && v.lineContent == Strip(line)
    && ((v.ruleId == "IP-001" && (v.severity == Info <==> Contains(line, SourceMarker) || Contains(line, BasedOnMarker))
                              && (v.severity == Info || v.severity == Medium))
        || (v.ruleId == "IP-002" && v.severity == Medium))
  }

  lemma LineIpRiskFacts(copyPaste: seq<Pattern>, imports: seq<Pattern>, filePath: string, lineNumber: int, line: string, search: Search)
    ensures forall v :: v in LineIpRisk(copyPaste, imports, filePath, search, (lineNumber, line)) ==>
              IpReported(v, filePath, lineNumber, line)
  {
    forall v | v in ConcatMap(copyPaste, CopyHits(filePath, lineNumber, line, search))
      ensures IpReported(v, filePath, lineNumber, line)
    {
      ConcatMapMembership(copyPaste, CopyHits(filePath, lineNumber, line, search), v);
    }
    forall v | v in ConcatMap(imports, ImportHits(filePath, lineNumber, line, search))
      ensures IpReported(v, filePath, lineNumber, line)
    {
      ConcatMapMembership(imports, ImportHits(filePath, lineNumber, line, search), v);
    }
  }

  lemma IpRiskFromSomeLine(copyPaste: seq<Pattern>, imports: seq<Pattern>, lines: seq<string>, filePath: string, search: Search, v: Violation)
    requires v in IpRisksSpec(copyPaste, imports, lines, filePath, search)
    ensures exists i :: 0 <= i < |lines| && IpReported(v, filePath, i + 1, lines[i])
  {
    var numbered := NumberedLines(lines);
    var perLine := LineIpRisks(copyPaste, imports, filePath, search);
    ConcatMapMembership(numbered, perLine, v);
    var i :| 0 <= i < |numbered| && v in perLine(numbered[i]);
    assert numbered[i] == (i + 1, lines[i]);
    LineIpRiskFacts(copyPaste, imports, filePath, i + 1, lines[i], search);
    assert IpReported(v, filePath, i + 1, lines[i]);
  }

  /** Every violation of `detect_ip_risks` is reported for one of the lines,
      named by its 1-based number, with the severity rules above. */
  lemma IpRisksFacts(copyPaste: seq<Pattern>, imports: seq<Pattern>, lines: seq<string>, filePath: string, search: Search)
    ensures forall v :: v in IpRisksSpec(copyPaste, imports, lines, filePath, search) ==>
              exists i :: 0 <= i < |lines| && IpReported(v, filePath, i + 1, lines[i])
  {
    forall v | v in IpRisksSpec(copyPaste, imports, lines, filePath, search)
      ensures exists i :: 0 <= i < |lines| && IpReported(v, filePath, i + 1, lines[i])
    {
      IpRiskFromSomeLine(copyPaste, imports, lines, filePath, search, v);
    }
  }

  /** Whether the lower-cased `package` occurs in the lower-cased line. */
  predicate Mentions(dependencyLine: string, package: string)
  {
    Contains(Lower(dependencyLine), Lower(package))
  }

  /** `detect_license_from_dependency`, with the dictionary given as its
      items in order: the license of the first package the line mentions,
      or None when it mentions none. */
  method DetectLicenseFromDependency(dependencyLine: string, dependencyLicenses: seq<(string, string)>)
    returns (license: Option<string>)
    ensures license.None? <==> forall k :: 0 <= k < |dependencyLicenses| ==> !Mentions(dependencyLine, dependencyLicenses[k].0)
    ensures license.Some? ==>
              exists k :: 0 <= k < |dependencyLicenses| && Mentions(dependencyLine, dependencyLicenses[k].0)
                          && license.value == dependencyLicenses[k].1
                          && forall j :: 0 <= j < k ==> !Mentions(dependencyLine, dependencyLicenses[j].0)
  {
    var i := 0;
    while i < |dependencyLicenses|
      invariant 0 <= i <= |dependencyLicenses|
      invariant forall j :: 0 <= j < i ==> !Mentions(dependencyLine, dependencyLicenses[j].0)
    {
      var (package, licenseName) := dependencyLicenses[i];
      if Contains(Lower(dependencyLine), Lower(package)) {
        return Some(licenseName);
      }
      i := i + 1;
    }
    return None;
  }

  const License001Head := "Detected license '"
  const License001Middle := "' not in allowed list: "

  /** The LICENSE-001 violation for a declaration outside the allow-list:
      HIGH, always on line 1, carrying the declaration's line. */
  function LicenseViolation(d: LicenseDeclaration, filePath: string, allowed: seq<string>): Violation
  {
    Violation("LICENSE-001", "Incompatible License Detected", License, High,
              License001Head + d.detected + License001Middle + Join(allowed, ", "),
              filePath, 1, d.line, Some(IpCwe), Some(IpRisk), false, None)
  }

  function LicenseHit(allowed: seq<string>, filePath: string, d: LicenseDeclaration): seq<Violation>
  {
    if d.detected !in allowed then [LicenseViolation(d, filePath, allowed)] else []
  }

  function LicenseHits(allowed: seq<string>, filePath: string): LicenseDeclaration -> seq<Violation>
  {
    (d: LicenseDeclaration) => LicenseHit(allowed, filePath, d)
  }

  /** What `check_license_violations` returns for the declarations it found. */
  function LicenseViolationsSpec(declarations: seq<LicenseDeclaration>, filePath: string, allowed: seq<string>): seq<Violation>
  {
    ConcatMap(declarations, LicenseHits(allowed, filePath))
  }

  /** `check_license_violations`. */
  method CheckLicenseViolations(code: string, filePath: string, allowed: seq<string>, search: Search, capture: Capture)
    returns (violations: seq<Violation>)
    ensures violations == LicenseViolationsSpec(DeclarationsSpec(LicensePatterns, Split(code, '\n'), search, capture), filePath, allowed)
  {
    var detectedLicenses := DetectLicenseDeclarations(code, filePath, search, capture);
    violations := LicenseViolationsOf(detectedLicenses, filePath, allowed);
  }

  /** The loop of `check_license_violations` over the declarations. */
  method LicenseViolationsOf(declarations: seq<LicenseDeclaration>, filePath: string, allowed: seq<string>)
    returns (violations: seq<Violation>)
    ensures violations == LicenseViolationsSpec(declarations, filePath, allowed)
  {
    violations := [];
    var i := 0;
    while i < |declarations|
      invariant 0 <= i <= |declarations|
      invariant violations == ConcatMap(declarations[..i], LicenseHits(allowed, filePath))
    {
      ConcatMapStep(declarations, LicenseHits(allowed, filePath), i);
      var detected := declarations[i].detected;
      if detected !in allowed {
        violations := violations + [LicenseViolation(declarations[i], filePath, allowed)];
      }
      i := i + 1;
    }
    assert declarations[..i] == declarations;
  }

  /** Exactly one LICENSE-001 HIGH violation on line 1 per declaration whose
      license is not allowed, and none for allowed ones. */
  lemma LicenseViolationsFacts(declarations: seq<LicenseDeclaration>, filePath: string, allowed: seq<string>)
    ensures |LicenseViolationsSpec(declarations, filePath, allowed)|
            == |Filter(declarations, (d: LicenseDeclaration) => d.detected !in allowed)|
    ensures forall v :: v in LicenseViolationsSpec(declarations, filePath, allowed) ==>
              exists d :: d in declarations && d.detected !in allowed && v == LicenseViolation(d, filePath, allowed)
    ensures forall v :: v in LicenseViolationsSpec(declarations, filePath, allowed) ==>
              v.ruleId == "LICENSE-001" && v.severity == High && v.lineNumber == 1 && v.category == License
  {
    ConcatMapSingletons(declarations, LicenseHits(allowed, filePath), (d: LicenseDeclaration) => d.detected !in allowed);
    forall v | v in LicenseViolationsSpec(declarations, filePath, allowed)
      ensures exists d :: d in declarations && d.detected !in allowed && v == LicenseViolation(d, filePath, allowed)
    {
      ConcatMapMembership(declarations, LicenseHits(allowed, filePath), v);
      var i :| 0 <= i < |declarations| && v in LicenseHits(allowed, filePath)(declarations[i]);
      assert declarations[i] in declarations;
    }
  }
}
