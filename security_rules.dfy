/** SecurityRuleEngine's tables: five groups of secret, injection,
    deserialisation, execution and weak-crypto patterns applied to every line
    of added code, and `scan_code` over them. */
module SecurityRules {
  import opened Wrappers
  import opened Text
  import opened Models
  import opened SecurityScan

  const HardcodedSecretPatterns: seq<Pattern> := [
    Pattern("api[_-]?key\\s*=\\s*['\"]([^'\"]+)['\"]", "Hardcoded API Key"),
    Pattern("password\\s*=\\s*['\"]([^'\"]+)['\"]", "Hardcoded Password"),
    Pattern("secret\\s*=\\s*['\"]([^'\"]+)['\"]", "Hardcoded Secret"),
    Pattern("token\\s*=\\s*['\"]([^'\"]+)['\"]", "Hardcoded Token"),
    Pattern("(AKIA[0-9A-Z]{16})", "AWS Access Key ID"),
    Pattern("aws_secret_access_key\\s*=\\s*['\"]([^'\"]+)['\"]", "AWS Secret Key")
  ]

  const SqlInjectionPatterns: seq<Pattern> := [
    Pattern("execute\\s*\\(\\s*['\"].*\\{.*\\}.*['\"]", "SQL Injection: String interpolation in query"),
    Pattern("query\\s*\\(\\s*f['\"].*\\{.*\\}.*['\"]", "SQL Injection: F-string in SQL query"),
    Pattern("SELECT.*\\+.*str\\(", "SQL Injection: String concatenation in query")
  ]

  const InsecureDeserializationPatterns: seq<Pattern> := [
    Pattern("pickle\\.loads\\s*\\(", "Insecure Deserialization: pickle.loads() with untrusted data"),
    Pattern("json\\.loads\\s*\\(\\s*user_input", "Insecure JSON deserialization of user input"),
    Pattern("yaml\\.load\\s*\\(\\s*[^,]*\\)", "Insecure YAML deserialization: Missing Loader")
  ]

  const UnsafeExecutionPatterns: seq<Pattern> := [
    Pattern("eval\\s*\\(", "Unsafe Code Execution: eval()"),
    Pattern("exec\\s*\\(", "Unsafe Code Execution: exec()"),
    Pattern("subprocess\\.call\\s*\\(\\s*cmd\\s*,\\s*shell\\s*=\\s*True", "Unsafe Shell Execution"),
    Pattern("os\\.system\\s*\\(", "Unsafe System Command Execution: os.system()")
  ]

  const WeakCryptoPatterns: seq<Pattern> := [
    Pattern("hashlib\\.md5\\s*\\(", "Weak Cryptography: MD5 is insecure"),
    Pattern("hashlib\\.sha1\\s*\\(", "Weak Cryptography: SHA1 is deprecated"),
    Pattern("DES\\s*\\(", "Weak Cryptography: DES is insecure")
  ]

  /** The five `scan_line` calls of `scan_code`, in the order they are made. */
  const Groups: seq<RuleGroup> := [
    RuleGroup("SEC-001", HardcodedSecretPatterns, "CWE-798", "A02:2021 \U{2013} Cryptographic Failures", Critical),
    RuleGroup("SEC-002", SqlInjectionPatterns, "CWE-89", "A03:2021 \U{2013} Injection", Critical),
    RuleGroup("SEC-003", InsecureDeserializationPatterns, "CWE-502", "A08:2021 \U{2013} Software and Data Integrity Failures", High),
    RuleGroup("SEC-004", UnsafeExecutionPatterns, "CWE-95", "A03:2021 \U{2013} Injection", Critical),
    RuleGroup("SEC-005", WeakCryptoPatterns, "CWE-327", "A02:2021 \U{2013} Cryptographic Failures", High)
  ]

  /** What `scan_code` returns for `code`. */
  function ScanCodeSpec(code: string, filePath: string, search: Search): seq<Violation>
  {
    var lines := Split(code, '\n');
    ScanUpTo(Groups, lines, |lines|, filePath, search)
  }

  /** `scan_code`: split on newlines, skip comments and blanks, and collect the
      five groups' reports line by line. */
  method ScanCode(code: string, filePath: string, search: Search) returns (violations: seq<Violation>)
    ensures violations == ScanCodeSpec(code, filePath, search)
  {
    violations := ScanCodeWith(Groups, code, filePath, search);
  }

  /** The five groups `scan_code` checks are SEC-001 to SEC-005 in that
      order, with SEC-003 and SEC-005 at HIGH and the others CRITICAL. */
  lemma GroupsWellRanked()
    ensures |Groups| == 5 && WellRanked(Groups)
  {
  }

  /** Per scanned line, at most five violations, at most one of each of
      SEC-001 to SEC-005, in that order, with fixed severities. */
  lemma LineAtMostFive(filePath: string, lineNumber: int, line: string, search: Search)
    ensures |LineViolations(Groups, filePath, lineNumber, line, search)| <= 5
    ensures forall i, j :: 0 <= i < j < |LineViolations(Groups, filePath, lineNumber, line, search)| ==>
              Rank(LineViolations(Groups, filePath, lineNumber, line, search)[i].ruleId)
                < Rank(LineViolations(Groups, filePath, lineNumber, line, search)[j].ruleId)
    ensures forall v :: v in LineViolations(Groups, filePath, lineNumber, line, search) ==>
              Rank(v.ruleId) < 5 && v.severity == FixedSeverity(v.ruleId)
  {
    GroupsWellRanked();
    GroupsUpToFacts(Groups, |Groups|, filePath, lineNumber, line, search);
  }

  /** A single line that is blank or a `#` / `//` comment yields nothing,
      whatever the patterns match. */
  lemma CommentLineYieldsNothing(line: string, filePath: string, search: Search)
    requires '\n' !in line
    requires Skipped(line)
    ensures ScanCodeSpec(line, filePath, search) == []
  {
    SplitSingleLine(line);
    assert ScanUpTo(Groups, [line], 1, filePath, search) == [] + LineViolations(Groups, filePath, 1, line, search);
  }

  /** A single line that is not skipped and matches the first secret pattern
      yields a SEC-001 CRITICAL SECURITY violation first. */
  lemma SecretLineIsCritical(line: string, filePath: string, search: Search)
    requires '\n' !in line
    requires !Skipped(line)
    requires search(HardcodedSecretPatterns[0].regex, line)
    ensures |ScanCodeSpec(line, filePath, search)| >= 1
    ensures var v := ScanCodeSpec(line, filePath, search)[0];
            v.ruleId == "SEC-001" && v.severity == Critical && v.category == Security
            && v.ruleName == "Hardcoded API Key" && v.lineNumber == 1
  {
    SplitSingleLine(line);
    var g := Groups[0];
    assert FirstMatchFrom(g.patterns, line, search, 0) == Some(0);
    FirstGroupLeads(Groups, filePath, 1, line, search);
    assert ScanUpTo(Groups, [line], 1, filePath, search) == [] + LineViolations(Groups, filePath, 1, line, search);
  }
}
