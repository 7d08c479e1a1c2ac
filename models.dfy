/** The records shared by every part of the scan-and-enforce pipeline: a
    Violation with its severity and category, the enforcement modes, the
    JSON-like values that configuration and audit files decode to, and the
    regular-expression search the rule tables are written for. */
module Models {
  import opened Wrappers

  datatype Severity = Critical | High | Medium | Low | Info
  {
    function Value(): string
    {
      match this
      case Critical => "critical"
      case High => "high"
      case Medium => "medium"
      case Low => "low"
      case Info => "info"
    }
  }

  /** The rule categories the core assigns or tests for. */
  datatype Category = Security | Compliance | License | CodeQuality
  {
    function Value(): string
    {
      match this
      case Security => "security"
      case Compliance => "compliance"
      case License => "license"
      case CodeQuality => "code_quality"
    }
  }

  datatype EnforcementMode = Advisory | Warning | Blocking

  /** One rule match against one line (or one file) of a change. */
  datatype Violation = Violation(
    ruleId: string,
    ruleName: string,
    category: Category,
    severity: Severity,
    message: string,
    filePath: string,
    lineNumber: int,
    lineContent: string,
    cweId: Option<string>,
    owaspCategory: Option<string>,
    isCopilotGenerated: bool,
    suggestedFix: Option<string>)

  /** `re.search(regex, text, re.IGNORECASE) is not None`: the regular
      expression engine, given the pattern's source text and the text. */
  type Search = (string, string) -> bool

  /** One row of a rule table: a pattern's source text and the message
      that goes with it. */
  datatype Pattern = Pattern(regex: string, message: string)

  /** A decoded JSON or YAML document. */
  datatype Value =
    | Null
    | Bool(b: bool)
    | Int(i: int)
    | Str(s: string)
    | List(items: seq<Value>)
    | Object(fields: map<string, Value>)
}
