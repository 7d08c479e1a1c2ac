/** Rule configuration: rules and rulesets, their conversion to a document
    (`to_dict`) and back (`_parse_config`), the in-place edits a ruleset
    allows, the choice of format by file suffix, and the manager of named
    rulesets with one active ruleset.

    A decoded YAML or JSON document is a `Value`. Reading and decoding the
    file is not part of this model: `Load` receives the decoded document. */
module ConfigLoader {
  import opened Wrappers
  import opened Text
  import opened Models
  import opened Collections

  /** The fields of one rule. `rule_id` and `name` are None when the
      document lacks them. */
  datatype RuleData = RuleData(
    ruleId: Option<string>,
    name: Option<string>,
    enabled: bool,
    severity: string,
    description: string,
    pattern: Option<string>,
    category: string,
    cweId: Option<string>,
    owaspCategory: Option<string>,
    tags: seq<string>,
    languages: seq<string>,
    customMessage: Option<string>)

  /** The fields of one ruleset. */
  datatype RuleSetData = RuleSetData(
    name: string,
    version: string,
    description: string,
    rules: seq<RuleData>,
    overrides: map<string, Value>)

  const RuleIdKey := "rule_id"
  const NameKey := "name"
  const EnabledKey := "enabled"
  const SeverityKey := "severity"
  const DescriptionKey := "description"
  const PatternKey := "pattern"
  const CategoryKey := "category"
  const CweKey := "cwe_id"
  const OwaspKey := "owasp_category"
  const TagsKey := "tags"
  const LanguagesKey := "languages"
  const CustomMessageKey := "custom_message"
  const VersionKey := "version"
  const RulesKey := "rules"
  const OverridesKey := "overrides"

  const DefaultSeverity := "medium"
  const DefaultCategory := "security"
  const DefaultRulesetName := "custom-ruleset"
  const DefaultVersion := "1.0.0"

  const NotAMapping := "configuration is not a mapping"
  const WrongType := "wrong type for key: "

  function OptionValue(o: Option<string>): Value
  {
    match o
    case None => Null
    case Some(s) => Str(s)
  }

  function StringsValue(ss: seq<string>): (v: Value)
    ensures v.List? && |v.items| == |ss|
    ensures forall i :: 0 <= i < |ss| ==> v.items[i] == Str(ss[i])
  {
    List(seq(|ss|, i requires 0 <= i < |ss| => Str(ss[i])))
  }

  /** `RuleConfig.to_dict` on the rule's fields. */
  function RuleToDict(d: RuleData): Value
  {
    Object(map[
      RuleIdKey := OptionValue(d.ruleId),
      NameKey := OptionValue(d.name),
      EnabledKey := Bool(d.enabled),
      SeverityKey := Str(d.severity),
      DescriptionKey := Str(d.description),
      PatternKey := OptionValue(d.pattern),
      CategoryKey := Str(d.category),
      CweKey := OptionValue(d.cweId),
      OwaspKey := OptionValue(d.owaspCategory),
      TagsKey := StringsValue(d.tags),
      LanguagesKey := StringsValue(d.languages),
      CustomMessageKey := OptionValue(d.customMessage)])
  }

  /** `[r.to_dict() for r in rules]`. */
  function RuleDicts(rules: seq<RuleData>): (vs: seq<Value>)
    ensures |vs| == |rules|
    ensures forall i :: 0 <= i < |rules| ==> vs[i] == RuleToDict(rules[i])
  {
    seq(|rules|, i requires 0 <= i < |rules| => RuleToDict(rules[i]))
  }

  /** `RuleSet.to_dict` on the ruleset's fields. */
  function RuleSetToDict(rs: RuleSetData): Value
  {
    Object(map[
      NameKey := Str(rs.name),
      VersionKey := Str(rs.version),
      DescriptionKey := Str(rs.description),
      RulesKey := List(RuleDicts(rs.rules)),
      OverridesKey := Object(rs.overrides)])
  }

  /** `m.get(key, default)` for a text value. */
  function StringOr(m: map<string, Value>, key: string, default: string): (r: Result<string, string>)
    ensures key !in m ==> r == Success(default)
  {
    if key !in m then Success(default)
    else match m[key]
      case Str(s) => Success(s)
      case _ => Failure(WrongType + key)
  }

  /** `m.get(key)` for an optional text value: absent and null are None. */
  function OptionalString(m: map<string, Value>, key: string): (r: Result<Option<string>, string>)
    ensures key !in m ==> r == Success(None)
  {
    if key !in m then Success(None)
    else match m[key]
      case Null => Success(None)
      case Str(s) => Success(Some(s))
      case _ => Failure(WrongType + key)
  }

  /** `m.get(key, default)` for a flag. */
  function BoolOr(m: map<string, Value>, key: string, default: bool): (r: Result<bool, string>)
    ensures key !in m ==> r == Success(default)
  {
    if key !in m then Success(default)
    else match m[key]
      case Bool(b) => Success(b)
      case _ => Failure(WrongType + key)
  }

  /** The texts of a list of text values. */
  function Strings(items: seq<Value>): (r: Option<seq<string>>)
    ensures r.Some? ==> |r.value| == |items|
  {
    if |items| == 0 then Some([])
    else match (Strings(items[..|items| - 1]), items[|items| - 1])
      case (Some(ss), Str(s)) => Some(ss + [s])
      case _ => None
  }

  /** `m.get(key, []) or []` for a list of texts: absent and null are empty. */
  function StringsOr(m: map<string, Value>, key: string): (r: Result<seq<string>, string>)
    ensures key !in m ==> r == Success([])
  {
    if key !in m then Success([])
    else match m[key]
      case Null => Success([])
      case List(items) =>
        (match Strings(items)
         case Some(ss) => Success(ss)
         case None => Failure(WrongType + key))
      case _ => Failure(WrongType + key)
  }

  /** The first four keys `_parse_config` reads from a rule. */
  function ParseRuleIdentity(m: map<string, Value>): Result<(Option<string>, Option<string>, bool, string), string>
  {
    var ruleId :- OptionalString(m, RuleIdKey);
    var name :- OptionalString(m, NameKey);
    var enabled :- BoolOr(m, EnabledKey, true);
    var severity :- StringOr(m, SeverityKey, DefaultSeverity);
    Success((ruleId, name, enabled, severity))
  }

  /** The next four keys `_parse_config` reads from a rule. */
  function ParseRuleSettings(m: map<string, Value>): Result<(string, Option<string>, string, Option<string>), string>
  {
    var description :- StringOr(m, DescriptionKey, "");
    var pattern :- OptionalString(m, PatternKey);
    var category :- StringOr(m, CategoryKey, DefaultCategory);
    var cweId :- OptionalString(m, CweKey);
    Success((description, pattern, category, cweId))
  }

  /** The last four keys `_parse_config` reads from a rule. */
  function ParseRuleReferences(m: map<string, Value>): Result<(Option<string>, seq<string>, seq<string>, Option<string>), string>
  {
    var owaspCategory :- OptionalString(m, OwaspKey);
    var tags :- StringsOr(m, TagsKey);
    var languages :- StringsOr(m, LanguagesKey);
    var customMessage :- OptionalString(m, CustomMessageKey);
    Success((owaspCategory, tags, languages, customMessage))
  }

  /** One iteration of the rule loop of `_parse_config`. */
  function ParseRule(v: Value): Result<RuleData, string>
  {
    if !v.Object? then Failure(NotAMapping)
    else
      var a :- ParseRuleIdentity(v.fields);
      var b :- ParseRuleSettings(v.fields);
      var c :- ParseRuleReferences(v.fields);
      Success(RuleData(a.0, a.1, a.2, a.3, b.0, b.1, b.2, b.3, c.0, c.1, c.2, c.3))
  }

  /** The rules of the document in order, or the first failure. */
  function ParseRules(items: seq<Value>): (r: Result<seq<RuleData>, string>)
    ensures r.Success? ==> |r.value| == |items|
  {
    if |items| == 0 then Success([])
    else
      var rules :- ParseRules(items[..|items| - 1]);
      var rule :- ParseRule(items[|items| - 1]);
      Success(rules + [rule])
  }

  /** The rule list of the document: `data.get("rules", [])`. */
  function RuleItems(m: map<string, Value>): Result<seq<Value>, string>
  {
    if RulesKey !in m then Success([])
    else match m[RulesKey]
      case List(items) => Success(items)
      case _ => Failure(WrongType + RulesKey)
  }

  /** `data.get("overrides", {}) or {}`. */
  function OverridesOf(m: map<string, Value>): Result<map<string, Value>, string>
  {
    if OverridesKey !in m then Success(map[])
    else match m[OverridesKey]
      case Null => Success(map[])
      case Object(o) => Success(o)
      case _ => Failure(WrongType + OverridesKey)
  }

  /** The name, version, description and overrides of a document. */
  function ParseHeader(m: map<string, Value>): Result<(string, string, string, map<string, Value>), string>
  {
    var name :- StringOr(m, NameKey, DefaultRulesetName);
    var version :- StringOr(m, VersionKey, DefaultVersion);
    var description :- StringOr(m, DescriptionKey, "");
    var overrides :- OverridesOf(m);
    Success((name, version, description, overrides))
  }

  /** What `_parse_config` builds from a document, or why it fails. */
  function ParseConfigData(data: Value): Result<RuleSetData, string>
  {
    if !data.Object? then Failure(NotAMapping)
    else
      var items :- RuleItems(data.fields);
      var rules :- ParseRules(items);
      var header :- ParseHeader(data.fields);
      Success(RuleSetData(header.0, header.1, header.2, rules, header.3))
  }

  lemma {:induction false} StringsRoundTrip(ss: seq<string>)
    ensures Strings(StringsValue(ss).items) == Some(ss)
  {
    if |ss| > 0 {
      var init := ss[..|ss| - 1];
      StringsRoundTrip(init);
      assert StringsValue(ss).items[..|ss| - 1] == StringsValue(init).items;
      assert ss == init + [ss[|ss| - 1]];
    }
  }

  /** A rule survives `to_dict` and the rule loop of `_parse_config`
      unchanged. */
  lemma RuleRoundTrip(d: RuleData)
    ensures ParseRule(RuleToDict(d)) == Success(d)
  {
    RuleIdentityRoundTrip(d);
    RuleSettingsRoundTrip(d);
    RuleReferencesRoundTrip(d);
  }

  lemma RuleIdentityRoundTrip(d: RuleData)
    ensures ParseRuleIdentity(RuleToDict(d).fields) == Success((d.ruleId, d.name, d.enabled, d.severity))
  {
    var m := RuleToDict(d).fields;
    assert RuleIdKey in m && m[RuleIdKey] == OptionValue(d.ruleId);
    assert NameKey in m && m[NameKey] == OptionValue(d.name);
    assert EnabledKey in m && m[EnabledKey] == Bool(d.enabled);
    assert SeverityKey in m && m[SeverityKey] == Str(d.severity);
  }

  lemma RuleSettingsRoundTrip(d: RuleData)
    ensures ParseRuleSettings(RuleToDict(d).fields) == Success((d.description, d.pattern, d.category, d.cweId))
  {
    var m := RuleToDict(d).fields;
    assert DescriptionKey in m && m[DescriptionKey] == Str(d.description);
    assert PatternKey in m && m[PatternKey] == OptionValue(d.pattern);
    assert CategoryKey in m && m[CategoryKey] == Str(d.category);
    assert CweKey in m && m[CweKey] == OptionValue(d.cweId);
  }

  lemma RuleReferencesRoundTrip(d: RuleData)
    ensures ParseRuleReferences(RuleToDict(d).fields) == Success((d.owaspCategory, d.tags, d.languages, d.customMessage))
  {
    var m := RuleToDict(d).fields;
    assert OwaspKey in m && m[OwaspKey] == OptionValue(d.owaspCategory);
    assert TagsKey in m && m[TagsKey] == StringsValue(d.tags);
    assert LanguagesKey in m && m[LanguagesKey] == StringsValue(d.languages);
    assert CustomMessageKey in m && m[CustomMessageKey] == OptionValue(d.customMessage);
    StringsRoundTrip(d.tags);
    StringsRoundTrip(d.languages);
  }

  lemma {:induction false} RulesRoundTrip(rules: seq<RuleData>)
    ensures ParseRules(RuleDicts(rules)) == Success(rules)
  {
    var items := RuleDicts(rules);
    if |rules| > 0 {
      var init := rules[..|rules| - 1];
      RulesRoundTrip(init);
      assert items[..|items| - 1] == RuleDicts(init);
      RuleRoundTrip(rules[|rules| - 1]);
      assert rules == init + [rules[|rules| - 1]];
    }
  }

  /** `_parse_config(rs.to_dict())` rebuilds `rs`: name, version,
      description, overrides and every field of every rule. */
  lemma RuleSetRoundTrip(rs: RuleSetData)
    ensures ParseConfigData(RuleSetToDict(rs)) == Success(rs)
  {
    RuleItemsRoundTrip(rs);
    RulesRoundTrip(rs.rules);
    HeaderRoundTrip(rs);
  }

  lemma RuleItemsRoundTrip(rs: RuleSetData)
    ensures RuleItems(RuleSetToDict(rs).fields)
            == Success(RuleDicts(rs.rules))
  {
    var m := RuleSetToDict(rs).fields;
    assert RulesKey in m;
  }

  lemma HeaderRoundTrip(rs: RuleSetData)
    ensures ParseHeader(RuleSetToDict(rs).fields) == Success((rs.name, rs.version, rs.description, rs.overrides))
  {
    var m := RuleSetToDict(rs).fields;
    assert NameKey in m && m[NameKey] == Str(rs.name);
    assert VersionKey in m && m[VersionKey] == Str(rs.version);
    assert DescriptionKey in m && m[DescriptionKey] == Str(rs.description);
    assert OverridesKey in m && m[OverridesKey] == Object(rs.overrides);
  }

  /** The defaults of `_parse_config`: an empty document gives an empty
      ruleset named `custom-ruleset` at version `1.0.0`, and a rule with no
      other keys is enabled, of severity `medium` and category `security`,
      with no tags and no languages. */
  lemma ParseDefaults(m: map<string, Value>)
    requires forall k :: k in m ==> k == RuleIdKey || k == NameKey
    requires RuleIdKey in m ==> m[RuleIdKey].Str?
    requires NameKey in m ==> m[NameKey].Str?
    ensures ParseConfigData(Object(map[])) == Success(RuleSetData(DefaultRulesetName, DefaultVersion, "", [], map[]))
    ensures ParseRule(Object(m)).Success?
    ensures ParseRule(Object(m)).value.enabled
    ensures ParseRule(Object(m)).value.severity == DefaultSeverity
    ensures ParseRule(Object(m)).value.category == DefaultCategory
    ensures ParseRule(Object(m)).value.description == ""
    ensures ParseRule(Object(m)).value.tags == [] && ParseRule(Object(m)).value.languages == []
  {
  }

  /** Once one rule of the document is malformed, `_parse_config` fails
      with its error. */
  lemma {:induction false} ParseRulesFailure(items: seq<Value>, k: nat)
    requires k < |items|
    requires ParseRules(items[..k]).Success?
    requires ParseRule(items[k]).Failure?
    ensures ParseRules(items) == Failure(ParseRule(items[k]).error)
    decreases |items|
  {
    var n := |items|;
    if n == k + 1 {
      assert items[..n - 1] == items[..k];
    } else {
      var prefix := items[..n - 1];
      assert prefix[..k] == items[..k];
      assert prefix[k] == items[k];
      ParseRulesFailure(prefix, k);
    }
  }

  /** The file formats `load` accepts. */
  datatype Format = Yaml | Json

  const UnsupportedFormat := "Unsupported file format: "

  /** The dispatch of `load` on the file suffix. */
  function FormatOf(filepath: string): (r: Result<Format, string>)
    ensures r == Success(Yaml) <==> EndsWith(filepath, ".yaml") || EndsWith(filepath, ".yml")
    ensures r == Success(Json) <==> !EndsWith(filepath, ".yaml") && !EndsWith(filepath, ".yml") && EndsWith(filepath, ".json")
    ensures r.Failure? <==> !EndsWith(filepath, ".yaml") && !EndsWith(filepath, ".yml") && !EndsWith(filepath, ".json")
    ensures r.Failure? ==> r.error == UnsupportedFormat + filepath
  {
    if EndsWith(filepath, ".yaml") || EndsWith(filepath, ".yml") then Success(Yaml)
    else if EndsWith(filepath, ".json") then Success(Json)
    else Failure(UnsupportedFormat + filepath)
  }

  /** `load`: picks the format from the suffix, then parses the document
      the decoder of that format produced. */
  method Load(filepath: string, decode: (Format, string) -> Result<Value, string>) returns (r: Result<RuleSet, string>)
    ensures FormatOf(filepath).Failure? ==> r == Failure(FormatOf(filepath).error)
    ensures FormatOf(filepath).Success? && decode(FormatOf(filepath).value, filepath).Failure? ==>
              r == Failure(decode(FormatOf(filepath).value, filepath).error)
    ensures FormatOf(filepath).Success? && decode(FormatOf(filepath).value, filepath).Success? ==>
              var expected := ParseConfigData(decode(FormatOf(filepath).value, filepath).value);
              (r.Success? <==> expected.Success?) && (r.Success? ==> fresh(r.value) && r.value.Data() == expected.value)
  {
    var format := FormatOf(filepath);
    if format.Failure? {
      return Failure(format.error);
    }
    var document := decode(format.value, filepath);
    if document.Failure? {
      return Failure(document.error);
    }
    r := ParseConfig(document.value);
  }

  /** `RuleConfig`: one rule, whose fields a ruleset edits in place. */
  class RuleConfig {
    var ruleId: Option<string>
    var name: Option<string>
    var enabled: bool
    var severity: string
    var description: string
    var pattern: Option<string>
    var category: string
    var cweId: Option<string>
    var owaspCategory: Option<string>
    var tags: seq<string>
    var languages: seq<string>
    var customMessage: Option<string>

    constructor (d: RuleData)
      ensures Data() == d
    {
      ruleId, name, enabled, severity := d.ruleId, d.name, d.enabled, d.severity;
      description, pattern, category := d.description, d.pattern, d.category;
      cweId, owaspCategory, tags, languages := d.cweId, d.owaspCategory, d.tags, d.languages;
      customMessage := d.customMessage;
    }

    function Data(): RuleData
      reads this
    {
      RuleData(ruleId, name, enabled, severity, description, pattern, category,
               cweId, owaspCategory, tags, languages, customMessage)
    }

    /** `to_dict`. */
    function ToDict(): (v: Value)
      reads this
      ensures ParseRule(v) == Success(Data())
    {
      RuleRoundTrip(Data());
      RuleToDict(Data())
    }
  }

  /** The fields of a list of rules, in order. */
  function RulesData(rules: seq<RuleConfig>): (ds: seq<RuleData>)
    reads rules
    ensures |ds| == |rules|
    ensures forall i :: 0 <= i < |rules| ==> ds[i] == rules[i].Data()
  {
    if |rules| == 0 then [] else RulesData(rules[..|rules| - 1]) + [rules[|rules| - 1].Data()]
  }

  /** The index of the first rule with id `ruleId`, if any. */
  function FirstRuleIndex(rules: seq<RuleData>, ruleId: string): (r: Option<nat>)
    ensures r.None? <==> forall i :: 0 <= i < |rules| ==> rules[i].ruleId != Some(ruleId)
    ensures r.Some? ==> r.value < |rules| && rules[r.value].ruleId == Some(ruleId)
                        && forall j :: 0 <= j < r.value ==> rules[j].ruleId != Some(ruleId)
  {
    if |rules| == 0 then None
    else match FirstRuleIndex(rules[..|rules| - 1], ruleId)
      case Some(k) => Some(k)
      case None => if rules[|rules| - 1].ruleId == Some(ruleId) then Some(|rules| - 1) else None
  }

  function IsEnabled(d: RuleData): bool
  {
    d.enabled
  }

  /** `[r for r in rules if r.enabled]`. */
  function EnabledRules(rules: seq<RuleConfig>): (r: seq<RuleConfig>)
    reads rules
    ensures RulesData(r) == Filter(RulesData(rules), IsEnabled)
    ensures forall x :: x in r ==> x in rules && x.enabled
  {
    if |rules| == 0 then []
    else
      var init := rules[..|rules| - 1];
      var last := rules[|rules| - 1];
      RulesDataAppend(init, last);
      assert rules == init + [last];
      var kept := EnabledRules(init);
      RulesDataAppend(kept, last);
      if last.enabled then kept + [last] else kept
  }

  lemma RulesDataAppend(rules: seq<RuleConfig>, x: RuleConfig)
    ensures RulesData(rules + [x]) == RulesData(rules) + [x.Data()]
  {
  }

  /** `RuleSet`: a named, versioned list of rules and overrides. */
  class RuleSet {
    var name: string
    var version: string
    var description: string
    var rules: seq<RuleConfig>
    var overrides: map<string, Value>

    constructor (name: string, version: string, description: string, rules: seq<RuleConfig>, overrides: map<string, Value>)
      ensures this.name == name && this.version == version && this.description == description
      ensures this.rules == rules && this.overrides == overrides
    {
      this.name, this.version, this.description := name, version, description;
      this.rules, this.overrides := rules, overrides;
    }

    function Data(): RuleSetData
      reads this, rules
    {
      RuleSetData(name, version, description, RulesData(rules), overrides)
    }

    /** `get_rule`: the first rule with the id, or None. */
    function GetRule(ruleId: string): (r: Option<RuleConfig>)
      reads this, rules
      ensures r.None? <==> forall i :: 0 <= i < |rules| ==> rules[i].ruleId != Some(ruleId)
      ensures r.Some? ==> exists k :: 0 <= k < |rules| && r.value == rules[k] && rules[k].ruleId == Some(ruleId)
                                      && forall j :: 0 <= j < k ==> rules[j].ruleId != Some(ruleId)
    {
      match FirstRuleIndex(RulesData(rules), ruleId)
      case None => None
      case Some(k) => Some(rules[k])
    }

    /** `get_enabled_rules`: exactly the enabled rules, in list order. */
    function GetEnabledRules(): (r: seq<RuleConfig>)
      reads this, rules
      ensures RulesData(r) == Filter(Data().rules, IsEnabled)
    {
      EnabledRules(rules)
    }

    /** `disable_rule`: clears the flag of the first rule with the id (and
        so of every entry holding that same rule object); nothing else
        changes, and nothing at all when no rule has the id. */
    method DisableRule(ruleId: string)
      modifies rules
      ensures rules == old(rules)
      ensures match FirstRuleIndex(old(RulesData(rules)), ruleId)
                case None => forall i :: 0 <= i < |rules| ==> rules[i].Data() == old(rules[i].Data())
                case Some(k) => forall i :: 0 <= i < |rules| ==>
                                  rules[i].Data() == if rules[i] == rules[k] then old(rules[i].Data()).(enabled := false)
                                                     else old(rules[i].Data())
    {
      var rule := GetRule(ruleId);
      if rule.Some? {
        rule.value.enabled := false;
      }
    }

    /** `enable_rule`: sets the flag of the first rule with the id. */
    method EnableRule(ruleId: string)
      modifies rules
      ensures rules == old(rules)
      ensures match FirstRuleIndex(old(RulesData(rules)), ruleId)
                case None => forall i :: 0 <= i < |rules| ==> rules[i].Data() == old(rules[i].Data())
                case Some(k) => forall i :: 0 <= i < |rules| ==>
                                  rules[i].Data() == if rules[i] == rules[k] then old(rules[i].Data()).(enabled := true)
                                                     else old(rules[i].Data())
    {
      var rule := GetRule(ruleId);
      if rule.Some? {
        rule.value.enabled := true;
      }
    }

    /** `override_severity`: replaces the severity of the first rule with
        the id. */
    method OverrideSeverity(ruleId: string, newSeverity: string)
      modifies rules
      ensures rules == old(rules)
      ensures match FirstRuleIndex(old(RulesData(rules)), ruleId)
                case None => forall i :: 0 <= i < |rules| ==> rules[i].Data() == old(rules[i].Data())
                case Some(k) => forall i :: 0 <= i < |rules| ==>
                                  rules[i].Data() == if rules[i] == rules[k] then old(rules[i].Data()).(severity := newSeverity)
                                                     else old(rules[i].Data())
    {
      var rule := GetRule(ruleId);
      if rule.Some? {
        rule.value.severity := newSeverity;
      }
    }

    /** `to_dict`: a document `_parse_config` turns back into this ruleset. */
    function ToDict(): (v: Value)
      reads this, rules
      ensures ParseConfigData(v) == Success(Data())
    {
      RuleSetRoundTrip(Data());
      RuleSetToDict(Data())
    }
  }

  /** `_parse_config`: a new ruleset of new rules, or the failure of
      `ParseConfigData`. */
  method ParseConfig(data: Value) returns (r: Result<RuleSet, string>)
    ensures r.Success? <==> ParseConfigData(data).Success?
    ensures r.Failure? ==> r.error == ParseConfigData(data).error
    ensures r.Success? ==> fresh(r.value) && r.value.Data() == ParseConfigData(data).value
                           && forall x :: x in r.value.rules ==> fresh(x)
  {
    if !data.Object? {
      return Failure(NotAMapping);
    }
    var m := data.fields;
    var items := RuleItems(m);
    if items.Failure? {
      return Failure(items.error);
    }
    var rules := ParseRuleObjects(items.value);
    if rules.Failure? {
      return Failure(rules.error);
    }
    var header := ParseHeader(m);
    if header.Failure? {
      return Failure(header.error);
    }
    var (name, version, description, overrides) := header.value;
    var ruleset := new RuleSet(name, version, description, rules.value, overrides);
    r := Success(ruleset);
  }

  /** The rule loop of `_parse_config`: one new `RuleConfig` per entry. */
  method ParseRuleObjects(values: seq<Value>) returns (r: Result<seq<RuleConfig>, string>)
    ensures r.Success? <==> ParseRules(values).Success?
    ensures r.Failure? ==> r.error == ParseRules(values).error
    ensures r.Success? ==> RulesData(r.value) == ParseRules(values).value && forall x :: x in r.value ==> fresh(x)
  {
    var rules: seq<RuleConfig> := [];
    var i := 0;
    while i < |values|
      invariant 0 <= i <= |values|
      invariant ParseRules(values[..i]) == Success(RulesData(rules))
      invariant forall x :: x in rules ==> fresh(x)
    {
      var parsed := ParseRule(values[i]);
      if parsed.Failure? {
        ParseRulesFailure(values, i);
        return Failure(parsed.error);
      }
      var rule := new RuleConfig(parsed.value);
      assert values[..i + 1][..i] == values[..i];
      RulesDataAppend(rules, rule);
      rules := rules + [rule];
      i := i + 1;
    }
    assert values[..i] == values;
    r := Success(rules);
  }

  const RulesetNotFound := "Ruleset not found: "

  /** `RulePackManager`: rulesets by name and the name of the active one. */
  class RulePackManager {
    var rulesets: Dict<string, RuleSet>
    var activeRuleset: Option<string>

    ghost predicate Valid()
      reads this
    {
      rulesets.Valid() && (activeRuleset.Some? ==> activeRuleset.value in rulesets.entries)
    }

    constructor ()
      ensures Valid() && rulesets.keys == [] && activeRuleset == None
    {
      rulesets := EmptyDict();
      activeRuleset := None;
    }

    /** `register_ruleset`: stores the ruleset under its name; the first
        ruleset registered becomes the active one, later ones leave the
        active name alone. */
    method RegisterRuleset(ruleset: RuleSet)
      requires Valid()
      modifies this
      ensures Valid()
      ensures rulesets == old(rulesets).Put(ruleset.name, ruleset)
      ensures activeRuleset == if old(activeRuleset).None? then Some(ruleset.name) else old(activeRuleset)
    {
      rulesets := rulesets.Put(ruleset.name, ruleset);
      if activeRuleset.None? {
        activeRuleset := Some(ruleset.name);
      }
    }

    /** `get_ruleset`. */
    function GetRuleset(name: string): (r: Option<RuleSet>)
      reads this
      ensures r.None? <==> name !in rulesets.entries
    {
      rulesets.Get(name)
    }

    /** `get_active_ruleset`: None when no name is active or the active
        name is the empty string (which Python treats as false). */
    function GetActiveRuleset(): (r: Option<RuleSet>)
      reads this
      requires Valid()
      ensures r.Some? <==> activeRuleset.Some? && activeRuleset.value != ""
      ensures r.Some? ==> r == GetRuleset(activeRuleset.value)
    {
      if activeRuleset.Some? && activeRuleset.value != "" then rulesets.Get(activeRuleset.value) else None
    }

    /** `set_active_ruleset`: makes a registered name active; an unknown
        name raises ValueError and changes nothing. */
    method SetActiveRuleset(name: string) returns (error: Option<string>)
      requires Valid()
      modifies this
      ensures Valid() && rulesets == old(rulesets)
      ensures name in rulesets.entries ==> error == None && activeRuleset == Some(name)
      ensures name !in rulesets.entries ==> error == Some(RulesetNotFound + name) && activeRuleset == old(activeRuleset)
    {
      if name in rulesets.entries {
        activeRuleset := Some(name);
        error := None;
      } else {
        error := Some(RulesetNotFound + name);
      }
    }

    /** `list_rulesets`: every registered name once, in the order of first
        registration: the dictionary's `keys`, which `Put` extends only
        with a new name. */
    function ListRulesets(): (names: seq<string>)
      reads this
      requires Valid()
      ensures names == rulesets.keys
      ensures forall n :: n in names <==> GetRuleset(n).Some?
      ensures forall i, j :: 0 <= i < j < |names| ==> names[i] != names[j]
    {
      rulesets.keys
    }

    /** `get_enabled_rules`: the enabled rules of the active ruleset, or
        none when there is no active ruleset. */
    method GetEnabledRules() returns (rules: seq<RuleConfig>)
      requires Valid()
      ensures GetActiveRuleset().None? ==> rules == []
      ensures GetActiveRuleset().Some? ==> RulesData(rules) == Filter(GetActiveRuleset().value.Data().rules, IsEnabled)
    {
      var ruleset := GetActiveRuleset();
      if ruleset.Some? {
        rules := ruleset.value.GetEnabledRules();
      } else {
        rules := [];
      }
    }
  }
}
