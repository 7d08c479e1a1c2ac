/** The plugin registry: four insertion-ordered dictionaries of rule,
    compliance and language plugins and custom analyzers, the rules that
    apply to a file, analysis with the applicable rule plugins, and the
    process-wide registry created on first use.

    A plugin's own code (`is_applicable`, `analyze`, ...) is not part of
    this model: a plugin is a value carrying its identifying properties and
    an `impl` tag, and what its methods do is supplied by the caller as a
    function of the plugin. */
module PluginSystem {
  import opened Wrappers
  import opened Models
  import opened Collections

  datatype RulePlugin = RulePlugin(ruleId: string, name: string, description: string,
                                   supportedLanguages: seq<string>, impl: string)
  datatype CompliancePlugin = CompliancePlugin(name: string, impl: string)
  datatype LanguagePlugin = LanguagePlugin(language: string, impl: string)
  /** A registered callable, known by its `impl` tag. */
  datatype CustomAnalyzer = CustomAnalyzer(impl: string)

  /** `plugin.is_applicable(file_path)`. */
  type Applicability = (RulePlugin, string) -> bool

  /** What `rule.analyze(code, file_path)` does: return violations or raise. */
  datatype AnalyzeOutcome = Returned(violations: seq<Violation>) | Raised(error: string)

  /** `rule.analyze(code, file_path)`. */
  type Analysis = (RulePlugin, string, string) -> AnalyzeOutcome

  /** What one applicable plugin adds in `analyze_with_plugins`: its
      violations, or nothing when it raises. */
  function PluginContribution(analyze: Analysis, code: string, filePath: string, p: RulePlugin): seq<Violation>
  {
    match analyze(p, code, filePath)
    case Returned(vs) => vs
    case Raised(_) => []
  }

  function PluginContributions(analyze: Analysis, code: string, filePath: string): RulePlugin -> seq<Violation>
  {
    (p: RulePlugin) => PluginContribution(analyze, code, filePath, p)
  }

  function AppliesTo(applicable: Applicability, filePath: string): RulePlugin -> bool
  {
    (p: RulePlugin) => applicable(p, filePath)
  }

  class PluginRegistry {
    var rulePlugins: Dict<string, RulePlugin>
    var compliancePlugins: Dict<string, CompliancePlugin>
    var languagePlugins: Dict<string, LanguagePlugin>
    var customAnalyzers: Dict<string, CustomAnalyzer>

    ghost predicate Valid()
      reads this
    {
      && rulePlugins.Valid() && compliancePlugins.Valid() && languagePlugins.Valid() && customAnalyzers.Valid()
      && (forall id :: id in rulePlugins.entries ==> rulePlugins.entries[id].ruleId == id)
      && (forall n :: n in compliancePlugins.entries ==> compliancePlugins.entries[n].name == n)
      && (forall l :: l in languagePlugins.entries ==> languagePlugins.entries[l].language == l)
    }

    /** A new registry holds no plugin of any kind. */
    constructor ()
      ensures Valid()
      ensures rulePlugins.keys == [] && compliancePlugins.keys == []
      ensures languagePlugins.keys == [] && customAnalyzers.keys == []
    {
      rulePlugins := EmptyDict();
      compliancePlugins := EmptyDict();
      languagePlugins := EmptyDict();
      customAnalyzers := EmptyDict();
    }

    /** `register_rule_plugin`: keyed by the plugin's rule id; a second
        plugin with that id replaces the first. The other three
        dictionaries are untouched. */
    method RegisterRulePlugin(plugin: RulePlugin)
      requires Valid()
      modifies this
      ensures Valid()
      ensures rulePlugins == old(rulePlugins).Put(plugin.ruleId, plugin)
      ensures GetRulePlugin(plugin.ruleId) == Some(plugin)
      ensures forall id :: id != plugin.ruleId ==> rulePlugins.Get(id) == old(rulePlugins.Get(id))
      ensures compliancePlugins == old(compliancePlugins) && languagePlugins == old(languagePlugins)
      ensures customAnalyzers == old(customAnalyzers)
    {
      rulePlugins := rulePlugins.Put(plugin.ruleId, plugin);
    }

    /** `register_compliance_plugin`: keyed by the plugin's name. */
    method RegisterCompliancePlugin(plugin: CompliancePlugin)
      requires Valid()
      modifies this
      ensures Valid()
      ensures compliancePlugins == old(compliancePlugins).Put(plugin.name, plugin)
      ensures GetCompliancePlugin(plugin.name) == Some(plugin)
      ensures rulePlugins == old(rulePlugins) && languagePlugins == old(languagePlugins)
      ensures customAnalyzers == old(customAnalyzers)
    {
      compliancePlugins := compliancePlugins.Put(plugin.name, plugin);
    }

    /** `register_language_plugin`: keyed by the plugin's language. */
    method RegisterLanguagePlugin(plugin: LanguagePlugin)
      requires Valid()
      modifies this
      ensures Valid()
      ensures languagePlugins == old(languagePlugins).Put(plugin.language, plugin)
      ensures GetLanguagePlugin(plugin.language) == Some(plugin)
      ensures rulePlugins == old(rulePlugins) && compliancePlugins == old(compliancePlugins)
      ensures customAnalyzers == old(customAnalyzers)
    {
      languagePlugins := languagePlugins.Put(plugin.language, plugin);
    }

    /** `register_custom_analyzer`: keyed by the given name. */
    method RegisterCustomAnalyzer(name: string, analyzer: CustomAnalyzer)
      requires Valid()
      modifies this
      ensures Valid()
      ensures customAnalyzers == old(customAnalyzers).Put(name, analyzer)
      ensures GetCustomAnalyzer(name) == Some(analyzer)
      ensures rulePlugins == old(rulePlugins) && compliancePlugins == old(compliancePlugins)
      ensures languagePlugins == old(languagePlugins)
    {
      customAnalyzers := customAnalyzers.Put(name, analyzer);
    }

    /** `get_rule_plugin`: the plugin registered under `ruleId`, or None. */
    function GetRulePlugin(ruleId: string): (r: Option<RulePlugin>)
      reads this
      requires Valid()
      ensures r.None? <==> ruleId !in rulePlugins.entries
      ensures r.Some? ==> r.value.ruleId == ruleId
    {
      rulePlugins.Get(ruleId)
    }

    /** `get_compliance_plugin`. */
    function GetCompliancePlugin(name: string): (r: Option<CompliancePlugin>)
      reads this
      requires Valid()
      ensures r.None? <==> name !in compliancePlugins.entries
      ensures r.Some? ==> r.value.name == name
    {
      compliancePlugins.Get(name)
    }

    /** `get_language_plugin`. */
    function GetLanguagePlugin(language: string): (r: Option<LanguagePlugin>)
      reads this
      requires Valid()
      ensures r.None? <==> language !in languagePlugins.entries
      ensures r.Some? ==> r.value.language == language
    {
      languagePlugins.Get(language)
    }

    /** `get_custom_analyzer`. */
    function GetCustomAnalyzer(name: string): (r: Option<CustomAnalyzer>)
      reads this
      ensures r.None? <==> name !in customAnalyzers.entries
    {
      customAnalyzers.Get(name)
    }

    /** `list_rule_plugins`: every registered rule id once, in the order of
        first registration: the dictionary's `keys`, which `Put` extends
        only with a new key. */
    function ListRulePlugins(): (ids: seq<string>)
      reads this
      requires Valid()
      ensures ids == rulePlugins.keys
      ensures forall id :: id in ids <==> GetRulePlugin(id).Some?
      ensures forall i, j :: 0 <= i < j < |ids| ==> ids[i] != ids[j]
    {
      rulePlugins.keys
    }

    /** `list_compliance_plugins`, in the order of first registration. */
    function ListCompliancePlugins(): (names: seq<string>)
      reads this
      requires Valid()
      ensures names == compliancePlugins.keys
      ensures forall n :: n in names <==> GetCompliancePlugin(n).Some?
      ensures forall i, j :: 0 <= i < j < |names| ==> names[i] != names[j]
    {
      compliancePlugins.keys
    }

    /** `list_language_plugins`, in the order of first registration. */
    function ListLanguagePlugins(): (languages: seq<string>)
      reads this
      requires Valid()
      ensures languages == languagePlugins.keys
      ensures forall l :: l in languages <==> GetLanguagePlugin(l).Some?
      ensures forall i, j :: 0 <= i < j < |languages| ==> languages[i] != languages[j]
    {
      languagePlugins.keys
    }

    /** The rule plugins applicable to `filePath`, in registration order. */
    function ApplicableRules(filePath: string, applicable: Applicability): seq<RulePlugin>
      reads this
      requires Valid()
    {
      Filter(rulePlugins.Values(), AppliesTo(applicable, filePath))
    }

    /** `get_applicable_rules`. */
    method GetApplicableRules(filePath: string, applicable: Applicability) returns (rules: seq<RulePlugin>)
      requires Valid()
      ensures rules == ApplicableRules(filePath, applicable)
    {
      var plugins := rulePlugins.Values();
      var keep := AppliesTo(applicable, filePath);
      rules := [];
      var i := 0;
      while i < |plugins|
        invariant 0 <= i <= |plugins|
        invariant rules == Filter(plugins[..i], keep)
      {
        assert plugins[..i + 1][..i] == plugins[..i];
        if applicable(plugins[i], filePath) {
          rules := rules + [plugins[i]];
        }
        i := i + 1;
      }
      assert plugins[..i] == plugins;
    }

    /** A plugin is applicable to a file exactly when it is registered
        under its id and says it applies. */
    lemma ApplicableRulesMeaning(filePath: string, applicable: Applicability, p: RulePlugin)
      requires Valid()
      ensures p in ApplicableRules(filePath, applicable) <==>
                (exists id :: GetRulePlugin(id) == Some(p)) && applicable(p, filePath)
    {
      var values := rulePlugins.Values();
      FilterMembership(values, AppliesTo(applicable, filePath), p);
      if p in values {
        var i :| 0 <= i < |values| && values[i] == p;
        assert GetRulePlugin(rulePlugins.keys[i]) == Some(p);
      }
      if exists id :: GetRulePlugin(id) == Some(p) {
        var id :| GetRulePlugin(id) == Some(p);
        var i :| 0 <= i < |rulePlugins.keys| && rulePlugins.keys[i] == id;
        assert values[i] == p;
      }
    }

    /** What `analyze_with_plugins` returns. */
    function PluginViolations(code: string, filePath: string, applicable: Applicability, analyze: Analysis): seq<Violation>
      reads this
      requires Valid()
    {
      ConcatMap(ApplicableRules(filePath, applicable), PluginContributions(analyze, code, filePath))
    }

    /** `analyze_with_plugins`: the applicable plugins' violations in
        order; a plugin that raises adds nothing and the loop goes on. */
    method AnalyzeWithPlugins(code: string, filePath: string, applicable: Applicability, analyze: Analysis)
      returns (violations: seq<Violation>)
      requires Valid()
      ensures violations == PluginViolations(code, filePath, applicable, analyze)
    {
      var rules := GetApplicableRules(filePath, applicable);
      var contribution := PluginContributions(analyze, code, filePath);
      violations := [];
      var i := 0;
      while i < |rules|
        invariant 0 <= i <= |rules|
        invariant violations == ConcatMap(rules[..i], contribution)
      {
        ConcatMapStep(rules, contribution, i);
        var outcome := analyze(rules[i], code, filePath);
        if outcome.Returned? {
          violations := violations + outcome.violations;
        }
        i := i + 1;
      }
      assert rules[..i] == rules;
    }

    /** Every violation reported comes from an applicable, registered plugin
        that returned it; and every violation such a plugin returns is
        reported. */
    lemma PluginViolationsMeaning(code: string, filePath: string, applicable: Applicability, analyze: Analysis, v: Violation)
      requires Valid()
      ensures v in PluginViolations(code, filePath, applicable, analyze) <==>
                exists p :: p in ApplicableRules(filePath, applicable)
                            && analyze(p, code, filePath).Returned? && v in analyze(p, code, filePath).violations
    {
      var rules := ApplicableRules(filePath, applicable);
      var contribution := PluginContributions(analyze, code, filePath);
      ConcatMapMembership(rules, contribution, v);
      if exists p :: p in rules && analyze(p, code, filePath).Returned? && v in analyze(p, code, filePath).violations {
        var p :| p in rules && analyze(p, code, filePath).Returned? && v in analyze(p, code, filePath).violations;
        var i :| 0 <= i < |rules| && rules[i] == p;
        assert v in contribution(rules[i]);
      }
    }
  }

  /** The module-level `_registry` and the functions that go through it. */
  class GlobalRegistry {
    var registry: PluginRegistry?

    ghost predicate Valid()
      reads this, registry
    {
      registry != null ==> registry.Valid()
    }

    /** Before first use there is no registry. */
    constructor ()
      ensures registry == null
    {
      registry := null;
    }

    /** `get_plugin_registry`: creates an empty registry on the first call
        and returns the same instance on every later call. */
    method GetPluginRegistry() returns (r: PluginRegistry)
      requires Valid()
      modifies this
      ensures registry == r && Valid()
      ensures old(registry) != null ==> r == old(registry)
      ensures old(registry) == null ==> fresh(r) && r.rulePlugins.keys == [] && r.compliancePlugins.keys == []
                                        && r.languagePlugins.keys == [] && r.customAnalyzers.keys == []
    {
      if registry == null {
        registry := new PluginRegistry();
      }
      r := registry;
    }

    /** The module-level `register_rule_plugin`. */
    method RegisterRulePlugin(plugin: RulePlugin)
      requires Valid()
      modifies this, registry
      ensures Valid() && registry != null
      ensures old(registry) != null ==> registry == old(registry)
      ensures registry.GetRulePlugin(plugin.ruleId) == Some(plugin)
      ensures old(registry) != null ==> registry.rulePlugins == old(registry.rulePlugins).Put(plugin.ruleId, plugin)
      ensures old(registry) != null ==> registry.compliancePlugins == old(registry.compliancePlugins) && registry.languagePlugins == old(registry.languagePlugins) && registry.customAnalyzers == old(registry.customAnalyzers)
      ensures old(registry) == null ==> registry.rulePlugins == EmptyDict<string, RulePlugin>().Put(plugin.ruleId, plugin)
      ensures old(registry) == null ==> registry.compliancePlugins.keys == [] && registry.languagePlugins.keys == [] && registry.customAnalyzers.keys == []
    {
      var r := GetPluginRegistry();
      r.RegisterRulePlugin(plugin);
    }

    /** The module-level `register_compliance_plugin`. */
    method RegisterCompliancePlugin(plugin: CompliancePlugin)
      requires Valid()
      modifies this, registry
      ensures Valid() && registry != null
      ensures old(registry) != null ==> registry == old(registry)
      ensures registry.GetCompliancePlugin(plugin.name) == Some(plugin)
      ensures old(registry) != null ==> registry.compliancePlugins == old(registry.compliancePlugins).Put(plugin.name, plugin)
      ensures old(registry) != null ==> registry.rulePlugins == old(registry.rulePlugins) && registry.languagePlugins == old(registry.languagePlugins) && registry.customAnalyzers == old(registry.customAnalyzers)
      ensures old(registry) == null ==> registry.compliancePlugins == EmptyDict<string, CompliancePlugin>().Put(plugin.name, plugin)
      ensures old(registry) == null ==> registry.rulePlugins.keys == [] && registry.languagePlugins.keys == [] && registry.customAnalyzers.keys == []
    {
      var r := GetPluginRegistry();
      r.RegisterCompliancePlugin(plugin);
    }

    /** The module-level `register_language_plugin`. */
    method RegisterLanguagePlugin(plugin: LanguagePlugin)
      requires Valid()
      modifies this, registry
      ensures Valid() && registry != null
      ensures old(registry) != null ==> registry == old(registry)
      ensures registry.GetLanguagePlugin(plugin.language) == Some(plugin)
      ensures old(registry) != null ==> registry.languagePlugins == old(registry.languagePlugins).Put(plugin.language, plugin)
      ensures old(registry) != null ==> registry.rulePlugins == old(registry.rulePlugins) && registry.compliancePlugins == old(registry.compliancePlugins) && registry.customAnalyzers == old(registry.customAnalyzers)
      ensures old(registry) == null ==> registry.languagePlugins == EmptyDict<string, LanguagePlugin>().Put(plugin.language, plugin)
      ensures old(registry) == null ==> registry.rulePlugins.keys == [] && registry.compliancePlugins.keys == [] && registry.customAnalyzers.keys == []
    {
      var r := GetPluginRegistry();
      r.RegisterLanguagePlugin(plugin);
    }

    /** The module-level `register_custom_analyzer`. */
    method RegisterCustomAnalyzer(name: string, analyzer: CustomAnalyzer)
      requires Valid()
      modifies this, registry
      ensures Valid() && registry != null
      ensures old(registry) != null ==> registry == old(registry)
      ensures registry.GetCustomAnalyzer(name) == Some(analyzer)
      ensures old(registry) != null ==> registry.customAnalyzers == old(registry.customAnalyzers).Put(name, analyzer)
      ensures old(registry) != null ==> registry.rulePlugins == old(registry.rulePlugins) && registry.compliancePlugins == old(registry.compliancePlugins) && registry.languagePlugins == old(registry.languagePlugins)
      ensures old(registry) == null ==> registry.customAnalyzers == EmptyDict<string, CustomAnalyzer>().Put(name, analyzer)
      ensures old(registry) == null ==> registry.rulePlugins.keys == [] && registry.compliancePlugins.keys == [] && registry.languagePlugins.keys == []
    {
      var r := GetPluginRegistry();
      r.RegisterCustomAnalyzer(name, analyzer);
    }
  }
}
