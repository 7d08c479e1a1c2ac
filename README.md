# Guardrails scan-and-enforce core in Dafny

Guardrails reviews pull requests. It takes the unified diff of each changed
file, keeps the added lines, and runs line rule engines over them:

- security rules SEC-001..SEC-005;
- AI-generated-code risk patterns AI-001/AI-002;
- license declarations and IP-risk markers IP-001/IP-002.

It can also apply industry compliance rule packs, plugins and YAML/JSON rule
sets. A per-repository policy then decides whether the change is blocked. The
service keeps an append-only audit log of scans and overrides, and uses a few
performance helpers: a TTL scan cache, a sliding-window rate limiter, a FIFO
job queue, file prioritisation and PR chunking. The AI reviewer is modelled
only in its offline parts: parsing a model reply into code and explanation,
and fixed lookup tables of fixes, explanations and documentation links.

The project has one Dafny module per source file of that core:

- `CodeAnalyzer`, `SecurityRules` (with the generic line engine in
  `SecurityScan`), `AiDetector`, `LicenseChecker`, `RulePacks`,
  `PluginSystem`, `ConfigLoader`, `PolicyEngine`, `AuditLogger`,
  `Optimization` and `AiReviewer`;
- helper modules: `Wrappers` (Option/Result), `Text` (split, strip, lower,
  contains, number formatting), `Collections` (an insertion-ordered
  dictionary standing for a Python `dict`, `Filter`, `ConcatMap`) and
  `Models` (Violation, severities, categories, a JSON-like `Value`).

The form follows the source:

- Objects whose methods update fields are classes: `PluginRegistry`,
  `RuleSet`/`RuleConfig`, `RulePackManager`, the policy `Engine`, the audit
  `Logger`, `ScanCache`, `RateLimiter` and `BackgroundJobQueue`.
- Loops are methods with invariants, each proved equal to a specification
  function.
- Lookups and comprehensions are functions.

Conventions used throughout:

- Regular expressions are an abstract matcher `search(pattern, line)`.
- A regex capture group is an abstract function.
- Clocks are integer seconds passed as parameters.
- Hashes and uuids are strings passed in.

## Model

| member | source | states |
|---|---|---|
| CodeAnalyzer.ParseDiff | backend/app/analyzers/code_analyzer.py:15-25 | the extracted code is the added lines of the diff (starting with `+`, not `+++`), each without its `+`, joined by newlines |
| CodeAnalyzer.AddedLinesFacts | backend/app/analyzers/code_analyzer.py:20-25 | an output line is exactly an input line that qualifies, minus its first character; never more output lines than input lines |
| CodeAnalyzer.NoAddedLineGivesEmpty | backend/app/analyzers/code_analyzer.py:20-25 | a diff with no qualifying `+` line yields the empty string |
| CodeAnalyzer.AddedCodeSplits | backend/app/analyzers/code_analyzer.py:17-25 | splitting the extracted code on newlines gives back the added lines in order, so line numbers are positions in the added text |
| CodeAnalyzer.AnyExtensionFromMeaning | backend/app/analyzers/code_analyzer.py:56-75 | the `any(...)` scan over the extension list holds iff some listed extension ends the path |
| CodeAnalyzer.IsCodeFile | backend/app/analyzers/code_analyzer.py:56-75 | a path is a code file iff it ends with one of the 15 listed extensions |
| CodeAnalyzer.CodeFileExamples | backend/app/analyzers/code_analyzer.py:56-75 | `app/main.py` is a code file and `README.md` is not |
| CodeAnalyzer.AnalyzeFiles | backend/app/analyzers/code_analyzer.py:28-53 | the result is the concatenation, in file order, of each file's security scan with the five built-in rule groups |
| CodeAnalyzer.AnalyzeFilesWith | backend/app/analyzers/code_analyzer.py:28-53 | the accumulator loop over files yields the per-file concatenation for any rule groups |
| CodeAnalyzer.AnalyzeFile | backend/app/analyzers/code_analyzer.py:33-51 | one file's contribution: nothing for a non-code file or whitespace-only added code, else its scan, Copilot-tagged when listed |
| CodeAnalyzer.SetCopilotFlags | backend/app/analyzers/code_analyzer.py:47-49 | the loop setting `is_copilot_generated` yields the tagged violations |
| CodeAnalyzer.MarkCopilotFacts | backend/app/analyzers/code_analyzer.py:47-49 | tagging keeps length and order, sets the flag on every violation, and changes no other field |
| CodeAnalyzer.SkippedFileContributesNothing | backend/app/analyzers/code_analyzer.py:33-41 | a non-code file or one whose added code strips to empty contributes no violation |
| CodeAnalyzer.FileViolationsOrigin | backend/app/analyzers/code_analyzer.py:33-51 | every violation of a file names that file, comes from a code file with non-blank added code, and is Copilot-flagged iff the file is listed |
| CodeAnalyzer.AnalyzeOrigin | backend/app/analyzers/code_analyzer.py:28-53 | every violation of the analysis comes from some request file that is a code file with non-blank added code, flagged iff listed |
| CodeAnalyzer.CreateScanResult | backend/app/analyzers/code_analyzer.py:78-90 | the scan result copies repository, PR number and commit from the request, holds the given violations and is `completed` |
| SecurityScan.FirstMatchFromFacts | backend/app/rules/security_rules.py:60-77 | the first-match search returns the lowest matching pattern index, and nothing iff no pattern matches |
| SecurityScan.GroupViolations | backend/app/rules/security_rules.py:46-77 | one rule group yields at most one violation per line |
| SecurityScan.GroupViolationsFirstMatch | backend/app/rules/security_rules.py:60-77 | a group reports nothing iff none of its patterns match; otherwise it reports the first matching pattern, with the group's rule id, severity, CWE, OWASP, category SECURITY and the stripped line |
| SecurityScan.ScanLine | backend/app/rules/security_rules.py:46-77 | the pattern loop with `break` computes the group's first-match result |
| SecurityScan.ScanLines | backend/app/rules/security_rules.py:83-160 | the loop over lines yields the line-by-line concatenation of the rule groups' results |
| SecurityScan.ScanUpToStep | backend/app/rules/security_rules.py:83-160 | scanning one more line appends exactly that line's violations |
| SecurityScan.ScanCodeWith | backend/app/rules/security_rules.py:80-160 | `scan_code` over arbitrary rule groups equals the scan of the code's newline-split lines |
| SecurityScan.ScanCodeLine | backend/app/rules/security_rules.py:86-158 | the per-line body yields nothing for skipped lines and otherwise each group's result in group order |
| SecurityScan.GroupsUpToFacts | backend/app/rules/security_rules.py:90-158 | the first k groups give at most k violations, each of a group among them, with that group's fixed severity, category SECURITY and the line's number and stripped text |
| SecurityScan.LineFacts | backend/app/rules/security_rules.py:86-158 | every violation of a line is reported for that line: not a skipped line, stripped content, SECURITY, fixed severity, a known group |
| SecurityScan.ScanUpToFacts | backend/app/rules/security_rules.py:83-160 | every violation of the scan names a line within the scanned prefix and is reported for that line |
| SecurityScan.ScanUpToOrigin | backend/app/rules/security_rules.py:83-160 | every violation names the scanned file and is not Copilot-flagged |
| SecurityScan.ScanUpToOrdered | backend/app/rules/security_rules.py:83-85 | line numbers are 1-based, within the scanned lines, and non-decreasing across the output |
| SecurityScan.FirstGroupLeads | backend/app/rules/security_rules.py:90-104 | when the first group matches a scanned line, its violation is the first of the line |
| SecurityScan.GroupsPrefix | backend/app/rules/security_rules.py:90-158 | the violations of the first j groups are a prefix of those of the first k groups (j ≤ k), so groups report in order |
| SecurityRules.ScanCode | backend/app/rules/security_rules.py:80-160 | `scan_code` is the generic scan with the five SEC rule groups |
| SecurityRules.GroupsWellRanked | backend/app/rules/security_rules.py:11-44 | there are five groups, SEC-001..SEC-005 in that order |
| SecurityRules.LineAtMostFive | backend/app/rules/security_rules.py:90-158 | a line yields at most five violations, with strictly increasing rule ids, so at most one of each SEC id |
| SecurityRules.CommentLineYieldsNothing | backend/app/rules/security_rules.py:87-88 | a blank line, or a line whose stripped form starts with `#` or `//`, yields nothing |
| SecurityRules.SecretLineIsCritical | backend/app/rules/security_rules.py:90-104 | a single line matched by an API-key pattern yields first a SEC-001 "Hardcoded API Key" CRITICAL SECURITY violation on line 1 |
| Collections.NumberedLines | backend/app/rules/ai_detector.py:44-45 | `enumerate(lines, 1)`: each line paired with its 1-based number |
| AiDetector.DetectAiIndicators | backend/app/rules/ai_detector.py:39-52 | the nested loops yield the indicator specification over the code's lines with the built-in indicators |
| AiDetector.DetectIndicatorsWith | backend/app/rules/ai_detector.py:39-52 | the same for any indicator list |
| AiDetector.IndicatorsMembership | backend/app/rules/ai_detector.py:44-52 | an indicator is reported iff some line (comments included) matches some indicator pattern; it carries the pattern's message, the 1-based line number and the stripped line |
| AiDetector.IndicatorFromSomeLine | backend/app/rules/ai_detector.py:44-52 | every reported indicator comes from some line matching one of the patterns |
| AiDetector.IndicatorOfLine | backend/app/rules/ai_detector.py:44-52 | every line matching a pattern is reported with that pattern's message, number and stripped text |
| AiDetector.DetectAiRisks | backend/app/rules/ai_detector.py:55-103 | the loops yield the risk specification over the code's lines with the built-in AI-001 and AI-002 pattern lists |
| AiDetector.DetectRisksWith | backend/app/rules/ai_detector.py:55-103 | the same for any pattern lists |
| AiDetector.LineRiskHits | backend/app/rules/ai_detector.py:67-101 | the inner loop without early exit yields one violation per matching pattern, in pattern order |
| AiDetector.RuleHitsFacts | backend/app/rules/ai_detector.py:67-101 | every violation of the inner loop comes from a pattern that matches the line |
| AiDetector.LineRisksComplete | backend/app/rules/ai_detector.py:67-101 | a line yields exactly as many violations as matching AI-001 plus AI-002 patterns, with every AI-001 before every AI-002 |
| AiDetector.LineRisksFacts | backend/app/rules/ai_detector.py:62-101 | every violation of a line is AI-001/AI-002, MEDIUM, CODE_QUALITY, Copilot-flagged, on a line that is not blank or a `#` comment, with the stripped text |
| AiDetector.RisksFacts | backend/app/rules/ai_detector.py:55-103 | every violation of the scan is reported for some line of the code at its 1-based number |
| AiDetector.RiskFromSomeLine | backend/app/rules/ai_detector.py:55-103 | a single violation of the scan comes from some line |
| AiDetector.SlashCommentIsScanned | backend/app/rules/ai_detector.py:62-65 | a `//` line skipped by the security engine is still scanned by the AI detector |
| AiDetector.SuggestCopilotContext | backend/app/rules/ai_detector.py:106-117 | the context is empty iff no violation is Copilot-flagged; otherwise it contains the count of flagged violations |
| LicenseChecker.DetectLicenseDeclarations | backend/app/rules/license_checker.py:55-80 | the loops yield the declaration specification over the code's lines with the built-in license patterns |
| LicenseChecker.DetectDeclarationsWith | backend/app/rules/license_checker.py:55-80 | the same for any pattern list |
| LicenseChecker.DeclarationsMembership | backend/app/rules/license_checker.py:66-78 | a declaration is reported iff a pattern matches a line; `detected` is capture group 1 when the pattern has one, else the pattern's label, and the line is stripped |
| LicenseChecker.CheckLicenseCompatibility | backend/app/rules/license_checker.py:83-96 | the incompatible list is the order-preserving subsequence of detected licenses not allowed, and compatible iff it is empty |
| LicenseChecker.CompatibilityMeaning | backend/app/rules/license_checker.py:91-96 | compatible iff every detected license is allowed; a license is listed iff detected and not allowed |
| LicenseChecker.DetectIpRisks | backend/app/rules/license_checker.py:99-147 | the loops yield the IP-risk specification over the code's lines with the built-in copy-paste and import patterns |
| LicenseChecker.DetectIpRisksWith | backend/app/rules/license_checker.py:99-147 | the same for any pattern lists |
| LicenseChecker.LineIpRiskLoops | backend/app/rules/license_checker.py:106-145 | one line yields its copy-paste hits then its import hits |
| LicenseChecker.CopyPasteLoop | backend/app/rules/license_checker.py:106-114 | the copy-paste loop yields one IP-001 hit per matching pattern |
| LicenseChecker.ImportLoop | backend/app/rules/license_checker.py:116-145 | the import loop yields one IP-002 hit per matching pattern |
| LicenseChecker.LineIpRiskFacts | backend/app/rules/license_checker.py:106-145 | every hit is LICENSE with CWE-1104 and the stripped line; IP-001 is INFO iff the line contains `Source:` or `Based on`, else MEDIUM; IP-002 is MEDIUM |
| LicenseChecker.IpRisksFacts | backend/app/rules/license_checker.py:99-147 | every IP-risk violation is reported for some line at its 1-based number |
| LicenseChecker.IpRiskFromSomeLine | backend/app/rules/license_checker.py:99-147 | a single IP-risk violation comes from some line |
| LicenseChecker.DetectLicenseFromDependency | backend/app/rules/license_checker.py:150-162 | the license of the first package, in dictionary order, whose lower-cased name occurs in the lower-cased line; None iff no package occurs |
| LicenseChecker.CheckLicenseViolations | backend/app/rules/license_checker.py:165-193 | the violations of the declarations detected in the code against the allowed list |
| LicenseChecker.LicenseViolationsOf | backend/app/rules/license_checker.py:176-193 | the loop over declarations yields the license-violation specification |
| LicenseChecker.LicenseViolationsFacts | backend/app/rules/license_checker.py:176-193 | exactly one violation per declaration whose license is not allowed, each LICENSE-001 HIGH on line 1 |
| RulePacks.RulePackIn | backend/app/compliance/rule_packs.py:163-169 | lookup succeeds iff the lower-cased industry is in the table and then returns its pack; otherwise it fails with `Unknown industry: ` and the name |
| RulePacks.GetRulePack | backend/app/compliance/rule_packs.py:163-169 | `get_rule_pack` on the four built-in packs succeeds iff the lower-cased name is a known industry |
| RulePacks.RulePackCaseInsensitive | backend/app/compliance/rule_packs.py:166 | two names with the same lower-cased form give the same outcome |
| RulePacks.RulePackExamples | backend/app/compliance/rule_packs.py:156-169 | `Banking` gives the banking pack; `retail` fails |
| RulePacks.ListIndustries | backend/app/compliance/rule_packs.py:171-174 | exactly banking, healthcare, government, telecom in that order, each a known industry |
| RulePacks.GetCombinedRules | backend/app/compliance/rule_packs.py:176-189 | the loop merging the built-in packs yields the first-occurrence de-duplicated concatenation, or the first unknown industry's error |
| RulePacks.CombineRulesWith | backend/app/compliance/rule_packs.py:176-189 | the same for any pack table |
| RulePacks.MergePack | backend/app/compliance/rule_packs.py:182-187 | merging one pack keeps the de-duplicated concatenation and the seen-id set in step |
| RulePacks.IdsAppend | backend/app/compliance/rule_packs.py:185-187 | the rule ids of a list grow by the id of an appended rule |
| RulePacks.DedupStep | backend/app/compliance/rule_packs.py:184-187 | a rule whose id was seen is skipped; otherwise it is appended |
| RulePacks.DedupFailure | backend/app/compliance/rule_packs.py:183 | the merge fails with the error of the first unknown industry |
| RulePacks.PacksOfFailure | backend/app/compliance/rule_packs.py:183 | collecting packs fails with the error of the first unknown industry |
| RulePacks.CombinedFailsIffUnknown | backend/app/compliance/rule_packs.py:183 | `get_combined_rules` fails iff some listed industry is unknown |
| RulePacks.PacksOfFailsIffUnknown | backend/app/compliance/rule_packs.py:183 | collecting packs fails iff some listed industry is unknown |
| RulePacks.DedupDistinct | backend/app/compliance/rule_packs.py:180-187 | the combined rules have pairwise distinct rule ids |
| RulePacks.DedupCovers | backend/app/compliance/rule_packs.py:182-187 | every rule id of every requested pack appears, and every combined rule comes from a pack |
| RulePacks.DedupKeepsFirst | backend/app/compliance/rule_packs.py:182-187 | the first rule with a given id is the one kept |
| RulePacks.DedupPrefix | backend/app/compliance/rule_packs.py:182-187 | later packs only append to what earlier packs contributed |
| RulePacks.DedupAbsorbs | backend/app/compliance/rule_packs.py:182-187 | appending rules whose ids were all seen changes nothing |
| RulePacks.RepeatedIndustryChangesNothing | backend/app/compliance/rule_packs.py:182-187 | listing an industry again gives the same combined rules |
| RulePacks.PacksOfContains | backend/app/compliance/rule_packs.py:182-187 | every rule of every requested pack is among the collected rules |
| PluginSystem.PluginRegistry.constructor | backend/app/plugins/plugin_system.py:90-95 | all four dictionaries start empty |
| PluginSystem.PluginRegistry.RegisterRulePlugin | backend/app/plugins/plugin_system.py:97-99 | the plugin is stored under its rule id (replacing an earlier one) and found there; other ids and the other three dictionaries are unchanged |
| PluginSystem.PluginRegistry.RegisterCompliancePlugin | backend/app/plugins/plugin_system.py:101-103 | stored under its name and found there; the other dictionaries are unchanged |
| PluginSystem.PluginRegistry.RegisterLanguagePlugin | backend/app/plugins/plugin_system.py:105-107 | stored under its language and found there; the other dictionaries are unchanged |
| PluginSystem.PluginRegistry.RegisterCustomAnalyzer | backend/app/plugins/plugin_system.py:109-111 | stored under its name and found there; the other dictionaries are unchanged |
| PluginSystem.PluginRegistry.GetRulePlugin | backend/app/plugins/plugin_system.py:113-115 | None iff the id is unregistered; a found plugin has that id |
| PluginSystem.PluginRegistry.GetCompliancePlugin | backend/app/plugins/plugin_system.py:117-119 | None iff the name is unregistered; a found plugin has that name |
| PluginSystem.PluginRegistry.GetLanguagePlugin | backend/app/plugins/plugin_system.py:121-123 | None iff the language is unregistered; a found plugin has that language |
| PluginSystem.PluginRegistry.GetCustomAnalyzer | backend/app/plugins/plugin_system.py:125-127 | None iff the name is unregistered |
| PluginSystem.PluginRegistry.ListRulePlugins | backend/app/plugins/plugin_system.py:137-139 | exactly the registered ids, without repetition, in the order of first registration |
| PluginSystem.PluginRegistry.ListCompliancePlugins | backend/app/plugins/plugin_system.py:141-143 | exactly the registered names, without repetition, in the order of first registration |
| PluginSystem.PluginRegistry.ListLanguagePlugins | backend/app/plugins/plugin_system.py:145-147 | exactly the registered languages, without repetition, in the order of first registration |
| PluginSystem.PluginRegistry.GetApplicableRules | backend/app/plugins/plugin_system.py:129-135 | the loop yields the registered rule plugins applicable to the file, in insertion order |
| PluginSystem.PluginRegistry.ApplicableRulesMeaning | backend/app/plugins/plugin_system.py:129-135 | a plugin is applicable iff it is registered and `is_applicable(file)` holds |
| PluginSystem.PluginRegistry.AnalyzeWithPlugins | backend/app/plugins/plugin_system.py:149-167 | the try loop yields the concatenated results of the applicable plugins, a raising plugin adding nothing |
| PluginSystem.PluginRegistry.PluginViolationsMeaning | backend/app/plugins/plugin_system.py:157-167 | a violation is reported iff some applicable plugin returned normally with it |
| PluginSystem.GlobalRegistry.constructor | backend/app/plugins/plugin_system.py:171 | no registry exists before first use |
| PluginSystem.GlobalRegistry.GetPluginRegistry | backend/app/plugins/plugin_system.py:174-179 | the first call creates an empty registry; every later call returns that same instance |
| PluginSystem.GlobalRegistry.RegisterRulePlugin | backend/app/plugins/plugin_system.py:182-184 | as `PluginRegistry.RegisterRulePlugin` on the shared instance (created empty on first use): only the rule plugin dictionary changes, by one `Put`; the other three dictionaries are unchanged |
| PluginSystem.GlobalRegistry.RegisterCompliancePlugin | backend/app/plugins/plugin_system.py:187-189 | as `PluginRegistry.RegisterCompliancePlugin` on the shared instance (created empty on first use): only the compliance plugin dictionary changes, by one `Put`; the other three dictionaries are unchanged |
| PluginSystem.GlobalRegistry.RegisterLanguagePlugin | backend/app/plugins/plugin_system.py:192-194 | as `PluginRegistry.RegisterLanguagePlugin` on the shared instance (created empty on first use): only the language plugin dictionary changes, by one `Put`; the other three dictionaries are unchanged |
| PluginSystem.GlobalRegistry.RegisterCustomAnalyzer | backend/app/plugins/plugin_system.py:197-199 | as `PluginRegistry.RegisterCustomAnalyzer` on the shared instance (created empty on first use): only the custom analyzer dictionary changes, by one `Put`; the other three dictionaries are unchanged |
| ConfigLoader.StringOr | backend/app/config/config_loader.py:159-168 | an absent key gives the default |
| ConfigLoader.OptionalString | backend/app/config/config_loader.py:164-168 | an absent optional key gives None |
| ConfigLoader.BoolOr | backend/app/config/config_loader.py:162 | an absent flag gives the default |
| ConfigLoader.StringsOr | backend/app/config/config_loader.py:169-171 | an absent list gives the empty list |
| ConfigLoader.ParseRules | backend/app/config/config_loader.py:158-174 | a successful parse yields one rule per item |
| ConfigLoader.StringsRoundTrip | backend/app/config/config_loader.py:53-55 | a list of strings written out reads back unchanged |
| ConfigLoader.RuleRoundTrip | backend/app/config/config_loader.py:43-58 | parsing a rule's dictionary rebuilds every field of the rule |
| ConfigLoader.RuleIdentityRoundTrip | backend/app/config/config_loader.py:46-49 | id, name, enabled and severity read back unchanged |
| ConfigLoader.RuleSettingsRoundTrip | backend/app/config/config_loader.py:50-53 | description, pattern, category and CWE read back unchanged |
| ConfigLoader.RuleReferencesRoundTrip | backend/app/config/config_loader.py:54-57 | OWASP category, tags, languages and message read back unchanged |
| ConfigLoader.RulesRoundTrip | backend/app/config/config_loader.py:108-116 | a list of rule dictionaries parses back to the same rules |
| ConfigLoader.RuleSetRoundTrip | backend/app/config/config_loader.py:108-116 | parsing a rule set's dictionary rebuilds name, version, description, rules and overrides |
| ConfigLoader.RuleItemsRoundTrip | backend/app/config/config_loader.py:112 | the `rules` entry of a rule set's dictionary is its rules' dictionaries |
| ConfigLoader.HeaderRoundTrip | backend/app/config/config_loader.py:109-114 | name, version, description and overrides read back unchanged |
| ConfigLoader.ParseDefaults | backend/app/config/config_loader.py:155-184 | an empty configuration is `custom-ruleset` 1.0.0 with no rules; a rule's defaults are enabled, `medium`, `security` |
| ConfigLoader.ParseRulesFailure | backend/app/config/config_loader.py:158-174 | the parse fails with the first malformed rule's error |
| ConfigLoader.FormatOf | backend/app/config/config_loader.py:145-152 | `.yaml`/`.yml` select YAML, otherwise `.json` selects JSON, and any other suffix is an error |
| ConfigLoader.Load | backend/app/config/config_loader.py:145-152 | an unsupported suffix or a decoding failure is reported as such; otherwise the result is the parse of the decoded data |
| ConfigLoader.RuleConfig.constructor | backend/app/config/config_loader.py:14-41 | the rule holds exactly the given fields |
| ConfigLoader.RuleConfig.ToDict | backend/app/config/config_loader.py:43-58 | the dictionary parses back to the rule's own fields |
| ConfigLoader.FirstRuleIndex | backend/app/config/config_loader.py:79-84 | the index of the first rule with the id, or None iff no rule has it |
| ConfigLoader.EnabledRules | backend/app/config/config_loader.py:86-88 | the loop keeps exactly the enabled rules in list order |
| ConfigLoader.RulesDataAppend | backend/app/config/config_loader.py:86-88 | the field view of a list grows by the appended rule's fields |
| ConfigLoader.RuleSet.constructor | backend/app/config/config_loader.py:64-77 | the rule set holds exactly the given fields |
| ConfigLoader.RuleSet.GetRule | backend/app/config/config_loader.py:79-84 | the first rule with the id, or None iff no rule has it |
| ConfigLoader.RuleSet.GetEnabledRules | backend/app/config/config_loader.py:86-88 | exactly the enabled rules, in list order |
| ConfigLoader.RuleSet.DisableRule | backend/app/config/config_loader.py:90-94 | only `enabled` of the first rule with the id becomes false; nothing changes for an absent id |
| ConfigLoader.RuleSet.EnableRule | backend/app/config/config_loader.py:96-100 | only `enabled` of the first rule with the id becomes true; nothing changes for an absent id |
| ConfigLoader.RuleSet.OverrideSeverity | backend/app/config/config_loader.py:102-106 | only the severity of the first rule with the id changes; nothing changes for an absent id |
| ConfigLoader.RuleSet.ToDict | backend/app/config/config_loader.py:108-116 | the dictionary parses back to the rule set's own fields |
| ConfigLoader.ParseConfig | backend/app/config/config_loader.py:155-184 | `_parse_config` builds fresh objects whose fields are the parse of the data, or fails with the parse's error |
| ConfigLoader.ParseRuleObjects | backend/app/config/config_loader.py:158-174 | the rule loop builds fresh rule objects whose fields are the parsed rules, or fails with the parse's error |
| ConfigLoader.RulePackManager.constructor | backend/app/config/config_loader.py:242-245 | no rule sets and no active one |
| ConfigLoader.RulePackManager.RegisterRuleset | backend/app/config/config_loader.py:247-251 | the rule set is stored under its name; the first registered becomes active and later ones do not change the active name |
| ConfigLoader.RulePackManager.GetRuleset | backend/app/config/config_loader.py:253-255 | None iff the name is unregistered |
| ConfigLoader.RulePackManager.GetActiveRuleset | backend/app/config/config_loader.py:257-261 | a rule set iff an active name is set and non-empty, and then the one registered under it |
| ConfigLoader.RulePackManager.SetActiveRuleset | backend/app/config/config_loader.py:263-268 | a registered name becomes active; an unregistered one is an error that leaves the active name unchanged |
| ConfigLoader.RulePackManager.ListRulesets | backend/app/config/config_loader.py:270-272 | exactly the registered names, without repetition, in the order of first registration |
| ConfigLoader.RulePackManager.GetEnabledRules | backend/app/config/config_loader.py:274-279 | `[]` when no rule set is active, else the active set's enabled rules in order |
| PolicyEngine.MakePolicy | backend/app/policy/policy_engine.py:123-144 | a missing or empty license list becomes MIT, Apache-2.0, GPL-3.0, BSD-3-Clause (never empty); missing custom rules become empty |
| PolicyEngine.PolicyWithDefaults | backend/app/policy/policy_engine.py:123-144 | the constructor defaults: WARNING, block on critical, not on high, security and compliance checks on, quality checks off |
| PolicyEngine.DefaultPolicy | backend/app/policy/policy_engine.py:16-27 | the default policy is WARNING, blocks on critical and not on high |
| PolicyEngine.OrgName | backend/app/policy/policy_engine.py:38-41 | the text before the first `/`: a prefix of the name without `/`, followed by `/` when shorter |
| PolicyEngine.EnforceWith | backend/app/policy/policy_engine.py:45-95 | the loop with `continue` and the blocking tests compute the enforcement specification |
| PolicyEngine.EnforcePartitions | backend/app/policy/policy_engine.py:58-75 | kept and filtered violations split the input as a multiset; a violation is kept iff its category is not disabled |
| PolicyEngine.SeverityCountsBounded | backend/app/policy/policy_engine.py:76-77 | critical plus high counts never exceed the number of kept violations |
| PolicyEngine.CountPositive | backend/app/policy/policy_engine.py:76-89 | a count is positive iff some kept violation has the property |
| PolicyEngine.BlockingMeaning | backend/app/policy/policy_engine.py:79-93 | blocked iff (block on critical and a critical kept) or (block on high and a high kept) or (BLOCKING and a license violation kept); a reason iff blocked |
| PolicyEngine.ValidateOverrideToken | backend/app/policy/policy_engine.py:113-117 | a token is valid iff it has 64 characters |
| PolicyEngine.TokenIgnoresRepository | backend/app/policy/policy_engine.py:113-117 | validity does not depend on the repository name |
| PolicyEngine.Engine.constructor | backend/app/policy/policy_engine.py:11-14 | no registered policies and the default policy |
| PolicyEngine.Engine.RegisterPolicy | backend/app/policy/policy_engine.py:29-31 | the policy is stored under its name and is what lookup of that name returns |
| PolicyEngine.Engine.GetPolicy | backend/app/policy/policy_engine.py:33-43 | the exact repository's policy, else the organisation's, else the default |
| PolicyEngine.Engine.EnforcePolicy | backend/app/policy/policy_engine.py:45-95 | enforcement with the policy that lookup finds for the repository |
| AuditLogger.SummaryOf | backend/app/audit/audit_logger.py:141-151 | total scans is the event count; blocked and override totals lie between 0 and it |
| AuditLogger.SummaryAppend | backend/app/audit/audit_logger.py:141-151 | one more event adds one scan and its counts, blocked flag and override flag to the totals |
| AuditLogger.ExportFormatOf | backend/app/audit/audit_logger.py:153-163 | `.json` selects JSON, else `.csv` selects CSV, else an error |
| AuditLogger.ExportAuditLog | backend/app/audit/audit_logger.py:153-163 | succeeds with the filename iff the suffix is supported, else `Unsupported format. Use .json or .csv` |
| AuditLogger.FoundClose | backend/app/audit/audit_logger.py:218-225 | closing the outermost brace records one more object, ending at that brace |
| AuditLogger.FoundSkip | backend/app/audit/audit_logger.py:213-227 | a character that closes no object keeps the objects found so far |
| AuditLogger.CompleteSkip | backend/app/audit/audit_logger.py:217-224 | a character that does not bring the brace count from one to zero ends no object |
| AuditLogger.CompleteClose | backend/app/audit/audit_logger.py:221-227 | the `}` that brings the count from one to zero ends exactly the object opened at the recorded start, and no other |
| AuditLogger.OpenStep | backend/app/audit/audit_logger.py:217-224 | while the count stays positive the open object keeps its start |
| AuditLogger.CompleteAll | backend/app/audit/audit_logger.py:213-227 | once the whole content is read, the recorded spans are exactly its top-level objects |
| AuditLogger.ReadChar | backend/app/audit/audit_logger.py:217-227 | one turn of the loop keeps the count equal to opening minus closing braces read, and the found objects exactly those ended so far |
| AuditLogger.SplitObjects | backend/app/audit/audit_logger.py:212-227 | the pieces are exactly the top-level objects, in order of position: each starts at a `{` read at count zero and ends at the first `}` that brings the count back to zero; content without `{` gives none |
| AuditLogger.BraceInStringCutsEvent | backend/app/audit/audit_logger.py:217-227 | a `}` inside a JSON string is counted: the event `{"r":"}"}` is cut after its first `}` and is not itself an object of the content |
| AuditLogger.IntAt | backend/app/audit/audit_logger.py:244-247 | an integer is read only from a present key |
| AuditLogger.StrAt | backend/app/audit/audit_logger.py:240-246 | a string is read only from a present key |
| AuditLogger.BoolAt | backend/app/audit/audit_logger.py:250-251 | a flag is read only from a present key |
| AuditLogger.OptionalStrAt | backend/app/audit/audit_logger.py:252-255 | an optional string is None iff the key is absent or null |
| AuditLogger.EventFromDict | backend/app/audit/audit_logger.py:237-259 | an event is built only when every required key is present, with the fields read from them; absent `override_applied` means false, absent `override_reason` means None |
| AuditLogger.EventToDict | backend/app/audit/audit_logger.py:30-32 | the dictionary of an event has every required key |
| AuditLogger.EventRoundTrip | backend/app/audit/audit_logger.py:30-32 | reading back an event's dictionary rebuilds the event with every field equal |
| AuditLogger.EventHeadRoundTrip | backend/app/audit/audit_logger.py:240-244 | id, timestamp, repository, PR number and commit read back unchanged |
| AuditLogger.EventCountsRoundTrip | backend/app/audit/audit_logger.py:245-249 | counts, action and blocked flag read back unchanged |
| AuditLogger.EventExtrasRoundTrip | backend/app/audit/audit_logger.py:250-257 | override flag and reason, PR url, scan id and summary read back unchanged |
| AuditLogger.Logger.constructor | backend/app/audit/audit_logger.py:42-45 | the in-memory list before `load_audit_logs` runs is empty; each existing file's content is then added by `LoadContent` |
| AuditLogger.Logger.LogScan | backend/app/audit/audit_logger.py:54-88 | exactly one event is appended, earlier events unchanged, holding the given fields, and it is returned |
| AuditLogger.Logger.LogOverride | backend/app/audit/audit_logger.py:90-116 | exactly one event is appended: override applied, not blocked, action `override`, all counts 0, the reason given |
| AuditLogger.Logger.GetEventsByRepo | backend/app/audit/audit_logger.py:124-126 | exactly the events of that repository, in logged order (the ordered filter), with the membership iff |
| AuditLogger.Logger.GetEventsByDateRange | backend/app/audit/audit_logger.py:128-139 | the events with start ≤ timestamp ≤ end, in insertion order |
| AuditLogger.Logger.GetViolationsSummary | backend/app/audit/audit_logger.py:141-151 | the totals of the stored events, blocked and overrides bounded by the scan count |
| AuditLogger.Logger.CreateEventFromDict | backend/app/audit/audit_logger.py:237-259 | appends the decoded event, or nothing when a required key is missing |
| AuditLogger.Logger.LoadContent | backend/app/audit/audit_logger.py:208-235 | one file body: every top-level object of the content, in order, is decoded and each decodable complete event appended |
| AuditLogger.Logger.LoadObjects | backend/app/audit/audit_logger.py:229-235 | the pieces' events are appended in order |
| AuditLogger.Logger.LoadObject | backend/app/audit/audit_logger.py:229-235 | one piece appends its event, or nothing |
| AuditLogger.LoadedEvents | backend/app/audit/audit_logger.py:229-235 | no more events than pieces |
| Optimization.CacheKey | backend/app/performance/optimization.py:18-21 | the hashed text is the repository, `:`, then the commit |
| Optimization.CacheKeyAmbiguous | backend/app/performance/optimization.py:18-21 | distinct (repository, commit) pairs can share a key |
| Optimization.ScanCache.constructor | backend/app/performance/optimization.py:13-16 | empty cache; TTL is the minutes times 60 seconds |
| Optimization.ScanCache.Lookup | backend/app/performance/optimization.py:23-33 | a result iff the key is cached and younger than the TTL, and then the stored result |
| Optimization.ScanCache.Get | backend/app/performance/optimization.py:23-33 | returns the live result and keeps the cache, or returns None and removes the key |
| Optimization.ScanCache.Set | backend/app/performance/optimization.py:35-38 | stores the result; every lookup before now + TTL returns it |
| Optimization.ScanCache.Clear | backend/app/performance/optimization.py:40-42 | every lookup afterwards returns None |
| Optimization.Min | backend/app/performance/optimization.py:136-138 | the earliest timestamp: a member no larger than any other |
| Optimization.FilterTwice | backend/app/performance/optimization.py:118-122 | pruning twice is pruning once |
| Optimization.PruneThenRecord | backend/app/performance/optimization.py:118-127 | the window of the updated list is the pruned list plus `now` when recorded (and the window is positive) |
| Optimization.RateLimiter.constructor | backend/app/performance/optimization.py:106-110 | the given limits and no requests |
| Optimization.RateLimiter.Recent | backend/app/performance/optimization.py:118-122 | exactly the identifier's timestamps inside the window |
| Optimization.RateLimiter.IsAllowed | backend/app/performance/optimization.py:112-130 | prunes the list; allowed iff fewer than the maximum remain, recording `now` only then; afterwards at most the maximum are recent and the remaining count drops by one, or is 0 when refused |
| Optimization.RateLimiter.GetResetTime | backend/app/performance/optimization.py:132-138 | None iff no requests; else the earliest request plus the window |
| Optimization.RateLimiter.GetRemaining | backend/app/performance/optimization.py:140-153 | between 0 and the maximum; the maximum for an unknown identifier; else the maximum minus the recent count, at least 0 |
| Optimization.BackgroundJobQueue.constructor | backend/app/performance/optimization.py:159-163 | empty queue and maps |
| Optimization.BackgroundJobQueue.Enqueue | backend/app/performance/optimization.py:165-172 | the queued job goes at the back with status `queued`; FIFO order is kept |
| Optimization.BackgroundJobQueue.Dequeue | backend/app/performance/optimization.py:174-178 | None on an empty queue, else the oldest job, removed from the front; the size drops by one |
| Optimization.BackgroundJobQueue.MarkProcessing | backend/app/performance/optimization.py:180-182 | the job is marked processing; nothing else changes |
| Optimization.BackgroundJobQueue.MarkComplete | backend/app/performance/optimization.py:184-187 | the job is no longer processing and its result is stored |
| Optimization.BackgroundJobQueue.GetResult | backend/app/performance/optimization.py:189-191 | the stored result, or None iff none |
| Optimization.BackgroundJobQueue.IsProcessing | backend/app/performance/optimization.py:193-195 | true iff the job is marked processing |
| Optimization.BackgroundJobQueue.QueueSize | backend/app/performance/optimization.py:197-199 | the queue length: jobs enqueued minus jobs dequeued |
| Optimization.FileScore | backend/app/performance/optimization.py:213-232 | security-sensitive files score 50..150, others -50..50, test files at most 130 |
| Optimization.InsertFacts | backend/app/performance/optimization.py:234-235 | inserting into a ranking keeps it ranked and adds exactly the element |
| Optimization.SortRanked | backend/app/performance/optimization.py:234-235 | the stable descending sort is a ranking of the same elements |
| Optimization.PrioritizeFiles | backend/app/performance/optimization.py:206-238 | a permutation of the files with non-increasing scores, ties in input order |
| Optimization.Grow | backend/app/performance/optimization.py:250-257 | adding a file to an open chunk keeps its prefixes within the limit |
| Optimization.ClosedAppend | backend/app/performance/optimization.py:254-257 | a full chunk can be closed |
| Optimization.FlattenAppend | backend/app/performance/optimization.py:254-257 | closing a chunk keeps the files in order |
| Optimization.AddFile | backend/app/performance/optimization.py:250-257 | one turn of the loop: files kept in order, closed chunks full, the open one not |
| Optimization.ChunkLargePr | backend/app/performance/optimization.py:241-261 | the chunks concatenate to the input files in order; none is empty; each but possibly the last exceeds `chunk_size * 1000` characters, and only through its last file |
| Optimization.CloseLast | backend/app/performance/optimization.py:259-260 | the trailing non-empty chunk is added without breaking the chunk facts |
| AiReviewer.Kind | backend/app/ai/ai_reviewer.py:90-95 | which marker a line contains, code marker first, then explanation, then best practices |
| AiReviewer.CleanLine | backend/app/ai/ai_reviewer.py:97 | removing fence markers never lengthens the line |
| AiReviewer.Step | backend/app/ai/ai_reviewer.py:87-102 | a marker line switches section and adds no text; a plain line keeps the section and adds to the current section only |
| AiReviewer.ParseAiResponse | backend/app/ai/ai_reviewer.py:81-104 | the loop yields the stripped code and explanation of the section run; a reply with no marker gives two empty strings |
| AiReviewer.RunConcat | backend/app/ai/ai_reviewer.py:87-102 | parsing two parts in sequence is parsing their concatenation |
| AiReviewer.Quiet | backend/app/ai/ai_reviewer.py:87-102 | plain lines outside code and explanation sections change nothing |
| AiReviewer.NoMarkersNoOutput | backend/app/ai/ai_reviewer.py:87-102 | a reply without markers yields nothing |
| AiReviewer.PreambleIgnored | backend/app/ai/ai_reviewer.py:87-102 | lines before the first marker appear in neither output |
| AiReviewer.TrailingBestPracticesIgnored | backend/app/ai/ai_reviewer.py:94-95 | lines after `BEST_PRACTICES:` up to the next marker appear in neither output |
| AiReviewer.ExplanationRun | backend/app/ai/ai_reviewer.py:101-102 | plain lines in the explanation section are appended with newlines |
| AiReviewer.CodeRun | backend/app/ai/ai_reviewer.py:96-100 | plain lines in the code section add their cleaned pieces to the code only |
| AiReviewer.CodeStep | backend/app/ai/ai_reviewer.py:96-100 | one plain code line adds its cleaned piece to the code only |
| AiReviewer.ExplanationSectionText | backend/app/ai/ai_reviewer.py:92-102 | after an `EXPLANATION:` marker the explanation is the following lines' text and the code is unchanged |
| AiReviewer.CodeSectionText | backend/app/ai/ai_reviewer.py:90-100 | after a `CORRECTED_CODE:` marker the code is the following lines' pieces and the explanation is unchanged |
| AiReviewer.RuleBasedSuggestFix | backend/app/ai/ai_reviewer.py:129-162 | the table entry for the seven listed rule ids, else `# Review code` with the violation's message |
| AiReviewer.FixTableFacts | backend/app/ai/ai_reviewer.py:131-160 | the fix table has exactly SEC-001..SEC-005, AI-001 and IP-001 |
| AiReviewer.GenerateExplanation | backend/app/ai/ai_reviewer.py:218-235 | the table entry, else the violation's message |
| AiReviewer.FixesAreExplained | backend/app/ai/ai_reviewer.py:218-235 | every rule with a fix has an explanation entry |
| AiReviewer.PrefixesExclusive | backend/app/ai/ai_reviewer.py:239-251 | no rule id starts with two of the link prefixes |
| AiReviewer.SuggestCategoryLink | backend/app/ai/ai_reviewer.py:237-251 | the link of the first prefix, in table order, that starts the rule id; None iff no prefix does |

Notes on the code as written:

- `parse_diff` does not read hunk headers. Line numbers are positions in the
  extracted added text, not in the target file.
- The default policy is WARNING. In every mode it blocks on critical (and on
  high when asked); the enforcement mode only matters for license
  violations, which block in BLOCKING mode. The model follows the code
  here, and `PolicyEngine.BlockingMeaning` states it.
- Override tokens are checked only for length (64). They carry no checked
  expiry or repository.
- `RulePackManager.get_active_ruleset` treats an empty active name as no
  active rule set, because Python's truth test is false for `""`.
- The cache key hashes `repo + ":" + commit`. The hash is treated as
  injective, so the key is modelled as that text. `CacheKeyAmbiguous`
  shows that two different pairs share a key when a repository name
  contains `:`.
- In the brace splitter, an unmatched `}` drives the brace count
  negative. No object opens until the count climbs back to 0.
  `SplitObjects` follows the code exactly.
- The brace splitter counts braces inside JSON strings too, and
  `json.dumps` does not escape them. An event whose override reason holds
  a `}` is cut short and then fails to decode, so it is not loaded back.
  `BraceInStringCutsEvent` shows such a cut.
- In `RateLimiter.is_allowed`, a request is recorded at `now`. With a
  window of 0 seconds it falls outside the window at once, so a recorded
  request leaves the remaining count unchanged. `IsAllowed` keeps that
  case apart.

## Left out

- File-system I/O:
  - `_ensure_log_dir`, `_write_event`, and the file writes of `_export_json` and `_export_csv`;
  - the directory listing and file reading of `load_audit_logs`;
  - `load_yaml`, `load_json`, `save_yaml`, `save_json` and `RepositoryPolicyLoader`;
  - the audit logger's `log_dir` is kept as a field only.
  - `ConfigLoader.Load` takes the YAML/JSON decoder as a parameter, and `Logger.LoadContent` takes the content of one file and a JSON decoder.
- Regular expressions: every pattern is an opaque predicate, IGNORECASE included. `re.search(...).group(1)` is an abstract capture function.
- The pattern text and the messages of the rule tables are carried as data. Their regex meaning is not modelled.
- `hashlib.sha256`, `uuid4` and `datetime.utcnow`:
  - ids and hashes are strings passed in;
  - clocks and timestamps, the ISO timestamps of audit events included, are integer seconds.
- `json.dumps`, `csv.DictWriter` and YAML: serialisation formats are library behaviour. `AuditEvent.to_json` and the CSV rows are not modelled; `AuditEvent.to_dict` is modelled as `EventToDict`.
- `PolicyEngine.create_override_token`: a hash of a JSON payload with the current time. Only its 64-character output matters to the validation that is modelled.
- `Policy.to_dict`, `EnforcementResult.to_dict` and `ScanCache.get_size`: they depend on Python's serialisation and `str()`.
- Plugins are values whose behaviour is abstract:
  - `is_applicable` and `analyze` are parameters;
  - an exception raised by `analyze` is an explicit outcome;
  - an exception raised by `is_applicable` is not modelled. In the source it escapes `get_applicable_rules` and so `analyze_with_plugins`, which calls that outside its `try`.
- The `print` diagnostics are not modelled: a failing plugin in `analyze_with_plugins`, an undecodable object in `load_audit_logs`, and an incomplete dictionary in `_create_event_from_dict`. The model only skips the item, as the source does after printing.
- Python default arguments are constants, and the operations take the value as a parameter:
  - `DefaultTtlMinutes` (60) for `ScanCache`;
  - `DefaultMaxRequests` (100) and `DefaultWindowSeconds` (60) for `RateLimiter`;
  - `DefaultChunkSize` (10) for `chunk_large_pr`;
  - `DefaultLogDir` (`audit_logs`) for `AuditLogger`.
- `AsyncAnalyzer`: asyncio and thread-pool concurrency.
- The HTTP layers (`backend/app/main.py`, `backend/app/api/extended_endpoints.py`).
- The Gemini and OpenAI calls of the AI reviewer: `__init__`, `suggest_fix`, `_ai_suggest_fix`, both `analyze_context`, `_ai_analyze_context`.
- `verify_ai_fixes.py` and the `__init__.py` re-exports.
- `Strip` and `Lower` cover ASCII whitespace and ASCII letters only. Python's Unicode `str.strip` and `str.lower` are not modelled.
- ConfigLoader.ParseConfig: a field of the wrong JSON type (say a number where a string is expected) is a parse failure, where Python would store it unchecked.
- AuditLogger.EventFromDict:
  - a field of the wrong type gives no event, where Python would store it unchecked;
  - a `violations_summary` that is not a list reads as None.
- Optimization.PrioritizeFiles: sorts a sequence of values instead of Python's in-place `list.sort`. The dictionary of files is its sequence of items in insertion order.
- Optimization.ChunkLargePr: the dictionary of files and each chunk dictionary are sequences of (path, content) pairs in insertion order.
- Optimization.ScanCache.Get: the cached result is any value. The `datetime` age test is an integer comparison in seconds.
- The model does not capture mutation through aliases of the rule dictionaries that `get_rule_pack` returns, or of the shared violation objects that `analyze_files` tags in place. Violations and rules are values here.
