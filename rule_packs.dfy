/** Pre-built compliance rule packs for regulated industries, the lookup of
    a pack by industry name, and the merge of several packs that keeps the
    first rule seen for each rule id. */
module RulePacks {
  import opened Wrappers
  import opened Text
  import opened Collections

  /** One rule of a pack: the `rule_id`, `name`, `severity`, `category` and
      `description` keys of its dictionary. */
  datatype PackRule = PackRule(ruleId: string, name: string, severity: string, category: string, description: string)

  const BankingRules: seq<PackRule> := [
    PackRule("BANK-001", "PCI DSS: No hardcoded credentials", "critical", "security",
             "PCI DSS 3.2.1 - Render credentials unreadable in storage"),
    PackRule("BANK-002", "PCI DSS: Encryption in transit", "high", "security",
             "PCI DSS 4.1 - Data in transit must be encrypted"),
    PackRule("BANK-003", "PCI DSS: Audit logging", "high", "compliance",
             "PCI DSS 10.2 - Implement automated audit trails for access to all system components"),
    PackRule("BANK-004", "GDPR: Data retention", "high", "compliance",
             "GDPR Article 5 - Personal data must not be kept longer than necessary")
  ]

  const HealthcareRules: seq<PackRule> := [
    PackRule("HIPAA-001", "HIPAA: PHI encryption", "critical", "security",
             "45 CFR 164.312(a)(2)(ii) - Implement encryption for PHI"),
    PackRule("HIPAA-002", "HIPAA: Access controls", "high", "security",
             "45 CFR 164.312(a)(2)(i) - Implement access controls"),
    PackRule("HIPAA-003", "HIPAA: Audit logging", "high", "compliance",
             "45 CFR 164.312(b) - Implement audit controls"),
    PackRule("HIPAA-004", "HIPAA: Data breach notification", "critical", "compliance",
             "45 CFR 164.404 - Notify individuals of breaches")
  ]

  const GovernmentRules: seq<PackRule> := [
    PackRule("FEDRAMP-001", "FedRAMP: System security plan", "high", "compliance",
             "FedRAMP requirement - Maintain system security plan"),
    PackRule("FISMA-001", "FISMA: Minimum security controls", "high", "security",
             "FISMA - Implement NIST security controls"),
    PackRule("FISMA-002", "FISMA: Continuous monitoring", "high", "compliance",
             "FISMA - Implement continuous monitoring program")
  ]

  const TelecomRules: seq<PackRule> := [
    PackRule("TELECOM-001", "Data residency requirement", "critical", "compliance",
             "Telecom regulation - Customer data must remain in jurisdiction"),
    PackRule("TELECOM-002", "Network security requirements", "high", "security",
             "Telecom regulation - Implement network security measures"),
    PackRule("TELECOM-003", "Lawful intercept capabilities", "high", "compliance",
             "Telecom regulation - Maintain lawful intercept capabilities")
  ]

  /** `ComplianceRulePackManager.RULE_PACKS`, keyed by lower-case industry. */
  const RulePackTable: Dict<string, seq<PackRule>> :=
    Dict(["banking", "healthcare", "government", "telecom"],
         map["banking" := BankingRules, "healthcare" := HealthcareRules,
             "government" := GovernmentRules, "telecom" := TelecomRules])

  const UnknownIndustry := "Unknown industry: "

  /** `get_rule_pack` over a table: the pack of the lower-cased industry, or
      the ValueError an unknown industry raises. */
  function RulePackIn(table: Dict<string, seq<PackRule>>, industry: string): (r: Result<seq<PackRule>, string>)
    ensures r.Success? <==> Lower(industry) in table.entries
    ensures r.Success? ==> r.value == table.entries[Lower(industry)]
    ensures r.Failure? ==> r.error == UnknownIndustry + industry
  {
    match table.Get(Lower(industry))
    case None => Failure(UnknownIndustry + industry)
    case Some(rules) => Success(rules)
  }

  /** `get_rule_pack`. */
  function GetRulePack(industry: string): (r: Result<seq<PackRule>, string>)
    ensures r.Success? <==> Lower(industry) in RulePackTable.keys
  {
    RulePackIn(RulePackTable, industry)
  }

  /** The lookup ignores the case of the industry name: two names that
      lower-case alike find the same pack, or both fail. */
  lemma RulePackCaseInsensitive(table: Dict<string, seq<PackRule>>, a: string, b: string)
    requires Lower(a) == Lower(b)
    ensures RulePackIn(table, a).Success? == RulePackIn(table, b).Success?
    ensures RulePackIn(table, a).Success? ==> RulePackIn(table, a).value == RulePackIn(table, b).value
  {
  }

  /** Examples: `Banking` finds the banking pack, `retail` is unknown. */
  lemma RulePackExamples()
    ensures GetRulePack("Banking") == Success(BankingRules)
    ensures GetRulePack("retail") == Failure(UnknownIndustry + "retail")
  {
    assert Lower("Banking") == "banking";
    assert Lower("retail") == "retail";
  }

  /** `list_industries`: the table's keys in insertion order. */
  function ListIndustries(): (r: seq<string>)
    ensures r == ["banking", "healthcare", "government", "telecom"]
    ensures forall i :: 0 <= i < |r| ==> GetRulePack(r[i]).Success?
  {
    assert Lower("banking") == "banking";
    assert Lower("healthcare") == "healthcare";
    assert Lower("government") == "government";
    assert Lower("telecom") == "telecom";
    RulePackTable.keys
  }

  /** The rule ids of `rules`. */
  function Ids(rules: seq<PackRule>): set<string>
  {
    set r | r in rules :: r.ruleId
  }

  lemma IdsAppend(rules: seq<PackRule>, r: PackRule)
    ensures Ids(rules + [r]) == Ids(rules) + {r.ruleId}
  {
    assert forall x :: x in rules + [r] <==> x in rules || x == r;
  }

  /** The merge of `get_combined_rules` over the rules in the order it
      visits them: a rule is kept when no earlier kept rule has its id. */
  function Dedup(rules: seq<PackRule>): seq<PackRule>
  {
    if |rules| == 0 then []
    else
      var kept := Dedup(rules[..|rules| - 1]);
      if rules[|rules| - 1].ruleId in Ids(kept) then kept else kept + [rules[|rules| - 1]]
  }

  lemma DedupStep(rules: seq<PackRule>, r: PackRule)
    ensures r.ruleId in Ids(Dedup(rules)) ==> Dedup(rules + [r]) == Dedup(rules)
    ensures r.ruleId !in Ids(Dedup(rules)) ==> Dedup(rules + [r]) == Dedup(rules) + [r]
  {
    assert (rules + [r])[..|rules|] == rules;
  }

  /** The rules of the listed industries, one pack after the other, or the
      error of the first unknown industry. */
  function PacksOf(table: Dict<string, seq<PackRule>>, industries: seq<string>): Result<seq<PackRule>, string>
  {
    if |industries| == 0 then Success([])
    else
      match PacksOf(table, industries[..|industries| - 1])
      case Failure(e) => Failure(e)
      case Success(rules) =>
        match RulePackIn(table, industries[|industries| - 1])
        case Failure(e) => Failure(e)
        case Success(pack) => Success(rules + pack)
  }

  /** What `get_combined_rules` returns or raises. */
  function CombinedRulesIn(table: Dict<string, seq<PackRule>>, industries: seq<string>): Result<seq<PackRule>, string>
  {
    match PacksOf(table, industries)
    case Failure(e) => Failure(e)
    case Success(rules) => Success(Dedup(rules))
  }

  /** `get_combined_rules`. */
  method GetCombinedRules(industries: seq<string>) returns (r: Result<seq<PackRule>, string>)
    ensures r == CombinedRulesIn(RulePackTable, industries)
  {
    r := CombineRulesWith(RulePackTable, industries);
  }

  /** The loops of `get_combined_rules` over the pack table `table`. */
  method CombineRulesWith(table: Dict<string, seq<PackRule>>, industries: seq<string>) returns (r: Result<seq<PackRule>, string>)
    ensures r == CombinedRulesIn(table, industries)
  {
    var combined: seq<PackRule> := [];
    var seenIds: set<string> := {};
    ghost var visited: seq<PackRule> := [];
    var i := 0;
    while i < |industries|
      invariant 0 <= i <= |industries|
      invariant PacksOf(table, industries[..i]) == Success(visited)
      invariant combined == Dedup(visited)
      invariant seenIds == Ids(combined)
    {
      assert industries[..i + 1][..i] == industries[..i];
      var pack := RulePackIn(table, industries[i]);
      if pack.Failure? {
        DedupFailure(table, industries, i + 1);
        return Failure(pack.error);
      }
      var rules := pack.value;
      combined, seenIds := MergePack(combined, seenIds, visited, rules);
      visited := visited + rules;
      i := i + 1;
    }
    assert industries[..i] == industries;
    r := Success(combined);
  }

  /** The inner loop of `get_combined_rules`: one pack merged into the
      rules kept so far. */
  method MergePack(combined: seq<PackRule>, seenIds: set<string>, ghost visited: seq<PackRule>, rules: seq<PackRule>)
    returns (merged: seq<PackRule>, seen: set<string>)
    requires combined == Dedup(visited) && seenIds == Ids(combined)
    ensures merged == Dedup(visited + rules) && seen == Ids(merged)
  {
    merged, seen := combined, seenIds;
    ghost var met := visited;
    var j := 0;
    while j < |rules|
      invariant 0 <= j <= |rules|
      invariant met == visited + rules[..j]
      invariant merged == Dedup(met)
      invariant seen == Ids(merged)
    {
      var rule := rules[j];
      DedupStep(met, rule);
      if rule.ruleId !in seen {
        IdsAppend(merged, rule);
        merged := merged + [rule];
        seen := seen + {rule.ruleId};
      }
      assert visited + rules[..j + 1] == met + [rule];
      met := met + [rule];
      j := j + 1;
    }
    assert rules[..j] == rules;
  }

  /** Once an industry is unknown, the whole merge fails with its error. */
  lemma DedupFailure(table: Dict<string, seq<PackRule>>, industries: seq<string>, k: nat)
    requires 1 <= k <= |industries|
    requires PacksOf(table, industries[..k - 1]).Success?
    requires RulePackIn(table, industries[k - 1]).Failure?
    ensures CombinedRulesIn(table, industries) == Failure(RulePackIn(table, industries[k - 1]).error)
  {
    PacksOfFailure(table, industries, k);
  }

  lemma {:induction false} PacksOfFailure(table: Dict<string, seq<PackRule>>, industries: seq<string>, k: nat)
    requires 1 <= k <= |industries|
    requires PacksOf(table, industries[..k - 1]).Success?
    requires RulePackIn(table, industries[k - 1]).Failure?
    ensures PacksOf(table, industries) == Failure(RulePackIn(table, industries[k - 1]).error)
    decreases |industries|
  {
    var n := |industries|;
    if n == k {
      assert industries[..n - 1] == industries[..k - 1];
    } else {
      var prefix := industries[..n - 1];
      assert prefix[..k - 1] == industries[..k - 1];
      assert prefix[k - 1] == industries[k - 1];
      PacksOfFailure(table, prefix, k);
    }
  }

  /** The merge fails exactly when some listed industry is unknown. */
  lemma {:induction false} CombinedFailsIffUnknown(table: Dict<string, seq<PackRule>>, industries: seq<string>)
    ensures CombinedRulesIn(table, industries).Failure? <==>
              exists i :: 0 <= i < |industries| && Lower(industries[i]) !in table.entries
  {
    PacksOfFailsIffUnknown(table, industries);
  }

  lemma {:induction false} PacksOfFailsIffUnknown(table: Dict<string, seq<PackRule>>, industries: seq<string>)
    ensures PacksOf(table, industries).Failure? <==>
              exists i :: 0 <= i < |industries| && Lower(industries[i]) !in table.entries
  {
    if |industries| > 0 {
      var prefix := industries[..|industries| - 1];
      PacksOfFailsIffUnknown(table, prefix);
      if exists i :: 0 <= i < |prefix| && Lower(prefix[i]) !in table.entries {
        var i :| 0 <= i < |prefix| && Lower(prefix[i]) !in table.entries;
        assert industries[i] == prefix[i];
      }
      if exists i :: 0 <= i < |industries| && Lower(industries[i]) !in table.entries {
        var i :| 0 <= i < |industries| && Lower(industries[i]) !in table.entries;
        if i < |prefix| {
          assert prefix[i] == industries[i];
        }
      }
    }
  }

  /** The merge never keeps two rules with the same id. */
  lemma {:induction false} DedupDistinct(rules: seq<PackRule>)
    ensures forall i, j :: 0 <= i < j < |Dedup(rules)| ==> Dedup(rules)[i].ruleId != Dedup(rules)[j].ruleId
  {
    if |rules| > 0 {
      var prefix := rules[..|rules| - 1];
      DedupDistinct(prefix);
      var kept := Dedup(prefix);
      var last := rules[|rules| - 1];
      if last.ruleId !in Ids(kept) {
        forall i | 0 <= i < |kept|
          ensures kept[i].ruleId != last.ruleId
        {
          assert kept[i] in kept;
        }
      }
    }
  }

  /** Every rule id met appears in the merge, and every kept rule is one of
      the rules met. */
  lemma {:induction false} DedupCovers(rules: seq<PackRule>)
    ensures Ids(Dedup(rules)) == Ids(rules)
    ensures forall r :: r in Dedup(rules) ==> r in rules
  {
    if |rules| > 0 {
      var prefix := rules[..|rules| - 1];
      DedupCovers(prefix);
      assert rules == prefix + [rules[|rules| - 1]];
      assert Ids(rules) == Ids(prefix) + {rules[|rules| - 1].ruleId};
      if rules[|rules| - 1].ruleId !in Ids(Dedup(prefix)) {
        assert Ids(Dedup(prefix) + [rules[|rules| - 1]]) == Ids(Dedup(prefix)) + {rules[|rules| - 1].ruleId};
      }
    }
  }

  /** The first rule met with a given id is the one kept. */
  lemma {:induction false} DedupKeepsFirst(rules: seq<PackRule>, i: nat)
    requires i < |rules|
    requires forall j :: 0 <= j < i ==> rules[j].ruleId != rules[i].ruleId
    ensures rules[i] in Dedup(rules)
  {
    var prefix := rules[..|rules| - 1];
    if i == |rules| - 1 {
      DedupCovers(prefix);
    } else {
      forall j | 0 <= j < i
        ensures prefix[j].ruleId != prefix[i].ruleId
      {
        assert prefix[j] == rules[j];
      }
      DedupKeepsFirst(prefix, i);
    }
  }

  /** What the merge kept from the earlier rules stays in front: later
      packs only append. */
  lemma {:induction false} DedupPrefix(rules: seq<PackRule>, more: seq<PackRule>)
    ensures Dedup(rules) <= Dedup(rules + more)
    decreases |more|
  {
    if |more| == 0 {
      assert rules + more == rules;
    } else {
      var init := more[..|more| - 1];
      DedupPrefix(rules, init);
      assert rules + more == (rules + init) + [more[|more| - 1]];
      DedupStep(rules + init, more[|more| - 1]);
    }
  }

  /** Rules whose ids were all met already change nothing. */
  lemma {:induction false} DedupAbsorbs(rules: seq<PackRule>, more: seq<PackRule>)
    requires Ids(more) <= Ids(rules)
    ensures Dedup(rules + more) == Dedup(rules)
    decreases |more|
  {
    if |more| == 0 {
      assert rules + more == rules;
    } else {
      var init := more[..|more| - 1];
      var last := more[|more| - 1];
      assert more == init + [last];
      assert Ids(init) <= Ids(more);
      DedupAbsorbs(rules, init);
      assert rules + more == (rules + init) + [last];
      DedupStep(rules + init, last);
      DedupCovers(rules);
      assert last.ruleId in Ids(Dedup(rules));
    }
  }

  /** Listing an industry again, in any spelling of its case, gives the
      same merge as listing it once. */
  lemma RepeatedIndustryChangesNothing(table: Dict<string, seq<PackRule>>, industries: seq<string>, k: nat, again: string)
    requires k < |industries|
    requires Lower(again) == Lower(industries[k])
    ensures CombinedRulesIn(table, industries + [again]) == CombinedRulesIn(table, industries)
  {
    var all := industries + [again];
    assert all[..|all| - 1] == industries;
    match PacksOf(table, industries)
    case Failure(_) =>
    case Success(rules) =>
      PacksOfContains(table, industries, k);
      var pack := RulePackIn(table, again).value;
      assert Ids(pack) <= Ids(rules);
      DedupAbsorbs(rules, pack);
  }

  /** A pack that was merged is part of the rules visited. */
  lemma {:induction false} PacksOfContains(table: Dict<string, seq<PackRule>>, industries: seq<string>, k: nat)
    requires k < |industries|
    requires PacksOf(table, industries).Success?
    ensures RulePackIn(table, industries[k]).Success?
    ensures forall r :: r in RulePackIn(table, industries[k]).value ==> r in PacksOf(table, industries).value
  {
    var prefix := industries[..|industries| - 1];
    if k < |industries| - 1 {
      assert prefix[k] == industries[k];
      PacksOfContains(table, prefix, k);
    }
  }
}
