/** Policies and their enforcement: which policy governs a repository, which
    violations a policy keeps, and whether the kept violations block the
    change. */
module PolicyEngine {
  import opened Wrappers
  import opened Text
  import opened Models
  import opened Collections

  /** `Policy`: never changed after construction. */
  datatype Policy = Policy(
    name: string,
    enforcementMode: EnforcementMode,
    blockOnCritical: bool,
    blockOnHigh: bool,
    enableSecurityChecks: bool,
    enableComplianceChecks: bool,
    enableQualityChecks: bool,
    allowedLicenses: seq<string>,
    customRules: map<string, Value>)

  const DefaultLicenses: seq<string> := ["MIT", "Apache-2.0", "GPL-3.0", "BSD-3-Clause"]

  /** The `Policy` constructor: an absent or empty license list becomes the
      default list, absent custom rules become none. */
  function MakePolicy(name: string, enforcementMode: EnforcementMode, blockOnCritical: bool, blockOnHigh: bool,
                      enableSecurityChecks: bool, enableComplianceChecks: bool, enableQualityChecks: bool,
                      allowedLicenses: Option<seq<string>>, customRules: Option<map<string, Value>>): (p: Policy)
    ensures p.allowedLicenses == if allowedLicenses.None? || allowedLicenses.value == [] then DefaultLicenses
                                 else allowedLicenses.value
    ensures p.allowedLicenses != []
    ensures p.customRules == if customRules.None? then map[] else customRules.value
  {
    Policy(name, enforcementMode, blockOnCritical, blockOnHigh,
           enableSecurityChecks, enableComplianceChecks, enableQualityChecks,
           if allowedLicenses.None? || allowedLicenses.value == [] then DefaultLicenses else allowedLicenses.value,
           if customRules.None? then map[] else customRules.value)
  }

  /** A policy built with every default of the constructor: WARNING mode,
      blocking on critical but not on high violations, security and
      compliance checks on, quality checks off. */
  function PolicyWithDefaults(name: string): (p: Policy)
    ensures p.name == name && p.enforcementMode == Warning
    ensures p.blockOnCritical && !p.blockOnHigh
    ensures p.enableSecurityChecks && p.enableComplianceChecks && !p.enableQualityChecks
    ensures p.allowedLicenses == DefaultLicenses && p.customRules == map[]
  {
    MakePolicy(name, Warning, true, false, true, true, false, None, None)
  }

  /** `_create_default_policy`: the policy named `default`, with the
      constructor's defaults spelled out. */
  function DefaultPolicy(): (p: Policy)
    ensures p == PolicyWithDefaults("default")
    ensures p.enforcementMode == Warning && p.blockOnCritical && !p.blockOnHigh
  {
    MakePolicy("default", Warning, true, false, true, true, false,
               Some(["MIT", "Apache-2.0", "GPL-3.0", "BSD-3-Clause"]), None)
  }

  /** `repo_name.split("/")[0]`. */
  function OrgName(repoName: string): (org: string)
    ensures '/' !in org
    ensures org <= repoName
    ensures |org| < |repoName| ==> repoName[|org|] == '/'
  {
    SplitFirst(repoName, '/');
    Split(repoName, '/')[0]
  }

  /** `EnforcementResult` once `enforce_policy` has filled it in. */
  datatype EnforcementResult = EnforcementResult(
    violations: seq<Violation>,
    filteredViolations: seq<Violation>,
    shouldBlock: bool,
    blockReason: Option<string>,
    enforcementMode: EnforcementMode,
    overrideToken: Option<string>)

  /** A violation the policy drops because its category's checks are off. */
  predicate FilteredOut(policy: Policy, v: Violation)
  {
    || (v.category == Security && !policy.enableSecurityChecks)
    || (v.category == Compliance && !policy.enableComplianceChecks)
    || (v.category == CodeQuality && !policy.enableQualityChecks)
  }

  function DroppedBy(policy: Policy): Violation -> bool
  {
    (v: Violation) => FilteredOut(policy, v)
  }

  function KeptBy(policy: Policy): Violation -> bool
  {
    (v: Violation) => !FilteredOut(policy, v)
  }

  function HasSeverity(s: Severity): Violation -> bool
  {
    (v: Violation) => v.severity == s
  }

  function IsLicenseViolation(v: Violation): bool
  {
    v.category == License
  }

  const CriticalHead := "Blocking due to "
  const CriticalTail := " critical violation(s)"
  const HighTail := " high severity violation(s)"
  const LicenseHead := "License violations detected: "

  /** The block decision on the kept violations: the severity test
      (critical first, then high), overridden by the license test in
      BLOCKING mode. */
  function BlockDecision(policy: Policy, kept: seq<Violation>): (Option<string>)
  {
    var critical := |Filter(kept, HasSeverity(Critical))|;
    var high := |Filter(kept, HasSeverity(High))|;
    var licenses := |Filter(kept, IsLicenseViolation)|;
    if licenses > 0 && policy.enforcementMode == Blocking then Some(LicenseHead + NatToString(licenses))
    else if policy.blockOnCritical && critical > 0 then Some(CriticalHead + NatToString(critical) + CriticalTail)
    else if policy.blockOnHigh && high > 0 then Some(CriticalHead + NatToString(high) + HighTail)
    else None
  }

  /** The enforcement of `policy` on `violations`. */
  function EnforceSpec(policy: Policy, violations: seq<Violation>): EnforcementResult
  {
    var kept := Filter(violations, KeptBy(policy));
    var reason := BlockDecision(policy, kept);
    EnforcementResult(kept, Filter(violations, DroppedBy(policy)), reason.Some?, reason, policy.enforcementMode, None)
  }

  /** The body of `enforce_policy` once the policy is chosen. */
  method EnforceWith(policy: Policy, violations: seq<Violation>) returns (result: EnforcementResult)
    ensures result == EnforceSpec(policy, violations)
  {
    var kept: seq<Violation> := [];
    var dropped: seq<Violation> := [];
    var i := 0;
    while i < |violations|
      invariant 0 <= i <= |violations|
      invariant kept == Filter(violations[..i], KeptBy(policy))
      invariant dropped == Filter(violations[..i], DroppedBy(policy))
    {
      var v := violations[i];
      assert violations[..i + 1][..i] == violations[..i];
      if v.category == Security && !policy.enableSecurityChecks {
        dropped := dropped + [v];
        i := i + 1;
        continue;
      }
      if v.category == Compliance && !policy.enableComplianceChecks {
        dropped := dropped + [v];
        i := i + 1;
        continue;
      }
      if v.category == CodeQuality && !policy.enableQualityChecks {
        dropped := dropped + [v];
        i := i + 1;
        continue;
      }
      kept := kept + [v];
      i := i + 1;
    }
    assert violations[..i] == violations;
    var criticalCount := |Filter(kept, HasSeverity(Critical))|;
    var highCount := |Filter(kept, HasSeverity(High))|;
    var shouldBlock := false;
    var blockReason: Option<string> := None;
    if policy.blockOnCritical && criticalCount > 0 {
      shouldBlock := true;
      blockReason := Some(CriticalHead + NatToString(criticalCount) + CriticalTail);
    } else if policy.blockOnHigh && highCount > 0 {
      shouldBlock := true;
      blockReason := Some(CriticalHead + NatToString(highCount) + HighTail);
    }
    var licenseViolations := Filter(kept, IsLicenseViolation);
    if |licenseViolations| > 0 && policy.enforcementMode == Blocking {
      shouldBlock := true;
      blockReason := Some(LicenseHead + NatToString(|licenseViolations|));
    }
    result := EnforcementResult(kept, dropped, shouldBlock, blockReason, policy.enforcementMode, None);
  }

  /** Enforcement splits the input in two, in order, losing and
      duplicating nothing; only a violation of a disabled category is
      dropped; and the mode is the policy's. */
  lemma EnforcePartitions(policy: Policy, violations: seq<Violation>, v: Violation)
    ensures var r := EnforceSpec(policy, violations);
              && |r.violations| + |r.filteredViolations| == |violations|
              && multiset(r.violations) + multiset(r.filteredViolations) == multiset(violations)
              && (v in r.violations <==> v in violations && !FilteredOut(policy, v))
              && (v in r.filteredViolations <==> v in violations && FilteredOut(policy, v))
              && r.enforcementMode == policy.enforcementMode
  {
    FilterPartition(violations, KeptBy(policy), DroppedBy(policy));
    FilterMembership(violations, KeptBy(policy), v);
    FilterMembership(violations, DroppedBy(policy), v);
  }

  /** The critical and the high counts together never exceed the number of
      kept violations. */
  lemma SeverityCountsBounded(kept: seq<Violation>)
    ensures |Filter(kept, HasSeverity(Critical))| + |Filter(kept, HasSeverity(High))| <= |kept|
  {
    FilterDisjoint(kept, HasSeverity(Critical), HasSeverity(High));
  }

  /** Some kept violation has severity `s` exactly when the count is positive. */
  lemma CountPositive(kept: seq<Violation>, p: Violation -> bool)
    ensures |Filter(kept, p)| > 0 <==> exists v :: v in kept && p(v)
  {
    if |Filter(kept, p)| > 0 {
      FilterMembership(kept, p, Filter(kept, p)[0]);
    }
    if exists v :: v in kept && p(v) {
      var v :| v in kept && p(v);
      FilterMembership(kept, p, v);
    }
  }

  /** The change is blocked exactly when critical violations are kept and
      the policy blocks on them, or high ones and it blocks on those, or
      license violations are kept in BLOCKING mode; a reason is given
      exactly when it is blocked. */
  lemma BlockingMeaning(policy: Policy, violations: seq<Violation>)
    ensures var r := EnforceSpec(policy, violations);
              && (r.shouldBlock <==>
                    || (policy.blockOnCritical && exists v :: v in r.violations && v.severity == Critical)
                    || (policy.blockOnHigh && exists v :: v in r.violations && v.severity == High)
                    || (policy.enforcementMode == Blocking && exists v :: v in r.violations && v.category == License))
              && (r.blockReason.Some? <==> r.shouldBlock)
  {
    var kept := Filter(violations, KeptBy(policy));
    CountPositive(kept, HasSeverity(Critical));
    CountPositive(kept, HasSeverity(High));
    CountPositive(kept, IsLicenseViolation);
  }

  const SignatureLength := 64

  /** `validate_override_token`: any token of 64 characters passes, for
      any repository. */
  function ValidateOverrideToken(token: string, repoName: string): (ok: bool)
    ensures ok <==> |token| == SignatureLength
  {
    |token| == SignatureLength
  }

  /** The repository name plays no part in token validation. */
  lemma TokenIgnoresRepository(token: string, a: string, b: string)
    ensures ValidateOverrideToken(token, a) == ValidateOverrideToken(token, b)
  {
  }

  /** `PolicyEngine`: registered policies by name, and the default. */
  class Engine {
    var policies: Dict<string, Policy>
    var defaultPolicy: Policy

    ghost predicate Valid()
      reads this
    {
      policies.Valid()
    }

    constructor ()
      ensures Valid() && policies.keys == [] && defaultPolicy == DefaultPolicy()
    {
      policies := EmptyDict();
      defaultPolicy := DefaultPolicy();
    }

    /** `register_policy`: stored under the policy's name, replacing any
        earlier policy of that name. */
    method RegisterPolicy(policy: Policy)
      requires Valid()
      modifies this
      ensures Valid() && defaultPolicy == old(defaultPolicy)
      ensures policies == old(policies).Put(policy.name, policy)
      ensures GetPolicy(policy.name) == policy
    {
      policies := policies.Put(policy.name, policy);
    }

    /** `get_policy`: the repository's own policy, else its organisation's
        (the name before the first `/`), else the default. */
    function GetPolicy(repoName: string): (p: Policy)
      reads this
      ensures repoName in policies.entries ==> p == policies.entries[repoName]
      ensures repoName !in policies.entries && OrgName(repoName) in policies.entries ==>
                p == policies.entries[OrgName(repoName)]
      ensures repoName !in policies.entries && OrgName(repoName) !in policies.entries ==> p == defaultPolicy
    {
      if repoName in policies.entries then policies.entries[repoName]
      else if OrgName(repoName) in policies.entries then policies.entries[OrgName(repoName)]
      else defaultPolicy
    }

    /** `enforce_policy`: the governing policy applied to the violations. */
    method EnforcePolicy(violations: seq<Violation>, repoName: string) returns (result: EnforcementResult)
      ensures result == EnforceSpec(GetPolicy(repoName), violations)
    {
      var policy := GetPolicy(repoName);
      result := EnforceWith(policy, violations);
    }
  }
}
