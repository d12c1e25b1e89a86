// Subscription tiers and the usage-limit check of the billing client.
// Money is held in integer cents: a budget of 20.00 is 2000.

module Billing {
  import opened Wrappers
  import opened Text

  /** One subscription tier; `None` stands for "unlimited" / "custom". */
  datatype TierConfig = TierConfig(
    name: string,
    priceMonthlyCents: Option<int>,
    emailLimit: Option<int>,
    projectLimit: Option<int>,
    apiBudgetCents: Option<int>,
    userLimit: Option<int>,
    features: seq<string>)

  const STARTER: TierConfig := TierConfig(
    "Starter", Some(4900), Some(500), Some(2), Some(2000), Some(1),
    ["Email processing", "AI extraction", "Basic timeline", "Email support"])

  const PROFESSIONAL: TierConfig := TierConfig(
    "Professional", Some(14900), Some(2000), None, Some(10000), Some(5),
    ["Everything in Starter", "Unlimited projects", "Advanced analytics",
     "Priority support", "Custom integrations"])

  const ENTERPRISE: TierConfig := TierConfig(
    "Enterprise", None, None, None, None, None,
    ["Everything in Professional", "Dedicated support", "Custom AI models",
     "SLA guarantee", "On-premise deployment option"])

  const SUBSCRIPTION_TIERS: map<string, TierConfig> :=
    map["starter" := STARTER, "professional" := PROFESSIONAL, "enterprise" := ENTERPRISE]

  /** The tier registered under the lower-cased name; the starter tier for any other name. */
  function GetTierConfig(tierName: string): (r: TierConfig)
    ensures r == STARTER || r == PROFESSIONAL || r == ENTERPRISE
    ensures Lower(tierName) !in SUBSCRIPTION_TIERS ==> r == STARTER
    ensures Lower(tierName) in SUBSCRIPTION_TIERS ==> r == SUBSCRIPTION_TIERS[Lower(tierName)]
  {
    var key := Lower(tierName);
    if key in SUBSCRIPTION_TIERS then SUBSCRIPTION_TIERS[key] else STARTER
  }

  /** The tier lookup does not depend on the case of the name. */
  lemma GetTierConfigIgnoresCase(tierName: string)
    ensures GetTierConfig(Lower(tierName)) == GetTierConfig(tierName)
  {
    LowerIdempotent(tierName);
  }

  /** The result of a usage check: three flags followed by the echoed counts and limits. */
  datatype LimitCheck = LimitCheck(
    emailLimitExceeded: bool,
    projectLimitExceeded: bool,
    apiBudgetExceeded: bool,
    emailCount: int,
    emailLimit: Option<int>,
    projectCount: int,
    projectLimit: Option<int>,
    apiSpendCents: int,
    apiBudgetCents: Option<int>)

  /** A limit is exceeded only when there is one and the usage is strictly above it. */
  predicate Exceeds(limit: Option<int>, usage: int) {
    limit.Some? && usage > limit.value
  }

  function CheckUsageLimits(tierName: string, emailCount: int, projectCount: int, apiSpendCents: int)
    : (r: LimitCheck)
    ensures r.emailCount == emailCount && r.projectCount == projectCount
    ensures r.apiSpendCents == apiSpendCents
    ensures var tier := GetTierConfig(tierName);
      r.emailLimit == tier.emailLimit && r.projectLimit == tier.projectLimit
      && r.apiBudgetCents == tier.apiBudgetCents
    ensures r.emailLimitExceeded <==> r.emailLimit.Some? && emailCount > r.emailLimit.value
    ensures r.projectLimitExceeded <==> r.projectLimit.Some? && projectCount > r.projectLimit.value
    ensures r.apiBudgetExceeded <==> r.apiBudgetCents.Some? && apiSpendCents > r.apiBudgetCents.value
  {
    var key := Lower(tierName);
    var tier := if key in SUBSCRIPTION_TIERS then SUBSCRIPTION_TIERS[key] else STARTER;
    LimitCheck(
      Exceeds(tier.emailLimit, emailCount),
      Exceeds(tier.projectLimit, projectCount),
      Exceeds(tier.apiBudgetCents, apiSpendCents),
      emailCount, tier.emailLimit,
      projectCount, tier.projectLimit,
      apiSpendCents, tier.apiBudgetCents)
  }

  /** Usage at or below every limit raises no flag. */
  lemma AtLimitNeverFlagged(tierName: string, emailCount: int, projectCount: int, apiSpendCents: int)
    requires var tier := GetTierConfig(tierName);
      (tier.emailLimit.Some? ==> emailCount <= tier.emailLimit.value)
      && (tier.projectLimit.Some? ==> projectCount <= tier.projectLimit.value)
      && (tier.apiBudgetCents.Some? ==> apiSpendCents <= tier.apiBudgetCents.value)
    ensures var r := CheckUsageLimits(tierName, emailCount, projectCount, apiSpendCents);
      !r.emailLimitExceeded && !r.projectLimitExceeded && !r.apiBudgetExceeded
  {
  }

  /** Raising a usage figure never clears a flag that was set. */
  lemma FlagsMonotone(tierName: string, e1: int, p1: int, a1: int, e2: int, p2: int, a2: int)
    requires e1 <= e2 && p1 <= p2 && a1 <= a2
    ensures var r1 := CheckUsageLimits(tierName, e1, p1, a1);
      var r2 := CheckUsageLimits(tierName, e2, p2, a2);
      (r1.emailLimitExceeded ==> r2.emailLimitExceeded)
      && (r1.projectLimitExceeded ==> r2.projectLimitExceeded)
      && (r1.apiBudgetExceeded ==> r2.apiBudgetExceeded)
  {
  }

  /** The enterprise tier, in any spelling, never reports a limit as exceeded. */
  lemma EnterpriseNeverExceeded(tierName: string, emailCount: int, projectCount: int, apiSpendCents: int)
    requires Lower(tierName) == "enterprise"
    ensures var r := CheckUsageLimits(tierName, emailCount, projectCount, apiSpendCents);
      !r.emailLimitExceeded && !r.projectLimitExceeded && !r.apiBudgetExceeded
  {
  }

  /** An unrecognised tier name is checked against the starter limits. */
  lemma UnknownTierUsesStarterLimits(tierName: string, emailCount: int, projectCount: int, apiSpendCents: int)
    requires Lower(tierName) !in SUBSCRIPTION_TIERS
    ensures var r := CheckUsageLimits(tierName, emailCount, projectCount, apiSpendCents);
      r.emailLimit == Some(500) && r.projectLimit == Some(2) && r.apiBudgetCents == Some(2000)
      && (r.emailLimitExceeded <==> emailCount > 500)
      && (r.projectLimitExceeded <==> projectCount > 2)
      && (r.apiBudgetExceeded <==> apiSpendCents > 2000)
  {
  }
}
