// The client-onboarding script: the uniqueness guard, the organization record
// derived from the tier and the trial length, the Stripe and Cognito steps
// whose outcomes are inputs, the admin user record, and the command-line
// checks of `main`. The welcome e-mail only writes log lines and is not modelled.

module Onboarding {
  import opened Wrappers
  import opened Text
  import opened Items
  import opened Keys
  import opened Store
  import opened Billing

  const STRIPE_CUSTOMER_ID := "stripe_customer_id"
  const BILLING_STATUS := "billing_status"
  const TRIAL_ENDS_AT := "trial_ends_at"
  const EMAIL_LIMIT := "email_limit"
  const PROJECT_LIMIT := "project_limit"
  const USER_LIMIT := "user_limit"

  /** The budget used when a tier has none (1000.00, in cents). */
  const FALLBACK_API_BUDGET_CENTS := 100000

  /** An optional limit as stored: `None` becomes `Null`. */
  function LimitValue(limit: Option<int>): (v: Value)
    ensures limit.None? <==> v == Null
    ensures limit.Some? ==> v == Num(limit.value)
  {
    match limit
    case None => Null
    case Some(n) => Num(n)
  }

  /** `tier_config['api_budget'] or 1000.0`: a missing or zero budget falls back. */
  function ApiBudgetCents(tier: TierConfig): (cents: int)
    ensures tier.apiBudgetCents.Some? && tier.apiBudgetCents.value != 0 ==> cents == tier.apiBudgetCents.value
    ensures tier.apiBudgetCents.None? ==> cents == FALLBACK_API_BUDGET_CENTS
  {
    match tier.apiBudgetCents
    case Some(b) => if b != 0 then b else FALLBACK_API_BUDGET_CENTS
    case None => FALLBACK_API_BUDGET_CENTS
  }

  /** The fields the script gives `create_organization`; `now` is in milliseconds. */
  function OrganizationData(orgName: string, email: string, subdomain: string, tier: string,
                            trialDays: int, now: nat): Item {
    var config := GetTierConfig(tier);
    map["organization_name" := Str(orgName),
        EMAIL_ADDRESS := Str(email),
        SUBDOMAIN := Str(subdomain),
        "subscription_tier" := Str(tier),
        BILLING_STATUS := Str(if trialDays > 0 then "trial" else "active"),
        MONTHLY_API_BUDGET := Num(ApiBudgetCents(config)),
        CURRENT_MONTH_SPEND := Num(0),
        EMAIL_LIMIT := LimitValue(config.emailLimit),
        PROJECT_LIMIT := LimitValue(config.projectLimit),
        USER_LIMIT := LimitValue(config.userLimit),
        TRIAL_ENDS_AT := if trialDays > 0 then Num(now + trialDays * DAY_MS) else Null]
  }

  /**
   * The script's money fields as written: `tier_config['api_budget'] or 1000.0`
   * and `0.0`, floats whatever the tier.
   */
  function OnboardingAmountsAsWritten(tier: string): map<string, Amount> {
    map[MONTHLY_API_BUDGET := Float(ApiBudgetCents(GetTierConfig(tier))), CURRENT_MONTH_SPEND := Float(0)]
  }

  /** The same fields as exact amounts. */
  function OnboardingAmounts(tier: string): map<string, Amount> {
    map[MONTHLY_API_BUDGET := Exact(ApiBudgetCents(GetTierConfig(tier))), CURRENT_MONTH_SPEND := Exact(0)]
  }

  /**
   * As written, every onboarding's organization put is refused with
   * `TypeError`, whatever the tier, so nothing is created.
   */
  lemma AsWrittenOnboardingRefused(tier: string)
    ensures SerializeAmounts(OrganizationAmountsAsWritten() + OnboardingAmountsAsWritten(tier)) == Err(FLOAT_REFUSED)
  {
    AsWrittenOrganizationRefused(OnboardingAmountsAsWritten(tier));
    assert OnboardingAmountsAsWritten(tier)[CURRENT_MONTH_SPEND].Float?;
  }

  /** With exact amounts, the put stores exactly the money fields of `OrganizationData`. */
  lemma OnboardingAmountsStored(orgName: string, email: string, subdomain: string, tier: string, trialDays: int, now: nat)
    ensures var r := SerializeAmounts(OrganizationAmounts() + OnboardingAmounts(tier));
      var data := OrganizationData(orgName, email, subdomain, tier, trialDays, now);
      && r.Ok? && r.value.Keys == {MONTHLY_API_BUDGET, CURRENT_MONTH_SPEND}
      && forall f :: f in r.value ==> f in data && data[f] == r.value[f]
  {
    var all := OrganizationAmounts() + OnboardingAmounts(tier);
    assert all == OnboardingAmounts(tier);
    assert all.Keys == {MONTHLY_API_BUDGET, CURRENT_MONTH_SPEND};
    assert forall f :: f in all ==> all[f].Exact?;
    var data := OrganizationData(orgName, email, subdomain, tier, trialDays, now);
    assert data[MONTHLY_API_BUDGET] == Num(all[MONTHLY_API_BUDGET].cents);
    assert data[CURRENT_MONTH_SPEND] == Num(all[CURRENT_MONTH_SPEND].cents);
  }

  /**
   * An organization is on trial exactly when it has a trial end, which lies
   * the given number of whole days after creation; otherwise it is active.
   */
  lemma TrialHasEndDate(orgName: string, email: string, subdomain: string, tier: string, trialDays: int, now: nat)
    ensures var d := OrganizationData(orgName, email, subdomain, tier, trialDays, now);
      && (d[BILLING_STATUS] == Str("trial") <==> d[TRIAL_ENDS_AT] != Null)
      && (d[BILLING_STATUS] != Str("trial") ==> d[BILLING_STATUS] == Str("active"))
      && (d[TRIAL_ENDS_AT].Num? ==>
            d[TRIAL_ENDS_AT].n > now && (d[TRIAL_ENDS_AT].n - now) % DAY_MS == 0
            && (d[TRIAL_ENDS_AT].n - now) / DAY_MS == trialDays)
  {
  }

  /**
   * The stored limits are the ones `check_usage_limits` later applies to the
   * same tier name, and the budget is the tier's own whenever it has one.
   */
  lemma StoredLimitsMatchUsageCheck(orgName: string, email: string, subdomain: string, tier: string,
                                    trialDays: int, now: nat, emailCount: int, projectCount: int, spend: int)
    ensures var d := OrganizationData(orgName, email, subdomain, tier, trialDays, now);
      var check := CheckUsageLimits(tier, emailCount, projectCount, spend);
      && d[EMAIL_LIMIT] == LimitValue(check.emailLimit)
      && d[PROJECT_LIMIT] == LimitValue(check.projectLimit)
      && (check.apiBudgetCents.Some? ==> d[MONTHLY_API_BUDGET] == Num(check.apiBudgetCents.value))
  {
  }

  /** The enterprise tier has no budget of its own and is given the 1000.00 fallback, unlike the others. */
  lemma EnterpriseGetsFallbackBudget(orgName: string, email: string, subdomain: string, tier: string, trialDays: int, now: nat)
    requires Lower(tier) == "enterprise"
    ensures OrganizationData(orgName, email, subdomain, tier, trialDays, now)[MONTHLY_API_BUDGET]
         == Num(FALLBACK_API_BUDGET_CENTS)
  {
  }

  /** What `create_user` is given for the admin; Cognito uses the e-mail as the user name. */
  function AdminUserData(adminEmail: string, adminName: string, organizationId: string): Item {
    map[USER_EMAIL := Str(adminEmail), ORGANIZATION_ID := Str(organizationId), ROLE := Str("admin"),
        "name" := Str(adminName), "cognito_user_id" := Str(adminEmail)]
  }

  /** What Cognito answers to the admin creation. */
  datatype CognitoOutcome =
    | UserCreated(temporaryPassword: string)
    | CognitoValueError(message: string)    // `ValueError` raised by the auth client
    | CognitoFailure(message: string)       // any other exception

  /** A created user, or one Cognito reports as already existing, lets onboarding go on. */
  predicate AdminAccepted(c: CognitoOutcome) {
    c.UserCreated? || (c.CognitoValueError? && Contains(c.message, "already exists"))
  }

  /** The `results` dictionary of a completed onboarding. */
  datatype OnboardResults = OnboardResults(
    organizationId: string,
    stripeCustomerId: Option<string>,
    adminUserCreated: bool,
    temporaryPassword: Option<string>,
    error: Option<string>)

  const STRIPE_FAILED := "Stripe customer creation failed: "

  /** The fields the Stripe step sets on the organization: the customer id and `updated_at`, or nothing. */
  function StripeUpdate(createStripe: bool, stripe: Result<string, string>, now: nat): Item {
    if createStripe && stripe.Ok? then map[STRIPE_CUSTOMER_ID := Str(stripe.value), UPDATED_AT := Num(now)]
    else map[]
  }

  ghost predicate EmailTaken(organizations: map<string, Item>, email: string) {
    exists k :: k in organizations && Get(organizations[k], EMAIL_ADDRESS) == Str(email)
  }

  ghost predicate SubdomainTaken(organizations: map<string, Item>, subdomain: string) {
    exists k :: k in organizations && Get(organizations[k], SUBDOMAIN) == Str(subdomain)
  }

  /** Both the e-mail address and the subdomain are non-empty and no organization has either. */
  ghost predicate Available(organizations: map<string, Item>, email: string, subdomain: string) {
    email != "" && subdomain != "" && !EmailTaken(organizations, email) && !SubdomainTaken(organizations, subdomain)
  }

  /**
   * Step 1, the uniqueness guard: the e-mail query first, then the subdomain
   * query. Either query refuses an empty value with a `ValidationError`; a
   * value already in use raises `ValueError`.
   */
  method CheckAvailable(db: DbClient, email: string, subdomain: string) returns (r: Result<(), Error>)
    ensures r.Ok? <==> Available(db.organizations, email, subdomain)
    ensures email == "" ==> r == Err(EMPTY_KEY)
    ensures email != "" && EmailTaken(db.organizations, email) ==> r.Err? && r.error.ValueError?
    ensures email != "" && !EmailTaken(db.organizations, email) && subdomain == "" ==> r == Err(EMPTY_KEY)
    ensures email != "" && !EmailTaken(db.organizations, email) && subdomain != "" && SubdomainTaken(db.organizations, subdomain) ==>
              r.Err? && r.error.ValueError?
  {
    var byEmail := db.GetOrganizationByEmail(email);
    if byEmail.Err? {
      return Err(byEmail.error);
    }
    if byEmail.value.Some? {
      return Err(ValueError("Organization with email " + email + " already exists"));
    }
    var bySubdomain := db.GetOrganizationBySubdomain(subdomain);
    if bySubdomain.Err? {
      return Err(bySubdomain.error);
    }
    if bySubdomain.value.Some? {
      return Err(ValueError("Subdomain " + subdomain + " already taken"));
    }
    r := Ok(());
  }

  /**
   * `onboard_client`. The uniqueness guard refuses an empty or taken e-mail
   * address or subdomain before anything is written. Otherwise the
   * organization is created, then the Stripe customer (a failure is recorded
   * in `error` and onboarding goes on), then the Cognito admin; a Cognito
   * failure other than "already exists" re-raises and leaves the organization
   * in place. The admin's user record is written last, and the store refuses
   * an empty admin address there, again after the organization exists.
   */
  method OnboardClient(db: DbClient, orgName: string, email: string, subdomain: string,
                       adminEmail: string, adminName: string, tier: string, createStripe: bool,
                       trialDays: int, hex: string, now: nat,
                       stripe: Result<string, string>, cognito: CognitoOutcome)
    returns (r: Result<OnboardResults, Error>)
    requires db.Valid() && IsHexString(hex, 12)
    modifies db
    ensures db.Valid()
    ensures db.projects == old(db.projects) && db.events == old(db.events) && db.usage == old(db.usage)
    ensures !Available(old(db.organizations), email, subdomain) ==>
      r.Err? && db.organizations == old(db.organizations) && db.users == old(db.users)
    ensures email == "" || (!EmailTaken(old(db.organizations), email) && subdomain == "") ==> r == Err(EMPTY_KEY)
    ensures email != "" && EmailTaken(old(db.organizations), email) ==> r.Err? && r.error.ValueError?
    ensures email != "" && !EmailTaken(old(db.organizations), email) && subdomain != "" && SubdomainTaken(old(db.organizations), subdomain) ==>
      r.Err? && r.error.ValueError?
    ensures Available(old(db.organizations), email, subdomain) ==>
      var id := NewOrganizationId(hex);
      var created := Merge(OrganizationDefaults(id, now), OrganizationData(orgName, email, subdomain, tier, trialDays, now));
      && db.organizations == old(db.organizations)[id := Merge(created, StripeUpdate(createStripe, stripe, now))]
      && (r.Ok? <==> AdminAccepted(cognito) && adminEmail != "")
      && (r.Err? ==> db.users == old(db.users))
      && (AdminAccepted(cognito) && adminEmail == "" ==> r.Err? && r.error.ValidationError?)
      && (r.Ok? ==>
            && db.users == old(db.users)[adminEmail := Merge(UserDefaults(now), AdminUserData(adminEmail, adminName, id))]
            && r.value.organizationId == id
            && r.value.adminUserCreated
            && r.value.temporaryPassword == (if cognito.UserCreated? then Some(cognito.temporaryPassword) else None)
            && r.value.stripeCustomerId == (if createStripe && stripe.Ok? then Some(stripe.value) else None)
            && r.value.error == (if createStripe && stripe.Err? then Some(STRIPE_FAILED + stripe.error) else None))
  {
    var available := CheckAvailable(db, email, subdomain);
    if available.Err? {
      return Err(available.error);
    }

    var data := OrganizationData(orgName, email, subdomain, tier, trialDays, now);
    OrganizationDataKeys(orgName, email, subdomain, tier, trialDays, now);
    var organizationId, stripeCustomerId, error :=
      CreateOrganizationWithStripe(db, data, hex, now, createStripe, stripe);

    var temporaryPassword: Option<string>;
    match cognito {
      case UserCreated(password) =>
        temporaryPassword := Some(password);
      case CognitoValueError(message) =>
        if !Contains(message, "already exists") {
          return Err(ValueError(message));
        }
        temporaryPassword := None;
      case CognitoFailure(message) =>
        return Err(UpstreamError(message));
    }

    AdminUserKeys(adminEmail, adminName, organizationId);
    var user := db.CreateUser(AdminUserData(adminEmail, adminName, organizationId), now);
    if user.Err? {
      return Err(user.error);
    }
    r := Ok(OnboardResults(organizationId, stripeCustomerId, true, temporaryPassword, error));
  }

  /**
   * Steps 2 and 3: create the organization from `data`, then, when asked,
   * attach the Stripe customer; a Stripe failure only fills in `error`.
   */
  method CreateOrganizationWithStripe(db: DbClient, data: Item, hex: string, now: nat,
                                      createStripe: bool, stripe: Result<string, string>)
    returns (organizationId: string, stripeCustomerId: Option<string>, error: Option<string>)
    requires db.Valid() && IsHexString(hex, 12) && ORGANIZATION_ID !in data && OrganizationIndexed(data)
    modifies db
    ensures db.Valid()
    ensures organizationId == NewOrganizationId(hex)
    ensures db.organizations == old(db.organizations)[organizationId :=
      Merge(Merge(OrganizationDefaults(organizationId, now), data), StripeUpdate(createStripe, stripe, now))]
    ensures stripeCustomerId == (if createStripe && stripe.Ok? then Some(stripe.value) else None)
    ensures error == (if createStripe && stripe.Err? then Some(STRIPE_FAILED + stripe.error) else None)
    ensures db.projects == old(db.projects) && db.events == old(db.events)
    ensures db.users == old(db.users) && db.usage == old(db.usage)
  {
    organizationId := NewOrganizationId(hex);
    NewOrganizationItem(organizationId, now, data);
    var created := db.CreateOrganization(data, hex, now);
    assert created == Ok(organizationId);
    stripeCustomerId, error := AttachStripeCustomer(db, organizationId, createStripe, stripe, now);
  }

  /** Step 3 on an existing organization: set the Stripe customer id, or record why there is none. */
  method AttachStripeCustomer(db: DbClient, organizationId: string, createStripe: bool,
                              stripe: Result<string, string>, now: nat)
    returns (stripeCustomerId: Option<string>, error: Option<string>)
    requires db.Valid() && organizationId in db.organizations
    modifies db
    ensures db.Valid()
    ensures db.organizations == old(db.organizations)[organizationId :=
      Merge(old(db.organizations)[organizationId], StripeUpdate(createStripe, stripe, now))]
    ensures stripeCustomerId == (if createStripe && stripe.Ok? then Some(stripe.value) else None)
    ensures error == (if createStripe && stripe.Err? then Some(STRIPE_FAILED + stripe.error) else None)
    ensures db.projects == old(db.projects) && db.events == old(db.events)
    ensures db.users == old(db.users) && db.usage == old(db.usage)
  {
    stripeCustomerId := None;
    error := None;
    if createStripe {
      match stripe {
        case Ok(customerId) =>
          stripeCustomerId := Some(customerId);
          var update := map[STRIPE_CUSTOMER_ID := Str(customerId)];
          assert ORGANIZATION_ID !in update;
          var _, updated := db.UpdateOrganization(organizationId, update, now);
        case Err(message) =>
          error := Some(STRIPE_FAILED + message);
      }
    }
    if !(createStripe && stripe.Ok?) {
      assert Merge(old(db.organizations)[organizationId], map[]) == old(db.organizations)[organizationId];
    }
  }

  /**
   * The organization data never sets the key attribute, and its indexed
   * attributes are the given address and subdomain.
   */
  lemma OrganizationDataKeys(orgName: string, email: string, subdomain: string, tier: string, trialDays: int, now: nat)
    ensures var d := OrganizationData(orgName, email, subdomain, tier, trialDays, now);
      && ORGANIZATION_ID !in d
      && (email != "" && subdomain != "" ==> OrganizationIndexed(d))
  {
  }

  /**
   * The admin record carries both required attributes as strings; the store
   * accepts it exactly when the admin address is non-empty.
   */
  lemma AdminUserKeys(adminEmail: string, adminName: string, organizationId: string)
    requires organizationId != ""
    ensures var d := AdminUserData(adminEmail, adminName, organizationId);
      && USER_EMAIL in d && ORGANIZATION_ID in d && d[USER_EMAIL] == Str(adminEmail)
      && TenantIndexed(d)
      && (KeyText(d, USER_EMAIL).Some? <==> adminEmail != "")
  {
  }

  // ---------------------------------------------------------------------------
  // Command-line checks of `main`
  // ---------------------------------------------------------------------------

  const ORGANIZATION_EMAIL_SUFFIX := "@myprojectr.com"
  const TIER_CHOICES: seq<string> := ["starter", "professional", "enterprise"]

  /** How `main` treats its arguments before onboarding. */
  datatype ArgumentCheck =
    | Proceed
    | UsageError         // argparse rejects the tier and exits with status 2
    | Rejected(message: string)  // logged, exit status 1

  function ExitStatus(c: ArgumentCheck): int {
    match c
    case Proceed => 0
    case UsageError => 2
    case Rejected(_) => 1
  }

  /** The tier choice first (argparse), then the e-mail suffix, then the subdomain. */
  function CheckArguments(email: string, subdomain: string, tier: string): (r: ArgumentCheck)
    ensures r == Proceed <==>
      tier in TIER_CHOICES && EndsWith(email, ORGANIZATION_EMAIL_SUFFIX)
      && |subdomain| >= 3 && (forall i :: 0 <= i < |subdomain| ==> IsAsciiUpper(subdomain[i]) || IsAsciiLower(subdomain[i]) || IsDigit(subdomain[i]))
    ensures r.UsageError? <==> tier !in TIER_CHOICES
    ensures ExitStatus(r) == 0 <==> r == Proceed
  {
    if tier !in TIER_CHOICES then UsageError
    else if !EndsWith(email, ORGANIZATION_EMAIL_SUFFIX) then Rejected("Organization email must end with @myprojectr.com")
    else if !IsAlnum(subdomain) || |subdomain| < 3 then Rejected("Subdomain must be alphanumeric and at least 3 characters")
    else Proceed
  }

  /** An accepted tier is a lower-case table key, so the stored tier name is the one whose limits were applied. */
  lemma AcceptedTierIsTableKey(email: string, subdomain: string, tier: string)
    requires CheckArguments(email, subdomain, tier) == Proceed
    ensures tier in SUBSCRIPTION_TIERS && GetTierConfig(tier) == SUBSCRIPTION_TIERS[tier]
  {
    LowerOfNoCapitals(tier);
  }

  /** An accepted subdomain is a single DNS label: no dot, no space, no `@`. */
  lemma AcceptedSubdomainIsLabel(email: string, subdomain: string, tier: string)
    requires CheckArguments(email, subdomain, tier) == Proceed
    ensures '.' !in subdomain && ' ' !in subdomain && '@' !in subdomain
  {
  }

  /** An accepted organization e-mail is some local part followed by the fixed domain. */
  lemma AcceptedEmailSplits(email: string, subdomain: string, tier: string)
    requires CheckArguments(email, subdomain, tier) == Proceed
    ensures email == email[..|email| - |ORGANIZATION_EMAIL_SUFFIX|] + ORGANIZATION_EMAIL_SUFFIX
  {
  }
}
