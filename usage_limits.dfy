/** The plan-quota rule of the usage-limits middleware: the per-plan limits
    table, the decision whether a request for more of a resource fits the
    plan, the feature flags, and the usage summary attached to an article
    request. Usage counts are inputs; fetching them is not modelled. */
module UsageLimits {

  datatype Plan = Free | Starter | Growth | Enterprise

  datatype Resource = Projects | Articles | LeadMagnets

  datatype Feature = Export | Api

  /** The sentinel quota meaning "no limit". */
  const Unlimited: int := -1

  datatype PlanLimits = PlanLimits(
    projects: int,
    articlesPerMonth: int,
    leadMagnets: int,
    canExport: bool,
    canUseApi: bool)

  /** The counts a check compares against: projects and lead magnets in
      total, articles created since the start of the month. */
  datatype Usage = Usage(projects: nat, articlesThisMonth: nat, leadMagnets: nat)

  datatype Option<T> = None | Some(value: T)

  /** The object `checkUsageLimit` resolves to, without the display text of
      a refusal. */
  datatype LimitCheck = LimitCheck(allowed: bool, current: Option<int>, limit: Option<int>)

  /** What the middleware stores for logging after an allowed article check. */
  datatype UsageInfo = UsageInfo(current: int, limit: int, remaining: int)

  /** A quota is the sentinel or a positive count. */
  predicate ValidQuota(q: int)
  {
    q == Unlimited || q > 0
  }

  /** `PLAN_LIMITS[plan]`. */
  function LimitsOf(plan: Plan): (l: PlanLimits)
    ensures ValidQuota(l.projects) && ValidQuota(l.articlesPerMonth) && ValidQuota(l.leadMagnets)
    ensures l.canUseApi ==> l.canExport
  {
    match plan
    case Free => PlanLimits(1, 3, 1, false, false)
    case Starter => PlanLimits(3, 25, 5, true, false)
    case Growth => PlanLimits(10, 100, Unlimited, true, true)
    case Enterprise => PlanLimits(Unlimited, Unlimited, Unlimited, true, true)
  }

  /** The quota field that governs a resource. */
  function QuotaFor(limits: PlanLimits, resource: Resource): int
  {
    match resource
    case Projects => limits.projects
    case Articles => limits.articlesPerMonth
    case LeadMagnets => limits.leadMagnets
  }

  /** The usage count that a resource is checked against. */
  function UsageFor(usage: Usage, resource: Resource): int
  {
    match resource
    case Projects => usage.projects
    case Articles => usage.articlesThisMonth
    case LeadMagnets => usage.leadMagnets
  }

  /** One case of the switch: unlimited passes with nothing reported;
      otherwise the request is refused exactly when it would take the count
      past the limit, and both numbers are reported either way. */
  function CheckAgainst(limit: int, current: int, requestedAmount: int): (c: LimitCheck)
    ensures limit == Unlimited ==> c == LimitCheck(true, None, None)
    ensures limit != Unlimited ==>
      c.current == Some(current) && c.limit == Some(limit)
      && (c.allowed <==> current + requestedAmount <= limit)
  {
    if limit == Unlimited then LimitCheck(true, None, None)
    else if current + requestedAmount > limit then LimitCheck(false, Some(current), Some(limit))
    else LimitCheck(true, Some(current), Some(limit))
  }

  /** `checkUsageLimit(userId, plan, resource, requestedAmount)` with the
      user's usage already fetched. */
  function CheckUsageLimit(plan: Plan, resource: Resource, usage: Usage, requestedAmount: int): (c: LimitCheck)
    ensures var limit := QuotaFor(LimitsOf(plan), resource);
      var current := UsageFor(usage, resource);
      (limit == Unlimited ==> c == LimitCheck(true, None, None))
      && (limit != Unlimited ==>
            c.current == Some(current) && c.limit == Some(limit)
            && (c.allowed <==> current + requestedAmount <= limit))
    ensures c.limit != Some(Unlimited)
    ensures c.current.None? <==> c.limit.None?
  {
    var limits := LimitsOf(plan);
    match resource
    case Projects => CheckAgainst(limits.projects, usage.projects, requestedAmount)
    case Articles => CheckAgainst(limits.articlesPerMonth, usage.articlesThisMonth, requestedAmount)
    case LeadMagnets => CheckAgainst(limits.leadMagnets, usage.leadMagnets, requestedAmount)
  }

  /** A request that is allowed stays allowed when it asks for less. */
  lemma AllowedForSmallerAmount(plan: Plan, resource: Resource, usage: Usage, smaller: int, larger: int)
    requires smaller <= larger
    requires CheckUsageLimit(plan, resource, usage, larger).allowed
    ensures CheckUsageLimit(plan, resource, usage, smaller).allowed
  {
  }

  /** A request that is allowed stays allowed when less has been used. */
  lemma AllowedWithLessUsage(plan: Plan, resource: Resource, used: Usage, less: Usage, amount: int)
    requires UsageFor(less, resource) <= UsageFor(used, resource)
    requires CheckUsageLimit(plan, resource, used, amount).allowed
    ensures CheckUsageLimit(plan, resource, less, amount).allowed
  {
  }

  /** The boundary is strict: filling the quota exactly is allowed, one more
      is refused. */
  lemma QuotaBoundary(plan: Plan, resource: Resource, usage: Usage)
    requires QuotaFor(LimitsOf(plan), resource) != Unlimited
    ensures var room := QuotaFor(LimitsOf(plan), resource) - UsageFor(usage, resource);
      CheckUsageLimit(plan, resource, usage, room).allowed
      && !CheckUsageLimit(plan, resource, usage, room + 1).allowed
  {
  }

  /** The position of a plan in the upgrade path. */
  function Tier(plan: Plan): (t: nat)
    ensures t <= 3
  {
    match plan
    case Free => 0
    case Starter => 1
    case Growth => 2
    case Enterprise => 3
  }

  /** Quota `q` allows at least as much as quota `p`. */
  predicate AtLeastAsGenerous(p: int, q: int)
  {
    q == Unlimited || (p != Unlimited && p <= q)
  }

  /** Every quota and every feature grows along the upgrade path. */
  lemma LimitsGrowWithTier(p1: Plan, p2: Plan)
    requires Tier(p1) <= Tier(p2)
    ensures var l1 := LimitsOf(p1);
      var l2 := LimitsOf(p2);
      AtLeastAsGenerous(l1.projects, l2.projects)
      && AtLeastAsGenerous(l1.articlesPerMonth, l2.articlesPerMonth)
      && AtLeastAsGenerous(l1.leadMagnets, l2.leadMagnets)
      && (l1.canExport ==> l2.canExport)
      && (l1.canUseApi ==> l2.canUseApi)
  {
  }

  /** Upgrading never turns an allowed request into a refused one. */
  lemma UpgradeKeepsAllowed(p1: Plan, p2: Plan, resource: Resource, usage: Usage, amount: int)
    requires Tier(p1) <= Tier(p2)
    requires CheckUsageLimit(p1, resource, usage, amount).allowed
    ensures CheckUsageLimit(p2, resource, usage, amount).allowed
  {
    LimitsGrowWithTier(p1, p2);
  }

  /** `hasFeatureAccess(plan, feature)`. */
  function HasFeatureAccess(plan: Plan, feature: Feature): (b: bool)
    ensures feature == Export ==> (b <==> LimitsOf(plan).canExport)
    ensures feature == Api ==> (b <==> LimitsOf(plan).canUseApi)
  {
    var limits := LimitsOf(plan);
    match feature
    case Export => limits.canExport
    case Api => limits.canUseApi
  }

  /** The feature matrix: export from the starter plan up, the API from the
      growth plan up. */
  lemma FeatureMatrix(plan: Plan)
    ensures HasFeatureAccess(plan, Export) <==> plan != Free
    ensures HasFeatureAccess(plan, Api) <==> plan == Growth || plan == Enterprise
  {
  }

  /** `x || 0` for an optional number. */
  function OrZero(x: Option<int>): (r: int)
    ensures x.None? ==> r == 0
    ensures x.Some? ==> r == x.value
  {
    match x
    case None => 0
    case Some(v) => v
  }

  /** `req.usageInfo` built from an article check. */
  function ArticleUsageInfo(check: LimitCheck): (info: UsageInfo)
    ensures info.current == OrZero(check.current) && info.limit == OrZero(check.limit)
    ensures check.limit == Some(Unlimited) ==> info.remaining == Unlimited
    ensures check.limit != Some(Unlimited) ==> info.remaining == info.limit - info.current
  {
    var current := OrZero(check.current);
    var limit := OrZero(check.limit);
    UsageInfo(current, limit, if check.limit == Some(Unlimited) then Unlimited else limit - current)
  }

  /** After an allowed article check the summary has room for the request on
      a limited plan, and is all zeros on an unlimited one: the check never
      reports the sentinel, so the `-1` branch of `remaining` is dead. */
  lemma UsageInfoAfterArticleCheck(plan: Plan, usage: Usage, amount: int)
    requires CheckUsageLimit(plan, Articles, usage, amount).allowed
    ensures var info := ArticleUsageInfo(CheckUsageLimit(plan, Articles, usage, amount));
      var limit := LimitsOf(plan).articlesPerMonth;
      (limit == Unlimited ==> info == UsageInfo(0, 0, 0))
      && (limit != Unlimited ==>
            info == UsageInfo(usage.articlesThisMonth, limit, limit - usage.articlesThisMonth)
            && info.remaining >= amount)
  {
  }
}
