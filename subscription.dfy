/** The subscription / access-control store: a fixed catalog of three plans,
    the current plan, one subscription record and three usage counters. The
    write operations are methods of `SubscriptionStore`; the read queries
    `CheckAccess` and `GetRemainingUsage` are functions of the store's fields. */
module Subscription {
  import opened Options
  import opened Seqs

  /** A plan limit: a count, or the literal `'unlimited'`. */
  datatype Limit = Finite(n: nat) | Unlimited

  datatype SupportTier = Basic | Priority | AroundTheClock

  datatype Limits = Limits(programs: Limit, liveClasses: Limit, downloads: Limit, support: SupportTier)

  /** A catalog entry. Prices are kept in cents (19.99 is 1999). */
  datatype Plan = Plan(id: string, name: string, priceCents: nat, features: seq<string>, limits: Limits)

  datatype Status = Active | Cancelled | Expired | Trial

  datatype BillingCycle = Monthly | Yearly

  /** A calendar instant: the clock reading `from` moved forward by whole
      years, months and days (`setFullYear`, `setMonth`, a day count). */
  datatype Date = Shifted(from: int, years: nat, months: nat, days: nat)

  datatype UserSubscription = UserSubscription(planId: string, status: Status, startDate: Date, endDate: Date, autoRenew: bool)

  datatype Usage = Usage(programsAccessed: nat, liveClassesAttended: nat, downloadsUsed: nat)

  const FreePlan := Plan("free", "Free", 0,
    ["Access to 5 basic workout programs", "Limited progress tracking", "Community access",
     "Basic nutrition tips", "Standard video quality"],
    Limits(Finite(5), Finite(0), Finite(0), Basic))

  const StandardPlan := Plan("standard", "Standard", 1999,
    ["Access to 50+ workout programs", "Full progress tracking & analytics", "Live classes (5 per month)",
     "Personalized meal plans", "HD video quality", "Priority customer support", "Offline video downloads"],
    Limits(Finite(50), Finite(5), Finite(10), Priority))

  const PremiumPlan := Plan("premium", "Premium", 3999,
    ["Unlimited access to all programs", "Advanced analytics & insights", "Unlimited live classes",
     "Personal trainer consultations", "4K video quality", "24/7 priority support",
     "Exclusive premium content", "Custom workout creation", "Nutrition coaching",
     "Achievement badges & rewards"],
    Limits(Unlimited, Unlimited, Unlimited, AroundTheClock))

  const Catalog: seq<Plan> := [FreePlan, StandardPlan, PremiumPlan]

  const NoUsage := Usage(0, 0, 0)

  /** Features metered by a plan limit and a usage counter. */
  const QuotaFeatures: set<string> := {"programs", "liveClasses", "downloads"}

  /** Features reserved for the premium plan. */
  const PremiumFeatures: set<string> := {"premiumContent", "personalTrainer", "customWorkouts"}

  /** Whether a plan has the given id: the test `plans.find(p => p.id === id)` applies. */
  function HasId(id: string): Plan -> bool {
    (plan: Plan) => plan.id == id
  }

  /** The catalog knows exactly the ids free, standard and premium, each
      naming its own plan. */
  lemma CatalogLookup(id: string)
    ensures Find(Catalog, HasId(id)).Some? <==> id in {"free", "standard", "premium"}
    ensures id == "free" ==> Find(Catalog, HasId(id)) == Some(FreePlan)
    ensures id == "standard" ==> Find(Catalog, HasId(id)) == Some(StandardPlan)
    ensures id == "premium" ==> Find(Catalog, HasId(id)) == Some(PremiumPlan)
  {
    assert Catalog[0].id == "free" && Catalog[1].id == "standard" && Catalog[2].id == "premium";
    assert Catalog[1..][1..] == [PremiumPlan];
  }

  /** The limit a plan sets on a metered feature. */
  function LimitOf(limits: Limits, feature: string): Limit
    requires feature in QuotaFeatures
  {
    if feature == "programs" then limits.programs
    else if feature == "liveClasses" then limits.liveClasses
    else limits.downloads
  }

  /** The usage counter that meters a feature. */
  function UsedOf(usage: Usage, feature: string): nat
    requires feature in QuotaFeatures
  {
    if feature == "programs" then usage.programsAccessed
    else if feature == "liveClasses" then usage.liveClassesAttended
    else usage.downloadsUsed
  }

  /** Whether the current plan grants `feature`. */
  function CheckAccess(plan: Option<Plan>, usage: Usage, feature: string): (r: bool)
    ensures plan.None? ==> !r
    ensures plan.Some? && feature in QuotaFeatures ==>
      (r <==> LimitOf(plan.value.limits, feature) == Unlimited
              || UsedOf(usage, feature) < LimitOf(plan.value.limits, feature).n)
    ensures plan.Some? && feature in PremiumFeatures ==> (r <==> plan.value.id == "premium")
    ensures plan.Some? && feature !in QuotaFeatures && feature !in PremiumFeatures ==> r
  {
    if plan.None? then false
    else
      var limits := plan.value.limits;
      if feature == "programs" then
        if limits.programs == Unlimited then true else usage.programsAccessed < limits.programs.n
      else if feature == "liveClasses" then
        if limits.liveClasses == Unlimited then true else usage.liveClassesAttended < limits.liveClasses.n
      else if feature == "downloads" then
        if limits.downloads == Unlimited then true else usage.downloadsUsed < limits.downloads.n
      else if feature == "premiumContent" then plan.value.id == "premium"
      else if feature == "personalTrainer" then plan.value.id == "premium"
      else if feature == "customWorkouts" then plan.value.id == "premium"
      else true
  }

  /** What is left of a metered feature's quota: `Unlimited`, or the count
      still available, floored at zero. */
  function GetRemainingUsage(plan: Option<Plan>, usage: Usage, feature: string): (r: Limit)
    ensures plan.None? || feature !in QuotaFeatures ==> r == Finite(0)
    ensures plan.Some? && feature in QuotaFeatures ==>
      var limit := LimitOf(plan.value.limits, feature);
      var used := UsedOf(usage, feature);
      (r == Unlimited <==> limit == Unlimited) &&
      (limit.Finite? && used <= limit.n ==> r.n + used == limit.n) &&
      (limit.Finite? && used > limit.n ==> r == Finite(0))
  {
    if plan.None? then Finite(0)
    else
      var limits := plan.value.limits;
      if feature == "programs" then
        if limits.programs == Unlimited then Unlimited else Finite(Max0(limits.programs.n - usage.programsAccessed))
      else if feature == "liveClasses" then
        if limits.liveClasses == Unlimited then Unlimited else Finite(Max0(limits.liveClasses.n - usage.liveClassesAttended))
      else if feature == "downloads" then
        if limits.downloads == Unlimited then Unlimited else Finite(Max0(limits.downloads.n - usage.downloadsUsed))
      else Finite(0)
  }

  /** `Math.max(0, x)`. */
  function Max0(x: int): nat {
    if x < 0 then 0 else x
  }

  /** For a metered feature, access is granted exactly when some quota remains. */
  lemma AccessIffQuotaRemains(plan: Option<Plan>, usage: Usage, feature: string)
    requires feature in QuotaFeatures
    ensures CheckAccess(plan, usage, feature) <==> GetRemainingUsage(plan, usage, feature) != Finite(0)
  {
  }

  /** With the counters at zero (just after a subscription), every metered
      feature has its plan's whole limit left. */
  lemma FreshQuotaIsWholeLimit(plan: Plan, feature: string)
    requires feature in QuotaFeatures
    ensures GetRemainingUsage(Some(plan), NoUsage, feature) == LimitOf(plan.limits, feature)
  {
  }

  /** Among the catalog plans, only the premium plan grants the premium features. */
  lemma OnlyPremiumGrantsPremiumFeatures(plan: Plan, usage: Usage, feature: string)
    requires plan in Catalog && feature in PremiumFeatures
    ensures CheckAccess(Some(plan), usage, feature) <==> plan == PremiumPlan
  {
  }

  /** The end of a billing period that starts at `now`. */
  function EndDateFor(now: int, cycle: BillingCycle): (d: Date)
    ensures d.from == now && d.days == 0
    ensures cycle == Monthly ==> d.years == 0 && d.months == 1
    ensures cycle == Yearly ==> d.years == 1 && d.months == 0
  {
    match cycle
    case Monthly => Shifted(now, 0, 1, 0)
    case Yearly => Shifted(now, 1, 0, 0)
  }

  class SubscriptionStore {
    var currentPlan: Option<Plan>
    var subscription: Option<UserSubscription>
    var usage: Usage

    /** The store's invariant: the plan comes from the catalog, the
        subscription names the current plan, and the counters stay at zero
        (no operation ever increments them). */
    ghost predicate Valid()
      reads this
    {
      && (currentPlan.Some? ==> currentPlan.value in Catalog)
      && (subscription.Some? ==> currentPlan.Some? && subscription.value.planId == currentPlan.value.id)
      && usage == NoUsage
    }

    /** The state once the provider has mounted: the free plan, active, for
        365 days, without auto-renewal. */
    constructor (now: int)
      ensures Valid()
      ensures currentPlan == Some(FreePlan)
      ensures subscription == Some(UserSubscription("free", Active, Shifted(now, 0, 0, 0), Shifted(now, 0, 0, 365), false))
      ensures usage == NoUsage
    {
      CatalogLookup("free");
      currentPlan := Find(Catalog, HasId("free"));
      subscription := Some(UserSubscription("free", Active, Shifted(now, 0, 0, 0), Shifted(now, 0, 0, 365), false));
      usage := NoUsage;
    }

    /** Switch to the plan `planId` for a new billing period starting at `now`. */
    method SubscribeToPlan(planId: string, cycle: BillingCycle, now: int) returns (ok: bool)
      requires Valid()
      modifies this
      ensures Valid()
      ensures ok <==> Find(Catalog, HasId(planId)).Some?
      ensures !ok ==> currentPlan == old(currentPlan) && subscription == old(subscription) && usage == old(usage)
      ensures ok ==> currentPlan == Find(Catalog, HasId(planId))
      ensures ok ==> subscription == Some(UserSubscription(planId, Active, Shifted(now, 0, 0, 0), EndDateFor(now, cycle), true))
      ensures ok ==> usage == NoUsage
    {
      var plan := Find(Catalog, HasId(planId));
      if plan.None? {
        return false;
      }
      var endDate := EndDateFor(now, cycle);
      currentPlan := plan;
      subscription := Some(UserSubscription(planId, Active, Shifted(now, 0, 0, 0), endDate, true));
      usage := NoUsage;
      return true;
    }

    /** Mark the subscription cancelled; it reports success even when there
        is no subscription to cancel. */
    method CancelSubscription() returns (ok: bool)
      requires Valid()
      modifies this
      ensures Valid()
      ensures ok
      ensures currentPlan == old(currentPlan) && usage == old(usage)
      ensures old(subscription).None? ==> subscription == None
      ensures old(subscription).Some? ==>
        subscription == Some(old(subscription).value.(status := Cancelled, autoRenew := false))
    {
      if subscription.Some? {
        subscription := Some(subscription.value.(status := Cancelled, autoRenew := false));
      }
      return true;
    }

    /** Change plan within the current subscription, keeping the counters. */
    method UpdateSubscription(planId: string) returns (ok: bool)
      requires Valid()
      modifies this
      ensures Valid()
      ensures ok <==> Find(Catalog, HasId(planId)).Some? && old(subscription).Some?
      ensures usage == old(usage)
      ensures !ok ==> currentPlan == old(currentPlan) && subscription == old(subscription)
      ensures ok ==> currentPlan == Find(Catalog, HasId(planId))
      ensures ok ==> subscription == Some(old(subscription).value.(planId := planId))
    {
      var plan := Find(Catalog, HasId(planId));
      if plan.None? || subscription.None? {
        return false;
      }
      currentPlan := plan;
      subscription := Some(subscription.value.(planId := planId));
      return true;
    }
  }

  /** Because the counters never move, a store's access to a metered
      feature is fixed by its plan: granted unless the limit is zero. On the
      free plan that means live classes and downloads are never granted. */
  lemma AccessDependsOnlyOnPlan(plan: Plan, usage: Usage, feature: string)
    requires usage == NoUsage && feature in QuotaFeatures
    ensures CheckAccess(Some(plan), usage, feature) <==> LimitOf(plan.limits, feature) != Finite(0)
    ensures plan == FreePlan ==>
      (CheckAccess(Some(plan), usage, feature) <==> feature == "programs")
  {
  }
}
