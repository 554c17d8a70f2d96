/** The subscription plans and the purchase flow of `SubscriptionPlanCard`. */
module Plans {
  import opened Wrappers
  import opened Profile
  import opened Subscription

  /** The `PlanId` enum. */
  datatype PlanId = MonthlyPlan | LifetimePlan | PayPerUsePlan

  function PlanIdString(id: PlanId): string {
    match id
    case MonthlyPlan => "monthly-20"
    case LifetimePlan => "lifetime-999"
    case PayPerUsePlan => "pay-per-use-1"
  }

  /** A plan as far as purchasing is concerned: its id and its optional
      Stripe price id. */
  datatype SubscriptionPlan = SubscriptionPlan(id: PlanId, name: string, stripePriceId: Option<string>)

  const MonthlyPlanData := SubscriptionPlan(MonthlyPlan, "Pegasus Pro Monthly", Some("price_MONTHLY_STRIPE_ID_PLACEHOLDER"))
  const LifetimePlanData := SubscriptionPlan(LifetimePlan, "Pegasus Edge Lifetime", Some("price_LIFETIME_STRIPE_ID_PLACEHOLDER"))
  const PayPerUsePlanInfo := SubscriptionPlan(PayPerUsePlan, "Single Use Pass", Some("price_PAYPERUSE_STRIPE_ID_PLACEHOLDER"))
  /** `SUBSCRIPTION_PLANS_DATA`: the plans shown as cards. */
  const SubscriptionPlansData := [MonthlyPlanData, LifetimePlanData]

  /** `!plan.stripePriceId`: no price id, or the empty one. */
  predicate MissingPriceId(plan: SubscriptionPlan) {
    plan.stripePriceId.None? || plan.stripePriceId.value == ""
  }

  /** The tier a successful checkout grants, if any. */
  function GrantedTier(id: PlanId): (t: Option<Tier>)
    ensures t.Some? <==> id != PayPerUsePlan
    ensures t.Some? ==> t.value in {Monthly, Lifetime}
  {
    match id
    case MonthlyPlan => Some(Monthly)
    case LifetimePlan => Some(Lifetime)
    case PayPerUsePlan => None
  }

  /** The profile after `handleSubscribe`, where `checkoutFailure` is the
      message the checkout threw, if it threw. */
  function Purchased(p: UserProfile, plan: SubscriptionPlan, checkoutFailure: Option<string>): UserProfile {
    if MissingPriceId(plan) || checkoutFailure.Some? then p
    else match GrantedTier(plan.id)
      case Some(t) => Merge(p, ProfilePatch(Some(t), None))
      case None => p
  }

  /** A purchase changes the profile only on a completed checkout of a
      subscription plan with a price id; then the tier becomes the plan's
      and the free-use flag stays. */
  lemma PurchaseOutcome(p: UserProfile, plan: SubscriptionPlan, checkoutFailure: Option<string>)
    ensures MissingPriceId(plan) || checkoutFailure.Some? || plan.id == PayPerUsePlan
            ==> Purchased(p, plan, checkoutFailure) == p
    ensures !MissingPriceId(plan) && checkoutFailure.None? && plan.id == MonthlyPlan
            ==> Purchased(p, plan, checkoutFailure) == UserProfile(Monthly, p.freeUseConsumed)
    ensures !MissingPriceId(plan) && checkoutFailure.None? && plan.id == LifetimePlan
            ==> Purchased(p, plan, checkoutFailure) == UserProfile(Lifetime, p.freeUseConsumed)
  {
  }

  /** After a completed subscription purchase the user is subscribed, has no
      free use on offer, and buying again changes nothing. */
  lemma PurchaseSubscribes(p: UserProfile, plan: SubscriptionPlan)
    requires !MissingPriceId(plan) && plan.id != PayPerUsePlan
    ensures IsSubscribed(Purchased(p, plan, None))
    ensures !CanUseCreatorStudioFree(Purchased(p, plan, None))
    ensures Purchased(Purchased(p, plan, None), plan, None) == Purchased(p, plan, None)
  {
  }

  /** Every plan shown as a card carries a price id and grants a tier. */
  lemma ShownPlansPurchasable(i: nat)
    requires i < |SubscriptionPlansData|
    ensures !MissingPriceId(SubscriptionPlansData[i])
    ensures GrantedTier(SubscriptionPlansData[i].id).Some?
  {
  }

  /** `handleSubscribe` on the shared provider. */
  method HandleSubscribe(provider: SubscriptionProvider, plan: SubscriptionPlan, checkoutFailure: Option<string>)
    modifies provider
    ensures provider.userProfile == Purchased(old(provider.userProfile), plan, checkoutFailure)
  {
    if plan.stripePriceId.None? || plan.stripePriceId.value == "" {
      return;
    }
    if checkoutFailure.Some? {
      return;
    }
    if plan.id == MonthlyPlan {
      provider.UpdateUserProfile(ProfilePatch(Some(Monthly), None));
    } else if plan.id == LifetimePlan {
      provider.UpdateUserProfile(ProfilePatch(Some(Lifetime), None));
    }
  }
}
