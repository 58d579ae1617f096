/** The Stripe webhook: after the signature check, a subscription event
    sets the `subscription_tier` of the profile whose `stripe_customer_id`
    is the event's customer.  Signature verification is a parameter: the
    handler sees `None` when it fails and the decoded event otherwise. */
module Webhook {
  import opened Optional
  import opened Config
  import opened BillingStore

  const Created := "customer.subscription.created"
  const Updated := "customer.subscription.updated"
  const Deleted := "customer.subscription.deleted"
  const FreeTier := "free"
  const ProTier := "pro"
  const SignatureError := "Webhook Error"

  /** The fields of a verified event the handler reads: its type, the
      subscription's customer, and the price id of its first item (`None`
      when there is no item). */
  datatype Event = Event(eventType: string, customer: string, firstPrice: Option<string>)

  datatype Reply = Received | ErrorReply(error: string)
  datatype Response = Response(status: nat, reply: Reply)

  predicate IsSubscriptionEvent(eventType: string) {
    eventType == Created || eventType == Updated || eventType == Deleted
  }

  /** `items.data[0]?.price.id || null`: an empty price id reads as none. */
  function PlanId(e: Event): (id: Option<string>)
    ensures id.Some? <==> e.firstPrice.Some? && e.firstPrice.value != ""
    ensures id.Some? ==> id.value == e.firstPrice.value
  {
    if e.firstPrice.Some? && e.firstPrice.value != "" then e.firstPrice else None
  }

  /** The tier a plan id maps to: "pro" exactly when it equals one of the
      two public Pro price variables as they are set, "free" otherwise;
      no plan id ever maps to "enterprise". */
  function TierFor(env: Env, planId: Option<string>): (tier: string)
    ensures tier == ProTier || tier == FreeTier
    ensures tier == ProTier <==>
              planId.Some? && (Raw(env, StripePriceProMonthly) == planId || Raw(env, StripePriceProYearly) == planId)
  {
    if planId.Some? && (Raw(env, StripePriceProMonthly) == planId || Raw(env, StripePriceProYearly) == planId)
    then ProTier else FreeTier
  }

  /** The profile a customer id resolves to: exactly one profile row with
      that customer id, and a non-empty id on it. */
  function ProfileFor(ps: seq<Profile>, customer: string): (p: Option<Profile>)
    ensures p.Some? <==> |ProfilesWithCustomer(ps, customer)| == 1 && ProfilesWithCustomer(ps, customer)[0].id != ""
    ensures p.Some? ==> p.value in ps && p.value.stripeCustomerId == Some(customer)
  {
    match MaybeSingle(ProfilesWithCustomer(ps, customer))
    case OneRow(p) => if p.id != "" then Some(p) else None
    case _ => None
  }

  /** One delivery.  `updateFails` is the database's verdict on the tier
      update; a failed update is logged and the reply is still 200. */
  function HandleWebhook(env: Env, store: Store, verified: Option<Event>, updateFails: bool): (r: (Response, Store))
    ensures verified.None? ==> r == (Response(400, ErrorReply(SignatureError)), store)
    ensures verified.Some? ==> r.0 == Response(200, Received)
    ensures r.1.subscriptions == store.subscriptions
    ensures r.1 != store ==>
              && verified.Some? && IsSubscriptionEvent(verified.value.eventType) && !updateFails
              && ProfileFor(store.profiles, verified.value.customer).Some?
    ensures (verified.Some? && IsSubscriptionEvent(verified.value.eventType) && !updateFails
             && ProfileFor(store.profiles, verified.value.customer).Some?) ==>
              r.1.profiles == SetTier(store.profiles, ProfileFor(store.profiles, verified.value.customer).value.id,
                                      TierFor(env, PlanId(verified.value)))
  {
    match verified
    case None => (Response(400, ErrorReply(SignatureError)), store)
    case Some(e) =>
      if !IsSubscriptionEvent(e.eventType) then (Response(200, Received), store)
      else
        match ProfileFor(store.profiles, e.customer)
        case None => (Response(200, Received), store)
        case Some(p) =>
          if updateFails then (Response(200, Received), store)
          else (Response(200, Received), store.(profiles := SetTier(store.profiles, p.id, TierFor(env, PlanId(e)))))
  }

  /** Stripe retries deliveries: handling the same event twice leaves the
      same rows as handling it once. */
  lemma WebhookIdempotent(env: Env, store: Store, e: Event)
    ensures var once := HandleWebhook(env, store, Some(e), false).1;
            HandleWebhook(env, once, Some(e), false).1 == once
  {
    var once := HandleWebhook(env, store, Some(e), false).1;
    if IsSubscriptionEvent(e.eventType) && ProfileFor(store.profiles, e.customer).Some? {
      var p := ProfileFor(store.profiles, e.customer).value;
      var tier := TierFor(env, PlanId(e));
      SetTierKeepsCustomerLookup(store.profiles, p.id, tier, e.customer);
      var q := ProfileFor(once.profiles, e.customer);
      assert q == Some(p.(subscriptionTier := tier));
      SetTierTwice(store.profiles, p.id, tier);
    }
  }

  lemma {:induction false} SetTierTwice(ps: seq<Profile>, id: string, tier: string)
    ensures SetTier(SetTier(ps, id, tier), id, tier) == SetTier(ps, id, tier)
    decreases |ps|
  {
    if |ps| > 0 {
      assert SetTier(ps, id, tier)[1..] == SetTier(ps[1..], id, tier);
      SetTierTwice(ps[1..], id, tier);
    }
  }

  /** A delivery changes at most one column, and only on rows whose id is
      the id of the profile the event's customer resolved to: every other
      profile, and every other field, stays put. */
  lemma WebhookTouchesOnlyTier(env: Env, store: Store, verified: Option<Event>, updateFails: bool, i: nat)
    requires i < |store.profiles|
    ensures var after := HandleWebhook(env, store, verified, updateFails).1;
            && |after.profiles| == |store.profiles|
            && after.profiles[i].(subscriptionTier := store.profiles[i].subscriptionTier) == store.profiles[i]
            && (after.profiles[i] != store.profiles[i] ==>
                  && verified.Some?
                  && ProfileFor(store.profiles, verified.value.customer).Some?
                  && store.profiles[i].id == ProfileFor(store.profiles, verified.value.customer).value.id)
  {
  }

  /** A deletion is not special-cased: it maps the tier from the deleted
      subscription's price like any other event, so cancelling a Pro
      subscription leaves the profile on "pro". */
  lemma DeletionOfProKeepsPro(env: Env, store: Store, customer: string, price: string)
    requires price != "" && Raw(env, StripePriceProMonthly) == Some(price)
    requires ProfileFor(store.profiles, customer).Some?
    ensures var after := HandleWebhook(env, store, Some(Event(Deleted, customer, Some(price))), false).1;
            forall q :: q in after.profiles && q.id == ProfileFor(store.profiles, customer).value.id
              ==> q.subscriptionTier == ProTier
  {
  }
}
