/** The two billing routes composed: a checkout followed by the
    subscription events Stripe sends for it.  The handler as written cannot
    find the profile checkout recorded; `HandleWebhookFixed` also resolves
    the profile through `subscriptions`. */
module BillingFlow {
  import opened Optional
  import opened Config
  import opened Strings
  import opened Plans
  import opened BillingStore
  import Webhook
  import Checkout

  /** The world after a checkout that created customer `c` for `userId`
      and opened its session. */
  predicate CheckedOutNew(env: Env, w: Checkout.World, userId: string, priceId: string, o: Checkout.Oracle, w1: Checkout.World)
  {
    && userId != "" && priceId != ""
    && Checkout.StoredCustomer(w.store.subscriptions, userId).None?
    && Checkout.CreateCheckout(env, w, Checkout.Fields(Some(userId), Some(priceId)), o) == (Checkout.Response(200, Checkout.Url(o.sessionUrl)), w1)
  }

  /** A checkout that succeeds for a user without a stored customer
      records the new customer in `subscriptions` and nowhere else. */
  lemma CheckoutRecordsCustomer(env: Env, w: Checkout.World, userId: string, priceId: string, o: Checkout.Oracle, w1: Checkout.World)
    requires CheckedOutNew(env, w, userId, priceId, o, w1)
    ensures w1.store.profiles == w.store.profiles
    ensures w1.store.subscriptions == w.store.subscriptions + [SubscriptionRow(userId, o.newCustomerId)]
    ensures Checkout.ProfileEmail(w.store.profiles, userId).Some?
  {
  }

  /** As written: when checkout created the customer, no profile carries
      its id, so every subscription event for that customer leaves the
      rows exactly as they were and the buyer's tier never changes. */
  lemma CheckoutCustomerInvisibleToWebhook(env: Env, w: Checkout.World, userId: string, priceId: string,
                                           o: Checkout.Oracle, w1: Checkout.World, e: Webhook.Event)
    requires CheckedOutNew(env, w, userId, priceId, o, w1)
    requires |ProfilesWithCustomer(w.store.profiles, o.newCustomerId)| == 0
    requires e.customer == o.newCustomerId
    ensures Webhook.HandleWebhook(env, w1.store, Some(e), false) == (Webhook.Response(200, Webhook.Received), w1.store)
  {
    CheckoutRecordsCustomer(env, w, userId, priceId, o, w1);
  }

  /** The smallest case: one profile, an empty store, and a Pro purchase;
      the event for the new customer is acknowledged and the profile
      stays on "free". */
  lemma CheckoutThenWebhookLeavesFree()
    ensures var env: Env := map[StripePriceProMonthly := "price_M"];
            var w := Checkout.World(Store([Profile("u1", Some("a@b.c"), None, "free")], []), Stripe([], []));
            var o := Checkout.Oracle("cus_1", None, false, None, "https://checkout");
            var w1 := Checkout.CreateCheckout(env, w, Checkout.Fields(Some("u1"), Some("price_M")), o).1;
            var w2 := Webhook.HandleWebhook(env, w1.store, Some(Webhook.Event(Webhook.Created, "cus_1", Some("price_M"))), false).1;
            && w1.store.subscriptions == [SubscriptionRow("u1", "cus_1")]
            && w2.profiles == [Profile("u1", Some("a@b.c"), None, "free")]
  {
    var env: Env := map[StripePriceProMonthly := "price_M"];
    var w := Checkout.World(Store([Profile("u1", Some("a@b.c"), None, "free")], []), Stripe([], []));
    var o := Checkout.Oracle("cus_1", None, false, None, "https://checkout");
    assert ProfilesWithId(w.store.profiles, "u1") == w.store.profiles;
    assert Checkout.ProfileEmail(w.store.profiles, "u1") == Some("a@b.c");
    var w1 := Checkout.CreateCheckout(env, w, Checkout.Fields(Some("u1"), Some("price_M")), o).1;
    assert ProfilesWithCustomer(w1.store.profiles, "cus_1") == [];
  }

  /** What the pricing page sells for Pro.  The page is a client
      component, so `PLANS` is evaluated against the public variables only:
      the server-side `STRIPE_PRICE_PRO` fallback never applies there.  The
      Pro price it sells is the public monthly variable when that is set
      and non-empty, and the placeholder otherwise; a set monthly price is
      one the webhook maps to "pro". */
  lemma PricingPageProPrice(env: Env)
    ensures PlanOf(ClientEnv(env), Pro).priceId == Some(Truthy(env, StripePriceProMonthly).GetOr(ProPricePlaceholder))
    ensures Truthy(env, StripePriceProMonthly).Some? ==>
              Webhook.TierFor(env, PlanOf(ClientEnv(env), Pro).priceId) == Webhook.ProTier
    ensures PlanOf(ClientEnv(env), Pro).yearlyPriceId == Some(Truthy(env, StripePriceProYearly).GetOr(ProYearlyPricePlaceholder))
  {
    assert IsPrefix(PublicPrefix, StripePriceProMonthly);
    assert IsPrefix(PublicPrefix, StripePriceProYearly);
    assert !IsPrefix(PublicPrefix, StripePricePro) by {
      assert StripePricePro[0] != PublicPrefix[0];
    }
  }

  /** Corrected profile resolution: the profile that carries the customer
      id as before, and otherwise the profile of the single `subscriptions`
      row that checkout wrote for that customer. */
  function ResolveProfile(store: Store, customer: string): (p: Option<Profile>)
    ensures Webhook.ProfileFor(store.profiles, customer).Some? ==> p == Webhook.ProfileFor(store.profiles, customer)
    ensures p.Some? ==> p.value in store.profiles && p.value.id != ""
    ensures p.Some? && Webhook.ProfileFor(store.profiles, customer).None? ==>
              SubscriptionsWithCustomer(store.subscriptions, customer) == [SubscriptionRow(p.value.id, customer)]
  {
    match Webhook.ProfileFor(store.profiles, customer)
    case Some(p) => Some(p)
    case None =>
      match MaybeSingle(SubscriptionsWithCustomer(store.subscriptions, customer))
      case OneRow(s) =>
        (match MaybeSingle(ProfilesWithId(store.profiles, s.userId))
         case OneRow(p) => if p.id != "" then Some(p) else None
         case _ => None)
      case _ => None
  }

  /** The webhook with the corrected profile resolution; the reply and the
      price mapping are unchanged. */
  function HandleWebhookFixed(env: Env, store: Store, verified: Option<Webhook.Event>, updateFails: bool): (r: (Webhook.Response, Store))
    ensures r.0 == Webhook.HandleWebhook(env, store, verified, updateFails).0
    ensures r.1.subscriptions == store.subscriptions
    ensures r.1 != store ==>
              && verified.Some? && Webhook.IsSubscriptionEvent(verified.value.eventType) && !updateFails
              && ResolveProfile(store, verified.value.customer).Some?
    ensures (verified.Some? && Webhook.IsSubscriptionEvent(verified.value.eventType) && !updateFails
             && ResolveProfile(store, verified.value.customer).Some?) ==>
              r.1.profiles == SetTier(store.profiles, ResolveProfile(store, verified.value.customer).value.id,
                                      Webhook.TierFor(env, Webhook.PlanId(verified.value)))
  {
    match verified
    case None => (Webhook.Response(400, Webhook.ErrorReply(Webhook.SignatureError)), store)
    case Some(e) =>
      if !Webhook.IsSubscriptionEvent(e.eventType) then (Webhook.Response(200, Webhook.Received), store)
      else
        match ResolveProfile(store, e.customer)
        case None => (Webhook.Response(200, Webhook.Received), store)
        case Some(p) =>
          if updateFails then (Webhook.Response(200, Webhook.Received), store)
          else (Webhook.Response(200, Webhook.Received),
                store.(profiles := SetTier(store.profiles, p.id, Webhook.TierFor(env, Webhook.PlanId(e)))))
  }

  /** After checkout created a fresh customer, the corrected lookup finds
      the buyer's profile through the row checkout wrote. */
  lemma FixedLookupFindsBuyer(env: Env, w: Checkout.World, userId: string, priceId: string,
                              o: Checkout.Oracle, w1: Checkout.World)
    requires CheckedOutNew(env, w, userId, priceId, o, w1)
    requires |ProfilesWithCustomer(w.store.profiles, o.newCustomerId)| == 0
    requires |SubscriptionsWithCustomer(w.store.subscriptions, o.newCustomerId)| == 0
    ensures ResolveProfile(w1.store, o.newCustomerId).Some?
    ensures ResolveProfile(w1.store, o.newCustomerId).value.id == userId
    ensures ResolveProfile(w1.store, o.newCustomerId).value in w.store.profiles
  {
    CheckoutRecordsCustomer(env, w, userId, priceId, o, w1);
    var c := o.newCustomerId;
    var row := SubscriptionRow(userId, c);
    SubscriptionsWithCustomerAppend(w.store.subscriptions, row, c);
    assert SubscriptionsWithCustomer(w1.store.subscriptions, c) == [row];
    assert Webhook.ProfileFor(w1.store.profiles, c).None?;
    var p := ProfilesWithId(w.store.profiles, userId)[0];
    assert p in ProfilesWithId(w.store.profiles, userId);
  }

  /** Corrected flow: after checkout creates a fresh customer for the Pro
      price the pricing page sells (the public monthly variable being set),
      the subscription event puts the buyer on "pro". */
  lemma CheckoutThenFixedWebhookUpgrades(env: Env, w: Checkout.World, userId: string, priceId: string,
                                         o: Checkout.Oracle, w1: Checkout.World, eventType: string)
    requires CheckedOutNew(env, w, userId, priceId, o, w1)
    requires |ProfilesWithCustomer(w.store.profiles, o.newCustomerId)| == 0
    requires |SubscriptionsWithCustomer(w.store.subscriptions, o.newCustomerId)| == 0
    requires Webhook.IsSubscriptionEvent(eventType)
    requires Truthy(env, StripePriceProMonthly).Some? && Some(priceId) == PlanOf(ClientEnv(env), Pro).priceId
    ensures var after := HandleWebhookFixed(env, w1.store, Some(Webhook.Event(eventType, o.newCustomerId, Some(priceId))), false).1;
            forall q :: q in after.profiles && q.id == userId ==> q.subscriptionTier == Webhook.ProTier
    ensures var after := HandleWebhookFixed(env, w1.store, Some(Webhook.Event(eventType, o.newCustomerId, Some(priceId))), false).1;
            exists q :: q in after.profiles && q.id == userId
  {
    FixedLookupFindsBuyer(env, w, userId, priceId, o, w1);
    CheckoutRecordsCustomer(env, w, userId, priceId, o, w1);
    var e := Webhook.Event(eventType, o.newCustomerId, Some(priceId));
    PricingPageProPrice(env);
    assert Webhook.TierFor(env, Webhook.PlanId(e)) == Webhook.ProTier;
    var p := ResolveProfile(w1.store, o.newCustomerId).value;
    SetTierReachesAll(w1.store.profiles, userId, Webhook.ProTier, p);
  }

  /** The corrected handler keeps the idempotence of the written one. */
  lemma FixedWebhookIdempotent(env: Env, store: Store, e: Webhook.Event)
    ensures var once := HandleWebhookFixed(env, store, Some(e), false).1;
            HandleWebhookFixed(env, once, Some(e), false).1 == once
  {
    var once := HandleWebhookFixed(env, store, Some(e), false).1;
    if Webhook.IsSubscriptionEvent(e.eventType) && ResolveProfile(store, e.customer).Some? {
      var p := ResolveProfile(store, e.customer).value;
      var tier := Webhook.TierFor(env, Webhook.PlanId(e));
      ResolveAfterSetTier(store, p.id, tier, e.customer);
      Webhook.SetTierTwice(store.profiles, p.id, tier);
    }
  }

  /** Retiering profiles does not change which profile id a customer
      resolves to. */
  lemma ResolveAfterSetTier(store: Store, id: string, tier: string, c: string)
    ensures var after := store.(profiles := SetTier(store.profiles, id, tier));
            && ResolveProfile(after, c).Some? == ResolveProfile(store, c).Some?
            && (ResolveProfile(store, c).Some? ==> ResolveProfile(after, c).value.id == ResolveProfile(store, c).value.id)
  {
    var after := store.(profiles := SetTier(store.profiles, id, tier));
    SetTierKeepsCustomerLookup(store.profiles, id, tier, c);
    assert Webhook.ProfileFor(after.profiles, c).Some? == Webhook.ProfileFor(store.profiles, c).Some?;
    if Webhook.ProfileFor(store.profiles, c).None? {
      var rows := SubscriptionsWithCustomer(store.subscriptions, c);
      if |rows| == 1 {
        SetTierKeepsIdLookup(store.profiles, id, tier, rows[0].userId);
      }
    }
  }
}
