/** The create-checkout route: validate the request, find the profile's
    email, reuse the user's Stripe customer or create one and record it in
    `subscriptions`, then open a subscription checkout session.  Stripe
    and the database writes are oracles: the new customer's id and the
    success of each call are parameters. */
module Checkout {
  import opened Optional
  import opened Config
  import opened BillingStore

  const MissingFields := "Missing userId or priceId"
  const NoProfile := "User not found or missing email"
  const SaveFailed := "Failed to save subscription"
  const SuccessPath := "/dashboard?session_id={CHECKOUT_SESSION_ID}"
  const CancelPath := "/pricing"

  /** The JSON body; a field that is absent or not truthy is `None` or
      the empty string, and `Unparsable` is a body `req.json()` rejects. */
  datatype Request = Fields(userId: Option<string>, priceId: Option<string>) | Unparsable(message: string)

  /** What Stripe and the database answer during one call. */
  datatype Oracle = Oracle(
    newCustomerId: string,
    customerError: Option<string>,
    insertFails: bool,
    sessionError: Option<string>,
    sessionUrl: string)

  datatype Reply = Url(url: string) | ErrorReply(error: string)
  datatype Response = Response(status: nat, reply: Reply)

  /** The world a call acts on. */
  datatype World = World(store: Store, stripe: Stripe)

  function Present(v: Option<string>): bool {
    v.Some? && v.value != ""
  }

  /** The email of the single profile with id `userId`, when it has one. */
  function ProfileEmail(ps: seq<Profile>, userId: string): (email: Option<string>)
    ensures email.Some? ==> email.value != ""
    ensures email.Some? <==> |ProfilesWithId(ps, userId)| == 1 && Present(ProfilesWithId(ps, userId)[0].email)
    ensures email.Some? ==> exists p :: p in ps && p.id == userId && p.email == email
  {
    match MaybeSingle(ProfilesWithId(ps, userId))
    case OneRow(p) => if Present(p.email) then p.email else None
    case _ => None
  }

  /** The stored customer id to reuse: the single `subscriptions` row of
      the user, when its customer id is non-empty.  Several rows make the
      query fail, which the route ignores and so creates a customer. */
  function StoredCustomer(ss: seq<SubscriptionRow>, userId: string): (c: Option<string>)
    ensures c.Some? <==> |SubscriptionsOf(ss, userId)| == 1 && SubscriptionsOf(ss, userId)[0].stripeCustomerId != ""
    ensures c.Some? ==> SubscriptionRow(userId, c.value) in ss && c.value != ""
  {
    match MaybeSingle(SubscriptionsOf(ss, userId))
    case OneRow(s) => if s.stripeCustomerId != "" then Some(s.stripeCustomerId) else None
    case _ => None
  }

  /** The session the route opens for a customer and a price. */
  function SessionFor(env: Env, customer: string, price: string): (s: CheckoutSession)
    ensures s.mode == "subscription" && s.customer == customer && s.price == price && s.quantity == 1
    ensures s.successUrl == Interpolated(env, AppUrl) + SuccessPath
    ensures s.cancelUrl == Interpolated(env, AppUrl) + CancelPath
  {
    CheckoutSession("subscription", customer, price, 1, Interpolated(env, AppUrl) + SuccessPath, Interpolated(env, AppUrl) + CancelPath)
  }

  /** Open the session once the customer is resolved. */
  function OpenSession(env: Env, w: World, customer: string, price: string, o: Oracle): (r: (Response, World))
    ensures r.1.store == w.store && r.1.stripe.customers == w.stripe.customers
    ensures o.sessionError.Some? ==> r == (Response(500, ErrorReply(ErrorText(o.sessionError.value))), w)
    ensures o.sessionError.None? ==>
              r.0 == Response(200, Url(o.sessionUrl))
              && r.1.stripe.sessions == w.stripe.sessions + [SessionFor(env, customer, price)]
  {
    if o.sessionError.Some? then (Response(500, ErrorReply(ErrorText(o.sessionError.value))), w)
    else (Response(200, Url(o.sessionUrl)), w.(stripe := w.stripe.(sessions := w.stripe.sessions + [SessionFor(env, customer, price)])))
  }

  function CreateCheckout(env: Env, w: World, req: Request, o: Oracle): (r: (Response, World))
    // an unreadable body, or a missing field: 400/500 with nothing changed
    ensures req.Unparsable? ==> r == (Response(500, ErrorReply(ErrorText(req.message))), w)
    ensures req.Fields? && !(Present(req.userId) && Present(req.priceId)) ==>
              r == (Response(400, ErrorReply(MissingFields)), w)
    // no profile, several profiles, or no email: 404 with nothing changed
    ensures req.Fields? && Present(req.userId) && Present(req.priceId)
            && ProfileEmail(w.store.profiles, req.userId.value).None? ==>
              r == (Response(404, ErrorReply(NoProfile)), w)
    // profiles are never written, and no row is ever removed
    ensures r.1.store.profiles == w.store.profiles
    ensures w.store.subscriptions <= r.1.store.subscriptions
    ensures w.stripe.customers <= r.1.stripe.customers
    // at most one customer and one row per call, the row naming the customer
    ensures |r.1.stripe.customers| <= |w.stripe.customers| + 1
    ensures |r.1.store.subscriptions| <= |w.store.subscriptions| + 1
    ensures |r.1.store.subscriptions| == |w.store.subscriptions| + 1 ==>
              |r.1.stripe.customers| == |w.stripe.customers| + 1
              && r.1.store.subscriptions[|w.store.subscriptions|]
                   == SubscriptionRow(req.userId.value, o.newCustomerId)
              && r.1.stripe.customers[|w.stripe.customers|].id == o.newCustomerId
    // a customer is created only when no usable one is stored
    ensures |r.1.stripe.customers| > |w.stripe.customers| ==>
              req.Fields? && Present(req.userId) && Present(req.priceId)
              && ProfileEmail(w.store.profiles, req.userId.value).Some?
              && StoredCustomer(w.store.subscriptions, req.userId.value).None?
              && r.1.stripe.customers[|w.stripe.customers|]
                   == Customer(o.newCustomerId, ProfileEmail(w.store.profiles, req.userId.value).value, req.userId.value)
    // at most one session, and only after the customer is recorded
    ensures |r.1.stripe.sessions| <= |w.stripe.sessions| + 1
    ensures |r.1.stripe.sessions| == |w.stripe.sessions| + 1 <==> r.0.status == 200
    ensures r.0.status == 200 ==>
              req.Fields? && Present(req.userId) && Present(req.priceId)
              && ProfileEmail(w.store.profiles, req.userId.value).Some?
              && r.0.reply == Url(o.sessionUrl)
              && r.1.stripe.sessions[|w.stripe.sessions|]
                   == SessionFor(env, StoredCustomer(w.store.subscriptions, req.userId.value).GetOr(o.newCustomerId), req.priceId.value)
    ensures r.0.status in {200, 400, 404, 500}
  {
    match req
    case Unparsable(message) => (Response(500, ErrorReply(ErrorText(message))), w)
    case Fields(userId, priceId) =>
      if !(Present(userId) && Present(priceId)) then (Response(400, ErrorReply(MissingFields)), w)
      else
        match ProfileEmail(w.store.profiles, userId.value)
        case None => (Response(404, ErrorReply(NoProfile)), w)
        case Some(email) =>
          match StoredCustomer(w.store.subscriptions, userId.value)
          case Some(customer) => OpenSession(env, w, customer, priceId.value, o)
          case None =>
            if o.customerError.Some? then (Response(500, ErrorReply(ErrorText(o.customerError.value))), w)
            else
              var created := w.(stripe := w.stripe.(customers := w.stripe.customers + [Customer(o.newCustomerId, email, userId.value)]));
              if o.insertFails then (Response(500, ErrorReply(SaveFailed)), created)
              else
                var saved := created.(store := created.store.(subscriptions := created.store.subscriptions + [SubscriptionRow(userId.value, o.newCustomerId)]));
                OpenSession(env, saved, o.newCustomerId, priceId.value, o)
  }

  /** A user with a usable stored customer gets it back: no customer is
      created, no row is inserted, and the session is for that customer. */
  lemma StoredCustomerReused(env: Env, w: World, userId: string, priceId: string, o: Oracle)
    requires userId != "" && priceId != ""
    requires ProfileEmail(w.store.profiles, userId).Some?
    requires StoredCustomer(w.store.subscriptions, userId).Some?
    ensures var r := CreateCheckout(env, w, Fields(Some(userId), Some(priceId)), o);
            && r.1.stripe.customers == w.stripe.customers
            && r.1.store == w.store
            && (o.sessionError.None? ==>
                  r.1.stripe.sessions[|w.stripe.sessions|].customer == StoredCustomer(w.store.subscriptions, userId).value)
  {
  }

  /** The insert that records a new customer can fail after the customer
      exists at Stripe: the reply is 500, no session is opened, and the
      customer stays behind unrecorded. */
  lemma FailedInsertOrphansCustomer(env: Env, w: World, userId: string, priceId: string, o: Oracle)
    requires userId != "" && priceId != ""
    requires ProfileEmail(w.store.profiles, userId).Some?
    requires StoredCustomer(w.store.subscriptions, userId).None?
    requires o.customerError.None? && o.insertFails
    ensures var r := CreateCheckout(env, w, Fields(Some(userId), Some(priceId)), o);
            && r.0 == Response(500, ErrorReply(SaveFailed))
            && r.1.stripe.sessions == w.stripe.sessions
            && r.1.store == w.store
            && |r.1.stripe.customers| == |w.stripe.customers| + 1
  {
  }

  /** After one successful call for a user with no `subscriptions` row, a
      second call for the same user creates no further customer. */
  lemma SecondCheckoutReusesCustomer(env: Env, w: World, userId: string, p1: string, p2: string, o1: Oracle, o2: Oracle)
    requires userId != "" && p1 != "" && p2 != ""
    requires |SubscriptionsOf(w.store.subscriptions, userId)| == 0
    requires o1.newCustomerId != ""
    requires CreateCheckout(env, w, Fields(Some(userId), Some(p1)), o1).0.status == 200
    ensures var w1 := CreateCheckout(env, w, Fields(Some(userId), Some(p1)), o1).1;
            var w2 := CreateCheckout(env, w1, Fields(Some(userId), Some(p2)), o2).1;
            && |w1.stripe.customers| == |w.stripe.customers| + 1
            && w2.stripe.customers == w1.stripe.customers
            && w2.store == w1.store
  {
    var w1 := CreateCheckout(env, w, Fields(Some(userId), Some(p1)), o1).1;
    assert StoredCustomer(w.store.subscriptions, userId).None?;
    assert w1.store.subscriptions == w.store.subscriptions + [SubscriptionRow(userId, o1.newCustomerId)];
    SubscriptionsOfAppend(w.store.subscriptions, SubscriptionRow(userId, o1.newCustomerId), userId);
    assert StoredCustomer(w1.store.subscriptions, userId) == Some(o1.newCustomerId);
    assert w1.store.profiles == w.store.profiles;
  }
}
