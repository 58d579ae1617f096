/** The rows the billing routes read and write (`profiles` and
    `subscriptions`), the Stripe objects they create, and the
    `maybeSingle()` query shape both routes use. */
module BillingStore {
  import opened Optional

  const InternalError := "Internal Server Error"

  /** `err.message || "Internal Server Error"`: the body of a route's
      catch-all 500 reply. */
  function ErrorText(message: string): (t: string)
    ensures |t| > 0
    ensures message != "" ==> t == message
  {
    if message == "" then InternalError else message
  }

  datatype Profile = Profile(
    id: string,
    email: Option<string>,
    stripeCustomerId: Option<string>,
    subscriptionTier: string)

  datatype SubscriptionRow = SubscriptionRow(userId: string, stripeCustomerId: string)

  datatype Store = Store(profiles: seq<Profile>, subscriptions: seq<SubscriptionRow>)

  datatype Customer = Customer(id: string, email: string, supabaseUserId: string)

  datatype CheckoutSession = CheckoutSession(
    mode: string,
    customer: string,
    price: string,
    quantity: nat,
    successUrl: string,
    cancelUrl: string)

  /** The Stripe account's customers and checkout sessions. */
  datatype Stripe = Stripe(customers: seq<Customer>, sessions: seq<CheckoutSession>)

  /** `maybeSingle()`: no row gives null data, one row gives it, several
      rows give an error (and null data). */
  datatype Single<T> = NoRow | OneRow(row: T) | SeveralRows

  function MaybeSingle<T>(rows: seq<T>): (r: Single<T>)
    ensures r.NoRow? <==> |rows| == 0
    ensures r.OneRow? <==> |rows| == 1
    ensures r.OneRow? ==> r.row == rows[0]
  {
    if |rows| == 0 then NoRow else if |rows| == 1 then OneRow(rows[0]) else SeveralRows
  }

  /** `.from("profiles").eq("stripe_customer_id", c)` */
  function ProfilesWithCustomer(ps: seq<Profile>, c: string): (r: seq<Profile>)
    ensures forall p :: p in r <==> p in ps && p.stripeCustomerId == Some(c)
  {
    if |ps| == 0 then []
    else
      var rest := ProfilesWithCustomer(ps[1..], c);
      assert forall p :: p in ps <==> p == ps[0] || p in ps[1..];
      if ps[0].stripeCustomerId == Some(c) then [ps[0]] + rest else rest
  }

  /** `.from("profiles").eq("id", id)` */
  function ProfilesWithId(ps: seq<Profile>, id: string): (r: seq<Profile>)
    ensures forall p :: p in r <==> p in ps && p.id == id
  {
    if |ps| == 0 then []
    else
      var rest := ProfilesWithId(ps[1..], id);
      assert forall p :: p in ps <==> p == ps[0] || p in ps[1..];
      if ps[0].id == id then [ps[0]] + rest else rest
  }

  /** `.from("subscriptions").eq("user_id", u)` */
  function SubscriptionsOf(ss: seq<SubscriptionRow>, u: string): (r: seq<SubscriptionRow>)
    ensures forall s :: s in r <==> s in ss && s.userId == u
  {
    if |ss| == 0 then []
    else
      var rest := SubscriptionsOf(ss[1..], u);
      assert forall s :: s in ss <==> s == ss[0] || s in ss[1..];
      if ss[0].userId == u then [ss[0]] + rest else rest
  }

  /** `.from("subscriptions").eq("stripe_customer_id", c)` */
  function SubscriptionsWithCustomer(ss: seq<SubscriptionRow>, c: string): (r: seq<SubscriptionRow>)
    ensures forall s :: s in r <==> s in ss && s.stripeCustomerId == c
  {
    if |ss| == 0 then []
    else
      var rest := SubscriptionsWithCustomer(ss[1..], c);
      assert forall s :: s in ss <==> s == ss[0] || s in ss[1..];
      if ss[0].stripeCustomerId == c then [ss[0]] + rest else rest
  }

  lemma SubscriptionsOfAppend(ss: seq<SubscriptionRow>, row: SubscriptionRow, u: string)
    ensures SubscriptionsOf(ss + [row], u) == SubscriptionsOf(ss, u) + (if row.userId == u then [row] else [])
  {
    if |ss| > 0 {
      assert (ss + [row])[1..] == ss[1..] + [row];
      SubscriptionsOfAppend(ss[1..], row, u);
    }
  }

  lemma SubscriptionsWithCustomerAppend(ss: seq<SubscriptionRow>, row: SubscriptionRow, c: string)
    ensures SubscriptionsWithCustomer(ss + [row], c)
              == SubscriptionsWithCustomer(ss, c) + (if row.stripeCustomerId == c then [row] else [])
  {
    if |ss| > 0 {
      assert (ss + [row])[1..] == ss[1..] + [row];
      SubscriptionsWithCustomerAppend(ss[1..], row, c);
    }
  }

  /** `.from("profiles").update({ subscription_tier }).eq("id", id)`: the
      profiles with that id take the tier; nothing else changes. */
  function SetTier(ps: seq<Profile>, id: string, tier: string): (r: seq<Profile>)
    ensures |r| == |ps|
    ensures forall i :: 0 <= i < |ps| && ps[i].id != id ==> r[i] == ps[i]
    ensures forall i :: 0 <= i < |ps| && ps[i].id == id ==> r[i] == ps[i].(subscriptionTier := tier)
  {
    if |ps| == 0 then []
    else [if ps[0].id == id then ps[0].(subscriptionTier := tier) else ps[0]] + SetTier(ps[1..], id, tier)
  }

  /** Setting a tier leaves every profile's id and customer id in place, so
      looking profiles up by customer after the update finds the same
      profiles, retiered. */
  lemma {:induction false} SetTierKeepsCustomerLookup(ps: seq<Profile>, id: string, tier: string, c: string)
    ensures ProfilesWithCustomer(SetTier(ps, id, tier), c) == SetTier(ProfilesWithCustomer(ps, c), id, tier)
    decreases |ps|
  {
    if |ps| > 0 {
      assert SetTier(ps, id, tier)[1..] == SetTier(ps[1..], id, tier);
      SetTierKeepsCustomerLookup(ps[1..], id, tier, c);
    }
  }

  /** The same for the lookup by id. */
  lemma {:induction false} SetTierKeepsIdLookup(ps: seq<Profile>, id: string, tier: string, target: string)
    ensures ProfilesWithId(SetTier(ps, id, tier), target) == SetTier(ProfilesWithId(ps, target), id, tier)
    decreases |ps|
  {
    if |ps| > 0 {
      assert SetTier(ps, id, tier)[1..] == SetTier(ps[1..], id, tier);
      SetTierKeepsIdLookup(ps[1..], id, tier, target);
    }
  }

  /** After the update every profile with the id has the tier, and the
      profiles that were there are still there under the same ids. */
  lemma SetTierReachesAll(ps: seq<Profile>, id: string, tier: string, p: Profile)
    requires p in ps
    ensures forall q :: q in SetTier(ps, id, tier) && q.id == id ==> q.subscriptionTier == tier
    ensures exists q :: q in SetTier(ps, id, tier) && q.id == p.id
  {
    var r := SetTier(ps, id, tier);
    forall q | q in r && q.id == id
      ensures q.subscriptionTier == tier
    {
      var i :| 0 <= i < |r| && r[i] == q;
      assert ps[i].id == id;
    }
    var k :| 0 <= k < |ps| && ps[k] == p;
    assert r[k].id == p.id;
  }
}
