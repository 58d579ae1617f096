# nexus-ai core, modelled in Dafny

nexus-ai is a chat application with several "expert advisor" personas, a
daily quota for free users, and Stripe billing that moves a profile between
the free and pro tiers. This project models the application's pure core as
immutable datatypes and pure functions. Supabase, Stripe, the Anthropic API,
the clock and the browser appear only as parameters.

- **Plans and quota gate** (`plans.dfy`, `usage.dfy`). The three-tier plan
  table with its price-id fallbacks. `checkUsageLimit` with today's usage
  count as a parameter. The metering stubs as the source ships them, and
  the meter that the TODO comment in `incrementUsage` lists
  (lib/usage.ts:42-46).
- **Analytics** (`analytics.dfy`). The fold that `loadAnalytics` runs over a
  user's conversations:
  - message totals;
  - per-persona counts in insertion order;
  - the favourite persona, where a tie goes to the first one seen;
  - the this-week / last-week split;
  - distinct activity days;
  - the growth percentage, rounded as `Math.round` rounds.
- **Goals** (`goals.dfy`):
  - the four list operations of the goals page: add, progress, delete and
    complete;
  - the page as a state machine whose actions are only the ones the
    rendered page offers.
- **Chat session** (`conversations.dfy`, `chat_session.dfy`):
  - the chat page's state: messages, conversation id, input and loading flag;
  - its transitions: load, persona selection, send (split into the click and
    the reply), save (insert or update, with the title rule) and clear;
  - all of these over a table of conversation rows.
- **Chat gateway** (`chat_gateway.dfy`). `POST /api/chat`, with the provider
  as a function parameter:
  - the persona registry with the therapist fallback;
  - the missing-key check;
  - message forwarding;
  - reply selection and error replies.
- **Billing** (`billing_store.dfy`, `webhook.dfy`, `checkout.dfy`,
  `billing_flow.dfy`):
  - the Stripe webhook, which maps a subscription event to a tier write on a
    profile;
  - the create-checkout route, which reuses or creates the customer, records
    it and opens the session;
  - the two routes composed, which exposes the gap between them;
  - the Pro price the client-side pricing page offers, which sees only the
    public variables.
- **Configuration checks** (`config.dfy`, `env_validation.dfy`,
  `connection_check.dfy`):
  - `validateEnv` over the required and optional variable names;
  - the issue list and key masking of the Supabase connection script.

Shared pieces are:
- `optional.dfy`: `Option`;
- `strings.dfy`: prefix, suffix, substring search, JavaScript `trim`,
  `substring`, `join`/`split` on newlines, and the decimal rendering of
  numbers.

The environment is a `map<string, string>`. An absent key is `undefined`.
Where JavaScript tests truthiness, an empty value counts as absent too
(`Config.Truthy`).

Two behaviours of the code are worth knowing up front:
- **Subscription deletion.** The webhook sends
  `customer.subscription.deleted` through the same price mapping as the
  created and updated events (app/api/chat/stripe/webhook/route.ts:32-34).
  So cancelling Pro writes "pro" again (`Webhook.DeletionOfProKeepsPro`).
- **Usage metering.** `getDailyUsage` returns 0, `getUserPlan` returns
  FREE and `incrementUsage` only logs, so the gate never denies
  (`Usage.MockedGateNeverDenies`). The TODO comment in `incrementUsage`
  (lib/usage.ts:42-46) lists the meter it should be: find or create today's
  record, increment it, store it. That meter is modelled beside the stubs
  (`Usage.IncrementIntended`, `Usage.IntendedMeterCapsFree`).

## Model

| member | source | states |
|---|---|---|
| Plans.PlanTypesComplete | lib/plans.ts:1-60 | The plan type has exactly three members, FREE, PRO and ENTERPRISE, listed once each in declaration order |
| Plans.DailyLimit | lib/plans.ts:7-42 | Only FREE has a finite daily limit, and it is 10; PRO and ENTERPRISE are unlimited (`null`) |
| Plans.ProPriceId | lib/plans.ts:19 | The Pro monthly price id is never empty. It is the public monthly variable if that is non-empty, else `STRIPE_PRICE_PRO` if that is non-empty, else the placeholder literal |
| Plans.ProYearlyPriceId | lib/plans.ts:20 | The Pro yearly price id is never empty. It is the public yearly variable if that is non-empty, else the yearly placeholder |
| Plans.PlanOf | lib/plans.ts:1-58 | Each plan's limit is its tier's limit. Price ids exist only on PRO, where they are non-empty and equal the resolved Pro monthly and yearly price ids |
| Usage.CheckUsageLimit | lib/usage.ts:3-39 | An unlimited tier gives allowed, remaining -1, no limit and no message. A finite tier allows exactly when usage is below the limit. A denial has remaining 0, the limit, and a message naming the limit. An allowed finite answer has remaining = limit - used, at least 1. Remaining is -1 only for unlimited tiers |
| Usage.LimitMessageNamesLimit | lib/usage.ts:30 | The upgrade message contains the decimal rendering of the limit |
| Usage.MockedGateNeverDenies | lib/usage.ts:22-60 | With the shipped stubs (usage 0, plan FREE, increment does nothing), every check answers allowed with remaining 10 and limit 10, and every attempt in any sequence is allowed |
| Usage.IntendedMeterCapsFree | lib/usage.ts:22-31 | With a meter that counts each allowed attempt, a Free user is allowed exactly min(n, 10 - used) of n attempts |
| Usage.UnlimitedNeverDenied | lib/usage.ts:12-18 | On PRO or ENTERPRISE every attempt is allowed, whatever has been used |
| Usage.IncrementIntended | lib/usage.ts:41-48 | The increment that the TODO comment lists raises the user's count by one and leaves every other user's count alone |
| Analytics.LoadAnalytics | app/analytics/page.tsx:82-131 | With no conversations, every figure keeps its default (favourite "therapist", counts 0). Otherwise: the conversation total is the row count and the message total is the sum of message counts. The usage keys are the distinct persona ids in first-seen order, each counting that persona's conversations, and they sum to the row count. The favourite is the first maximal entry. This week's and last week's figures are the message totals of exactly the rows updated in each week, and together they are at most the total. The streak is the number of distinct day keys, between 1 and the row count |
| Analytics.TotalMessagesConcat | app/analytics/page.tsx:84-87 | The message total of two lists is the sum of their totals; a non-array `messages` counts 0 |
| Analytics.Distinct | app/analytics/page.tsx:120-122 | The `indexOf` filter keeps each value once, loses none, and adds none |
| Analytics.TallyKeys | app/analytics/page.tsx:90-93 | The usage record's keys are the conversations' persona ids, deduplicated in first-seen order |
| Analytics.TallyCounts | app/analytics/page.tsx:90-93 | Each usage entry is the number of conversations with that persona, and at least 1 (for ids that are not `Object.prototype` names) |
| Analytics.TallyTotal | app/analytics/page.tsx:90-125 | The usage entries sum to the number of conversations |
| Analytics.BumpTotal | app/analytics/page.tsx:92 | One `usage[e] = (usage[e] \|\| 0) + 1` step adds exactly one to the total |
| Analytics.ConversationsWithAbsent | app/analytics/page.tsx:90-93 | A persona no conversation names has count 0 |
| Analytics.FirstMax | app/analytics/page.tsx:96 | The head of the stable descending sort is the first entry with the maximal count |
| Analytics.FirstMaxUnique | app/analytics/page.tsx:96 | The first maximal entry is the only index with both properties |
| Analytics.FavoriteExpert | app/analytics/page.tsx:96 | The favourite is the first maximal key. It falls back to "therapist" when there are no entries or that key is empty |
| Analytics.FavoriteTieGoesToFirst | app/analytics/page.tsx:96 | Two personas used equally often: the one aggregated first is the favourite, and swapping the rows swaps the favourite |
| Analytics.ThisWeek | app/analytics/page.tsx:104 | This week is exactly the conversations updated after one week ago |
| Analytics.LastWeek | app/analytics/page.tsx:105-107 | Last week is exactly the conversations updated after two weeks ago and no later than one week ago |
| Analytics.ThisWeekKeepsOrder | app/analytics/page.tsx:104 | This week's filter works row by row over concatenation, so the kept rows stay in table order, each as often as it occurs |
| Analytics.LastWeekKeepsOrder | app/analytics/page.tsx:105-107 | Last week's filter works row by row over concatenation in the same way |
| Analytics.WeeksOfOneRow | app/analytics/page.tsx:104-107 | A single row is kept by a week's filter exactly when its update time lies in that week |
| Analytics.WeeksDisjoint | app/analytics/page.tsx:104-107 | No conversation is in both weeks |
| Analytics.WeeksWithinTotal | app/analytics/page.tsx:109-117 | This week's plus last week's messages never exceed the total |
| Analytics.DayKeys | app/analytics/page.tsx:120-121 | One day key per conversation, taken from its update time |
| Analytics.GrowthPercent | app/analytics/page.tsx:151-153 | With no messages last week the growth is the fixed 100. Otherwise it is the integer g with g - 1/2 <= 100(t - l)/l < g + 1/2, so halves round up as `Math.round` does |
| Analytics.GrowthPercentUnique | app/analytics/page.tsx:151-153 | Any integer meeting the rounding bounds is the growth percentage: the rounding is unique |
| Analytics.GrowthPercentExamples | app/analytics/page.tsx:151-153 | Sample values: equal weeks give 0, doubling gives 100, an empty last week gives 100, and 1 against 8 gives -87 (half rounds up) |
| Goals.AddGoal | app/goals/page.tsx:68-86 | With no user, or no returned row, nothing changes. Otherwise the row is prepended, the form resets to empty title, description and date with persona "therapist", and the form closes |
| Goals.SetProgress | app/goals/page.tsx:88-95 | Only the progress of goals with the id changes; length, order and the other goals stay as they were |
| Goals.SetProgressLastWins | app/goals/page.tsx:94 | Two progress updates of one goal equal the second alone |
| Goals.Complete | app/goals/page.tsx:104-111 | Goals with the id become completed at 100%; everything else stays as it was |
| Goals.CompleteIdempotent | app/goals/page.tsx:110 | Completing twice is completing once |
| Goals.Delete | app/goals/page.tsx:97-102 | An unconfirmed delete changes nothing. A confirmed one is the id filter `Without`: exactly the goals with another id, in their original order |
| Goals.WithoutKeepsOrder | app/goals/page.tsx:100 | The filter works piecewise over concatenation, so survivors keep their relative order |
| Goals.WithoutSingle | app/goals/page.tsx:100 | A single goal survives the filter exactly when its id differs |
| Goals.WithoutAbsent | app/goals/page.tsx:100 | Deleting an id no goal has changes nothing |
| Goals.WithoutDistinct | app/goals/page.tsx:100 | Deleting keeps ids distinct |
| Goals.StepPreservesWellFormed | app/goals/page.tsx:271-306 | Every action the rendered page can issue keeps goal ids distinct and every progress within 0..100. Slider values lie in the range input's bounds |
| Goals.CompletedIsTerminal | app/goals/page.tsx:271-289 | A completed goal has neither the complete button nor the slider, so no page action except its own delete changes or removes it |
| Conversations.MessageCount | app/analytics/page.tsx:85 | A messages array counts its length; anything else counts 0 |
| Conversations.UpdateMessages | app/chat/page.tsx:108-114 | The update sets messages and update time on rows with the id and leaves every other row as it was |
| Conversations.DeleteById | app/chat/page.tsx:157 | The delete keeps exactly the rows with another id, and no more of them than there were |
| Conversations.DeleteByIdKeepsOrder | app/chat/page.tsx:157 | The delete works row by row over concatenation, so surviving rows keep their order; a single row survives exactly when its id differs |
| Conversations.Latest | app/chat/page.tsx:83-90 | The newest-row query finds a row exactly when the user has one for the persona. That row is theirs and no other of theirs is newer |
| Conversations.LatestIsNewest | app/chat/page.tsx:83-90 | A strictly newest owned row is the one the query returns |
| ChatSession.Initial | app/chat/page.tsx:55-63 | A fresh page has no messages, no conversation id, an empty input and nothing loading |
| ChatSession.Title | app/chat/page.tsx:121 | The inserted title is never empty. It is "New Conversation" when there are no messages or the first is empty, else the first 50 characters of the first message |
| ChatSession.Load | app/chat/page.tsx:81-100 | When nothing is found the session is unchanged. Otherwise messages and conversation id come from the newest row and the selector closes |
| ChatSession.SelectExpert | app/chat/page.tsx:333-336 | Selecting a persona sets it and closes the selector. With no saved conversation for it, the previous messages and conversation id stay |
| ChatSession.BeginSend | app/chat/page.tsx:163-171 | Send does nothing exactly when the input is all whitespace or a request is loading. Otherwise the trimmed input is appended as a user turn, the input clears, the persona selector closes and loading starts |
| ChatSession.Save | app/chat/page.tsx:102-142 | Without a user nothing is saved. With a conversation id the row is updated when the update goes through, and the rows stay as they were when it fails. Without an id a row is inserted with the user, persona and title, and a returned id is captured. Each save by a signed-in user appends one `message_sent` event when that insert succeeds, whatever the conversation write did |
| ChatSession.CompleteSend | app/chat/page.tsx:185-198 | A reply gives the click-time messages plus the assistant turn, and the stored rows and conversation id are exactly those that saving this list gives. A failure appends the apology to the current messages and writes nothing. Loading ends on both paths |
| ChatSession.Clear | app/chat/page.tsx:153-161 | Unconfirmed, nothing changes. Confirmed, messages empty and the id resets even when the delete fails. The row is deleted only when an id was set and the delete goes through |
| ChatSession.SendKeepsUserTurn | app/chat/page.tsx:163-198 | A send from a non-blank input leaves the old messages, then the trimmed user turn, then the reply or the apology: the user's turn is never lost |
| ChatSession.SecondSaveUpdates | app/chat/page.tsx:107-129 | After a successful insert the next save is an update of the inserted row itself: nothing is inserted, and when the update goes through that row holds the new messages |
| ChatSession.SaveThenLoadRoundTrip | app/chat/page.tsx:81-129 | From a coherent session, a save that goes through, stamped after every stored row, makes its row the persona's newest, holding exactly the saved messages |
| ChatSession.SendThenLoadShowsExchange | app/chat/page.tsx:81-198 | From a coherent idle session, a send whose reply arrives and whose save goes through shows the old messages, the user's turn and the reply, and reloading the persona shows that same list |
| ChatSession.SavePreservesCoherence | app/chat/page.tsx:102-142 | Saving keeps the session's id pointing at a row of its own user and persona |
| ChatSession.ClearPreservesCoherence | app/chat/page.tsx:153-161 | Clearing keeps the session coherent, whether or not the delete goes through |
| ChatSession.LoadIsCoherent | app/chat/page.tsx:81-100 | Loading into a reset session leaves it coherent |
| ChatSession.SwitchKeepsOtherConversation | app/chat/page.tsx:333-336 | Switching to a persona with no history keeps the old id. The session stops being coherent, and the next save overwrites the first persona's row while the new persona still has none |
| ChatSession.SelectExpertFixed | app/chat/page.tsx:333-336 | Selecting with a reset first: a persona without history starts empty, and the session is always coherent |
| ChatGateway.Lookup | app/api/chat/route.ts:21-69 | The registry resolves an id exactly when it is one of the six persona ids, and to the persona with that id |
| ChatGateway.RegistryRoundTrip | app/api/chat/route.ts:21-69 | Every persona is registered under its own id, and the six ids are distinct |
| ChatGateway.PagePersonasRegistered | app/api/chat/route.ts:21-69 | Every persona the chat page offers is in the registry |
| ChatGateway.SystemPrompt | app/api/chat/route.ts:82 | A registered id gets its own prompt. A name every object inherits (`constructor`, `toString`, `__proto__` and the rest) passes the inherited member on. Only the remaining ids get the therapist's prompt |
| ChatGateway.TherapistFallbackIff | app/api/chat/route.ts:82 | The therapist's prompt is sent exactly for the therapist and for the ids that are neither registered nor inherited |
| ChatGateway.Forward | app/api/chat/route.ts:88-91 | Forwarding keeps length, order, roles and contents |
| ChatGateway.ProviderCall | app/api/chat/route.ts:84-92 | The provider is called with the fixed model name and token limit, the persona's prompt and the conversation unchanged |
| ChatGateway.HandleChat | app/api/chat/route.ts:71-105 | An unreadable body gives a 500 carrying the error. A missing key gives the configuration 500 before the provider is asked. Then a missing `expert` object, and after it a missing `messages` list, each give a 500 with the runtime's error, and the provider is not called. A persona without an `id` is looked up under the key "undefined". A provider error gives a 500 with its message. A text first block is the reply, and any other first block gives the fixed apology. The status is always 200 or 500 |
| ChatGateway.Failure | app/api/chat/route.ts:99-104 | A caught error is a 500 carrying its message, or the generic text when the message is empty |
| ChatGateway.MissingKeyNeverCallsProvider | app/api/chat/route.ts:75-80 | Without a key the answer does not depend on the provider, for any parsed body |
| ChatGateway.ExpertWithoutIdIsTherapist | app/api/chat/route.ts:83-86 | A persona object without an `id` is answered exactly as the therapist would be |
| ChatGateway.MissingKeyFailsEverySend | app/api/chat/route.ts:75-80 | Without a key the page receives no reply for any send, whatever the provider would say |
| ChatGateway.ClientReply | app/chat/page.tsx:183-186 | The page takes a reply exactly from a 200 carrying a message |
| ChatGateway.GatewayFailureKeepsUserTurn | app/chat/page.tsx:163-198 | When the gateway answer carries no reply, for whatever reason, the page shows the old messages, the user's trimmed turn and the apology, and nothing is stored |
| BillingStore.MaybeSingle | app/api/chat/stripe/webhook/route.ts:39-43 | The single-row query gives nothing for no rows, the row for one, and an error for several |
| BillingStore.SetTier | app/api/chat/stripe/webhook/route.ts:62-65 | The tier update changes only the tier of profiles with the id |
| BillingStore.SetTierKeepsCustomerLookup | app/api/chat/stripe/webhook/route.ts:39-65 | Setting a tier leaves the customer lookup finding the same profiles, retiered |
| BillingStore.SetTierKeepsIdLookup | app/api/chat/stripe/webhook/route.ts:62-65 | Looking profiles up by id after a tier update finds the same profiles, retiered |
| BillingStore.SetTierReachesAll | app/api/chat/stripe/webhook/route.ts:62-65 | After the update every profile with the id has the new tier, and every profile that was there is still there under its id |
| BillingStore.ErrorText | app/api/chat/create-checkout/route.ts:96-101 | A caught error's reply is its message, or "Internal Server Error" when empty |
| Webhook.PlanId | app/api/chat/stripe/webhook/route.ts:51 | The plan id is the first item's price id, absent when there is no item or it is empty |
| Webhook.TierFor | app/api/chat/stripe/webhook/route.ts:52-60 | The tier is "pro" exactly when the plan id equals the public monthly or yearly Pro variable as set, else "free". "enterprise" never results |
| Webhook.ProfileFor | app/api/chat/stripe/webhook/route.ts:39-48 | The customer resolves to a profile only when exactly one profile has that customer id and its id is non-empty |
| Webhook.HandleWebhook | app/api/chat/stripe/webhook/route.ts:11-81 | A failed signature gives 400 and changes nothing; every verified event gives 200 `{received: true}`. Only a subscription event whose customer resolves, with a successful update, changes anything: it sets that profile's tier from the plan id. A failed update still gives 200 |
| Webhook.WebhookIdempotent | app/api/chat/stripe/webhook/route.ts:31-70 | Handling the same event twice leaves the same rows as handling it once |
| Webhook.SetTierTwice | app/api/chat/stripe/webhook/route.ts:62-65 | Writing the same tier twice is writing it once |
| Webhook.WebhookTouchesOnlyTier | app/api/chat/stripe/webhook/route.ts:62-65 | A delivery changes only the tier column, and only on rows with the resolved profile's id |
| Webhook.DeletionOfProKeepsPro | app/api/chat/stripe/webhook/route.ts:32-60 | A deletion event for a Pro price writes "pro": deletion is not special-cased |
| Checkout.ProfileEmail | app/api/chat/create-checkout/route.ts:28-39 | The email is found only for exactly one profile with the id and a non-empty email |
| Checkout.StoredCustomer | app/api/chat/create-checkout/route.ts:45-54 | A customer is reused only when the user has exactly one subscriptions row and its customer id is non-empty |
| Checkout.SessionFor | app/api/chat/create-checkout/route.ts:87-93 | The session is in subscription mode for the customer and the price, quantity 1. Its success and cancel links are the app URL (printed "undefined" when unset) with the dashboard and pricing paths |
| Checkout.OpenSession | app/api/chat/create-checkout/route.ts:87-101 | A failed session creation gives 500 and adds nothing. Otherwise exactly one session is added and its URL returned |
| Checkout.CreateCheckout | app/api/chat/create-checkout/route.ts:11-103 | A missing field gives 400 and changes nothing, and so does a missing profile or email with 404. Profiles are never written and no row is removed. At most one customer and one subscriptions row are added per call, the row naming the new customer, and a customer is created only when none is stored. A session is opened exactly on a 200, for the stored or the new customer |
| Checkout.StoredCustomerReused | app/api/chat/create-checkout/route.ts:53-54 | With a stored customer, no customer is created, no row inserted, and the session is for the stored customer |
| Checkout.FailedInsertOrphansCustomer | app/api/chat/create-checkout/route.ts:59-81 | A failed insert gives 500 and opens no session, but the customer it created stays at Stripe unrecorded |
| Checkout.SecondCheckoutReusesCustomer | app/api/chat/create-checkout/route.ts:45-73 | After a successful first call for a user without rows, a second call creates no customer and no row |
| BillingFlow.CheckoutRecordsCustomer | app/api/chat/create-checkout/route.ts:56-73 | A successful checkout with a new customer writes the customer id only to subscriptions; profiles are untouched |
| BillingFlow.CheckoutCustomerInvisibleToWebhook | app/api/chat/stripe/webhook/route.ts:39-48 | After checkout creates a customer, every subscription event for it leaves the rows as they were: the buyer's tier never changes |
| BillingFlow.CheckoutThenWebhookLeavesFree | app/api/chat/create-checkout/route.ts:68-73 | A concrete Pro purchase after checkout leaves the profile on "free" |
| BillingFlow.PricingPageProPrice | app/pricing/page.tsx:1-33 | The client-side pricing page sells Pro at the public monthly price when that is set and non-empty, and at the placeholder otherwise, never at `STRIPE_PRICE_PRO`. A set monthly price maps to "pro" in the webhook. The yearly price is likewise the public yearly variable or its placeholder |
| BillingFlow.ResolveProfile | app/api/chat/create-checkout/route.ts:68-73 | The corrected lookup resolves as before when a profile carries the customer id. Otherwise it uses the single subscriptions row checkout wrote for that customer |
| BillingFlow.HandleWebhookFixed | app/api/chat/stripe/webhook/route.ts:11-81 | The corrected handler gives the same replies, and writes the tier of the written price mapping to the profile the corrected lookup finds |
| BillingFlow.FixedLookupFindsBuyer | app/api/chat/create-checkout/route.ts:56-73 | After checkout creates a fresh customer, the corrected lookup resolves that customer to the buyer's own profile |
| BillingFlow.CheckoutThenFixedWebhookUpgrades | app/api/chat/create-checkout/route.ts:56-93 | After checkout creates a fresh customer for the Pro price the pricing page sells, with the public monthly variable set, the subscription event moves the buyer to "pro" |
| BillingFlow.FixedWebhookIdempotent | app/api/chat/stripe/webhook/route.ts:31-70 | The corrected handler is idempotent as well |
| BillingFlow.ResolveAfterSetTier | app/api/chat/stripe/webhook/route.ts:62-65 | Retiering profiles does not change which profile a customer resolves to |
| Config.Truthy | lib/env.ts:29 | A variable counts as present exactly when it is set and non-empty, and then has its value |
| EnvValidation.Missing | lib/env.ts:28-32 | The missing list holds exactly the names that are unset or empty |
| EnvValidation.MissingKeepsOrder | lib/env.ts:28-32 | The missing list is built piecewise over the declaration list, so it keeps declaration order |
| EnvValidation.Bullets | lib/env.ts:36 | One `"  - NAME"` line per name, in order |
| EnvValidation.ValidateEnv | lib/env.ts:25-54 | It throws exactly when a required name is unset or empty. The message's lines are the header, one bullet per missing required name in order, a blank line and the footer. Otherwise it returns, warning exactly on the server when an optional name is missing; the warning's lines are its header and one bullet per missing optional name |
| EnvValidation.ErrorLines | lib/env.ts:35-38 | The error text splits into the header, the bullets, a blank line and the footer, and no other lines |
| EnvValidation.WarningLines | lib/env.ts:50-52 | The warning text splits into its header and the bullets |
| EnvValidation.RequiredPresentReturns | lib/env.ts:34-53 | With every required name set, the function returns whatever the optional names are |
| ConnectionCheck.MaskKey | test-supabase-connection.js:15 | A missing key shows "MISSING". Otherwise the display is the key's first 20 characters (or all, when shorter) followed by "..." |
| ConnectionCheck.UrlIssues | test-supabase-connection.js:21-29 | A missing URL gives the missing line. A dashboard URL gives the dashboard line, the should-be line and a line quoting the URL, and skips the suffix check. Any other URL gives the unusual-format warning when it does not end in ".supabase.co", and nothing when it does |
| ConnectionCheck.KeyIssues | test-supabase-connection.js:31-35 | A missing key gives the missing line. A key starting with neither "sb_" nor "eyJ" gives the unusual-format warning, and any other key gives nothing |
| ConnectionCheck.CheckConnectionConfig | test-supabase-connection.js:10-48 | The issues are the URL issues then the key issues, at most four. A connection is attempted exactly when there are none |
| ConnectionCheck.ConnectsIffWellFormed | test-supabase-connection.js:10-48 | The script goes on to connect exactly when the URL is set, ends in ".supabase.co" and is no dashboard link, and the key is set and starts with "sb_" or "eyJ". Otherwise it prints at least one issue |
| ConnectionCheck.IssueLinesShape | test-supabase-connection.js:19-35 | Every issue line is one of the fixed headlines and hints, or the line quoting the URL |
| ConnectionCheck.WellFormedConfigConnects | test-supabase-connection.js:19-48 | A project URL ending in ".supabase.co" with a JWT-style key passes every check |
| Strings.Trim | app/chat/page.tsx:164-166 | `trim` is empty exactly when every character is whitespace. Otherwise it is the slice between the longest whitespace prefix and the longest whitespace suffix, so it starts and ends with a non-space character and everything cut off is whitespace |
| Strings.TrimPadded | app/chat/page.tsx:164-166 | A core with non-space ends, padded with whitespace on both sides, trims back to exactly that core |
| Strings.TrimIdempotent | app/chat/page.tsx:164-166 | Trimming twice is trimming once |
| Strings.Take | app/chat/page.tsx:121 | `substring(0, n)` is the prefix of length min(n, length) |
| Strings.ContainsIffOccurs | test-supabase-connection.js:23 | Substring search succeeds exactly when the pattern occurs at some position |
| Strings.NatToString | lib/usage.ts:30 | A count renders as decimal digits with no leading zero |
| Strings.ParseNatToString | lib/usage.ts:30 | Reading the rendered digits back gives the count |
| Strings.NatToStringInjective | lib/usage.ts:30 | Different counts render differently |
| Strings.LinesOfJoin | lib/env.ts:36 | Splitting a newline-join of newline-free lines on newlines gives the lines back |

## Left out

- I/O, Supabase, Stripe and Anthropic are left out. Every query, insert, update and delete is a function over in-memory rows. Every external answer is a parameter: the provider's reply, the signature verdict, new ids, and whether each modelled write succeeds. The goals page's writes are not modelled; see below.
- The clock and the calendar are left out. Timestamps are integers. `oneWeekAgo` and `twoWeeksAgo` are parameters, because `setDate` is local-time arithmetic. The `toDateString` day key is a function parameter.
- Analytics.Tally: assumes no persona id is a canonical array-index string such as "1" (`Object.entries` lists those first, in ascending order, not in first-seen order) and none is an `Object.prototype` name. The same assumption holds for Analytics.TallyKeys, Analytics.FavoriteExpert and Analytics.LoadAnalytics. Persona ids come from the fixed registry, which has neither kind.
- Analytics.TallyCounts: for an `Object.prototype` name, `(usage[e] || 0) + 1` starts from the inherited member, so "constructor" gets a string entry and `__proto__` gets no own entry. The model counts every id as a number.
- Analytics.TallyTotal: the sum equals the row count only under the Analytics.Tally assumption.
- Analytics.BumpTotal: the step adds one only under the same assumption.
- ChatSession.Load: a stored `messages` cell that is truthy but not an array (an object, a non-empty string) is kept by the page, whose render then throws at `messages.map`. The model shows an empty list instead. The rows the model writes always hold arrays.
- Analytics.GrowthPercent: uses exact rational rounding, which can differ from the source's IEEE doubles at exact halves. Floating point is left out, and so is the float per-persona percentage bar.
- Strings.Take: counts characters, not UTF-16 code units, so it differs from `substring` on text outside the Basic Multilingual Plane.
- ConnectionCheck.MaskKey: counts characters, not UTF-16 code units, for the same reason.
- Persona prompt texts are not reproduced. A prompt is identified by its persona.
- Persona display data (names, avatars, descriptions) is left out, as are the plans' feature lists (kept only as counts).
- React rendering, state batching and effect scheduling are left out. The chat page's selection triggers `loadConversation` twice (the click handler and the effect), and both do the same load, so the model loads once.
- `handleSend`'s reply and save are one step (`ChatSession.CompleteSend`). A second send cannot start in between, because loading blocks it.
- Goals: the database writes behind the goals page are left out, and so is the initial goal fetch (`loadGoals`). The page's list is modelled as the source keeps it, without the server round trip.
- The concurrent usage-increment race is left out; the model is single-threaded.
- Usage.IncrementIntended: the shipped `incrementUsage` only logs. This meter is modelled from the steps its TODO comment lists (lib/usage.ts:42-46), not from code that exists.
- The webhook's 500 catch path (lines 77-80) is left out. The client calls there report errors in their result rather than throwing, so nothing in the modelled steps can reach it.
- An event whose customer is an expanded object rather than an id string is left out.
- Non-string values in request bodies (a numeric `userId`, a `priceId` object) are left out. Fields are strings or absent. In the chat body, a `messages` value that is present but not an array, and an `expert` that is `null` or not an object, are left out too.
- `app/api/chat/stripe/checkout/route.ts`, `lib/supabase.ts`, `components/DemoPlayer.tsx` and `components/UpgradePrompt.tsx` are not part of this model. Neither are the login, landing and layout pages, and the Tailwind configuration. They are presentation, a thin wrapper over one Stripe call, or type declarations.
- Of the pricing page, only the price it offers is modelled (`BillingFlow.PricingPageProPrice`). Its request goes to `/api/stripe/checkout` with a `priceId` and a fixed `customerEmail`; that is not the create-checkout route modelled here, which reads `userId` and `priceId`. The billing flow composes create-checkout directly with the price the page offers.
- One environment serves both sides: the browser's build-time copy of the public variables is assumed to equal the server's runtime values.
- An inherited member sent as the system prompt is passed to the provider parameter as it is (`ChatGateway.InheritedMember`). What the provider's client library and API make of a function or object there is that parameter's answer.
- The connection script's actual connection attempt and its printed help text (test-supabase-connection.js:37-92) are left out. The model stops at the decision whether to connect.
- `validateEnv`'s development-mode auto-run (lib/env.ts:56-65) is left out; it only prints.

## Findings

| source | as written | input that shows it | evidently intended | confidence | as-written member | corrected member |
|---|---|---|---|---|---|---|
| app/chat/page.tsx:92-96, 333-336 | Selecting a persona with no saved conversation keeps the previous persona's messages and conversation id | Signed in with a therapist conversation `c1` open, select "business" (no rows), send "plan": row `c1` (therapist) is overwritten with the new messages and "business" still has no row | A persona without history starts a fresh session (empty messages, no id), so saves go to that persona's own row | medium; not executed | ChatSession.SwitchKeepsOtherConversation | ChatSession.SelectExpertFixed |
| app/api/chat/create-checkout/route.ts:68-73; app/api/chat/stripe/webhook/route.ts:39-48 | Checkout records a new Stripe customer only in `subscriptions`, but the webhook looks the customer up in `profiles.stripe_customer_id` | Profile `u1` with email and no customer id, empty `subscriptions`; checkout for `price_M` creates `cus_1`; the `customer.subscription.created` event for `cus_1` at `price_M` finds no profile and `u1` stays "free" | The webhook finds the buyer through the customer id checkout recorded and writes their tier | high; not executed | BillingFlow.CheckoutCustomerInvisibleToWebhook | BillingFlow.CheckoutThenFixedWebhookUpgrades |
