/** The process environment as the source reads it through `process.env`,
    and the variable names it consults. */
module Config {
  import opened Optional
  import opened Strings

  /** Variables that are set; a name outside the map reads as `undefined`. */
  type Env = map<string, string>

  const SupabaseUrl := "NEXT_PUBLIC_SUPABASE_URL"
  const SupabaseAnonKey := "NEXT_PUBLIC_SUPABASE_ANON_KEY"
  const AnthropicApiKey := "ANTHROPIC_API_KEY"
  const StripePublishableKey := "NEXT_PUBLIC_STRIPE_PUBLISHABLE_KEY"
  const StripeSecretKey := "STRIPE_SECRET_KEY"
  const StripeWebhookSecret := "STRIPE_WEBHOOK_SECRET"
  const AppUrl := "NEXT_PUBLIC_APP_URL"
  const StripePriceBasic := "STRIPE_PRICE_BASIC"
  const StripePricePro := "STRIPE_PRICE_PRO"
  const StripePriceProMonthly := "NEXT_PUBLIC_STRIPE_PRICE_PRO_MONTHLY"
  const StripePriceProYearly := "NEXT_PUBLIC_STRIPE_PRICE_PRO_YEARLY"

  /** `process.env[name]` in a position where JavaScript tests truthiness
      (`!value`, `a || b`): an unset variable and an empty one both count as
      absent. */
  function Truthy(env: Env, name: string): (v: Option<string>)
    ensures v.Some? <==> name in env && env[name] != ""
    ensures v.Some? ==> v.value == env[name]
  {
    if name in env && env[name] != "" then Some(env[name]) else None
  }

  /** Next.js builds only the variables named `NEXT_PUBLIC_...` into code
      that runs in the browser. */
  const PublicPrefix := "NEXT_PUBLIC_"

  /** The environment as a client component sees it: the public variables,
      with their values, and nothing else. */
  function ClientEnv(env: Env): (c: Env)
    ensures forall name :: name in c <==> name in env && IsPrefix(PublicPrefix, name)
    ensures forall name :: name in c ==> c[name] == env[name]
  {
    map name | name in env && IsPrefix(PublicPrefix, name) :: env[name]
  }

  /** `process.env[name]` as a raw value: unset is `None`, an empty string
      stays a present value. */
  function Raw(env: Env, name: string): Option<string> {
    if name in env then Some(env[name]) else None
  }

  /** `${process.env[name]}` inside a template literal, where an unset
      variable renders as the text `undefined`. */
  function Interpolated(env: Env, name: string): string {
    if name in env then env[name] else "undefined"
  }
}
