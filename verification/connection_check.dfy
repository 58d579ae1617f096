/** The stand-alone connection check script: it masks the anon key for
    display, collects format issues in the Supabase URL and key, and exits
    before connecting when it found any. */
module ConnectionCheck {
  import opened Optional
  import opened Strings
  import opened Config

  const UrlMissing := "\U{274C} NEXT_PUBLIC_SUPABASE_URL is missing"
  const UrlIsDashboard := "\U{274C} NEXT_PUBLIC_SUPABASE_URL is a dashboard URL, not an API URL"
  const UrlShouldBe := "   Should be: https://YOUR-PROJECT-REF.supabase.co"
  const UrlUnusual := "\U{26A0}\U{FE0F}  NEXT_PUBLIC_SUPABASE_URL format looks unusual"
  const KeyMissing := "\U{274C} NEXT_PUBLIC_SUPABASE_ANON_KEY is missing"
  const KeyUnusual := "\U{26A0}\U{FE0F}  NEXT_PUBLIC_SUPABASE_ANON_KEY format looks unusual"

  /** What the script does after its checks. */
  datatype Run = Run(displayedKey: string, issues: seq<string>, connects: bool)

  /** The key as displayed: its first 20 characters and an ellipsis, or
      `MISSING`. */
  function MaskKey(key: Option<string>): (shown: string)
    ensures key.None? ==> shown == "MISSING"
    ensures key.Some? ==> |shown| == (if |key.value| < 20 then |key.value| else 20) + 3
    ensures key.Some? ==> IsPrefix(shown[..|shown| - 3], key.value) && IsSuffix("...", shown)
  {
    match key
    case None => "MISSING"
    case Some(k) =>
      var shown := Take(k, 20) + "...";
      assert shown[..|shown| - 3] == Take(k, 20);
      shown
  }

  /** Issues found in the URL: a missing URL and a dashboard URL are
      reported as such (the latter over three lines, without the suffix
      check); otherwise a URL outside `.supabase.co` draws one warning. */
  function UrlIssues(url: Option<string>): (issues: seq<string>)
    ensures url.None? ==> issues == [UrlMissing]
    ensures url.Some? && Contains(url.value, "/dashboard/") ==>
              issues == [UrlIsDashboard, UrlShouldBe, "   Current:   " + url.value]
    ensures url.Some? && !Contains(url.value, "/dashboard/") && !IsSuffix(".supabase.co", url.value) ==>
              issues == [UrlUnusual]
    ensures url.Some? && !Contains(url.value, "/dashboard/") && IsSuffix(".supabase.co", url.value) ==>
              issues == []
    ensures |issues| <= 3
  {
    match url
    case None => [UrlMissing]
    case Some(u) =>
      if Contains(u, "/dashboard/") then [UrlIsDashboard, UrlShouldBe, "   Current:   " + u]
      else if !IsSuffix(".supabase.co", u) then [UrlUnusual]
      else []
  }

  /** Issues found in the key: missing, or not starting with `sb_` or `eyJ`. */
  function KeyIssues(key: Option<string>): (issues: seq<string>)
    ensures key.None? ==> issues == [KeyMissing]
    ensures key.Some? && !IsPrefix("sb_", key.value) && !IsPrefix("eyJ", key.value) ==> issues == [KeyUnusual]
    ensures key.Some? && (IsPrefix("sb_", key.value) || IsPrefix("eyJ", key.value)) ==> issues == []
    ensures |issues| <= 1
  {
    match key
    case None => [KeyMissing]
    case Some(k) => if !IsPrefix("sb_", k) && !IsPrefix("eyJ", k) then [KeyUnusual] else []
  }

  /** The script up to the point where it would create a client: it connects
      only when neither the URL nor the key drew an issue, and never reports
      more than four issue lines. */
  function CheckConnectionConfig(env: Env): (r: Run)
    ensures r.issues == UrlIssues(Truthy(env, SupabaseUrl)) + KeyIssues(Truthy(env, SupabaseAnonKey))
    ensures r.connects <==> |r.issues| == 0
    ensures |r.issues| <= 4
    ensures r.displayedKey == MaskKey(Truthy(env, SupabaseAnonKey))
  {
    var url := Truthy(env, SupabaseUrl);
    var key := Truthy(env, SupabaseAnonKey);
    var issues := UrlIssues(url) + KeyIssues(key);
    Run(MaskKey(key), issues, |issues| == 0)
  }

  /** The URL and key the script accepts: both set and non-empty, the URL
      a `.supabase.co` address that is not a dashboard link, the key in one
      of the two formats Supabase issues. */
  predicate WellFormed(env: Env) {
    && Truthy(env, SupabaseUrl).Some? && Truthy(env, SupabaseAnonKey).Some?
    && IsSuffix(".supabase.co", env[SupabaseUrl]) && !Contains(env[SupabaseUrl], "/dashboard/")
    && (IsPrefix("sb_", env[SupabaseAnonKey]) || IsPrefix("eyJ", env[SupabaseAnonKey]))
  }

  /** The script goes on to connect exactly for a well-formed URL and key;
      in every other case it prints at least one issue line and stops. */
  lemma ConnectsIffWellFormed(env: Env)
    ensures CheckConnectionConfig(env).connects <==> WellFormed(env)
    ensures !WellFormed(env) ==> |CheckConnectionConfig(env).issues| >= 1
  {
  }

  /** Each issue line is a headline (a cross or a warning sign) or one of
      the two indented lines under the dashboard headline. */
  lemma IssueLinesShape(env: Env)
    ensures forall line :: line in CheckConnectionConfig(env).issues ==>
              line in [UrlMissing, UrlIsDashboard, UrlShouldBe, UrlUnusual, KeyMissing, KeyUnusual]
              || (Truthy(env, SupabaseUrl).Some? && line == "   Current:   " + env[SupabaseUrl])
  {
  }

  /** A well-formed project URL and key draw no issue, so the script goes on
      to connect. */
  lemma WellFormedConfigConnects(env: Env)
    requires SupabaseUrl in env && SupabaseAnonKey in env
    requires IsSuffix(".supabase.co", env[SupabaseUrl]) && !Contains(env[SupabaseUrl], "/dashboard/")
    requires IsPrefix("eyJ", env[SupabaseAnonKey])
    ensures CheckConnectionConfig(env).connects
  {
  }
}
