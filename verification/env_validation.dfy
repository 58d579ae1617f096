/** Start-up validation of the process environment: every unset required
    variable is reported in one error, unset optional ones only in a
    server-side warning. */
module EnvValidation {
  import opened Optional
  import opened Strings
  import opened Config

  /** The required names, in declaration order. */
  const RequiredNames: seq<string> :=
    [SupabaseUrl, SupabaseAnonKey, AnthropicApiKey, StripePublishableKey,
     StripeSecretKey, StripeWebhookSecret, AppUrl]

  /** The optional but recommended names, in declaration order. */
  const OptionalNames: seq<string> := [StripePriceBasic, StripePricePro]

  const ErrorHeader := "Missing required " + "environment variables:"
  const ErrorFooter := "Please add these to " + "your .env.local file " + "or deployment "
                       + "environment variables."
  const WarningHeader := "Warning: Missing " + "optional environment " + "variables:"

  /** `validateEnv` either throws an error carrying a message, or returns,
      possibly after printing a warning. */
  datatype Validation = Thrown(message: string) | Returned(warning: Option<string>)

  /** The names among `names` that are unset or empty, in their order. */
  function Missing(env: Env, names: seq<string>): (m: seq<string>)
    ensures forall n :: n in m <==> n in names && Truthy(env, n).None?
    ensures |m| <= |names|
  {
    if |names| == 0 then []
    else
      var rest := Missing(env, names[1..]);
      assert forall n :: n in names <==> n == names[0] || n in names[1..];
      if Truthy(env, names[0]).None? then [names[0]] + rest else rest
  }

  /** Collecting missing names distributes over concatenation of the name
      list, so the report lists names in declaration order. */
  lemma {:induction false} MissingKeepsOrder(env: Env, a: seq<string>, b: seq<string>)
    ensures Missing(env, a + b) == Missing(env, a) + Missing(env, b)
    decreases |a|
  {
    if |a| == 0 {
      assert a + b == b;
    } else {
      assert (a + b)[1..] == a[1..] + b;
      MissingKeepsOrder(env, a[1..], b);
    }
  }

  /** One `  - NAME` line per name. */
  function Bullets(names: seq<string>): (lines: seq<string>)
    ensures |lines| == |names|
    ensures forall i :: 0 <= i < |names| ==> lines[i] == "  - " + names[i]
  {
    if |names| == 0 then [] else ["  - " + names[0]] + Bullets(names[1..])
  }

  predicate NoNewlines(lines: seq<string>) {
    forall k :: 0 <= k < |lines| ==> '\n' !in lines[k]
  }

  lemma DeclaredNamesHaveNoNewlines()
    ensures NoNewlines(RequiredNames) && NoNewlines(OptionalNames)
  {
    assert '\n' !in SupabaseUrl && '\n' !in SupabaseAnonKey && '\n' !in AnthropicApiKey;
    assert '\n' !in StripePublishableKey && '\n' !in StripeSecretKey;
    assert '\n' !in StripeWebhookSecret && '\n' !in AppUrl;
    assert '\n' !in StripePriceBasic && '\n' !in StripePricePro;
  }

  lemma MissingHasNoNewlines(env: Env, names: seq<string>)
    requires NoNewlines(names)
    ensures NoNewlines(Missing(env, names))
  {
    var m := Missing(env, names);
    forall k | 0 <= k < |m| ensures '\n' !in m[k] {
      assert m[k] in names;
    }
  }

  lemma FixedTextsHaveNoNewlines()
    ensures '\n' !in ErrorHeader && '\n' !in ErrorFooter && '\n' !in WarningHeader
  {
  }

  lemma BulletsHaveNoNewlines(names: seq<string>)
    requires NoNewlines(names)
    ensures NoNewlines(Bullets(names))
  {
    forall k | 0 <= k < |names| ensures '\n' !in Bullets(names)[k] {
      assert Bullets(names)[k] == "  - " + names[k];
    }
  }

  /** `validateEnv(isServer)`.  It throws exactly when some required name is
      unset or empty; the error's lines are the header, one `  - NAME` line
      per missing name in declaration order and nothing else, a blank line
      and the footer.  Optional names never cause a throw; they are reported
      in a warning only on the server. */
  function ValidateEnv(env: Env, isServer: bool): (r: Validation)
    ensures r.Thrown? <==> exists n :: n in RequiredNames && Truthy(env, n).None?
    ensures r.Thrown? ==>
              Lines(r.message) == [ErrorHeader] + Bullets(Missing(env, RequiredNames)) + ["", ErrorFooter]
    ensures r.Returned? ==>
              (r.warning.Some? <==> isServer && exists n :: n in OptionalNames && Truthy(env, n).None?)
    ensures r.Returned? && r.warning.Some? ==>
              Lines(r.warning.value) == [WarningHeader] + Bullets(Missing(env, OptionalNames))
  {
    var missing := Missing(env, RequiredNames);
    DeclaredNamesHaveNoNewlines();
    FixedTextsHaveNoNewlines();
    MissingHasNoNewlines(env, RequiredNames);
    MissingHasNoNewlines(env, OptionalNames);
    if |missing| > 0 then
      assert missing[0] in missing;
      var bullets := Bullets(missing);
      var message := ErrorHeader + "\n" + Join(bullets, "\n") + "\n\n" + ErrorFooter;
      ErrorLines(missing, message);
      Thrown(message)
    else
      assert forall n :: n in RequiredNames ==> Truthy(env, n).Some?;
      var missingOptional := Missing(env, OptionalNames);
      if |missingOptional| > 0 && isServer then
        assert missingOptional[0] in missingOptional;
        var warning := WarningHeader + "\n" + Join(Bullets(missingOptional), "\n");
        WarningLines(missingOptional, warning);
        Returned(Some(warning))
      else
        Returned(None)
  }

  lemma ErrorLines(missing: seq<string>, message: string)
    requires |missing| > 0 && NoNewlines(missing)
    requires message == ErrorHeader + "\n" + Join(Bullets(missing), "\n") + "\n\n" + ErrorFooter
    ensures Lines(message) == [ErrorHeader] + Bullets(missing) + ["", ErrorFooter]
  {
    var bullets := Bullets(missing);
    BulletsHaveNoNewlines(missing);
    FixedTextsHaveNoNewlines();
    var head := [ErrorHeader] + bullets;
    var tail := ["", ErrorFooter];
    JoinConcat([ErrorHeader], bullets, "\n");
    var headText := Join(head, "\n");
    assert headText == ErrorHeader + "\n" + Join(bullets, "\n");
    assert Join(tail, "\n") == "\n" + ErrorFooter;
    assert message == headText + "\n" + Join(tail, "\n");
    assert NoNewlines(head);
    LinesOfJoinedParts(head, tail);
  }

  lemma WarningLines(missing: seq<string>, warning: string)
    requires |missing| > 0 && NoNewlines(missing)
    requires warning == WarningHeader + "\n" + Join(Bullets(missing), "\n")
    ensures Lines(warning) == [WarningHeader] + Bullets(missing)
  {
    BulletsHaveNoNewlines(missing);
    FixedTextsHaveNoNewlines();
    LinesOfJoinedParts([WarningHeader], Bullets(missing));
  }

  /** With every required name set, validation returns normally, whatever
      the optional names are. */
  lemma RequiredPresentReturns(env: Env, isServer: bool)
    requires forall n :: n in RequiredNames ==> n in env && env[n] != ""
    ensures ValidateEnv(env, isServer).Returned?
  {
  }
}
