/** The daily-quota gate and the metering stubs around it. */
module Usage {
  import opened Optional
  import opened Strings
  import opened Plans

  /** The gate's answer.  `remaining == -1` is the sentinel for unlimited. */
  datatype UsageDecision = UsageDecision(
    allowed: bool,
    remaining: int,
    limit: Option<nat>,
    message: Option<string>)

  /** The upgrade prompt shown when the quota is used up. */
  function LimitMessage(limit: nat): string {
    "You've reached your daily limit of " + NatToString(limit)
      + " conversations. Upgrade to Pro for unlimited access!"
  }

  lemma LimitMessageNamesLimit(limit: nat)
    ensures Contains(LimitMessage(limit), NatToString(limit))
  {
    var prefix := "You've reached your daily limit of ";
    var suffix := " conversations. Upgrade to Pro for unlimited access!";
    ContainsSelf(NatToString(limit));
    ContainsExtendRight(NatToString(limit), suffix, NatToString(limit));
    ContainsExtendLeft(prefix, NatToString(limit) + suffix, NatToString(limit));
    assert LimitMessage(limit) == prefix + (NatToString(limit) + suffix);
  }

  /** `checkUsageLimit` with today's usage count `used` as a parameter.  An
      unlimited tier always passes with the -1 sentinel; a finite tier
      passes exactly while some quota is left, so reaching the limit exactly
      is already a denial, and a denial reports zero remaining and a message
      naming the limit. */
  function CheckUsageLimit(t: PlanType, used: nat): (r: UsageDecision)
    ensures DailyLimit(t).None? ==> r == UsageDecision(true, -1, None, None)
    ensures DailyLimit(t).Some? ==> r.limit == DailyLimit(t)
    ensures DailyLimit(t).Some? ==> (r.allowed <==> used < DailyLimit(t).value)
    ensures !r.allowed ==> r.remaining == 0 && r.message.Some?
                           && Contains(r.message.value, NatToString(DailyLimit(t).value))
    ensures r.allowed && DailyLimit(t).Some? ==>
              r.remaining == DailyLimit(t).value - used >= 1 && r.message.None?
    ensures r.remaining == -1 <==> DailyLimit(t).None?
    ensures r.remaining != -1 ==> r.remaining >= 0
  {
    match DailyLimit(t)
    case None => UsageDecision(true, -1, None, None)
    case Some(limit) =>
      var remaining := limit - used;
      if remaining <= 0 then
        LimitMessageNamesLimit(limit);
        UsageDecision(false, 0, Some(limit), Some(LimitMessage(limit)))
      else
        UsageDecision(true, remaining, Some(limit), None)
  }

  /** Today's per-user counts, as a real meter would keep them. */
  type Ledger = map<string, nat>

  /** `getDailyUsage`: a stub that reports no usage whatever happened. */
  function GetDailyUsage(ledger: Ledger, userId: string): (n: nat) {
    0
  }

  /** `getUserPlan`: a stub that reports every user as being on Free. */
  function GetUserPlan(userId: string): (t: PlanType) {
    Free
  }

  /** `incrementUsage`: a stub that only logs, leaving the ledger as it was. */
  function IncrementUsage(ledger: Ledger, userId: string): (l: Ledger) {
    ledger
  }

  /** The metering that the TODO comment in `incrementUsage` lists (find or
      create today's record, increment it, store it): today's count goes up
      by one and every other user's count is kept. */
  function IncrementIntended(ledger: Ledger, userId: string): (l: Ledger)
    ensures userId in l && l[userId] == (if userId in ledger then ledger[userId] else 0) + 1
    ensures forall u :: u in ledger && u != userId ==> u in l && l[u] == ledger[u]
  {
    ledger[userId := (if userId in ledger then ledger[userId] else 0) + 1]
  }

  function Count(ledger: Ledger, userId: string): nat {
    if userId in ledger then ledger[userId] else 0
  }

  /** Asks the gate `n` times for one user on tier `t`, metering each allowed
      attempt; returns how many attempts were allowed.  `mocked` selects the
      stubs above, otherwise the intended meter is used. */
  function AllowedAttempts(t: PlanType, userId: string, ledger: Ledger, n: nat, mocked: bool): (k: nat)
    ensures k <= n
    decreases n
  {
    if n == 0 then 0
    else
      var used := if mocked then GetDailyUsage(ledger, userId) else Count(ledger, userId);
      if CheckUsageLimit(t, used).allowed then
        var next := if mocked then IncrementUsage(ledger, userId) else IncrementIntended(ledger, userId);
        1 + AllowedAttempts(t, userId, next, n - 1, mocked)
      else
        AllowedAttempts(t, userId, ledger, n - 1, mocked)
  }

  /** With the stubs in place, the gate the source ships always answers
      "allowed, 10 remaining": it never denies anyone. */
  lemma {:induction false} MockedGateNeverDenies(userId: string, ledger: Ledger, n: nat)
    ensures CheckUsageLimit(GetUserPlan(userId), GetDailyUsage(ledger, userId))
              == UsageDecision(true, 10, Some(10), None)
    ensures AllowedAttempts(GetUserPlan(userId), userId, ledger, n, true) == n
    decreases n
  {
    if n > 0 {
      MockedGateNeverDenies(userId, IncrementUsage(ledger, userId), n - 1);
    }
  }

  /** With the intended meter, a Free user who has used `c` of the ten daily
      conversations is allowed exactly `min(n, 10 - c)` of `n` further
      attempts: every attempt is allowed until the limit is reached, and
      none after it.  Starting the day at zero, that is ten. */
  lemma {:induction false} IntendedMeterCapsFree(userId: string, ledger: Ledger, n: nat)
    requires Count(ledger, userId) <= FreeDailyLimit
    ensures AllowedAttempts(Free, userId, ledger, n, false)
              == (var left := FreeDailyLimit - Count(ledger, userId); if n < left then n else left)
    decreases n
  {
    if n > 0 {
      if Count(ledger, userId) < FreeDailyLimit {
        IntendedMeterCapsFree(userId, IncrementIntended(ledger, userId), n - 1);
      } else {
        IntendedMeterCapsFree(userId, ledger, n - 1);
      }
    }
  }

  /** Unlimited tiers are allowed every attempt, whatever has been used. */
  lemma {:induction false} UnlimitedNeverDenied(t: PlanType, userId: string, ledger: Ledger, n: nat, mocked: bool)
    requires t != Free
    ensures AllowedAttempts(t, userId, ledger, n, mocked) == n
    decreases n
  {
    if n > 0 {
      var next := if mocked then IncrementUsage(ledger, userId) else IncrementIntended(ledger, userId);
      UnlimitedNeverDenied(t, userId, next, n - 1, mocked);
    }
  }
}
