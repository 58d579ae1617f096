/** The analytics page's derivation over a user's conversations: message and
    conversation totals, per-persona usage, the favourite persona, the
    this-week / last-week comparison, the active-day count and the growth
    percentage. */
module Analytics {
  import opened Optional
  import opened Conversations

  datatype Summary = Summary(
    totalConversations: nat,
    totalMessages: nat,
    favoriteExpert: string,
    streakDays: nat,
    thisWeekMessages: nat,
    lastWeekMessages: nat)

  /** Per-persona conversation counts in the order personas were first met.
      This is the `Object.entries` order of the usage record only for ids
      that are not array indices (listed first, ascending) and not
      `Object.prototype` names. */
  type Usage = seq<(string, nat)>

  const FallbackExpert := "therapist"

  /** The state before anything is loaded, kept when there are no rows. */
  const Defaults := Summary(0, 0, FallbackExpert, 0, 0, 0)

  /** Sum of the message counts, a non-array `messages` counting as zero,
      accumulated from the front as `reduce` does. */
  function TotalMessages(cs: Table): nat {
    if |cs| == 0 then 0 else TotalMessages(cs[..|cs| - 1]) + MessageCount(cs[|cs| - 1].messages)
  }

  lemma {:induction false} TotalMessagesConcat(a: Table, b: Table)
    ensures TotalMessages(a + b) == TotalMessages(a) + TotalMessages(b)
    decreases |b|
  {
    if |b| == 0 {
      assert a + b == a;
    } else {
      assert (a + b)[..|a + b| - 1] == a + b[..|b| - 1];
      TotalMessagesConcat(a, b[..|b| - 1]);
    }
  }

  /** Number of conversations held with persona `e`. */
  function ConversationsWith(cs: Table, e: string): nat {
    if |cs| == 0 then 0
    else ConversationsWith(cs[..|cs| - 1], e) + (if cs[|cs| - 1].expertId == e then 1 else 0)
  }

  function UsageKeys(u: Usage): (ks: seq<string>)
    ensures |ks| == |u|
    ensures forall i :: 0 <= i < |u| ==> ks[i] == u[i].0
  {
    if |u| == 0 then [] else [u[0].0] + UsageKeys(u[1..])
  }

  function UsageTotal(u: Usage): nat {
    if |u| == 0 then 0 else UsageTotal(u[..|u| - 1]) + u[|u| - 1].1
  }

  predicate NoDuplicates(s: seq<string>) {
    forall i, j :: 0 <= i < j < |s| ==> s[i] != s[j]
  }

  /** Adds one to the count of every entry keyed `e`. */
  function Increment(u: Usage, e: string): (u': Usage)
    ensures |u'| == |u|
    ensures forall i :: 0 <= i < |u| ==> u'[i].0 == u[i].0
    ensures forall i :: 0 <= i < |u| ==> u'[i].1 == u[i].1 + (if u[i].0 == e then 1 else 0)
  {
    if |u| == 0 then []
    else
      var last := u[|u| - 1];
      Increment(u[..|u| - 1], e) + [(last.0, last.1 + (if last.0 == e then 1 else 0))]
  }

  /** `usage[e] = (usage[e] || 0) + 1`: bumps `e`'s entry in place, or adds
      it at the end with count 1. */
  function Bump(u: Usage, e: string): (u': Usage)
    ensures UsageKeys(u') == UsageKeys(u) + (if e in UsageKeys(u) then [] else [e])
  {
    if e in UsageKeys(u) then Increment(u, e) else u + [(e, 1)]
  }

  /** Number of entries keyed `e`. */
  function EntriesFor(u: Usage, e: string): nat {
    if |u| == 0 then 0 else EntriesFor(u[..|u| - 1], e) + (if u[|u| - 1].0 == e then 1 else 0)
  }

  lemma {:induction false} IncrementTotal(u: Usage, e: string)
    ensures UsageTotal(Increment(u, e)) == UsageTotal(u) + EntriesFor(u, e)
    decreases |u|
  {
    if |u| > 0 {
      var u' := Increment(u, e);
      assert u'[..|u| - 1] == Increment(u[..|u| - 1], e);
      IncrementTotal(u[..|u| - 1], e);
    }
  }

  /** In a record without repeated keys, a present key has one entry. */
  lemma {:induction false} SingleEntry(u: Usage, e: string)
    requires NoDuplicates(UsageKeys(u)) && e in UsageKeys(u)
    ensures EntriesFor(u, e) == 1
    decreases |u|
  {
    var n := |u|;
    var init := u[..n - 1];
    assert forall i :: 0 <= i < n - 1 ==> UsageKeys(init)[i] == UsageKeys(u)[i];
    assert NoDuplicates(UsageKeys(init));
    if u[n - 1].0 == e {
      assert e !in UsageKeys(init);
      NoEntry(init, e);
    } else {
      var i :| 0 <= i < n && UsageKeys(u)[i] == e;
      assert UsageKeys(init)[i] == e;
      SingleEntry(init, e);
    }
  }

  lemma {:induction false} NoEntry(u: Usage, e: string)
    requires e !in UsageKeys(u)
    ensures EntriesFor(u, e) == 0
    decreases |u|
  {
    var n := |u|;
    if n > 0 {
      assert UsageKeys(u)[n - 1] == u[n - 1].0;
      assert forall i :: 0 <= i < n - 1 ==> UsageKeys(u[..n - 1])[i] == UsageKeys(u)[i];
      NoEntry(u[..n - 1], e);
    }
  }

  lemma BumpTotal(u: Usage, e: string)
    requires NoDuplicates(UsageKeys(u))
    ensures UsageTotal(Bump(u, e)) == UsageTotal(u) + 1
  {
    if e in UsageKeys(u) {
      IncrementTotal(u, e);
      SingleEntry(u, e);
    } else {
      assert (u + [(e, 1)])[..|u|] == u;
    }
  }

  /** The persona ids of the rows, in row order. */
  function ExpertIds(cs: Table): (ids: seq<string>)
    ensures |ids| == |cs|
    ensures forall i :: 0 <= i < |cs| ==> ids[i] == cs[i].expertId
  {
    if |cs| == 0 then [] else ExpertIds(cs[..|cs| - 1]) + [cs[|cs| - 1].expertId]
  }

  /** `arr.filter((x, i) => arr.indexOf(x) === i)`: the first occurrence of
      every value, in order of first appearance. */
  function Distinct(s: seq<string>): (d: seq<string>)
    ensures NoDuplicates(d)
    ensures forall x :: x in d <==> x in s
    ensures |d| <= |s|
  {
    if |s| == 0 then []
    else
      var d := Distinct(s[..|s| - 1]);
      assert forall x :: x in s <==> x in s[..|s| - 1] || x == s[|s| - 1];
      if s[|s| - 1] in s[..|s| - 1] then d else d + [s[|s| - 1]]
  }

  /** The usage record built by one pass over the rows. */
  function Tally(cs: Table): Usage {
    if |cs| == 0 then [] else Bump(Tally(cs[..|cs| - 1]), cs[|cs| - 1].expertId)
  }

  /** The usage record lists each persona that has a conversation exactly
      once, in order of first appearance. */
  lemma {:induction false} TallyKeys(cs: Table)
    ensures UsageKeys(Tally(cs)) == Distinct(ExpertIds(cs))
    decreases |cs|
  {
    if |cs| > 0 {
      var init := cs[..|cs| - 1];
      TallyKeys(init);
      assert ExpertIds(cs)[..|cs| - 1] == ExpertIds(init);
    }
  }

  /** Each entry's count is the number of conversations with that persona. */
  lemma {:induction false} TallyCounts(cs: Table)
    ensures forall i :: 0 <= i < |Tally(cs)| ==>
              Tally(cs)[i].1 == ConversationsWith(cs, Tally(cs)[i].0) >= 1
    decreases |cs|
  {
    if |cs| > 0 {
      var init := cs[..|cs| - 1];
      var e := cs[|cs| - 1].expertId;
      TallyCounts(init);
      var u := Tally(init);
      var u' := Bump(u, e);
      assert Tally(cs) == u';
      assert forall k :: ConversationsWith(cs, k) == ConversationsWith(init, k) + (if e == k then 1 else 0);
      if e in UsageKeys(u) {
        forall i | 0 <= i < |u'|
          ensures u'[i].1 == ConversationsWith(cs, u'[i].0) >= 1
        {
          assert u'[i].0 == u[i].0;
        }
      } else {
        TallyKeys(init);
        assert ExpertIds(cs)[..|cs| - 1] == ExpertIds(init);
        assert e !in ExpertIds(init);
        ConversationsWithAbsent(init, e);
        forall i | 0 <= i < |u'|
          ensures u'[i].1 == ConversationsWith(cs, u'[i].0) >= 1
        {
          if i < |u| {
            assert u'[i] == u[i];
            assert UsageKeys(u)[i] == u[i].0;
          } else {
            assert u'[i] == (e, 1);
          }
        }
      }
    }
  }

  /** The counts add up to the number of rows. */
  lemma {:induction false} TallyTotal(cs: Table)
    ensures UsageTotal(Tally(cs)) == |cs|
    decreases |cs|
  {
    if |cs| > 0 {
      var init := cs[..|cs| - 1];
      TallyTotal(init);
      TallyKeys(init);
      BumpTotal(Tally(init), cs[|cs| - 1].expertId);
    }
  }

  lemma {:induction false} ConversationsWithAbsent(cs: Table, e: string)
    requires e !in ExpertIds(cs)
    ensures ConversationsWith(cs, e) == 0
    decreases |cs|
  {
    if |cs| > 0 {
      assert ExpertIds(cs)[..|cs| - 1] == ExpertIds(cs[..|cs| - 1]);
      assert cs[|cs| - 1].expertId == ExpertIds(cs)[|cs| - 1];
      ConversationsWithAbsent(cs[..|cs| - 1], e);
    }
  }

  /** Position of the first entry with the highest count: the entry a stable
      sort by descending count puts first. */
  function FirstMax(u: Usage): (i: nat)
    requires |u| > 0
    ensures i < |u|
    ensures forall j :: 0 <= j < |u| ==> u[j].1 <= u[i].1
    ensures forall j :: 0 <= j < i ==> u[j].1 < u[i].1
  {
    if |u| == 1 then 0
    else
      var i := FirstMax(u[..|u| - 1]);
      if u[|u| - 1].1 > u[i].1 then |u| - 1 else i
  }

  /** The stable-sort head is unique: any entry with the highest count and
      no entry of equal count before it is the one `FirstMax` finds. */
  lemma FirstMaxUnique(u: Usage, k: nat)
    requires k < |u|
    requires forall j :: 0 <= j < |u| ==> u[j].1 <= u[k].1
    requires forall j :: 0 <= j < k ==> u[j].1 < u[k].1
    ensures FirstMax(u) == k
  {
  }

  /** `Object.entries(usage).sort(byCountDesc)[0]?.[0] || 'therapist'`: the
      most used persona, ties going to the one met first; the fallback when
      there is no entry or its id is empty. */
  function FavoriteExpert(u: Usage): (e: string)
    ensures |u| == 0 ==> e == FallbackExpert
    ensures |u| > 0 && u[FirstMax(u)].0 != "" ==> e == u[FirstMax(u)].0
    ensures |u| > 0 && u[FirstMax(u)].0 == "" ==> e == FallbackExpert
  {
    if |u| == 0 then FallbackExpert
    else
      var top := u[FirstMax(u)].0;
      if top == "" then FallbackExpert else top
  }

  /** Rows updated after one week ago. */
  function ThisWeek(cs: Table, oneWeekAgo: int): (r: Table)
    ensures forall c :: c in r <==> c in cs && c.updatedAt > oneWeekAgo
  {
    if |cs| == 0 then []
    else
      var rest := ThisWeek(cs[..|cs| - 1], oneWeekAgo);
      assert forall c :: c in cs <==> c in cs[..|cs| - 1] || c == cs[|cs| - 1];
      if cs[|cs| - 1].updatedAt > oneWeekAgo then rest + [cs[|cs| - 1]] else rest
  }

  /** Rows updated after two weeks ago and no later than one week ago. */
  function LastWeek(cs: Table, oneWeekAgo: int, twoWeeksAgo: int): (r: Table)
    ensures forall c :: c in r <==> c in cs && twoWeeksAgo < c.updatedAt <= oneWeekAgo
  {
    if |cs| == 0 then []
    else
      var rest := LastWeek(cs[..|cs| - 1], oneWeekAgo, twoWeeksAgo);
      assert forall c :: c in cs <==> c in cs[..|cs| - 1] || c == cs[|cs| - 1];
      var c := cs[|cs| - 1];
      if twoWeeksAgo < c.updatedAt <= oneWeekAgo then rest + [c] else rest
  }

  /** This week's filter works row by row: the rows it keeps stay in table
      order, each as often as it occurs. */
  lemma {:induction false} ThisWeekKeepsOrder(a: Table, b: Table, oneWeekAgo: int)
    ensures ThisWeek(a + b, oneWeekAgo) == ThisWeek(a, oneWeekAgo) + ThisWeek(b, oneWeekAgo)
    decreases |b|
  {
    if |b| == 0 {
      assert a + b == a;
    } else {
      var init := b[..|b| - 1];
      assert (a + b)[..|a + b| - 1] == a + init;
      assert (a + b)[|a + b| - 1] == b[|b| - 1];
      ThisWeekKeepsOrder(a, init, oneWeekAgo);
    }
  }

  /** Last week's filter works row by row, like this week's. */
  lemma {:induction false} LastWeekKeepsOrder(a: Table, b: Table, oneWeekAgo: int, twoWeeksAgo: int)
    ensures LastWeek(a + b, oneWeekAgo, twoWeeksAgo)
              == LastWeek(a, oneWeekAgo, twoWeeksAgo) + LastWeek(b, oneWeekAgo, twoWeeksAgo)
    decreases |b|
  {
    if |b| == 0 {
      assert a + b == a;
    } else {
      var init := b[..|b| - 1];
      assert (a + b)[..|a + b| - 1] == a + init;
      assert (a + b)[|a + b| - 1] == b[|b| - 1];
      LastWeekKeepsOrder(a, init, oneWeekAgo, twoWeeksAgo);
    }
  }

  /** A single row is kept by a week's filter exactly when its update time
      lies in that week; with the two order lemmas this fixes both filters
      on every table. */
  lemma WeeksOfOneRow(c: Row, oneWeekAgo: int, twoWeeksAgo: int)
    ensures ThisWeek([c], oneWeekAgo) == if c.updatedAt > oneWeekAgo then [c] else []
    ensures LastWeek([c], oneWeekAgo, twoWeeksAgo) == if twoWeeksAgo < c.updatedAt <= oneWeekAgo then [c] else []
  {
    assert [c][..0] == [];
  }

  /** No row falls in both weeks. */
  lemma WeeksDisjoint(cs: Table, oneWeekAgo: int, twoWeeksAgo: int)
    ensures forall c :: c in ThisWeek(cs, oneWeekAgo) ==> c !in LastWeek(cs, oneWeekAgo, twoWeeksAgo)
  {
  }

  /** The two weeks together never hold more messages than all rows do. */
  lemma {:induction false} WeeksWithinTotal(cs: Table, oneWeekAgo: int, twoWeeksAgo: int)
    ensures TotalMessages(ThisWeek(cs, oneWeekAgo)) + TotalMessages(LastWeek(cs, oneWeekAgo, twoWeeksAgo))
              <= TotalMessages(cs)
    decreases |cs|
  {
    if |cs| > 0 {
      var init := cs[..|cs| - 1];
      var c := cs[|cs| - 1];
      WeeksWithinTotal(init, oneWeekAgo, twoWeeksAgo);
      if c.updatedAt > oneWeekAgo {
        TotalMessagesConcat(ThisWeek(init, oneWeekAgo), [c]);
      }
      if twoWeeksAgo < c.updatedAt <= oneWeekAgo {
        TotalMessagesConcat(LastWeek(init, oneWeekAgo, twoWeeksAgo), [c]);
      }
    }
  }

  /** The local-date keys of the rows' update times. */
  function DayKeys(cs: Table, dayKey: int -> string): (ks: seq<string>)
    ensures |ks| == |cs|
    ensures forall i :: 0 <= i < |cs| ==> ks[i] == dayKey(cs[i].updatedAt)
  {
    if |cs| == 0 then [] else DayKeys(cs[..|cs| - 1], dayKey) + [dayKey(cs[|cs| - 1].updatedAt)]
  }

  /** `loadAnalytics` after the query: with no rows everything keeps its
      default and the usage record stays empty; otherwise the summary is
      derived from the rows.  `oneWeekAgo` and `twoWeeksAgo` are the
      page's two cut-off instants and `dayKey` its local-date rendering. */
  function LoadAnalytics(cs: Table, oneWeekAgo: int, twoWeeksAgo: int, dayKey: int -> string): (r: (Summary, Usage))
    ensures |cs| == 0 ==> r == (Defaults, [])
    ensures |cs| > 0 ==>
              && r.0.totalConversations == |cs|
              && r.0.totalMessages == TotalMessages(cs)
              && UsageTotal(r.1) == |cs|
              && UsageKeys(r.1) == Distinct(ExpertIds(cs))
              && (forall i :: 0 <= i < |r.1| ==> r.1[i].1 == ConversationsWith(cs, r.1[i].0))
              && r.0.favoriteExpert == FavoriteExpert(r.1)
              && r.0.thisWeekMessages == TotalMessages(ThisWeek(cs, oneWeekAgo))
              && r.0.lastWeekMessages == TotalMessages(LastWeek(cs, oneWeekAgo, twoWeeksAgo))
              && r.0.thisWeekMessages + r.0.lastWeekMessages <= r.0.totalMessages
              && 1 <= r.0.streakDays <= r.0.totalConversations
              && (forall d :: d in DayKeys(cs, dayKey) <==> d in Distinct(DayKeys(cs, dayKey)))
              && r.0.streakDays == |Distinct(DayKeys(cs, dayKey))|
  {
    if |cs| == 0 then (Defaults, [])
    else
      var usage := Tally(cs);
      TallyKeys(cs);
      TallyCounts(cs);
      TallyTotal(cs);
      WeeksWithinTotal(cs, oneWeekAgo, twoWeeksAgo);
      var days := Distinct(DayKeys(cs, dayKey));
      assert DayKeys(cs, dayKey)[0] in days;
      (Summary(|cs|, TotalMessages(cs), FavoriteExpert(usage), |days|,
               TotalMessages(ThisWeek(cs, oneWeekAgo)),
               TotalMessages(LastWeek(cs, oneWeekAgo, twoWeeksAgo))),
       usage)
  }

  /** Among personas used equally often, the one aggregated first wins:
      the same two personas in the other order give the other favourite. */
  lemma FavoriteTieGoesToFirst()
    ensures var a := Row("1", "u", "business", "", NotAnArray, 0, 0);
            var b := Row("2", "u", "wellness", "", NotAnArray, 0, 0);
            FavoriteExpert(Tally([a, b])) == "business" && FavoriteExpert(Tally([b, a])) == "wellness"
  {
    var a := Row("1", "u", "business", "", NotAnArray, 0, 0);
    var b := Row("2", "u", "wellness", "", NotAnArray, 0, 0);
    TieSteps(a, b);
    TieSteps(b, a);
  }

  lemma TieSteps(a: Row, b: Row)
    requires a.expertId != b.expertId && a.expertId != ""
    ensures FavoriteExpert(Tally([a, b])) == a.expertId
  {
    assert [a, b][..1] == [a];
    assert Tally([a]) == [(a.expertId, 1)];
    assert b.expertId !in UsageKeys([(a.expertId, 1)]);
    var u := [(a.expertId, 1), (b.expertId, 1)];
    assert Tally([a, b]) == u;
    FirstMaxUnique(u, 0);
  }

  const SentinelGrowth := 100

  /** `Math.round(((t - l) / l) * 100)` when last week had messages, else the
      fixed 100.  The rounding is exact: the result is the integer nearest
      to the percentage, halves rounding up, as `Math.round` does. */
  function GrowthPercent(thisWeek: nat, lastWeek: nat): (g: int)
    ensures lastWeek == 0 ==> g == SentinelGrowth
    ensures lastWeek > 0 ==>
              lastWeek * (2 * g - 1) <= 200 * (thisWeek - lastWeek) < lastWeek * (2 * g + 1)
  {
    if lastWeek > 0 then
      var p := 200 * (thisWeek - lastWeek) + lastWeek;
      var q := 2 * lastWeek;
      var g := p / q;
      assert q * g <= p < q * g + q;
      assert q * g == lastWeek * (2 * g);
      g
    else
      SentinelGrowth
  }

  lemma MulMonotone(k: nat, a: int, b: int)
    requires a <= b
    ensures k * a <= k * b
  {
    assert k * b - k * a == k * (b - a);
  }

  /** The rounded percentage is the only integer that close to the exact
      value. */
  lemma GrowthPercentUnique(thisWeek: nat, lastWeek: nat, g: int)
    requires lastWeek > 0
    requires lastWeek * (2 * g - 1) <= 200 * (thisWeek - lastWeek) < lastWeek * (2 * g + 1)
    ensures GrowthPercent(thisWeek, lastWeek) == g
  {
    var h := GrowthPercent(thisWeek, lastWeek);
    if h < g {
      MulMonotone(lastWeek, 2 * h + 1, 2 * g - 1);
    } else if h > g {
      MulMonotone(lastWeek, 2 * g + 1, 2 * h - 1);
    }
  }

  /** Equal weeks give no growth; doubling gives 100. */
  lemma GrowthPercentExamples()
    ensures GrowthPercent(7, 7) == 0
    ensures GrowthPercent(10, 5) == 100
    ensures GrowthPercent(10, 0) == 100
    ensures GrowthPercent(1, 8) == -87
  {
    GrowthPercentUnique(7, 7, 0);
    GrowthPercentUnique(10, 5, 100);
    GrowthPercentUnique(1, 8, -87);
  }
}
