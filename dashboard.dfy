/** The dashboard: the time-of-day greeting, the "time ago" label of a recent
    inquiry, and the two fetches that fill the lead counter and the recent
    activity list. The clock is an input: the hour for the greeting and the
    elapsed milliseconds for the label. */
module Dashboard {
  import opened JsValues
  import opened Supabase

  /** `getGreeting` for the hour `new Date().getHours()` returns. */
  function Greeting(hour: int): (g: string)
    ensures 0 <= hour < 12 ==> g == "GOOD MORNING"
    ensures 12 <= hour < 18 ==> g == "GOOD AFTERNOON"
    ensures 18 <= hour < 21 ==> g == "GOOD EVENING"
    ensures 21 <= hour < 24 ==> g == "GOOD NIGHT"
  {
    if hour < 12 then "GOOD MORNING"
    else if hour < 18 then "GOOD AFTERNOON"
    else if hour < 21 then "GOOD EVENING"
    else "GOOD NIGHT"
  }

  /** The position of a greeting in the course of a day. */
  function GreetingRank(g: string): nat {
    if g == "GOOD MORNING" then 0
    else if g == "GOOD AFTERNOON" then 1
    else if g == "GOOD EVENING" then 2
    else 3
  }

  /** Later hours never get an earlier greeting. */
  lemma GreetingMonotone(h1: int, h2: int)
    requires h1 <= h2
    ensures GreetingRank(Greeting(h1)) <= GreetingRank(Greeting(h2))
  {
  }

  /** The four buckets cover the day: each of the 24 hours gets exactly one. */
  lemma GreetingCoversDay(hour: int)
    requires 0 <= hour < 24
    ensures Greeting(hour) in ["GOOD MORNING", "GOOD AFTERNOON", "GOOD EVENING", "GOOD NIGHT"]
    ensures GreetingRank(Greeting(hour)) == (if hour < 12 then 0 else if hour < 18 then 1 else if hour < 21 then 2 else 3)
  {
  }

  /** How long ago something happened, in the unit `getTimeAgo` picks. */
  datatype Ago = JustNow | MinutesAgo(mins: int) | HoursAgo(hours: int) | DaysAgo(days: int)

  /** The unit and count for `diffMs` elapsed milliseconds. `Math.floor` on a
      positive divisor is Dafny's `/`. A timestamp in the future is just now. */
  function Elapsed(diffMs: int): (a: Ago)
    ensures a == JustNow <==> diffMs < 60000
    ensures a.MinutesAgo? ==> 60000 <= diffMs < 3600000 && 1 <= a.mins < 60 && a.mins == diffMs / 60000
    ensures a.HoursAgo? ==> 3600000 <= diffMs < 86400000 && 1 <= a.hours <= 23 && a.hours == diffMs / 3600000
    ensures a.DaysAgo? ==> 86400000 <= diffMs && 1 <= a.days && a.days == diffMs / 86400000
  {
    var mins := diffMs / 60000;
    if mins < 1 then JustNow
    else if mins < 60 then MinutesAgo(mins)
    else
      var hours := mins / 60;
      MinutesToHours(diffMs);
      if hours < 24 then HoursAgo(hours)
      else
        HoursToDays(diffMs);
        DaysAgo(hours / 24)
  }

  /** Minutes floored to hours are the milliseconds floored to hours. */
  lemma MinutesToHours(ms: int)
    ensures (ms / 60000) / 60 == ms / 3600000
  {
    var q, r := ms / 60000, ms % 60000;
    var q2, r2 := q / 60, q % 60;
    assert ms == 3600000 * q2 + (60000 * r2 + r);
  }

  /** Hours floored to days are the milliseconds floored to days. */
  lemma HoursToDays(ms: int)
    ensures (ms / 3600000) / 24 == ms / 86400000
  {
    var q, r := ms / 3600000, ms % 3600000;
    var q2, r2 := q / 24, q % 24;
    assert ms == 86400000 * q2 + (3600000 * r2 + r);
  }

  /** Days counted as `floor(floor(mins / 60) / 24)` are `floor(mins / 1440)`. */
  lemma DaysFromMinutes(mins: int)
    ensures (mins / 60) / 24 == mins / 1440
  {
    var q, r := mins / 60, mins % 60;
    var q2, r2 := q / 24, q % 24;
    assert mins == 1440 * q2 + (60 * r2 + r);
  }

  /** The unit's plural ending: an "s" exactly when the count is above one. */
  function Plural(n: int): (ending: string)
    ensures n > 1 ==> ending == "s"
    ensures n <= 1 ==> ending == ""
  {
    if n > 1 then "s" else ""
  }

  /** The label `getTimeAgo` renders: "Just now", or a label that starts
      with the count's digits. */
  function AgoText(a: Ago): (text: string)
    requires a.MinutesAgo? ==> a.mins >= 0
    requires a.HoursAgo? ==> a.hours >= 0
    requires a.DaysAgo? ==> a.days >= 0
    ensures text != []
    ensures a == JustNow <==> text == "Just now"
    ensures a != JustNow ==> IsDigit(text[0])
  {
    if a == JustNow then "Just now"
    else
      var digits := DecimalString(Count(a));
      assert (digits + UnitText(a))[0] == digits[0];
      digits + UnitText(a)
  }

  /** `getTimeAgo` for a timestamp `diffMs` milliseconds in the past. */
  function TimeAgo(diffMs: int): (text: string)
    ensures text == "Just now" <==> diffMs < 60000
  {
    AgoText(Elapsed(diffMs))
  }

  /** The counted labels in closed form: the count is the floored number of
      whole units, and the unit takes an "s" exactly when the count is above
      one. */
  lemma TimeAgoCounted(ms: int)
    ensures 60000 <= ms < 3600000 ==>
      TimeAgo(ms) == DecimalString(ms / 60000) + " min" + (if ms >= 120000 then "s" else "") + " ago"
    ensures 3600000 <= ms < 86400000 ==>
      TimeAgo(ms) == DecimalString(ms / 3600000) + " hour" + (if ms >= 7200000 then "s" else "") + " ago"
    ensures 86400000 <= ms ==>
      TimeAgo(ms) == DecimalString(ms / 86400000) + " day" + (if ms >= 172800000 then "s" else "") + " ago"
  {
  }

  /** A label determines its unit and count: two different elapsed spans that
      `getTimeAgo` renders alike fall in the same unit with the same count. */
  lemma TimeAgoDeterminesSpan(ms1: int, ms2: int)
    requires TimeAgo(ms1) == TimeAgo(ms2)
    ensures Elapsed(ms1) == Elapsed(ms2)
  {
    var a, b := Elapsed(ms1), Elapsed(ms2);
    if a != JustNow && b != JustNow {
      LabelDeterminesAgo(a, b);
    }
  }

  lemma LabelDeterminesAgo(a: Ago, b: Ago)
    requires a != JustNow && b != JustNow
    requires a.MinutesAgo? ==> a.mins >= 0
    requires a.HoursAgo? ==> a.hours >= 0
    requires a.DaysAgo? ==> a.days >= 0
    requires b.MinutesAgo? ==> b.mins >= 0
    requires b.HoursAgo? ==> b.hours >= 0
    requires b.DaysAgo? ==> b.days >= 0
    requires AgoText(a) == AgoText(b)
    ensures a == b
  {
    var n, m := Count(a), Count(b);
    var ra, rb := UnitText(a), UnitText(b);
    DigitsPrefix(DecimalString(n), ra, DecimalString(m), rb);
    DecimalInjective(n, m);
    assert ra[1] == rb[1];
  }

  function Count(a: Ago): nat
    requires a != JustNow
    requires a.MinutesAgo? ==> a.mins >= 0
    requires a.HoursAgo? ==> a.hours >= 0
    requires a.DaysAgo? ==> a.days >= 0
  {
    match a
    case MinutesAgo(n) => n
    case HoursAgo(n) => n
    case DaysAgo(n) => n
  }

  /** The part of a label after the count: a space, then the unit. */
  function UnitText(a: Ago): (u: string)
    requires a != JustNow
    ensures |u| >= 2 && u[0] == ' ' && !IsDigit(u[0])
    ensures u[1] == (if a.MinutesAgo? then 'm' else if a.HoursAgo? then 'h' else 'd')
  {
    match a
    case MinutesAgo(n) => " min" + Plural(n) + " ago"
    case HoursAgo(n) => " hour" + Plural(n) + " ago"
    case DaysAgo(n) => " day" + Plural(n) + " ago"
  }

  /** Two digit strings followed by text that starts with a non-digit can be
      told apart at the first non-digit. */
  lemma {:induction false} DigitsPrefix(d1: string, r1: string, d2: string, r2: string)
    requires forall i :: 0 <= i < |d1| ==> IsDigit(d1[i])
    requires forall i :: 0 <= i < |d2| ==> IsDigit(d2[i])
    requires r1 != [] && !IsDigit(r1[0]) && r2 != [] && !IsDigit(r2[0])
    requires d1 + r1 == d2 + r2
    ensures d1 == d2 && r1 == r2
    decreases |d1|
  {
    var w := d1 + r1;
    assert w[0] == (if d1 == [] then r1[0] else d1[0]);
    assert w[0] == (if d2 == [] then r2[0] else d2[0]);
    if d1 == [] || d2 == [] {
      assert d1 == [] && d2 == [];
      assert r1 == w == r2;
    } else {
      assert (d1 + r1)[0] == d1[0] && (d2 + r2)[0] == d2[0];
      assert (d1 + r1)[1..] == d1[1..] + r1;
      assert (d2 + r2)[1..] == d2[1..] + r2;
      DigitsPrefix(d1[1..], r1, d2[1..], r2);
      assert d1 == [d1[0]] + d1[1..];
      assert d2 == [d2[0]] + d2[1..];
    }
  }

  // ---------------------------------------------------------------------
  // Fetches

  /** The head-only count query of `fetchStats`. */
  const StatsQuery: Call :=
    Call("client_inquiries", [Select("*", Obj(map["count" := Str("exact"), "head" := Bool(true)]))])

  /** The three-row activity query of `fetchRecentActivity`. */
  const RecentQuery: Call :=
    Call("client_inquiries", [Select("id, name, eventType, createdAt", Undefined), Order("createdAt", false), Limit(3)])

  /** The lead counter after `fetchStats`: `count || 0` on success, the
      previous value when the fetch failed. */
  function TotalLeadsAfter(prev: Value, answer: Settled): (v: Value)
    ensures Fails(answer) ==> v == prev
    ensures !Fails(answer) ==> Truthy(v) || v == Num(0)
    ensures !Fails(answer) && Truthy(answer.reply.count) ==> v == answer.reply.count
    ensures !Fails(answer) && !Truthy(answer.reply.count) ==> v == Num(0)
  {
    if Fails(answer) then prev else Or(answer.reply.count, Num(0))
  }

  /** On the mock, the count query is the bare builder: awaiting it gives no
      count, so the counter shows 0. */
  lemma MockStatsShowZero(loadedAt: int, prev: Value)
    ensures TotalLeadsAfter(prev, MockAwait(loadedAt, StatsQuery)) == Num(0)
  {
    assert StatsQuery.ops == [StatsQuery.ops[0]] + [];
    MockFiltersIgnored(loadedAt, StatsQuery.table, StatsQuery.ops, []);
  }

  /** On the mock, `limit` is called on the promise `order` returned and
      throws, so the activity list keeps what it had. */
  lemma MockRecentUnchanged(loadedAt: int, prev: Value)
    ensures ListAfter(prev, MockAwait(loadedAt, RecentQuery)) == prev
  {
    var ops := RecentQuery.ops;
    assert ops == [ops[0]] + [ops[1], ops[2]] + [];
    MockFiltersIgnored(loadedAt, RecentQuery.table, [ops[0]], [ops[1], ops[2]]);
    MockAfterTerminal(loadedAt, RecentQuery.table, ops[1], ops[2], []);
    assert [ops[1], ops[2]] + [] == [ops[1], ops[2]];
  }

  class DashboardScreen {
    var refreshing: bool
    var recentLeads: Value
    var totalLeads: Value
    var streamingStatus: string
    var systemHealth: string
    var weeklyGrowth: string

    constructor ()
      ensures !refreshing && recentLeads == Arr([]) && totalLeads == Num(0)
      ensures streamingStatus == "LIVE" && systemHealth == "Optimal" && weeklyGrowth == "+12%"
    {
      refreshing, recentLeads, totalLeads := false, Arr([]), Num(0);
      streamingStatus, systemHealth, weeklyGrowth := "LIVE", "Optimal", "+12%";
    }

    /** `fetchStats` (also what pull-to-refresh runs): only the lead counter
        changes, and the refresh indicator ends off. */
    method FetchStats(backend: Backend) returns (query: Call)
      modifies this`refreshing, this`totalLeads
      ensures query == StatsQuery && !refreshing
      ensures totalLeads == TotalLeadsAfter(old(totalLeads), backend(query))
    {
      refreshing := true;
      query := StatsQuery;
      var answer := backend(query);
      if !Fails(answer) {
        totalLeads := Or(answer.reply.count, Num(0));
      }
      refreshing := false;
    }

    /** `fetchRecentActivity`: only the activity list changes. */
    method FetchRecentActivity(backend: Backend) returns (query: Call)
      modifies this`recentLeads
      ensures query == RecentQuery
      ensures recentLeads == ListAfter(old(recentLeads), backend(query))
    {
      query := RecentQuery;
      var answer := backend(query);
      if !Fails(answer) {
        recentLeads := Or(answer.reply.data, Arr([]));
      }
    }
  }
}
