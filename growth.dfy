/** `backend/services/growth_analyzer.py`: subscriber gains over a window, the viral score and
    label, the overtake prediction, and the write of all growth fields onto a channel.
    The clock is the parameter `now`; percentages are exact `real`s rounded as Python's
    `round(x, n)` rounds them. */
module Growth {
  import opened Wrappers
  import opened Store
  import opened Numeric

  const Day: int := 86400
  const Week: int := 7 * 86400
  const Month: int := 30 * 86400

  /** A snapshot of channel `id` taken at or before `cutoff` (any time when `cutoff` is absent). */
  predicate Qualifies(s: Snapshot, id: string, cutoff: Option<Time>)
  {
    s.channelId == id && (cutoff.Some? ==> s.timestamp <= cutoff.value)
  }

  /** `find_one({"channel_id": id, "timestamp": {"$lte": cutoff}}, sort=[("timestamp", -1)])`:
      a qualifying snapshot with the latest timestamp. */
  function Latest(ss: seq<Snapshot>, id: string, cutoff: Option<Time>): (r: Option<Snapshot>)
    ensures r.Some? <==> exists s :: s in ss && Qualifies(s, id, cutoff)
    ensures r.Some? ==> r.value in ss && Qualifies(r.value, id, cutoff)
    ensures r.Some? ==> forall s :: s in ss && Qualifies(s, id, cutoff) ==> s.timestamp <= r.value.timestamp
  {
    if ss == [] then None
    else
      var rest := Latest(ss[1..], id, cutoff);
      assert forall s :: s in ss <==> s == ss[0] || s in ss[1..];
      if !Qualifies(ss[0], id, cutoff) then rest
      else if rest.None? || ss[0].timestamp >= rest.value.timestamp then Some(ss[0])
      else rest
  }

  /** A gain over a window and the percentage it is of the older count. */
  datatype Growth = Growth(gain: int, percent: real)

  /** `gain / base * 100`, the exact percentage a gain is of a positive base; 0 otherwise. */
  function Percent(gain: int, base: int): (p: real)
    ensures base > 0 ==> p * base as real == gain as real * 100.0
    ensures base <= 0 ==> p == 0.0
  {
    if base > 0 then gain as real / base as real * 100.0 else 0.0
  }

  /** `calculate_daily_growth` and its weekly and monthly twins, for a window of `window` seconds:
      the newest snapshot against the newest one at least `window` old. Without either snapshot
      both numbers are 0; the percentage is the exact one rounded to four decimal places. */
  function WindowGrowth(ss: seq<Snapshot>, id: string, now: Time, window: int): (g: Growth)
    ensures Latest(ss, id, None).None? || Latest(ss, id, Some(now - window)).None? ==> g == Growth(0, 0.0)
    ensures Latest(ss, id, None).Some? && Latest(ss, id, Some(now - window)).Some? ==>
      var cur := Latest(ss, id, None).value.subscriberCount;
      var base := Latest(ss, id, Some(now - window)).value.subscriberCount;
      g.gain == cur - base && g.percent == RoundTo(Percent(g.gain, base), 4)
  {
    match Latest(ss, id, None)
    case None => Growth(0, 0.0)
    case Some(current) =>
      match Latest(ss, id, Some(now - window))
      case None => Growth(0, 0.0)
      case Some(older) =>
        var gain := current.subscriberCount - older.subscriberCount;
        Growth(gain, RoundTo(Percent(gain, older.subscriberCount), 4))
  }

  function DailyGrowth(ss: seq<Snapshot>, id: string, now: Time): Growth { WindowGrowth(ss, id, now, Day) }
  function WeeklyGrowth(ss: seq<Snapshot>, id: string, now: Time): Growth { WindowGrowth(ss, id, now, Week) }
  function MonthlyGrowth(ss: seq<Snapshot>, id: string, now: Time): Growth { WindowGrowth(ss, id, now, Month) }

  /** The exact percentage has the sign of the gain. */
  lemma PercentSign(gain: int, base: int)
    requires base > 0
    ensures (Percent(gain, base) > 0.0 <==> gain > 0) && (Percent(gain, base) < 0.0 <==> gain < 0)
  {
    SignOfProduct(Percent(gain, base), base as real);
  }

  /** The rounded percentage never has the opposite sign of the gain, so a loss never reads
      as growth; a gain too small for four decimal places reads as 0. */
  lemma PercentFollowsGain(ss: seq<Snapshot>, id: string, now: Time, window: int)
    ensures var g := WindowGrowth(ss, id, now, window);
      (g.percent > 0.0 ==> g.gain > 0) && (g.percent < 0.0 ==> g.gain < 0) && (g.gain == 0 ==> g.percent == 0.0)
  {
    var g := WindowGrowth(ss, id, now, window);
    var older := Latest(ss, id, Some(now - window));
    if Latest(ss, id, None).Some? && older.Some? {
      var base := older.value.subscriberCount;
      RoundToSign(Percent(g.gain, base), 4);
      if base > 0 {
        PercentSign(g.gain, base);
      }
    }
  }

  /** A loss of one subscriber out of three million is -1/30000 percent, which rounds to 0 at
      four decimal places; the label then reads the rounded rate as stable growth, where the
      exact rate would read as slowing. */
  lemma TinyLossReadsStable()
    ensures Percent(-1, 3000000) == -1.0 / 30000.0
    ensures RoundTo(Percent(-1, 3000000), 4) == 0.0
    ensures Classify(RoundTo(Percent(-1, 3000000), 4), 0.0) == Stable
    ensures Classify(Percent(-1, 3000000), 0.0) == Slowing
  {
    assert Pow10(4) == 10000 by {
      assert Pow10(1) == 10;
      assert Pow10(2) == 100;
      assert Pow10(3) == 1000;
    }
    assert Percent(-1, 3000000) * 10000.0 == -1.0 / 3.0;
    assert RoundHalfEven(-1.0 / 3.0) == 0;
  }

  /** With no snapshot of the channel at all, every window reports no growth. */
  lemma NoStatsNoGrowth(ss: seq<Snapshot>, id: string, now: Time)
    requires forall s :: s in ss ==> s.channelId != id
    ensures DailyGrowth(ss, id, now) == Growth(0, 0.0)
    ensures WeeklyGrowth(ss, id, now) == Growth(0, 0.0)
    ensures MonthlyGrowth(ss, id, now) == Growth(0, 0.0)
  {
  }

  /** When the newest snapshot is already older than the window, it is compared with itself. */
  lemma StaleStatsNoGain(ss: seq<Snapshot>, id: string, now: Time, window: int)
    requires Latest(ss, id, None).Some? && Latest(ss, id, None).value.timestamp <= now - window
    ensures WindowGrowth(ss, id, now, window).gain == 0
  {
    var cur := Latest(ss, id, None).value;
    assert Qualifies(cur, id, Some(now - window));
    var older := Latest(ss, id, Some(now - window)).value;
    assert Qualifies(older, id, None);
    assert older.timestamp == cur.timestamp;
    // Both are newest snapshots. Among equal timestamps `Latest` keeps the first in storage
    // order, so both queries pick the same document; MongoDB itself does not promise that.
    LatestSameChoice(ss, id, now - window);
  }

  /** Among snapshots no later than the newest one, both queries choose the same document. */
  lemma {:induction false} LatestSameChoice(ss: seq<Snapshot>, id: string, cutoff: Time)
    requires Latest(ss, id, None).Some? && Latest(ss, id, None).value.timestamp <= cutoff
    ensures Latest(ss, id, Some(cutoff)) == Latest(ss, id, None)
  {
    if ss != [] {
      var rest := Latest(ss[1..], id, None);
      if rest.Some? {
        assert rest.value.timestamp <= Latest(ss, id, None).value.timestamp;
        LatestSameChoice(ss[1..], id, cutoff);
      } else {
        assert forall s :: s in ss[1..] && Qualifies(s, id, Some(cutoff)) ==> Qualifies(s, id, None);
      }
    }
  }

  /** The viral labels. `Unknown` is reported only for a channel without snapshots. */
  datatype Label = Exploding | RisingFast | Stable | Slowing | Unknown
  {
    function Name(): string
    {
      match this
      case Exploding => "Exploding"
      case RisingFast => "Rising Fast"
      case Stable => "Stable"
      case Slowing => "Slowing"
      case Unknown => "Unknown"
    }

    function Color(): string
    {
      match this
      case Exploding => "red"
      case RisingFast => "green"
      case Stable => "blue"
      case Slowing => "yellow"
      case Unknown => "gray"
    }

    /** Strength of the trend, strongest first. */
    function Strength(): nat
    {
      match this
      case Exploding => 3
      case RisingFast => 2
      case Stable => 1
      case Slowing => 0
      case Unknown => 0
    }
  }

  /** The decision chain on the daily and weekly growth percentages. */
  function Classify(daily: real, weekly: real): (l: Label)
    ensures l != Unknown
    ensures l == Exploding <==> daily > 1.0 || (daily > 0.5 && weekly > 5.0)
    ensures l == RisingFast <==> l != Exploding && (daily > 0.3 || weekly > 3.0)
    ensures l == Stable <==> 0.0 <= daily <= 0.3 && 0.0 <= weekly <= 3.0
    ensures l == Slowing <==> daily <= 0.3 && weekly <= 3.0 && (daily < 0.0 || weekly < 0.0)
  {
    if daily > 1.0 || (daily > 0.5 && weekly > 5.0) then Exploding
    else if daily > 0.3 || weekly > 3.0 then RisingFast
    else if daily >= 0.0 && weekly >= 0.0 then Stable
    else Slowing
  }

  /** Faster growth never gives a weaker label. */
  lemma ClassifyMonotone(d1: real, w1: real, d2: real, w2: real)
    requires d1 <= d2 && w1 <= w2
    ensures Classify(d1, w1).Strength() <= Classify(d2, w2).Strength()
  {
  }

  /** `acceleration`: the weekly percentage spread over seven days (0 for a zero rate). */
  function Acceleration(weekly: real): real
  {
    if weekly != 0.0 then weekly / 7.0 else 0.0
  }

  /** The unclamped score: daily rate times acceleration per million subscribers. */
  function RawScore(total: int, daily: real, weekly: real): real
  {
    if total > 0 then (daily * Acceleration(weekly)) / (total as real / 1000000.0) else 0.0
  }

  /** The viral score before rounding, clamped into [0, 100]; 0 for a channel with no subscribers. */
  function ViralScore(total: int, daily: real, weekly: real): (s: real)
    ensures 0.0 <= s <= 100.0
    ensures total <= 0 ==> s == 0.0
    ensures 0.0 <= RawScore(total, daily, weekly) <= 100.0 ==> s == RawScore(total, daily, weekly)
  {
    var raw := RawScore(total, daily, weekly);
    var low := if raw > 0.0 then raw else 0.0;
    if low < 100.0 then low else 100.0
  }

  /** Growth and decline in the same period cancel out: the score is then 0, as it is when
      either rate is 0. */
  lemma ScoreNeedsAgreeingRates(total: int, daily: real, weekly: real)
    requires daily * weekly <= 0.0
    ensures ViralScore(total, daily, weekly) == 0.0
  {
    if total > 0 {
      var m := total as real / 1000000.0;
      var p := daily * Acceleration(weekly);
      assert p == daily * weekly / 7.0 || p == 0.0;
      assert p <= 0.0;
      assert RawScore(total, daily, weekly) * m == p;
    }
  }

  /** The result of `calculate_viral_score`. */
  datatype Viral = Viral(score: real, trend: Label)

  function CalculateViralScore(ss: seq<Snapshot>, id: string, now: Time): (v: Viral)
    ensures v.trend == Unknown <==> !(exists s :: s in ss && s.channelId == id)
    ensures 0.0 <= v.score <= 100.0
    ensures v.trend == Unknown ==> v.score == 0.0
    ensures v.trend != Unknown ==>
      var daily := DailyGrowth(ss, id, now).percent;
      var weekly := WeeklyGrowth(ss, id, now).percent;
      v.trend == Classify(daily, weekly) &&
      v.score == RoundTo(ViralScore(Latest(ss, id, None).value.subscriberCount, daily, weekly), 2)
  {
    match Latest(ss, id, None)
    case None =>
      assert forall s :: s in ss && s.channelId == id ==> Qualifies(s, id, None);
      Viral(0.0, Unknown)
    case Some(current) =>
      var daily := DailyGrowth(ss, id, now).percent;
      var weekly := WeeklyGrowth(ss, id, now).percent;
      var score := ViralScore(current.subscriberCount, daily, weekly);
      RoundToBetween(score, 2, 0, 100);
      Viral(RoundTo(score, 2), Classify(daily, weekly))
  }

  /** The outcome of `predict_overtake_time` for two stored channels. */
  datatype Prediction =
    | AlreadyAhead
    | WillNot
    | Will(days: int, gap: int, closure: int)

  /** `predict_overtake_time(id, target)`: `None` when either channel is not stored. */
  function PredictOvertake(chs: seq<Channel>, id: string, target: string): (r: Option<Prediction>)
    ensures r.None? <==> !HasChannel(chs, id) || !HasChannel(chs, target)
    ensures r.Some? ==>
      var c := FindChannel(chs, id).value;
      var t := FindChannel(chs, target).value;
      (r.value == AlreadyAhead <==> c.subscriberCount >= t.subscriberCount) &&
      (r.value == WillNot <==> c.subscriberCount < t.subscriberCount && c.dailyGain <= t.dailyGain)
    ensures r.Some? && r.value.Will? ==>
      var c := FindChannel(chs, id).value;
      var t := FindChannel(chs, target).value;
      r.value.gap == t.subscriberCount - c.subscriberCount > 0 &&
      r.value.closure == c.dailyGain - t.dailyGain > 0 &&
      r.value.days >= 0 &&
      2 * (r.value.days * r.value.closure - r.value.gap) <= r.value.closure &&
      2 * (r.value.gap - r.value.days * r.value.closure) <= r.value.closure
  {
    match (FindChannel(chs, id), FindChannel(chs, target))
    case (Some(c), Some(t)) =>
      if c.subscriberCount >= t.subscriberCount then Some(AlreadyAhead)
      else
        var closure := c.dailyGain - t.dailyGain;
        if closure <= 0 then Some(WillNot)
        else
          var gap := t.subscriberCount - c.subscriberCount;
          var days := RoundHalfEven(gap as real / closure as real);
          DaysBound(gap, closure, days);
          Some(Will(days, gap, closure))
    case _ => None
  }

  /** Rounding `gap / closure` keeps the product within half a day's closure of the gap. */
  lemma DaysBound(gap: int, closure: int, days: int)
    requires gap > 0 && closure > 0 && days == RoundHalfEven(gap as real / closure as real)
    ensures days >= 0
    ensures 2 * (days * closure - gap) <= closure && 2 * (gap - days * closure) <= closure
  {
    var q := gap as real / closure as real;
    assert q * closure as real == gap as real;
    assert q > 0.0;
    RoundedProduct(q, closure as real, days as real, gap as real);
    ProductAsReal(days, closure);
  }

  /** If `d` is within a half of `q = g / c`, then `d * c` is within half of `c` of `g`. */
  lemma RoundedProduct(q: real, c: real, d: real, g: real)
    requires q * c == g && c > 0.0 && -1.0 / 2.0 <= q - d <= 1.0 / 2.0
    ensures 2.0 * (d * c - g) <= c && 2.0 * (g - d * c) <= c
  {
    var e := q - d;
    ScaleHalf(e, c);
    Distribute(q, d, c);
    assert e * c == g - d * c;
  }

  lemma Distribute(a: real, b: real, c: real)
    ensures (a - b) * c == a * c - b * c
  {
  }

  lemma ScaleHalf(e: real, c: real)
    requires -1.0 / 2.0 <= e <= 1.0 / 2.0 && c > 0.0
    ensures -c / 2.0 <= e * c <= c / 2.0
  {
    assert (e + 1.0 / 2.0) * c >= 0.0;
    assert (1.0 / 2.0 - e) * c >= 0.0;
  }

  /** A channel closing a 1-subscriber gap by 3 a day is predicted to overtake in 0 days. */
  lemma OvertakeCanRoundToZero()
    ensures RoundHalfEven(1.0 / 3.0) == 0
  {
  }

  /** The nine fields `update_channel_growth_metrics` writes. */
  datatype MetricsUpdate = MetricsUpdate(
    dailyGain: int,
    dailyPercent: real,
    weeklyGain: int,
    weeklyPercent: real,
    monthlyGain: int,
    monthlyPercent: real,
    viralScore: real,
    viralLabel: string,
    metricsUpdatedAt: Time)

  /** The update computed from the snapshots at time `now`. */
  function MetricsOf(ss: seq<Snapshot>, id: string, now: Time): (u: MetricsUpdate)
    ensures u.viralLabel == "Unknown" <==> !(exists s :: s in ss && s.channelId == id)
    ensures u.metricsUpdatedAt == now
    ensures 0.0 <= u.viralScore <= 100.0
  {
    var d := DailyGrowth(ss, id, now);
    var w := WeeklyGrowth(ss, id, now);
    var m := MonthlyGrowth(ss, id, now);
    var v := CalculateViralScore(ss, id, now);
    MetricsUpdate(d.gain, d.percent, w.gain, w.percent, m.gain, m.percent, v.score, v.trend.Name(), now)
  }

  /** `$set` of the nine fields onto a channel document; nothing else changes. */
  function WithMetrics(c: Channel, u: MetricsUpdate): Channel
  {
    c.(dailyGain := u.dailyGain, dailyPercent := u.dailyPercent,
       weeklyGain := Some(u.weeklyGain), weeklyPercent := u.weeklyPercent,
       monthlyGain := Some(u.monthlyGain), monthlyPercent := u.monthlyPercent,
       viralScore := u.viralScore, viralLabel := Some(u.viralLabel),
       metricsUpdatedAt := Some(u.metricsUpdatedAt))
  }

  /** `update_one({"channel_id": id}, {"$set": u})`. */
  function SetMetrics(chs: seq<Channel>, id: string, u: MetricsUpdate): (r: seq<Channel>)
    ensures |r| == |chs|
    ensures forall k :: 0 <= k < |chs| ==>
      r[k] == (if chs[k].channelId == id then WithMetrics(chs[k], u) else chs[k])
  {
    seq(|chs|, k requires 0 <= k < |chs| => if chs[k].channelId == id then WithMetrics(chs[k], u) else chs[k])
  }

  /** Writing metrics keeps ids, activity and country, hence uniqueness and every ranking filter. */
  lemma SetMetricsKeepsShape(chs: seq<Channel>, id: string, u: MetricsUpdate)
    ensures SameShape(SetMetrics(chs, id, u), chs)
    ensures UniqueIds(chs) ==> UniqueIds(SetMetrics(chs, id, u))
  {
    var r := SetMetrics(chs, id, u);
    assert forall k :: 0 <= k < |chs| ==> r[k].channelId == chs[k].channelId;
  }

  class GrowthAnalyzer {
    const db: Database

    constructor (db: Database)
      ensures this.db == db
    {
      this.db := db;
    }

    /** `update_channel_growth_metrics(id)` at time `now`. */
    method UpdateChannelGrowthMetrics(id: string, now: Time) returns (u: MetricsUpdate)
      requires db.Valid()
      modifies db`channels
      ensures db.Valid()
      ensures u == MetricsOf(db.stats, id, now)
      ensures db.channels == SetMetrics(old(db.channels), id, u)
    {
      u := MetricsOf(db.stats, id, now);
      SetMetricsKeepsShape(db.channels, id, u);
      db.channels := SetMetrics(db.channels, id, u);
    }
  }
}
