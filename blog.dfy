/** `backend/services/auto_blog_service.py`: the daily rankings post (its date strings, slug,
    title and tags, the upsert by slug, and the structure of its content) and the milestone
    post's title and slug. The post body is kept as structured data (rows and sections);
    the random choice of intro and closing is a parameter. */
module Blog {
  import opened Wrappers
  import opened Store
  import opened Sorting
  import opened Text
  import opened Numeric

  /** A calendar date as `datetime.now(timezone.utc)` supplies it. */
  datatype Date = Date(year: nat, month: nat, day: nat)

  predicate ValidDate(d: Date)
  {
    1000 <= d.year <= 9999 && 1 <= d.month <= 12 && 1 <= d.day <= 31
  }

  const MonthNames: seq<string> := ["January", "February", "March", "April", "May", "June",
    "July", "August", "September", "October", "November", "December"]

  /** `%B`: the English name of the month. */
  function MonthName(d: Date): string
    requires ValidDate(d)
  {
    MonthNames[d.month - 1]
  }

  /** `strftime("%B %d, %Y")`, e.g. "March 05, 2025". */
  function LongDate(d: Date): string
    requires ValidDate(d)
  {
    MonthName(d) + " " + ZeroPad(d.day, 2) + ", " + NatToString(d.year)
  }

  /** `strftime("%Y-%m-%d")`. */
  function DashedDate(d: Date): (r: string)
    requires ValidDate(d)
    ensures |r| == 10
  {
    ZeroPadFacts(d.year, 4);
    ZeroPadFacts(d.month, 2);
    ZeroPadFacts(d.day, 2);
    ZeroPad(d.year, 4) + "-" + ZeroPad(d.month, 2) + "-" + ZeroPad(d.day, 2)
  }

  /** `strftime("%Y%m%d")`. */
  function CompactDate(d: Date): (r: string)
    requires ValidDate(d)
    ensures |r| == 8
  {
    ZeroPadFacts(d.year, 4);
    ZeroPadFacts(d.month, 2);
    ZeroPadFacts(d.day, 2);
    ZeroPad(d.year, 4) + ZeroPad(d.month, 2) + ZeroPad(d.day, 2)
  }

  /** Two joins of equally long first parts are equal only part by part. */
  lemma SplitJoin<T>(a1: seq<T>, a2: seq<T>, b1: seq<T>, b2: seq<T>)
    requires |a1| == |b1| && a1 + a2 == b1 + b2
    ensures a1 == b1 && a2 == b2
  {
    assert a1 == (a1 + a2)[..|a1|] && b1 == (b1 + b2)[..|b1|];
    assert a2 == (a1 + a2)[|a1|..] && b2 == (b1 + b2)[|b1|..];
  }

  /** Different days have different dashed dates. */
  lemma DashedDateInjective(a: Date, b: Date)
    requires ValidDate(a) && ValidDate(b) && DashedDate(a) == DashedDate(b)
    ensures a == b
  {
    var ya, ma, da := ZeroPad(a.year, 4), ZeroPad(a.month, 2), ZeroPad(a.day, 2);
    var yb, mb, db := ZeroPad(b.year, 4), ZeroPad(b.month, 2), ZeroPad(b.day, 2);
    ZeroPadFacts(a.year, 4); ZeroPadFacts(a.month, 2); ZeroPadFacts(a.day, 2);
    ZeroPadFacts(b.year, 4); ZeroPadFacts(b.month, 2); ZeroPadFacts(b.day, 2);
    SplitJoin(ya + "-" + ma + "-", da, yb + "-" + mb + "-", db);
    SplitJoin(ya + "-" + ma, "-", yb + "-" + mb, "-");
    SplitJoin(ya + "-", ma, yb + "-", mb);
    SplitJoin(ya, "-", yb, "-");
    ZeroPadInjective(a.year, b.year, 4);
    ZeroPadInjective(a.month, b.month, 2);
    ZeroPadInjective(a.day, b.day, 2);
  }

  const DailyPrefix: string := "daily-youtube-rankings-"

  /** The daily post's slug. */
  function DailySlug(d: Date): (r: string)
    requires ValidDate(d)
    ensures |r| == |DailyPrefix| + 10
    ensures r[..|DailyPrefix|] == DailyPrefix && r[|DailyPrefix|..] == DashedDate(d)
  {
    DailyPrefix + DashedDate(d)
  }

  /** Posts of different days never share a slug, so the upsert keeps one post per day. */
  lemma DailySlugInjective(a: Date, b: Date)
    requires ValidDate(a) && ValidDate(b) && DailySlug(a) == DailySlug(b)
    ensures a == b
  {
    assert DashedDate(a) == DailySlug(a)[|DailyPrefix|..];
    DashedDateInjective(a, b);
  }

  function DailyTitle(d: Date): string
    requires ValidDate(d)
  {
    "YouTube Rankings Update - " + LongDate(d)
  }

  /** The post's tags; the last is `strftime("%B %Y").lower()`. */
  function DailyTags(d: Date): (r: seq<string>)
    requires ValidDate(d)
    ensures |r| == 4 && r[..3] == ["rankings", "daily update", "youtube stats"]
    ensures r[3] == Lower(MonthName(d) + " " + NatToString(d.year))
  {
    ["rankings", "daily update", "youtube stats", Lower(MonthName(d) + " " + NatToString(d.year))]
  }

  /** A number as `fmt` writes it: scaled to B, M or K with a fixed number of decimals, or as
      the plain integer. The decimal text of a scaled value is not modelled. */
  datatype Amount = Scaled(value: real, decimals: nat, suffix: string) | Plain(n: int)

  const Billion: int := 1_000_000_000
  const Million: int := 1_000_000
  const Thousand: int := 1_000

  /** `_generate_post_content`'s `fmt`. */
  function Fmt(num: int): (a: Amount)
  {
    if num >= Billion then Scaled(num as real / Billion as real, 2, "B")
    else if num >= Million then Scaled(num as real / Million as real, 2, "M")
    else if num >= Thousand then Scaled(num as real / Thousand as real, 1, "K")
    else Plain(num)
  }

  /** Exactly one tier applies, with inclusive lower bounds; the scaled value times its unit is
      the number, and it lies in [1, 1000) below the B tier. */
  lemma FmtTiers(num: int)
    ensures Fmt(num).Plain? <==> num < Thousand
    ensures Fmt(num).Plain? ==> Fmt(num).n == num
    ensures Fmt(num).Scaled? ==> 1.0 <= Fmt(num).value
    ensures Fmt(num).Scaled? && Fmt(num).suffix == "B" && Fmt(num).decimals == 2 <==> num >= Billion
    ensures Fmt(num).Scaled? && Fmt(num).suffix == "M" && Fmt(num).decimals == 2 <==> Million <= num < Billion
    ensures Fmt(num).Scaled? && Fmt(num).suffix == "K" && Fmt(num).decimals == 1 <==> Thousand <= num < Million
    ensures Fmt(num).Scaled? && Fmt(num).suffix != "B" ==> Fmt(num).value < 1000.0
    ensures Fmt(num).Scaled? ==>
      Fmt(num).value * (if Fmt(num).suffix == "B" then Billion else if Fmt(num).suffix == "M" then Million else Thousand) as real == num as real
  {
  }

  /** A row of the top-10 table. */
  datatype TopRow = TopRow(rank: nat, title: string, country: string, subscribers: Amount)

  /** A row of the fastest-growing table. */
  datatype GainRow = GainRow(title: string, country: string, gain: Amount, subscribers: Amount)

  /** A line of the countries section: a country name and its number of active channels. */
  datatype CountryLine = CountryLine(name: string, count: int)

  /** The content of the daily post. `intro` and `closing` index the four variants of each;
      a section that is left out is `None`. */
  datatype DailyContent = DailyContent(
    intro: nat,
    date: string,
    topRows: seq<TopRow>,
    leader: string,
    leaderSubscribers: Amount,
    topTotal: Amount,
    tracked: nat,
    fastest: Option<seq<GainRow>>,
    countries: Option<seq<CountryLine>>,
    totalSubscribers: Amount,
    closing: nat)

  /** The top-10 table's rows, numbered from 1 in input order. */
  function TopRows(top: seq<Channel>): (r: seq<TopRow>)
    ensures |r| == |top|
    ensures forall i :: 0 <= i < |top| ==>
      r[i] == TopRow(i + 1, top[i].title, top[i].countryName, Fmt(top[i].subscriberCount))
  {
    seq(|top|, i requires 0 <= i < |top| =>
      TopRow(i + 1, top[i].title, top[i].countryName, Fmt(top[i].subscriberCount)))
  }

  function GainRowOf(c: Channel): GainRow
  {
    GainRow(c.title, c.countryName, Fmt(c.dailyGain), Fmt(c.subscriberCount))
  }

  /** The fastest-growing table's rows: the channels with a positive gain, in input order. */
  function GainRows(fastest: seq<Channel>): (r: seq<GainRow>)
    ensures |r| <= |fastest|
  {
    if fastest == [] then []
    else
      var c := fastest[|fastest| - 1];
      GainRows(fastest[..|fastest| - 1]) + (if c.dailyGain > 0 then [GainRowOf(c)] else [])
  }

  /** A channel gets a row exactly when its gain is positive. */
  lemma {:induction false} GainRowsExact(fastest: seq<Channel>)
    ensures forall c :: c in fastest && c.dailyGain > 0 ==> GainRowOf(c) in GainRows(fastest)
    ensures forall g :: g in GainRows(fastest) ==> exists c :: c in fastest && c.dailyGain > 0 && g == GainRowOf(c)
  {
    if fastest != [] {
      var front, last := fastest[..|fastest| - 1], fastest[|fastest| - 1];
      assert fastest == front + [last];
      GainRowsExact(front);
    }
  }

  /** Every row shows a positive gain: its gain is a scaled amount or a positive integer. */
  lemma GainRowsPositive(fastest: seq<Channel>)
    ensures forall g :: g in GainRows(fastest) ==> g.gain.Scaled? || g.gain.n > 0
  {
    GainRowsExact(fastest);
  }

  /** The sum of the subscriber counts. */
  function SumSubs(chs: seq<Channel>): int
  {
    if chs == [] then 0 else SumSubs(chs[..|chs| - 1]) + chs[|chs| - 1].subscriberCount
  }

  /** The content `_generate_post_content` builds from a non-empty top list. */
  function ContentOf(intro: nat, date: string, top: seq<Channel>, fastest: seq<Channel>,
                     tracked: nat, totalSubs: int, countryStats: seq<CountryLine>, closing: nat): DailyContent
    requires top != []
  {
    DailyContent(intro, date, TopRows(top), top[0].title, Fmt(top[0].subscriberCount), Fmt(SumSubs(top)), tracked,
      if fastest == [] then None else Some(GainRows(fastest)),
      if countryStats == [] then None else Some(countryStats),
      Fmt(totalSubs), closing)
  }

  /** The loops of `_generate_post_content`: the top-10 rows, the highlights of the first
      channel (an empty list fails on `top_channels[0]`), the fastest-growing section when that
      list is non-empty (rows only for positive gains) and the countries section when the
      statistics are non-empty. */
  method GeneratePostContent(intro: nat, date: string, top: seq<Channel>, fastest: seq<Channel>,
                             tracked: nat, totalSubs: int, countryStats: seq<CountryLine>, closing: nat)
    returns (r: Result<DailyContent, string>)
    ensures r.Err? <==> top == []
    ensures r.Ok? ==>
      r.value.topRows == TopRows(top) &&
      r.value.leader == top[0].title && r.value.leaderSubscribers == Fmt(top[0].subscriberCount) &&
      r.value.topTotal == Fmt(SumSubs(top)) &&
      r.value.tracked == tracked && r.value.totalSubscribers == Fmt(totalSubs) &&
      r.value.fastest == (if fastest == [] then None else Some(GainRows(fastest))) &&
      r.value.countries == (if countryStats == [] then None else Some(countryStats)) &&
      r.value.intro == intro && r.value.closing == closing && r.value.date == date
    ensures r.Ok? ==> r.value == ContentOf(intro, date, top, fastest, tracked, totalSubs, countryStats, closing)
  {
    var rows: seq<TopRow> := [];
    var i := 0;
    while i < |top|
      invariant 0 <= i <= |top|
      invariant rows == TopRows(top[..i])
    {
      rows := rows + [TopRow(i + 1, top[i].title, top[i].countryName, Fmt(top[i].subscriberCount))];
      i := i + 1;
    }
    assert top[..|top|] == top;
    if top == [] {
      return Err("list index out of range");
    }
    var sum := 0;
    i := 0;
    while i < |top|
      invariant 0 <= i <= |top|
      invariant sum == SumSubs(top[..i])
    {
      assert top[..i + 1][..i] == top[..i];
      sum := sum + top[i].subscriberCount;
      i := i + 1;
    }
    var gains: Option<seq<GainRow>> := None;
    if fastest != [] {
      var g: seq<GainRow> := [];
      var k := 0;
      while k < |fastest|
        invariant 0 <= k <= |fastest|
        invariant g == GainRows(fastest[..k])
      {
        assert fastest[..k + 1][..k] == fastest[..k];
        if fastest[k].dailyGain > 0 {
          g := g + [GainRowOf(fastest[k])];
        }
        k := k + 1;
      }
      assert fastest[..|fastest|] == fastest;
      gains := Some(g);
    }
    var countries := if countryStats == [] then None else Some(countryStats);
    r := Ok(DailyContent(intro, date, rows, top[0].title, Fmt(top[0].subscriberCount), Fmt(sum),
                         tracked, gains, countries, Fmt(totalSubs), closing));
  }

  /** The fastest-growing heading is written for any non-empty list, so a list whose gains are
      all non-positive yields the heading over an empty table. */
  lemma EmptyGainTable(fastest: seq<Channel>)
    requires fastest != [] && forall c :: c in fastest ==> c.dailyGain <= 0
    ensures GainRows(fastest) == []
  {
    GainRowsExact(fastest);
    EmptyIffNoMembers(GainRows(fastest));
  }

  /** The distinct country names of `chs`, in order of first appearance (the `$group` stage). */
  function GroupNames(chs: seq<Channel>): (r: seq<string>)
    ensures forall n :: n in r <==> exists c :: c in chs && c.countryName == n
    ensures forall i, j :: 0 <= i < j < |r| ==> r[i] != r[j]
  {
    if chs == [] then []
    else
      var front := chs[..|chs| - 1];
      var last := chs[|chs| - 1];
      assert chs == front + [last];
      var g := GroupNames(front);
      if last.countryName in g then g else g + [last.countryName]
  }

  /** The number of channels with a country name (`{"$sum": 1}`). */
  function CountNamed(chs: seq<Channel>, name: string): nat
  {
    if chs == [] then 0
    else CountNamed(chs[..|chs| - 1], name) + (if chs[|chs| - 1].countryName == name then 1 else 0)
  }

  function CountOf(l: CountryLine): int { l.count }

  function LineName(l: CountryLine): string { l.name }

  /** A line of a list sorted by count and cut to five either made the cut or counts no more
      than every line that did. */
  lemma CutKeepsLargest(lines: seq<CountryLine>, x: CountryLine)
    requires x in lines
    ensures var r := Take(SortDesc(lines, CountOf), 5);
      x in r || forall l :: l in r ==> x.count <= l.count
  {
    var sorted := SortDesc(lines, CountOf);
    var r := Take(sorted, 5);
    assert x in multiset(sorted);
    var j :| 0 <= j < |sorted| && sorted[j] == x;
    if j < |r| {
      assert r[j] == x;
    } else {
      forall l | l in r ensures x.count <= l.count {
        var i :| 0 <= i < |r| && r[i] == l;
        assert sorted[i] == l;
      }
    }
  }

  /** The `$group` stage's output: one line per name, in order of first appearance. */
  function StatLines(active: seq<Channel>): (r: seq<CountryLine>)
    ensures |r| == |GroupNames(active)|
    ensures forall i :: 0 <= i < |r| ==> r[i] == CountryLine(GroupNames(active)[i], CountNamed(active, GroupNames(active)[i]))
    ensures KeyDistinct(r, LineName)
  {
    var names := GroupNames(active);
    seq(|names|, i requires 0 <= i < |names| => CountryLine(names[i], CountNamed(active, names[i])))
  }

  /** Every line that makes the cut is a group of `active` with its true count. */
  lemma CutLinesCounted(active: seq<Channel>)
    ensures forall l :: l in Take(SortDesc(StatLines(active), CountOf), 5) ==>
      l.count == CountNamed(active, l.name) && exists c :: c in active && c.countryName == l.name
  {
    var lines := StatLines(active);
    var sorted := SortDesc(lines, CountOf);
    SortDescMembers(lines, CountOf);
    forall l | l in Take(sorted, 5)
      ensures l.count == CountNamed(active, l.name) && exists c :: c in active && c.countryName == l.name
    {
      assert l in sorted;
      var i :| 0 <= i < |lines| && lines[i] == l;
      assert GroupNames(active)[i] in GroupNames(active);
    }
  }

  /** A group left out of the cut has no more channels than any group in it. */
  lemma CutLinesLargest(active: seq<Channel>)
    ensures var r := Take(SortDesc(StatLines(active), CountOf), 5);
      forall n :: n in GroupNames(active) && (forall l :: l in r ==> l.name != n) ==>
        forall l :: l in r ==> CountNamed(active, n) <= l.count
  {
    var lines := StatLines(active);
    var r := Take(SortDesc(lines, CountOf), 5);
    forall n | n in GroupNames(active) && (forall l :: l in r ==> l.name != n)
      ensures forall l :: l in r ==> CountNamed(active, n) <= l.count
    {
      var i :| 0 <= i < |GroupNames(active)| && GroupNames(active)[i] == n;
      CutKeepsLargest(lines, lines[i]);
    }
  }

  /** The country statistics (`$group` by name, `$sort` by count descending, `$limit` 5): one
      line per name with its count, most channels first, the five largest groups (all of
      them when there are fewer). */
  function CountryStats(active: seq<Channel>): (r: seq<CountryLine>)
    ensures |r| == if |GroupNames(active)| < 5 then |GroupNames(active)| else 5
    ensures NonIncreasing(r, CountOf)
    ensures KeyDistinct(r, LineName)
    ensures forall l :: l in r ==> l.count == CountNamed(active, l.name) && exists c :: c in active && c.countryName == l.name
    ensures forall n :: n in GroupNames(active) && (forall l :: l in r ==> l.name != n) ==>
      forall l :: l in r ==> CountNamed(active, n) <= l.count
  {
    var sorted := SortDesc(StatLines(active), CountOf);
    TakeKeepsOrder(sorted, 5, CountOf);
    SortDescKeepsDistinct(StatLines(active), CountOf, LineName);
    TakeKeepsDistinct(sorted, 5, LineName);
    CutLinesCounted(active);
    CutLinesLargest(active);
    Take(sorted, 5)
  }

  function Gain(c: Channel): int { c.dailyGain }

  /** Active channels with a positive daily gain. */
  function Growing(chs: seq<Channel>): (r: seq<Channel>)
    ensures forall c :: c in r <==> c in chs && c.isActive && c.dailyGain > 0
  {
    if chs == [] then []
    else if chs[0].isActive && chs[0].dailyGain > 0 then [chs[0]] + Growing(chs[1..])
    else Growing(chs[1..])
  }

  /** A post's body: the daily content, or the milestone's channel facts. */
  datatype Body = Daily(daily: DailyContent) | MilestoneNews(channelTitle: string, milestone: string, country: string)

  /** A `blog_posts` document. */
  datatype BlogPost = BlogPost(
    id: string,
    title: string,
    slug: string,
    body: Body,
    excerpt: string,
    category: string,
    author: string,
    publishedAt: Time,
    createdAt: Time,
    updatedAt: Time,
    tags: seq<string>)

  predicate HasSlug(posts: seq<BlogPost>, slug: string)
  {
    exists i :: 0 <= i < |posts| && posts[i].slug == slug
  }

  /** No two posts share a slug. */
  predicate UniqueSlugs(posts: seq<BlogPost>)
  {
    forall i, j :: 0 <= i < j < |posts| ==> posts[i].slug != posts[j].slug
  }

  /** `update_one({"slug": ...}, {"$set": post})`: the first post with the slug becomes `p`
      (every field is set). */
  function ReplaceFirst(posts: seq<BlogPost>, p: BlogPost): (r: seq<BlogPost>)
    ensures |r| == |posts|
  {
    if posts == [] then []
    else if posts[0].slug == p.slug then [p] + posts[1..]
    else [posts[0]] + ReplaceFirst(posts[1..], p)
  }

  /** The upsert of the daily post: replace the post with the same slug, else append. */
  function Upsert(posts: seq<BlogPost>, p: BlogPost): seq<BlogPost>
  {
    if HasSlug(posts, p.slug) then ReplaceFirst(posts, p) else posts + [p]
  }

  /** Replacing keeps every position's slug, and the first post with the slug becomes `p`
      while every other post stays. */
  lemma {:induction false} ReplaceFirstFacts(posts: seq<BlogPost>, p: BlogPost)
    ensures forall k :: 0 <= k < |posts| ==> ReplaceFirst(posts, p)[k].slug == posts[k].slug
    ensures forall k :: 0 <= k < |posts| ==>
      ReplaceFirst(posts, p)[k] == posts[k] || ReplaceFirst(posts, p)[k] == p
    ensures HasSlug(posts, p.slug) ==> p in ReplaceFirst(posts, p)
  {
    if posts != [] && posts[0].slug != p.slug {
      ReplaceFirstFacts(posts[1..], p);
      var r := ReplaceFirst(posts, p);
      assert r == [posts[0]] + ReplaceFirst(posts[1..], p);
      if HasSlug(posts, p.slug) {
        var i :| 0 <= i < |posts| && posts[i].slug == p.slug;
        assert posts[1..][i - 1].slug == p.slug;
      }
    }
  }

  /** With slugs unique before, after the upsert slugs are still unique and exactly one post
      carries the slug: the new one. Other posts are kept. */
  lemma UpsertFacts(posts: seq<BlogPost>, p: BlogPost)
    requires UniqueSlugs(posts)
    ensures UniqueSlugs(Upsert(posts, p))
    ensures p in Upsert(posts, p)
    ensures forall q :: q in Upsert(posts, p) && q.slug == p.slug ==> q == p
    ensures forall q :: q in posts && q.slug != p.slug ==> q in Upsert(posts, p)
    ensures |Upsert(posts, p)| == |posts| + (if HasSlug(posts, p.slug) then 0 else 1)
  {
    var r := Upsert(posts, p);
    if HasSlug(posts, p.slug) {
      ReplaceFirstFacts(posts, p);
      var j :| 0 <= j < |r| && r[j] == p;
      forall q | q in r && q.slug == p.slug ensures q == p {
        var k :| 0 <= k < |r| && r[k] == q;
        assert posts[k].slug == p.slug && posts[j].slug == p.slug;
        assert k == j;
      }
      forall q | q in posts && q.slug != p.slug ensures q in r {
        var k :| 0 <= k < |posts| && posts[k] == q;
        assert r[k] == q;
      }
    } else {
      forall i, j | 0 <= i < j < |r| ensures r[i].slug != r[j].slug {
        if j == |posts| {
          assert r[i] == posts[i];
        } else {
          assert r[i] == posts[i] && r[j] == posts[j];
        }
      }
      assert r[|posts|] == p;
    }
  }

  /** Upserting the same post twice is the same as once. */
  lemma {:induction false} UpsertIdempotent(posts: seq<BlogPost>, p: BlogPost)
    ensures Upsert(Upsert(posts, p), p) == Upsert(posts, p)
  {
    var r := Upsert(posts, p);
    assert HasSlug(r, p.slug) by {
      if HasSlug(posts, p.slug) {
        ReplaceFirstFacts(posts, p);
        var k :| 0 <= k < |r| && r[k] == p;
      } else {
        assert r[|posts|] == p;
      }
    }
    ReplaceFirstTwice(posts, p);
    if !HasSlug(posts, p.slug) {
      ReplaceFirstAppended(posts, p);
    }
  }

  lemma {:induction false} ReplaceFirstTwice(posts: seq<BlogPost>, p: BlogPost)
    ensures ReplaceFirst(ReplaceFirst(posts, p), p) == ReplaceFirst(posts, p)
  {
    if posts != [] && posts[0].slug != p.slug {
      ReplaceFirstTwice(posts[1..], p);
    }
  }

  lemma {:induction false} ReplaceFirstAppended(posts: seq<BlogPost>, p: BlogPost)
    requires !HasSlug(posts, p.slug)
    ensures ReplaceFirst(posts + [p], p) == posts + [p]
  {
    if posts != [] {
      assert posts[0].slug != p.slug;
      assert !HasSlug(posts[1..], p.slug) by {
        forall i | 0 <= i < |posts[1..]| ensures posts[1..][i].slug != p.slug {
          assert posts[1..][i] == posts[i + 1];
        }
      }
      ReplaceFirstAppended(posts[1..], p);
      assert (posts + [p])[1..] == posts[1..] + [p];
    }
  }

  /** The milestone post's `fmt`: `.0f` rounding (half to even) and no K tier. */
  function MilestoneFmt(num: int): (r: string)
    ensures num < Million ==> r == IntToString(num)
  {
    if num >= Billion then IntToString(RoundHalfEven(num as real / Billion as real)) + "B"
    else if num >= Million then IntToString(RoundHalfEven(num as real / Million as real)) + "M"
    else IntToString(num)
  }

  /** Just under a billion rounds up inside the M tier: "1000M", not "1B". */
  lemma MilestoneFmtRoundsToThousandM()
    ensures MilestoneFmt(999_999_999) == "1000M"
  {
    assert RoundHalfEven(999_999_999 as real / Million as real) == 1000;
    assert NatToString(1000) == "1000" by {
      assert NatToString(1) == "1";
      assert NatToString(10) == NatToString(1) + "0";
      assert NatToString(100) == NatToString(10) + "0";
    }
  }

  /** The milestone slug: the title lower-cased with spaces turned into dashes, the milestone,
      "subscribers" and the compact date. */
  function MilestoneSlug(title: string, milestone: int, today: Date): (r: string)
    requires ValidDate(today)
    ensures |r| == |title| + |MilestoneFmt(milestone)| + 22
    ensures r[|r| - 8..] == CompactDate(today)
    ensures r[..|title|] == ReplaceChar(Lower(title), ' ', '-')
    ensures forall i :: 0 <= i < |title| ==> r[i] != ' ' && !IsUpperAscii(r[i])
  {
    ReplaceChar(Lower(title), ' ', '-') + "-" + Lower(MilestoneFmt(milestone)) + "-subscribers-" + CompactDate(today)
  }

  function MilestoneTitle(title: string, milestone: int): string
  {
    title + " Hits " + MilestoneFmt(milestone) + " Subscribers!"
  }

  const DailyExcerptLead: string :=
    "Daily update on the most subscribed YouTube channels. See who's leading the global rankings and which channels are growing fastest on "

  /** The daily post for `today`, with `content` as its body. */
  function DailyPost(id: string, today: Date, now: Time, content: DailyContent): (p: BlogPost)
    requires ValidDate(today)
    ensures p.slug == DailySlug(today) && p.title == DailyTitle(today)
    ensures p.category == "Daily Rankings" && p.author == "TopTube Editorial"
  {
    BlogPost(id, DailyTitle(today), DailySlug(today), Daily(content),
      DailyExcerptLead + LongDate(today) + ".",
      "Daily Rankings", "TopTube Editorial", now, now, now, DailyTags(today))
  }

  /** The blog service over the channels it reads and the `blog_posts` collection it writes.
      The post identifier (`uuid4`) and the clock are parameters. */
  class BlogService {
    const db: Database
    var posts: seq<BlogPost>

    constructor (db: Database)
      ensures this.db == db && posts == []
    {
      this.db := db;
      posts := [];
    }

    /** `generate_daily_ranking_post`: the queries, the content, and the upsert by slug. With
        no active channel the content fails and nothing is written. */
    method GenerateDailyRankingPost(today: Date, now: Time, id: string, intro: nat, closing: nat)
      returns (r: Result<BlogPost, string>)
      requires ValidDate(today) && intro < 4 && closing < 4
      modifies this`posts
      ensures r.Err? <==> Active(db.channels) == []
      ensures r.Err? ==> posts == old(posts)
      ensures r.Ok? ==>
        r.value.slug == DailySlug(today) && r.value.body.Daily? &&
        r.value.body.daily.topRows == TopRows(Take(SortDesc(Active(db.channels), Subs), 10)) &&
        posts == Upsert(old(posts), r.value)
      ensures r.Ok? ==>
        var active := Active(db.channels);
        var top := Take(SortDesc(active, Subs), 10);
        top != [] &&
        r.value == DailyPost(id, today, now, ContentOf(intro, LongDate(today), top,
          Take(SortDesc(Growing(db.channels), Gain), 5), |active|, SumSubs(active), CountryStats(active), closing))
      ensures UniqueSlugs(old(posts)) ==> UniqueSlugs(posts)
    {
      var active := Active(db.channels);
      var top := Take(SortDesc(active, Subs), 10);
      var fastest := Take(SortDesc(Growing(db.channels), Gain), 5);
      var stats := CountryStats(active);
      var date := LongDate(today);
      var content := GeneratePostContent(intro, date, top, fastest, |active|, SumSubs(active), stats, closing);
      if content.Err? {
        assert top == [];
        return Err(content.error);
      }
      var post := DailyPost(id, today, now, content.value);
      if UniqueSlugs(posts) {
        UpsertFacts(posts, post);
      }
      posts := Upsert(posts, post);
      r := Ok(post);
    }

    /** `generate_milestone_post`: always inserts, so a second milestone post for the same
        channel, milestone and day repeats the slug. */
    method GenerateMilestonePost(channel: Channel, milestone: int, today: Date, now: Time, id: string)
      returns (p: BlogPost)
      requires ValidDate(today)
      modifies this`posts
      ensures p.slug == MilestoneSlug(channel.title, milestone, today)
      ensures p.title == MilestoneTitle(channel.title, milestone)
      ensures posts == old(posts) + [p]
    {
      var amount := MilestoneFmt(milestone);
      p := BlogPost(id, MilestoneTitle(channel.title, milestone), MilestoneSlug(channel.title, milestone, today),
        MilestoneNews(channel.title, amount, channel.countryName),
        channel.title + " has reached " + amount + " subscribers on YouTube!",
        "Milestones", "TopTube Bot", now, now, now,
        ["milestone", Lower(channel.title), Lower(amount) + " subscribers"]);
      posts := posts + [p];
    }
  }
}
