/** The helpers `frontend/src/App.js` defines for itself rather than importing: its own rank
    change and viral badge, the leaderboard's rank defaults, the JSON-LD builders of the
    country and channel pages, the world map's lookup, and its own `useSEO`. Its
    `formatNumber` and `formatDate` are those of the `Format` module. */
module AppHelpers {
  import opened Wrappers
  import opened Site
  import opened Format
  import opened Head
  import Badges
  import Growth

  /** What App's `RankChange` renders: an up arrow with the gain, a down arrow with the loss,
      or a dash. */
  datatype RankShown = Gain(n: nat) | Loss(n: nat) | Dash

  /** `RankChange` of `App.js`: `change = previous - current`, up when positive, down with
      its absolute value when negative, a dash when zero. */
  function RankChange(current: int, previous: int): (r: RankShown)
    ensures r.Gain? <==> current < previous
    ensures r.Loss? <==> previous < current
    ensures r.Dash? <==> current == previous
    ensures r.Gain? ==> r.n == previous - current
    ensures r.Loss? ==> r.n == current - previous
  {
    var change := previous - current;
    if change > 0 then Gain(change)
    else if change < 0 then Loss(-change)
    else Dash
  }

  /** On numeric ranks with a non-zero previous rank, App's rank change and the shared
      component's agree: a dash exactly when the shared one renders nothing, and otherwise the
      same direction and distance. */
  lemma RankChangeAgrees(current: int, previous: int)
    requires previous != 0
    ensures var a, b := RankChange(current, previous), Badges.RankChange(Num(current), Num(previous));
      && (a.Dash? <==> b.None?)
      && (a.Gain? <==> b.Some? && b.value.arrow == Badges.Up)
      && (a.Loss? <==> b.Some? && b.value.arrow == Badges.Down)
      && (b.Some? ==> b.value.magnitude == Some(if a.Gain? then a.n else if a.Loss? then a.n else 0))
  {
  }

  /** A leaderboard row's rank: `rank || idx + 1`, so a missing, null, NaN or zero rank is
      the row's position. */
  function RowRank(rank: JsNumber, idx: nat): (r: int)
    ensures Falsy(rank) ==> r == idx + 1
    ensures !Falsy(rank) ==> r == rank.n && r != 0
  {
    if Falsy(rank) then idx + 1 else rank.n
  }

  /** The rank change of the row at `idx`. */
  function RowChange(currentRank: JsNumber, previousRank: JsNumber, idx: nat): RankShown
  {
    RankChange(RowRank(currentRank, idx), RowRank(previousRank, idx))
  }

  /** A row with neither rank shows a dash; a row with only a current rank is compared with
      its position, so it shows a change unless the rank equals the position. */
  lemma RowDefaults(currentRank: JsNumber, previousRank: JsNumber, idx: nat)
    ensures Falsy(currentRank) && Falsy(previousRank) ==> RowChange(currentRank, previousRank, idx) == Dash
    ensures !Falsy(currentRank) && Falsy(previousRank) ==>
      (RowChange(currentRank, previousRank, idx) == Dash <==> currentRank.n == idx + 1)
  {
  }

  /** App's `styles` table, with the backend's "Rising Fast" in it. */
  function StyleOf(name: string): (r: Option<Badges.Tone>)
    ensures r.Some? <==> name in {"Exploding", "Rising Fast", "Stable", "Slowing"}
  {
    if name == "Exploding" then Some(Badges.Red)
    else if name == "Rising Fast" then Some(Badges.Green)
    else if name == "Stable" then Some(Badges.Blue)
    else if name == "Slowing" then Some(Badges.Yellow)
    else None
  }

  /** App's `icons` table, over the same four labels. */
  function IconOf(name: string): (r: Option<Badges.Icon>)
    ensures r.Some? <==> StyleOf(name).Some?
  {
    if name == "Exploding" then Some(Badges.Flame)
    else if name == "Rising Fast" then Some(Badges.TrendingUp)
    else if name == "Stable" then Some(Badges.Minus)
    else if name == "Slowing" then Some(Badges.TrendingDown)
    else None
  }

  /** App's `ViralBadge` always renders: a missing or unknown label gets the Stable style and no
      icon, and a falsy label shows the text "Stable". */
  function ViralBadge(viralLabel: Option<string>): (r: Badges.BadgeView)
    ensures FalsyText(viralLabel) ==> r == Badges.BadgeView(Badges.Blue, None, "Stable")
    ensures !FalsyText(viralLabel) ==> r.text == viralLabel.value
    ensures !FalsyText(viralLabel) && StyleOf(viralLabel.value).None? ==> r.tone == Badges.Blue && r.icon.None?
    ensures !FalsyText(viralLabel) && StyleOf(viralLabel.value).Some? ==> r.tone == StyleOf(viralLabel.value).value && r.icon.Some?
  {
    var name := viralLabel.GetOr("");
    Badges.BadgeView(StyleOf(name).GetOr(Badges.Blue), IconOf(name), if name == "" then "Stable" else name)
  }

  /** Every label the growth analyzer produces except "Unknown" gets its own style and icon
      here; "Rising Fast" is green with a rising icon, where the shared component shows it
      blue without an icon. */
  lemma BackendLabelsStyled(l: Growth.Label)
    ensures ViralBadge(Some(l.Name())).icon.Some? <==> l != Growth.Unknown
    ensures l == Growth.RisingFast ==>
      && ViralBadge(Some(l.Name())) == Badges.BadgeView(Badges.Green, Some(Badges.TrendingUp), "Rising Fast")
      && Badges.ViralBadge(Some(l.Name())) == Some(Badges.BadgeView(Badges.Blue, None, "Rising Fast"))
  {
  }

  /** A country as the country page receives it. */
  datatype Country = Country(name: string, code: string)

  /** A channel as the country page lists it. */
  datatype ListedChannel = ListedChannel(channelId: string, title: string, thumbnailUrl: string, subscriberCount: JsNumber)

  /** One `ListItem` of the country page's `ItemList`: an `Organization` with the channel's
      name, its YouTube URL, its formatted subscriber count and its image. */
  datatype RankedItem = RankedItem(position: nat, name: string, url: string, subscribers: Shown, image: string)

  /** The country page's `ItemList` (its prose description is not modelled). */
  datatype ItemList = ItemList(name: string, url: string, numberOfItems: nat, items: seq<RankedItem>)

  const YouTubeChannelUrl: string := "https://youtube.com/channel/"

  const ListedTop: nat := 10

  function RankedItems(cs: seq<ListedChannel>): (r: seq<RankedItem>)
    ensures |r| == |cs|
    ensures forall i :: 0 <= i < |r| ==>
      r[i] == RankedItem(i + 1, cs[i].title, YouTubeChannelUrl + cs[i].channelId, FormatNumber(cs[i].subscriberCount), cs[i].thumbnailUrl)
  {
    if cs == [] then []
    else
      var i := |cs| - 1;
      RankedItems(cs[..i]) + [RankedItem(i + 1, cs[i].title, YouTubeChannelUrl + cs[i].channelId, FormatNumber(cs[i].subscriberCount), cs[i].thumbnailUrl)]
  }

  /** `CountrySEO`'s schema: none without a country; otherwise the page URL, the number of
      channels (0 when they are missing) and the first ten channels, ranked from 1. */
  function CountrySchema(country: Option<Country>, channels: Option<seq<ListedChannel>>): (r: Option<ItemList>)
    ensures r.None? <==> country.None?
    ensures r.Some? ==>
      && r.value.name == "Top YouTube Channels in " + country.value.name
      && r.value.url == SiteUrl + "/country/" + country.value.code
      && r.value.numberOfItems == |channels.GetOr([])|
      && |r.value.items| == (if |channels.GetOr([])| < ListedTop then |channels.GetOr([])| else ListedTop)
      && (forall i :: 0 <= i < |r.value.items| ==>
           r.value.items[i].position == i + 1 && r.value.items[i].name == channels.value[i].title)
      && r.value.items == RankedItems(channels.GetOr([])[..|r.value.items|])
  {
    if country.None? then None
    else
      var cs := channels.GetOr([]);
      var top := if |cs| < ListedTop then cs else cs[..ListedTop];
      Some(ItemList("Top YouTube Channels in " + country.value.name,
                    SiteUrl + "/country/" + country.value.code,
                    |cs|,
                    RankedItems(top)))
  }

  /** A channel as the channel page receives it; the viral score is a real number. */
  datatype ChannelInfo = ChannelInfo(
    channelId: string,
    title: string,
    description: Option<string>,
    countryName: Option<string>,
    thumbnailUrl: string,
    viralScore: Option<real>,
    subscriberCount: int)

  /** The channel page's `Organization` schema (the interaction counters, which copy the
      counts, are not modelled). */
  datatype Organization = Organization(name: string, url: string, description: string, image: string,
                                       ratingValue: real, ratingCount: int)

  const DescriptionLimit: nat := 500

  /** `Math.min(5, Math.max(1, (viral_score || 50) / 20))`. */
  function Rating(viralScore: Option<real>): (r: real)
    ensures 1.0 <= r <= 5.0
    ensures viralScore.None? || viralScore.value == 0.0 ==> r == 2.5
    ensures viralScore.Some? && 20.0 <= viralScore.value <= 100.0 ==> r == viralScore.value / 20.0
  {
    var score := if viralScore.None? || viralScore.value == 0.0 then 50.0 else viralScore.value;
    var scaled := score / 20.0;
    if scaled < 1.0 then 1.0 else if scaled > 5.0 then 5.0 else scaled
  }

  /** `channel.description?.substring(0, 500) || fallback`. */
  function SchemaDescription(description: Option<string>, countryName: Option<string>): (r: string)
    ensures FalsyText(description) ==> r == "YouTube channel from " + JsText(countryName)
    ensures !FalsyText(description) ==> r != "" && |r| <= DescriptionLimit && r <= description.value
    ensures !FalsyText(description) && |description.value| <= DescriptionLimit ==> r == description.value
  {
    if FalsyText(description) then "YouTube channel from " + JsText(countryName)
    else if |description.value| <= DescriptionLimit then description.value
    else description.value[..DescriptionLimit]
  }

  /** `ChannelSEO`'s schema: none without a channel; the rating is always between 1 and 5,
      and the rating count is the subscriber count, or 1 when that is zero. */
  function ChannelSchema(channel: Option<ChannelInfo>): (r: Option<Organization>)
    ensures r.None? <==> channel.None?
    ensures r.Some? ==>
      && r.value.name == channel.value.title
      && r.value.url == YouTubeChannelUrl + channel.value.channelId
      && r.value.ratingValue == Rating(channel.value.viralScore)
      && 1.0 <= r.value.ratingValue <= 5.0
      && r.value.ratingCount != 0
      && (channel.value.subscriberCount != 0 ==> r.value.ratingCount == channel.value.subscriberCount)
      && r.value.description == SchemaDescription(channel.value.description, channel.value.countryName)
  {
    if channel.None? then None
    else
      var c := channel.value;
      Some(Organization(c.title, YouTubeChannelUrl + c.channelId,
                        SchemaDescription(c.description, c.countryName), c.thumbnailUrl,
                        Rating(c.viralScore), if c.subscriberCount == 0 then 1 else c.subscriberCount))
  }

  /** An entry of the map data. */
  datatype MapItem = MapItem(countryCode: string, channelCount: nat)

  /** The lookup `forEach` builds: each entry stored under its code, a later entry replacing an
      earlier one with the same code. */
  function Lookup(items: seq<MapItem>): (m: map<string, MapItem>)
    ensures forall k :: k in m ==> m[k].countryCode == k
  {
    if items == [] then map[]
    else
      var last := items[|items| - 1];
      Lookup(items[..|items| - 1])[last.countryCode := last]
  }

  /** A code is in the lookup exactly when some entry has it, and it holds the last such
      entry. */
  lemma LookupLastWins(items: seq<MapItem>, code: string)
    ensures code in Lookup(items) <==> exists i :: 0 <= i < |items| && items[i].countryCode == code
    ensures code in Lookup(items) ==>
      exists i :: 0 <= i < |items| && items[i] == Lookup(items)[code] && forall j :: i < j < |items| ==> items[j].countryCode != code
  {
    LookupDomain(items, code);
    if code in Lookup(items) {
      LookupLast(items, code);
    }
  }

  /** The lookup's keys are exactly the codes of the entries. */
  lemma {:induction false} LookupDomain(items: seq<MapItem>, code: string)
    ensures code in Lookup(items) <==> exists i :: 0 <= i < |items| && items[i].countryCode == code
  {
    if items != [] {
      var n := |items| - 1;
      LookupDomain(items[..n], code);
      if code in Lookup(items[..n]) {
        var i :| 0 <= i < n && items[..n][i].countryCode == code;
        assert items[i].countryCode == code;
      }
      if exists i :: 0 <= i < |items| && items[i].countryCode == code {
        var i :| 0 <= i < |items| && items[i].countryCode == code;
        if i < n {
          assert items[..n][i].countryCode == code;
        }
      }
    }
  }

  /** The entry stored under a code is the last entry with that code. */
  lemma {:induction false} LookupLast(items: seq<MapItem>, code: string)
    requires code in Lookup(items)
    ensures exists i :: 0 <= i < |items| && items[i] == Lookup(items)[code] && forall j :: i < j < |items| ==> items[j].countryCode != code
  {
    assert items != [];
    var n := |items| - 1;
    if items[n].countryCode == code {
      assert items[n] == Lookup(items)[code];
    } else {
      LookupLast(items[..n], code);
      var i :| 0 <= i < n && items[..n][i] == Lookup(items[..n])[code]
        && forall j :: i < j < n ==> items[..n][j].countryCode != code;
      assert items[i] == Lookup(items)[code];
      forall j | i < j < |items|
        ensures items[j].countryCode != code
      {
        if j < n {
          assert items[..n][j] == items[j];
        }
      }
    }
  }

  /** `mapData?.forEach(item => { countryDataMap[item.country_code] = item; })`. */
  method BuildLookup(mapData: Option<seq<MapItem>>) returns (m: map<string, MapItem>)
    ensures m == Lookup(mapData.GetOr([]))
  {
    m := map[];
    if mapData.None? {
      return;
    }
    var items := mapData.value;
    var i := 0;
    while i < |items|
      invariant 0 <= i <= |items|
      invariant m == Lookup(items[..i])
    {
      assert items[..i + 1][..i] == items[..i];
      m := m[items[i].countryCode := items[i]];
      i := i + 1;
    }
    assert items[..|items|] == items;
  }

  /** A click on a country navigates (to the code returned) only when the lookup has it. */
  function Click(m: map<string, MapItem>, code: string): (r: Option<string>)
    ensures r.Some? <==> code in m
    ensures r.Some? ==> r.value == code
  {
    if code in m then Some(code) else None
  }

  /** The meta and link updates of App's own `useSEO`, in call order. */
  const AppKeys: seq<Key> := [Description, OgDescription, TwitterDescription, Keywords, OgTitle, TwitterTitle,
    OgType, OgUrl, Canonical, OgImage, TwitterImage, OgSiteName]

  lemma AppKeysDistinct()
    ensures DistinctKeys(AppKeys)
  {
  }

  /** The calls of App's `useSEO`, each enabled by its guard; `ogType` defaults to "website"
      and there is no twitter:card. */
  function AppUpdates(a: SeoArgs): (r: seq<Update>)
    ensures |r| == |AppKeys| && forall i :: 0 <= i < |r| ==> r[i].target == AppKeys[i]
  {
    var description, title, canonical, image := a.description.GetOr(""), a.title.GetOr(""), a.canonical.GetOr(""), a.ogImage.GetOr("");
    var ogType := a.ogType.GetOr("website");
    [ Update(Truthy(a.description), Description, description),
      Update(Truthy(a.description), OgDescription, description),
      Update(Truthy(a.description), TwitterDescription, description),
      Update(Truthy(a.keywords), Keywords, a.keywords.GetOr("")),
      Update(Truthy(a.title), OgTitle, title),
      Update(Truthy(a.title), TwitterTitle, title),
      Update(ogType != "", OgType, ogType),
      Update(Truthy(a.canonical), OgUrl, canonical),
      Update(Truthy(a.canonical), Canonical, canonical),
      Update(Truthy(a.ogImage), OgImage, image),
      Update(Truthy(a.ogImage), TwitterImage, image),
      Update(true, OgSiteName, SiteName) ]
  }

  /** After App's hook the site name is always written, the title tags carry a truthy title,
      and a falsy title leaves them as they were. */
  lemma AppTitleWrites(h: seq<Element>, a: SeoArgs)
    ensures var r := Apply(h, AppUpdates(a));
      && Current(r, OgSiteName) == Some(SiteName)
      && (Truthy(a.title) ==> Current(r, OgTitle) == Some(a.title.value) && Current(r, TwitterTitle) == Some(a.title.value))
      && (!Truthy(a.title) ==> Current(r, OgTitle) == Current(h, OgTitle) && Current(r, TwitterTitle) == Current(h, TwitterTitle))
  {
    var us := AppUpdates(a);
    AppKeysDistinct();
    DistinctFromKeys(us, AppKeys);
    ApplySets(h, us);
    assert us[11] == Update(true, OgSiteName, SiteName);
    assert us[4].enabled == us[5].enabled == Truthy(a.title);
    if !Truthy(a.title) {
      KeyUntouched(h, us, AppKeys, 4);
      KeyUntouched(h, us, AppKeys, 5);
    }
  }

  /** Running App's hook again with the same arguments changes nothing. */
  lemma AppIdempotent(h: seq<Element>, a: SeoArgs)
    ensures Apply(Apply(h, AppUpdates(a)), AppUpdates(a)) == Apply(h, AppUpdates(a))
  {
    AppKeysDistinct();
    DistinctFromKeys(AppUpdates(a), AppKeys);
    ApplyIdempotent(h, AppUpdates(a));
  }

  /** App's `useSEO` effect: the document title only when the title is truthy, then the
      updates. */
  method UseAppSeo(d: DocumentHead, a: SeoArgs)
    modifies d
    ensures d.title == if Truthy(a.title) then a.title.value else old(d.title)
    ensures d.elements == Apply(old(d.elements), AppUpdates(a))
  {
    if Truthy(a.title) {
      d.title := a.title.value;
    }
    d.UpsertAll(AppUpdates(a));
  }
}
