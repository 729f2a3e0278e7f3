/** The request handlers of `backend/server.py` that read and write the collections: country
    creation and detail, the channel list, adding, refreshing and deleting a channel, the
    global leaderboard, the world-map data, the admin counters and the initial seed. Each
    handler is a method of `Router` over the shared `Database`; an `HTTPException` is an
    `Err(HttpError(status, detail))`. */
module Server {
  import opened Wrappers
  import opened Store
  import opened Sorting
  import opened Text
  import opened Ranking
  import opened YouTube
  import Scheduler

  /** `Query(le=500)` on the list endpoints: a larger value is refused with 422. */
  const MaxLimit: int := 500
  /** `to_list(100)` in `get_country`. */
  const CountryChannelCap: nat := 100
  /** `.limit(10)` on a country's recent rank changes. */
  const RecentChangeCap: nat := 10
  /** `to_list(300)` on countries. */
  const CountryListCap: nat := 300

  datatype HttpError = HttpError(status: int, detail: string)

  /** The detail of the `HTTPException(404, "YouTube channel not found")` raised inside the
      `try` of `add_channel` and `refresh_channel`: the generic handler turns it into a 400
      whose detail is the exception's string form. */
  const YouTubeNotFound: string := "404: YouTube channel not found"

  /** The unique index on `countries.code`. */
  predicate UniqueCodes(cs: seq<Country>)
  {
    forall i, j :: 0 <= i < j < |cs| ==> cs[i].code != cs[j].code
  }

  /** `create_country`'s document. */
  function NewCountry(code: string, name: string, flagEmoji: string, region: string, now: Time): (c: Country)
    ensures c.code == Upper(code)
    ensures forall i :: 0 <= i < |c.code| ==> !IsLowerAscii(c.code[i])
  {
    Country(Upper(code), name, flagEmoji, region, now)
  }

  /** The document `add_channel` and the seed insert for a channel fetched from YouTube. */
  function NewChannel(id: string, d: ChannelData, code: string, countryName: string, now: Time): (c: Channel)
    ensures c.channelId == id && c.countryCode == code && c.isActive
    ensures c.subscriberCount == d.subscriberCount
    ensures c.currentRank == Some(0) && c.previousRank == Some(0)
    ensures c.dailyGain == 0 && c.viralLabel == Some("Stable")
  {
    Channel(id, d.title, d.description, d.customUrl, code, countryName, d.thumbnailUrl,
            d.subscriberCount, d.viewCount, d.videoCount, d.publishedAt,
            Some(0), Some(0), None, 0, 0.0, None, 0.0, None, 0.0, 0.0, Some("Stable"), None,
            true, now, now)
  }

  /** `store_channel_stats`: a snapshot of the fetched counts for `id`. */
  function StatsDoc(id: string, d: ChannelData, now: Time): Snapshot
  {
    Snapshot(id, d.subscriberCount, d.viewCount, d.videoCount, now)
  }

  /** A channel added by `add_channel` or the seed logs a rank change the first time it is
      ranked, wherever it lands: it is stored with rank 0 and positions start at 1. */
  lemma NewChannelFirstRankingMoves(ranked: seq<Channel>, j: nat, id: string, d: ChannelData,
                                    code: string, countryName: string, now: Time, t: Time)
    requires j < |ranked| && ranked[j] == NewChannel(id, d, code, countryName, now)
    ensures ChangeAt(ranked, j, t) in ChangesOf(ranked, |ranked|, t)
    ensures ChangeAt(ranked, j, t).oldRank == 0
  {
    FreshChannelLogsChange(ranked, j, t);
  }

  /** The channels `get_all_channels` filters on: active, and of the country when one is given
      (an empty `country_code` is falsy and filters nothing). */
  function Matching(chs: seq<Channel>, countryCode: string): (r: seq<Channel>)
    ensures forall c :: c in r <==> c in chs && c.isActive && (countryCode != [] ==> c.countryCode == Upper(countryCode))
  {
    if countryCode == [] then Active(chs) else ActiveIn(chs, Upper(countryCode))
  }

  /** Mongo's `skip(n)`. */
  function Drop<T>(s: seq<T>, n: nat): (r: seq<T>)
    ensures |r| == if n < |s| then |s| - n else 0
    ensures forall i :: 0 <= i < |r| ==> r[i] == s[n + i]
  {
    if n < |s| then s[n..] else []
  }

  /** One page of a sorted list. */
  function Page<T>(s: seq<T>, skip: nat, limit: nat): seq<T>
  {
    Take(Drop(s, skip), limit)
  }

  /** Consecutive pages join into the page that spans both: paging neither loses nor repeats
      an element. */
  lemma PagesJoin<T>(s: seq<T>, skip: nat, n: nat, m: nat)
    ensures Page(s, skip, n) + Page(s, skip + n, m) == Page(s, skip, n + m)
  {
    var a, b, c := Page(s, skip, n), Page(s, skip + n, m), Page(s, skip, n + m);
    assert |a + b| == |c|;
    forall i | 0 <= i < |c| ensures (a + b)[i] == c[i] {
      if i >= |a| {
        assert (a + b)[i] == b[i - |a|] == s[skip + n + (i - |a|)];
      }
    }
  }

  /** A page of a sorted list is sorted and holds only elements of the list. */
  lemma PageOfSorted<T>(s: seq<T>, skip: nat, limit: nat, key: T -> int)
    requires NonIncreasing(s, key)
    ensures NonIncreasing(Page(s, skip, limit), key)
    ensures forall x :: x in Page(s, skip, limit) ==> x in s
  {
    var p := Page(s, skip, limit);
    forall i, j | 0 <= i < j < |p| ensures key(p[i]) >= key(p[j]) {
      assert p[i] == s[skip + i] && p[j] == s[skip + j];
    }
    forall x | x in p ensures x in s {
      var i :| 0 <= i < |p| && p[i] == x;
      assert x == Drop(s, skip)[i] == s[skip + i];
    }
  }

  datatype ChannelPage = ChannelPage(channels: seq<Channel>, total: nat, limit: int, skip: nat)

  /** The rank-history rows of a country, as `{"country_code": code}` selects them. */
  function HistoryIn(hs: seq<RankEntry>, code: string): (r: seq<RankEntry>)
    ensures forall h :: h in r <==> h in hs && h.countryCode == Some(code)
  {
    if hs == [] then []
    else if hs[0].countryCode == Some(code) then [hs[0]] + HistoryIn(hs[1..], code)
    else HistoryIn(hs[1..], code)
  }

  function EntryTime(h: RankEntry): int { h.timestamp }

  datatype CountryDetail = CountryDetail(
    country: Country,
    channels: seq<RankedChannel>,
    recentChanges: seq<RankEntry>)

  datatype Leaderboard = Leaderboard(channels: seq<RankedChannel>, total: nat)

  /** `find_one(..., sort=[("subscriber_count", -1)])` on a country's active channels. */
  function TopChannel(chs: seq<Channel>, code: string): Option<Channel>
  {
    var active := ActiveIn(chs, code);
    if active == [] then None else Some(SortDesc(active, Subs)[0])
  }

  /** A country has a top channel exactly when it has an active channel, and no active
      channel of the country has more subscribers than it. */
  lemma TopChannelIsTop(chs: seq<Channel>, code: string)
    ensures TopChannel(chs, code).Some? <==> exists c :: c in chs && InCountry(c, code)
    ensures TopChannel(chs, code).Some? ==>
      var top := TopChannel(chs, code).value;
      top in chs && InCountry(top, code) &&
      forall c :: c in chs && InCountry(c, code) ==> c.subscriberCount <= top.subscriberCount
  {
    var active := ActiveIn(chs, code);
    if active == [] {
      assert forall c :: c in chs && InCountry(c, code) ==> c in active;
    } else {
      var sorted := SortDesc(active, Subs);
      SortDescMembers(active, Subs);
      assert active[0] in sorted;
      forall c | c in chs && InCountry(c, code) ensures c.subscriberCount <= sorted[0].subscriberCount {
        var i :| 0 <= i < |sorted| && sorted[i] == c;
        assert i == 0 || Subs(sorted[0]) >= Subs(sorted[i]);
      }
    }
  }

  /** One entry of `map_data`; a channel without a label shows "Stable". */
  datatype MapEntry = MapEntry(
    countryCode: string,
    countryName: string,
    flagEmoji: string,
    channelId: string,
    title: string,
    thumbnailUrl: string,
    subscriberCount: int,
    viralLabel: string)

  function MapEntryFor(country: Country, top: Channel): MapEntry
  {
    MapEntry(country.code, country.name, country.flagEmoji, top.channelId, top.title,
             top.thumbnailUrl, top.subscriberCount, top.viralLabel.GetOr("Stable"))
  }

  /** The map entries for `cs`, in order, one per country that has an active channel. */
  function MapEntries(cs: seq<Country>, chs: seq<Channel>): (r: seq<MapEntry>)
    ensures |r| <= |cs|
  {
    if cs == [] then []
    else
      var prev := MapEntries(cs[..|cs| - 1], chs);
      var c := cs[|cs| - 1];
      match TopChannel(chs, c.code)
      case Some(top) => prev + [MapEntryFor(c, top)]
      case None => prev
  }

  /** One more country adds its entry to the map when it has a top channel. */
  lemma MapEntriesStep(cs: seq<Country>, chs: seq<Channel>, i: nat)
    requires i < |cs|
    ensures TopChannel(chs, cs[i].code).Some? ==>
      MapEntries(cs[..i + 1], chs) == MapEntries(cs[..i], chs) + [MapEntryFor(cs[i], TopChannel(chs, cs[i].code).value)]
    ensures TopChannel(chs, cs[i].code).None? ==> MapEntries(cs[..i + 1], chs) == MapEntries(cs[..i], chs)
  {
    assert cs[..i + 1][..i] == cs[..i];
  }

  /** A country with an active channel is on the map, with its top channel. */
  lemma MapEntriesComplete(cs: seq<Country>, chs: seq<Channel>)
    ensures forall c :: c in cs && TopChannel(chs, c.code).Some? ==>
      MapEntryFor(c, TopChannel(chs, c.code).value) in MapEntries(cs, chs)
  {
    forall c | c in cs && TopChannel(chs, c.code).Some?
      ensures MapEntryFor(c, TopChannel(chs, c.code).value) in MapEntries(cs, chs)
    {
      var i :| 0 <= i < |cs| && cs[i] == c;
      MapEntryAt(cs, chs, i);
    }
  }

  /** The country at index `i`, when it has an active channel, has its entry on the map. */
  lemma {:induction false} MapEntryAt(cs: seq<Country>, chs: seq<Channel>, i: nat)
    requires i < |cs| && TopChannel(chs, cs[i].code).Some?
    ensures MapEntryFor(cs[i], TopChannel(chs, cs[i].code).value) in MapEntries(cs, chs)
    decreases |cs|
  {
    var front := cs[..|cs| - 1];
    if i < |cs| - 1 {
      MapEntryAt(front, chs, i);
      assert front[i] == cs[i];
    }
  }

  /** Nothing else is on the map: every entry is a country's top channel. */
  lemma {:induction false} MapEntriesSound(cs: seq<Country>, chs: seq<Channel>)
    ensures forall e :: e in MapEntries(cs, chs) ==>
      exists c :: c in cs && TopChannel(chs, c.code).Some? && e == MapEntryFor(c, TopChannel(chs, c.code).value)
  {
    if cs != [] {
      var front, last := cs[..|cs| - 1], cs[|cs| - 1];
      MapEntriesSound(front, chs);
      forall e | e in MapEntries(cs, chs)
        ensures exists c :: c in cs && TopChannel(chs, c.code).Some? && e == MapEntryFor(c, TopChannel(chs, c.code).value)
      {
        if e in MapEntries(front, chs) {
          var c :| c in front && TopChannel(chs, c.code).Some? && e == MapEntryFor(c, TopChannel(chs, c.code).value);
          assert c in cs;
        } else {
          assert last in cs;
        }
      }
    }
  }

  /** The timestamp of the newest snapshot, the one `find_one(sort=[("timestamp", -1)])`
      returns; `None` is reported as "Never". */
  function LatestStamp(ss: seq<Snapshot>): (r: Option<Time>)
    ensures r.None? <==> ss == []
    ensures r.Some? ==> (exists s :: s in ss && s.timestamp == r.value) && forall s :: s in ss ==> s.timestamp <= r.value
  {
    if ss == [] then None
    else
      match LatestStamp(ss[1..])
      case None => Some(ss[0].timestamp)
      case Some(t) =>
        assert forall s :: s in ss ==> s == ss[0] || s in ss[1..];
        Some(if ss[0].timestamp >= t then ss[0].timestamp else t)
  }

  datatype AdminStats = AdminStats(
    totalCountries: nat,
    totalChannels: nat,
    totalStatsRecords: nat,
    lastUpdate: Option<Time>)

  /** An entry of the seed list: a country and the channel ids to add under it. */
  datatype SeedCountry = SeedCountry(code: string, name: string, flagEmoji: string, region: string, channels: seq<string>)

  datatype SeedOutcome = AlreadySeeded(countries: nat) | Seeded(countriesAdded: nat, channelsAdded: nat)

  /** The countries and channels `seed_initial_data` adds to an empty database. */
  const SeedData: seq<SeedCountry> := [
      SeedCountry("US", "United States", "\U{1F1FA}\U{1F1F8}", "North America", ["UCq-Fj5jknLsUf-MWSy4_brA", "UCX6OQ3DkcsbYNE6H8uQQuVA", "UCvjgEDvShRsADqghFPPCZgQ"]),
      SeedCountry("IN", "India", "\U{1F1EE}\U{1F1F3}", "Asia", ["UCq-Fj5jknLsUf-MWSy4_brA", "UCpEhnqL0y41EpW2TvWAHD7Q", "UCnJjcn5FrgrOEp5_N45ZLEQ"]),
      SeedCountry("BR", "Brazil", "\U{1F1E7}\U{1F1F7}", "South America", ["UCKGgKxG4IewRjqFNoXRjfKg", "UC5PlTlhPJnUhM2XqnVnRHzw"]),
      SeedCountry("MX", "Mexico", "\U{1F1F2}\U{1F1FD}", "North America", ["UCYiGq8XF7YQD00x7wAd62Zg"]),
      SeedCountry("RU", "Russia", "\U{1F1F7}\U{1F1FA}", "Europe", ["UCWpmtlPhmpihEhwvZ0tdT1A"]),
      SeedCountry("JP", "Japan", "\U{1F1EF}\U{1F1F5}", "Asia", ["UCX6OQ3DkcsbYNE6H8uQQuVA"]),
      SeedCountry("KR", "South Korea", "\U{1F1F0}\U{1F1F7}", "Asia", ["UC-9-kyTW8ZkZNDHQJ6FgpwQ"]),
      SeedCountry("GB", "United Kingdom", "\U{1F1EC}\U{1F1E7}", "Europe", ["UC5BMxOv1EoOfP7vOcjJO_vw"]),
      SeedCountry("DE", "Germany", "\U{1F1E9}\U{1F1EA}", "Europe", ["UCyNtlmLB73-7gtlBz00XOQQ"]),
      SeedCountry("FR", "France", "\U{1F1EB}\U{1F1F7}", "Europe", ["UCYiGq8XF7YQD00x7wAd62Zg"]),
      SeedCountry("ID", "Indonesia", "\U{1F1EE}\U{1F1E9}", "Asia", ["UC-lHJZR3Gqxm24_Vd_AJ5Yw"]),
      SeedCountry("PH", "Philippines", "\U{1F1F5}\U{1F1ED}", "Asia", ["UCjr2bPAyPV5qUyGPKM25XXg"]),
      SeedCountry("TH", "Thailand", "\U{1F1F9}\U{1F1ED}", "Asia", ["UCq-Fj5jknLsUf-MWSy4_brA"]),
      SeedCountry("VN", "Vietnam", "\U{1F1FB}\U{1F1F3}", "Asia", ["UC-lHJZR3Gqxm24_Vd_AJ5Yw"]),
      SeedCountry("ES", "Spain", "\U{1F1EA}\U{1F1F8}", "Europe", ["UCam8T03EOFBsNdR0thrFHdQ"]),
      SeedCountry("AR", "Argentina", "\U{1F1E6}\U{1F1F7}", "South America", ["UCYiGq8XF7YQD00x7wAd62Zg"]),
      SeedCountry("CO", "Colombia", "\U{1F1E8}\U{1F1F4}", "South America", ["UC-lHJZR3Gqxm24_Vd_AJ5Yw"]),
      SeedCountry("PK", "Pakistan", "\U{1F1F5}\U{1F1F0}", "Asia", ["UCq-Fj5jknLsUf-MWSy4_brA"]),
      SeedCountry("BD", "Bangladesh", "\U{1F1E7}\U{1F1E9}", "Asia", ["UCq-Fj5jknLsUf-MWSy4_brA"]),
      SeedCountry("CA", "Canada", "\U{1F1E8}\U{1F1E6}", "North America", ["UCpB959t8iPrxQWj7G6n0ctQ"])
    ]

  /** The country documents seeding `entries` inserts, in order. */
  function CountriesOf(entries: seq<SeedCountry>, now: Time): (r: seq<Country>)
    ensures |r| == |entries|
    ensures forall i :: 0 <= i < |r| ==>
      r[i] == Country(entries[i].code, entries[i].name, entries[i].flagEmoji, entries[i].region, now)
  {
    seq(|entries|, i requires 0 <= i < |entries| =>
      Country(entries[i].code, entries[i].name, entries[i].flagEmoji, entries[i].region, now))
  }

  /** The country documents the seed inserts, in order. */
  function SeedCountries(now: Time): (r: seq<Country>)
    ensures |r| == |SeedData|
    ensures forall i :: 0 <= i < |r| ==> r[i].code == SeedData[i].code && r[i].name == SeedData[i].name
  {
    CountriesOf(SeedData, now)
  }

  /** The seed's country codes are distinct, so seeding never breaks the unique index. */
  lemma SeedCodesDistinct(now: Time)
    ensures UniqueCodes(SeedCountries(now))
  {
    SeedCodesDistinctHead();
    SeedCodesDistinctTail();
  }

  /** The first six seed codes differ from every later one (the pairs are split in two so
      that each half stays small for the solver). */
  lemma SeedCodesDistinctHead()
    ensures forall i, j :: 0 <= i < 6 && i < j < |SeedData| ==> SeedData[i].code != SeedData[j].code
  {
    forall i, j | 0 <= i < 6 && i < j < |SeedData| ensures SeedData[i].code != SeedData[j].code {
      var a, b := SeedData[i].code, SeedData[j].code;
      assert a[0] != b[0] || a[1] != b[1];
    }
  }

  /** The seed codes from the seventh on are distinct. */
  lemma SeedCodesDistinctTail()
    ensures forall i, j :: 6 <= i < j < |SeedData| ==> SeedData[i].code != SeedData[j].code
  {
    forall i, j | 6 <= i < j < |SeedData| ensures SeedData[i].code != SeedData[j].code {
      var a, b := SeedData[i].code, SeedData[j].code;
      assert a[0] != b[0] || a[1] != b[1];
    }
  }

  /** The seed countries inserted so far, one more, and the next code is not among them. */
  lemma SeedPrefixStep(entries: seq<SeedCountry>, now: Time, i: nat)
    requires i < |entries| && UniqueCodes(CountriesOf(entries, now))
    ensures var cs := CountriesOf(entries, now);
      cs[..i + 1] == cs[..i] + [Country(entries[i].code, entries[i].name, entries[i].flagEmoji, entries[i].region, now)] &&
      UniqueCodes(cs[..i]) && !HasCountry(cs[..i], entries[i].code)
  {
    var cs := CountriesOf(entries, now);
    forall j | 0 <= j < i ensures cs[..i][j].code != entries[i].code {
      assert cs[..i][j] == cs[j];
    }
  }

  /** Appending a channel whose id is not yet present keeps ids unique. */
  lemma AppendUnique(chs: seq<Channel>, c: Channel)
    requires UniqueIds(chs) && !HasChannel(chs, c.channelId)
    ensures UniqueIds(chs + [c])
  {
    var r := chs + [c];
    forall i, j | 0 <= i < j < |r| ensures r[i].channelId != r[j].channelId {
      if j == |chs| {
        assert r[i] == chs[i];
      } else {
        assert r[i] == chs[i] && r[j] == chs[j];
      }
    }
  }

  /** The same, for a list whose uniqueness is not known. */
  lemma AppendKeepsUnique(chs: seq<Channel>, c: Channel)
    requires !HasChannel(chs, c.channelId)
    ensures UniqueIds(chs) ==> UniqueIds(chs + [c])
  {
    if UniqueIds(chs) {
      AppendUnique(chs, c);
    }
  }

  lemma AppendCountryUnique(cs: seq<Country>, c: Country)
    requires UniqueCodes(cs) && !HasCountry(cs, c.code)
    ensures UniqueCodes(cs + [c])
  {
    var r := cs + [c];
    forall i, j | 0 <= i < j < |r| ensures r[i].code != r[j].code {
      assert r[i] == cs[i];
      if j < |cs| {
        assert r[j] == cs[j];
      }
    }
  }

  /** Under the unique index, deleting a channel's document leaves no document with its id. */
  lemma {:induction false} DeleteFirstRemoves(chs: seq<Channel>, id: string)
    requires UniqueIds(chs)
    ensures UniqueIds(DeleteFirst(chs, id))
    ensures !HasChannel(DeleteFirst(chs, id), id)
  {
    if chs != [] {
      assert UniqueIds(chs[1..]);
      if chs[0].channelId == id {
        forall i | 0 <= i < |chs[1..]| ensures chs[1..][i].channelId != id {
          assert chs[1..][i] == chs[i + 1];
        }
      } else {
        DeleteFirstRemoves(chs[1..], id);
        var rest := DeleteFirst(chs[1..], id);
        ConsUnique(chs[0], rest, chs);
        var r := [chs[0]] + rest;
        assert DeleteFirst(chs, id) == r;
        forall i | 0 <= i < |r| ensures r[i].channelId != id {
          if i > 0 {
            assert r[i] == rest[i - 1];
          }
        }
      }
    }
  }

  /** A document the seed inserts under country `code`: active, with the placeholder rank 0. */
  predicate SeededIn(c: Channel, code: string)
  {
    c.countryCode == code && c.isActive && c.currentRank == Some(0)
  }

  /** The documents from position `n` on, stated element-wise. */
  lemma SeededSuffix(chs: seq<Channel>, n: nat, ids: seq<string>, code: string)
    requires n <= |chs|
    requires forall i :: n <= i < |chs| ==> chs[i].channelId in ids && SeededIn(chs[i], code)
    ensures forall c :: c in chs[n..] ==> c.channelId in ids && c.countryCode == code && c.isActive && c.currentRank == Some(0)
  {
    forall c | c in chs[n..]
      ensures c.channelId in ids && c.countryCode == code && c.isActive && c.currentRank == Some(0)
    {
      var j :| 0 <= j < |chs[n..]| && chs[n..][j] == c;
      assert chs[n + j] == c;
    }
  }

  lemma ActiveSuffix(chs: seq<Channel>, n: nat)
    requires n <= |chs|
    requires forall i :: n <= i < |chs| ==> chs[i].isActive && chs[i].currentRank == Some(0)
    ensures forall c :: c in chs[n..] ==> c.isActive && c.currentRank == Some(0)
  {
    forall c | c in chs[n..] ensures c.isActive && c.currentRank == Some(0) {
      var j :| 0 <= j < |chs[n..]| && chs[n..][j] == c;
      assert chs[n + j] == c;
    }
  }

  /** What seeding has produced so far: the two collections and the YouTube cache. */
  datatype SeedState = SeedState(channels: seq<Channel>, stats: seq<Snapshot>, cache: Cache)

  /** A stored channel stays stored when documents are appended. */
  lemma HasChannelAppend(chs: seq<Channel>, more: seq<Channel>, id: string)
    ensures HasChannel(chs + more, id) <==> HasChannel(chs, id) || HasChannel(more, id)
  {
    var r := chs + more;
    if HasChannel(r, id) {
      var i :| 0 <= i < |r| && r[i].channelId == id;
      if i >= |chs| {
        assert more[i - |chs|] == r[i];
      }
    }
    if HasChannel(more, id) {
      var i :| 0 <= i < |more| && more[i].channelId == id;
      assert r[|chs| + i] == more[i];
    }
    if HasChannel(chs, id) {
      var i :| 0 <= i < |chs| && chs[i].channelId == id;
      assert r[i] == chs[i];
    }
  }

  /** One id of the seed's inner loop: skipped when stored; otherwise looked up through the
      cache, and stored with its first snapshot when the lookup returns a record. An error or
      an unknown channel skips it. */
  function SeedStep(code: string, name: string, id: string, now: Time, api: string -> StatsResponse, s: SeedState): (r: SeedState)
    requires Consistent(s.cache)
    ensures Consistent(r.cache)
    ensures s.channels <= r.channels && s.stats <= r.stats
    ensures |r.stats| - |s.stats| == |r.channels| - |s.channels|
    ensures forall i :: |s.channels| <= i < |r.channels| ==> r.channels[i].channelId == id && SeededIn(r.channels[i], code)
    ensures UniqueIds(s.channels) ==> UniqueIds(r.channels)
  {
    if HasChannel(s.channels, id) then s
    else
      var cache := StatsCacheAfter(s.cache, id, now, api);
      match StatsLookup(s.cache, id, now, api)
      case Ok(Some(d)) =>
        var doc := NewChannel(id, d, code, name, now);
        AppendKeepsUnique(s.channels, doc);
        SeedState(s.channels + [doc], s.stats + [StatsDoc(id, d, now)], cache)
      case _ => s.(cache := cache)
  }

  /** The inner loop of `seed_initial_data` over a country's ids, in order. */
  function SeedSteps(code: string, name: string, ids: seq<string>, now: Time, api: string -> StatsResponse, s: SeedState): (r: SeedState)
    requires Consistent(s.cache)
    ensures Consistent(r.cache)
    ensures s.channels <= r.channels && s.stats <= r.stats
    ensures |r.stats| - |s.stats| == |r.channels| - |s.channels|
    ensures forall i :: |s.channels| <= i < |r.channels| ==> r.channels[i].channelId in ids && SeededIn(r.channels[i], code)
    ensures UniqueIds(s.channels) ==> UniqueIds(r.channels)
    decreases |ids|
  {
    if ids == [] then s
    else
      var front := ids[..|ids| - 1];
      var mid := SeedSteps(code, name, front, now, api, s);
      assert forall x :: x in front ==> x in ids;
      SeedStep(code, name, ids[|ids| - 1], now, api, mid)
  }

  /** The outer loop's channel work over the seed countries, in order. */
  function SeedEntries(entries: seq<SeedCountry>, now: Time, api: string -> StatsResponse, s: SeedState): (r: SeedState)
    requires Consistent(s.cache)
    ensures Consistent(r.cache)
    ensures s.channels <= r.channels && s.stats <= r.stats
    ensures |r.stats| - |s.stats| == |r.channels| - |s.channels|
    ensures forall i :: |s.channels| <= i < |r.channels| ==> r.channels[i].isActive && r.channels[i].currentRank == Some(0)
    ensures UniqueIds(s.channels) ==> UniqueIds(r.channels)
    decreases |entries|
  {
    if entries == [] then s
    else
      var e := entries[|entries| - 1];
      var mid := SeedEntries(entries[..|entries| - 1], now, api, s);
      SeedSteps(e.code, e.name, e.channels, now, api, mid)
  }

  /** The step for an id not yet stored, by the outcome of its lookup. */
  lemma SeedStepLooked(code: string, name: string, id: string, now: Time, api: string -> StatsResponse, s: SeedState)
    requires Consistent(s.cache) && !HasChannel(s.channels, id)
    ensures var looked := StatsLookup(s.cache, id, now, api);
      var cache := StatsCacheAfter(s.cache, id, now, api);
      SeedStep(code, name, id, now, api, s) ==
        if looked.Ok? && looked.value.Some? then
          SeedState(s.channels + [NewChannel(id, looked.value.value, code, name, now)],
                    s.stats + [StatsDoc(id, looked.value.value, now)], cache)
        else SeedState(s.channels, s.stats, cache)
  {
  }

  /** Running one more id extends the run by that id's step. */
  lemma SeedStepsNext(code: string, name: string, ids: seq<string>, k: nat, now: Time, api: string -> StatsResponse, s: SeedState)
    requires k < |ids| && Consistent(s.cache)
    ensures SeedSteps(code, name, ids[..k + 1], now, api, s) ==
      SeedStep(code, name, ids[k], now, api, SeedSteps(code, name, ids[..k], now, api, s))
  {
    assert ids[..k + 1][..k] == ids[..k];
  }

  /** Running one more country extends the run by that country's ids. */
  lemma SeedEntriesNext(entries: seq<SeedCountry>, i: nat, now: Time, api: string -> StatsResponse, s: SeedState)
    requires i < |entries| && Consistent(s.cache)
    ensures SeedEntries(entries[..i + 1], now, api, s) ==
      SeedSteps(entries[i].code, entries[i].name, entries[i].channels, now, api, SeedEntries(entries[..i], now, api, s))
  {
    assert entries[..i + 1][..i] == entries[..i];
  }

  /** A step never makes a channel YouTube does not return appear in the cache. */
  lemma SeedStepKeepsMiss(code: string, name: string, other: string, now: Time, api: string -> StatsResponse, s: SeedState, id: string)
    requires Consistent(s.cache) && StatsHit(s.cache, id, now).None? && !api(id).Found?
    ensures StatsHit(SeedStep(code, name, other, now, api, s).cache, id, now).None?
  {
    if other != id {
      CacheKeyDistinct(other, id);
    }
  }

  lemma {:induction false} SeedStepsKeepMiss(code: string, name: string, ids: seq<string>, now: Time, api: string -> StatsResponse, s: SeedState, id: string)
    requires Consistent(s.cache) && StatsHit(s.cache, id, now).None? && !api(id).Found?
    ensures StatsHit(SeedSteps(code, name, ids, now, api, s).cache, id, now).None?
    decreases |ids|
  {
    if ids != [] {
      var mid := SeedSteps(code, name, ids[..|ids| - 1], now, api, s);
      SeedStepsKeepMiss(code, name, ids[..|ids| - 1], now, api, s, id);
      SeedStepKeepsMiss(code, name, ids[|ids| - 1], now, api, mid, id);
    }
  }

  lemma {:induction false} SeedEntriesKeepMiss(entries: seq<SeedCountry>, now: Time, api: string -> StatsResponse, s: SeedState, id: string)
    requires Consistent(s.cache) && StatsHit(s.cache, id, now).None? && !api(id).Found?
    ensures StatsHit(SeedEntries(entries, now, api, s).cache, id, now).None?
    decreases |entries|
  {
    if entries != [] {
      var e := entries[|entries| - 1];
      var mid := SeedEntries(entries[..|entries| - 1], now, api, s);
      SeedEntriesKeepMiss(entries[..|entries| - 1], now, api, s, id);
      SeedStepsKeepMiss(e.code, e.name, e.channels, now, api, mid, id);
    }
  }

  /** One step stores an absent channel exactly when it is the step's id and YouTube returns
      it (a record cached earlier is used instead of a request). */
  lemma SeedStepStored(code: string, name: string, other: string, now: Time, api: string -> StatsResponse, s: SeedState, id: string)
    requires Consistent(s.cache) && !HasChannel(s.channels, id)
    requires api(id).Found? || StatsHit(s.cache, id, now).None?
    ensures HasChannel(SeedStep(code, name, other, now, api, s).channels, id) <==> other == id && api(id).Found?
  {
    var r := SeedStep(code, name, other, now, api, s);
    HasChannelAppend(s.channels, r.channels[|s.channels|..], id);
    assert s.channels + r.channels[|s.channels|..] == r.channels;
    if HasChannel(r.channels[|s.channels|..], id) {
      var i :| 0 <= i < |r.channels[|s.channels|..]| && r.channels[|s.channels|..][i].channelId == id;
      assert r.channels[|s.channels|..][i] in r.channels[|s.channels|..];
    }
    if other == id && api(id).Found? {
      assert r.channels[|s.channels|..][0].channelId == id;
    }
  }

  /** Over a country's ids, a channel not stored before ends stored exactly when it is listed
      and YouTube returns it; an error or an unknown channel leaves it out. */
  lemma {:induction false} SeedStepsStored(code: string, name: string, ids: seq<string>, now: Time, api: string -> StatsResponse, s: SeedState, id: string)
    requires Consistent(s.cache) && !HasChannel(s.channels, id)
    requires api(id).Found? || StatsHit(s.cache, id, now).None?
    ensures HasChannel(SeedSteps(code, name, ids, now, api, s).channels, id) <==> id in ids && api(id).Found?
    decreases |ids|
  {
    if ids != [] {
      var front, last := ids[..|ids| - 1], ids[|ids| - 1];
      assert ids == front + [last];
      var mid := SeedSteps(code, name, front, now, api, s);
      var r := SeedStep(code, name, last, now, api, mid);
      SeedStepsStored(code, name, front, now, api, s, id);
      HasChannelAppend(mid.channels, r.channels[|mid.channels|..], id);
      assert mid.channels + r.channels[|mid.channels|..] == r.channels;
      if !HasChannel(mid.channels, id) {
        if !api(id).Found? {
          SeedStepsKeepMiss(code, name, front, now, api, s, id);
        }
        SeedStepStored(code, name, last, now, api, mid, id);
      }
    }
  }

  /** Over all seed countries, a channel not stored before ends stored exactly when some
      country lists it and YouTube returns it. */
  lemma {:induction false} SeedEntriesStored(entries: seq<SeedCountry>, now: Time, api: string -> StatsResponse, s: SeedState, id: string)
    requires Consistent(s.cache) && !HasChannel(s.channels, id)
    requires api(id).Found? || StatsHit(s.cache, id, now).None?
    ensures HasChannel(SeedEntries(entries, now, api, s).channels, id) <==>
      (exists e :: e in entries && id in e.channels) && api(id).Found?
    decreases |entries|
  {
    if entries != [] {
      var front, e := entries[..|entries| - 1], entries[|entries| - 1];
      assert entries == front + [e];
      var mid := SeedEntries(front, now, api, s);
      var r := SeedSteps(e.code, e.name, e.channels, now, api, mid);
      SeedEntriesStored(front, now, api, s, id);
      HasChannelAppend(mid.channels, r.channels[|mid.channels|..], id);
      assert mid.channels + r.channels[|mid.channels|..] == r.channels;
      if !HasChannel(mid.channels, id) {
        if !api(id).Found? {
          SeedEntriesKeepMiss(front, now, api, s, id);
        }
        SeedStepsStored(e.code, e.name, e.channels, now, api, mid, id);
      }
    }
  }

  /** The API router: the handlers over the database, the YouTube client and the ranking
      service that share it. */
  class Router {
    const db: Database
    const yt: YouTubeService
    const ranking: RankingService

    /** The unique indexes hold, the YouTube cache is consistent and the ranking service
        works on the same database. */
    predicate Valid()
      reads this, db, yt, ranking
    {
      db.Valid() && UniqueCodes(db.countries) && yt.Valid() && ranking.db == db
    }

    constructor (db: Database, yt: YouTubeService, ranking: RankingService)
      requires db.Valid() && UniqueCodes(db.countries) && yt.Valid() && ranking.db == db
      ensures Valid()
      ensures this.db == db && this.yt == yt && this.ranking == ranking
    {
      this.db := db;
      this.yt := yt;
      this.ranking := ranking;
    }

    /** `create_country`: the code is stored upper-cased; an existing code is refused. */
    method CreateCountry(code: string, name: string, flagEmoji: string, region: string, now: Time)
      returns (r: Result<Country, HttpError>)
      requires Valid()
      modifies db`countries
      ensures Valid()
      ensures HasCountry(old(db.countries), Upper(code)) ==>
        r == Err(HttpError(400, "Country already exists")) && db.countries == old(db.countries)
      ensures !HasCountry(old(db.countries), Upper(code)) ==>
        r == Ok(NewCountry(code, name, flagEmoji, region, now)) && db.countries == old(db.countries) + [r.value]
    {
      if FindCountry(db.countries, Upper(code)).Some? {
        return Err(HttpError(400, "Country already exists"));
      }
      var doc := NewCountry(code, name, flagEmoji, region, now);
      AppendCountryUnique(db.countries, doc);
      db.countries := db.countries + [doc];
      r := Ok(doc);
    }

    /** `get_country`: 404 for an unknown code; otherwise the country, its first 100 active
        channels by subscribers ranked from 1, and its 10 newest rank changes. */
    method GetCountry(code: string) returns (r: Result<CountryDetail, HttpError>)
      ensures r.Err? <==> !HasCountry(db.countries, Upper(code))
      ensures r.Err? ==> r.error == HttpError(404, "Country not found")
      ensures r.Ok? ==>
        r.value.country in db.countries && r.value.country.code == Upper(code) &&
        ChannelsOf(r.value.channels) == Take(SortDesc(ActiveIn(db.channels, Upper(code)), Subs), CountryChannelCap) &&
        NonIncreasing(ChannelsOf(r.value.channels), Subs) &&
        (forall i :: 0 <= i < |r.value.channels| ==> r.value.channels[i].rank == i + 1) &&
        r.value.recentChanges == Take(SortDesc(HistoryIn(db.rankHistory, Upper(code)), EntryTime), RecentChangeCap)
    {
      var up := Upper(code);
      var country := FindCountry(db.countries, up);
      if country.None? {
        return Err(HttpError(404, "Country not found"));
      }
      var sorted := SortDesc(ActiveIn(db.channels, up), Subs);
      TakeKeepsOrder(sorted, CountryChannelCap, Subs);
      var channels := AssignRanks(Take(sorted, CountryChannelCap));
      var recent := Take(SortDesc(HistoryIn(db.rankHistory, up), EntryTime), RecentChangeCap);
      r := Ok(CountryDetail(country.value, channels, recent));
    }

    /** `get_all_channels`: a limit above 500 is refused; otherwise one page of the matching
        channels by subscribers, with `total` counting every match whatever the page. */
    method GetAllChannels(countryCode: string, limit: int, skip: nat) returns (r: Result<ChannelPage, HttpError>)
      requires limit > 0
      ensures r.Err? <==> limit > MaxLimit
      ensures r.Err? ==> r.error.status == 422
      ensures r.Ok? ==>
        r.value.total == |Matching(db.channels, countryCode)| &&
        r.value.channels == Page(SortDesc(Matching(db.channels, countryCode), Subs), skip, limit) &&
        |r.value.channels| <= limit &&
        NonIncreasing(r.value.channels, Subs) &&
        forall c :: c in r.value.channels ==> c in Matching(db.channels, countryCode)
    {
      if limit > MaxLimit {
        return Err(HttpError(422, "limit: Input should be less than or equal to 500"));
      }
      var matching := Matching(db.channels, countryCode);
      var sorted := SortDesc(matching, Subs);
      SortDescMembers(matching, Subs);
      var page := Page(sorted, skip, limit);
      PageOfSorted(sorted, skip, limit, Subs);
      r := Ok(ChannelPage(page, |matching|, limit, skip));
    }

    /** `add_channel`, checked in order: an already tracked id and an unknown country are
        refused with 400 before YouTube is asked; a YouTube error or a channel YouTube does not
        know is a 400 as well; otherwise the new document and its first snapshot are stored. */
    method AddChannel(id: string, countryCode: string, now: Time, api: string -> StatsResponse)
      returns (r: Result<Channel, HttpError>)
      requires Valid()
      modifies db`channels, db`stats, yt`cache, yt`requests
      ensures Valid()
      ensures HasChannel(old(db.channels), id) ==>
        r == Err(HttpError(400, "Channel already being tracked")) &&
        unchanged(db) && unchanged(yt)
      ensures !HasChannel(old(db.channels), id) && !HasCountry(db.countries, Upper(countryCode)) ==>
        r == Err(HttpError(400, "Country not found")) &&
        unchanged(db) && unchanged(yt)
      ensures !HasChannel(old(db.channels), id) && HasCountry(db.countries, Upper(countryCode)) ==>
        yt.cache == StatsCacheAfter(old(yt.cache), id, now, api) &&
        match StatsLookup(old(yt.cache), id, now, api)
        case Err(m) => r == Err(HttpError(400, m)) && unchanged(db)
        case Ok(None) => r == Err(HttpError(400, YouTubeNotFound)) && unchanged(db)
        case Ok(Some(d)) =>
          r == Ok(NewChannel(id, d, Upper(countryCode), FindCountry(db.countries, Upper(countryCode)).value.name, now)) &&
          db.channels == old(db.channels) + [r.value] &&
          db.stats == old(db.stats) + [StatsDoc(id, d, now)]
    {
      if FindChannel(db.channels, id).Some? {
        return Err(HttpError(400, "Channel already being tracked"));
      }
      var up := Upper(countryCode);
      var country := FindCountry(db.countries, up);
      if country.None? {
        return Err(HttpError(400, "Country not found"));
      }
      var looked := yt.GetChannelStats(id, now, api);
      if looked.Err? {
        return Err(HttpError(400, looked.error));
      }
      if looked.value.None? {
        return Err(HttpError(400, YouTubeNotFound));
      }
      var doc := NewChannel(id, looked.value.value, up, country.value.name, now);
      AppendUnique(db.channels, doc);
      db.channels := db.channels + [doc];
      db.stats := db.stats + [StatsDoc(id, looked.value.value, now)];
      r := Ok(doc);
    }

    /** `refresh_channel`: 404 for an untracked id; YouTube's answer is handled as in
        `add_channel`; a fetched record overwrites the document's counts and texts and adds a
        snapshot. */
    method RefreshChannel(id: string, now: Time, api: string -> StatsResponse)
      returns (r: Result<ChannelData, HttpError>)
      requires Valid()
      modifies db`channels, db`stats, yt`cache, yt`requests
      ensures Valid()
      ensures !HasChannel(old(db.channels), id) ==>
        r == Err(HttpError(404, "Channel not found")) && unchanged(db) && unchanged(yt)
      ensures HasChannel(old(db.channels), id) ==>
        yt.cache == StatsCacheAfter(old(yt.cache), id, now, api) &&
        match StatsLookup(old(yt.cache), id, now, api)
        case Err(m) => r == Err(HttpError(400, m)) && unchanged(db)
        case Ok(None) => r == Err(HttpError(400, YouTubeNotFound)) && unchanged(db)
        case Ok(Some(d)) =>
          r == Ok(d) && d.channelId == id &&
          db.channels == Scheduler.ApplyFetched(old(db.channels), d, now) &&
          db.stats == old(db.stats) + [StatsDoc(id, d, now)]
    {
      if FindChannel(db.channels, id).None? {
        return Err(HttpError(404, "Channel not found"));
      }
      var looked := yt.GetChannelStats(id, now, api);
      if looked.Err? {
        return Err(HttpError(400, looked.error));
      }
      if looked.value.None? {
        return Err(HttpError(400, YouTubeNotFound));
      }
      var d := looked.value.value;
      var chs := Scheduler.ApplyFetched(db.channels, d, now);
      SameShapeUnique(chs, db.channels);
      db.channels := chs;
      db.stats := db.stats + [StatsDoc(id, d, now)];
      r := Ok(d);
    }

    /** `get_global_leaderboard`: a limit above 500 is refused; otherwise `channels[:limit]` of
        the global ranking (a negative limit drops that many from the end), with `total` the
        length of the whole ranking. */
    method GetGlobalLeaderboard(limit: int) returns (r: Result<Leaderboard, HttpError>)
      requires Valid()
      ensures r.Err? <==> limit > MaxLimit
      ensures r.Err? ==> r.error.status == 422
      ensures r.Ok? ==>
        var all := GlobalRanked(db.channels);
        r.value.total == |all| &&
        ChannelsOf(r.value.channels) == PyPrefix(all, limit) &&
        (forall i :: 0 <= i < |r.value.channels| ==> r.value.channels[i].rank == i + 1) &&
        (limit >= 0 ==> |r.value.channels| == if limit < |all| then limit else |all|) &&
        (limit < 0 ==> |r.value.channels| == if -limit < |all| then |all| + limit else 0)
    {
      if limit > MaxLimit {
        return Err(HttpError(422, "limit: Input should be less than or equal to 500"));
      }
      var top := ranking.GetGlobalTop();
      var page := PyPrefix(top, limit);
      assert ChannelsOf(page) == PyPrefix(ChannelsOf(top), limit);
      r := Ok(Leaderboard(page, |top|));
    }

    /** `get_map_data`: for each of the first 300 countries in order, an entry with its top
        active channel when it has one. */
    method GetMapData() returns (r: seq<MapEntry>)
      ensures r == MapEntries(Take(db.countries, CountryListCap), db.channels)
    {
      var countries, channels := Take(db.countries, CountryListCap), db.channels;
      r := [];
      var i := 0;
      while i < |countries|
        invariant 0 <= i <= |countries|
        invariant r == MapEntries(countries[..i], channels)
      {
        var country := countries[i];
        var top := TopChannel(channels, country.code);
        MapEntriesStep(countries, channels, i);
        if top.Some? {
          r := r + [MapEntryFor(country, top.value)];
        }
        i := i + 1;
      }
      assert countries[..|countries|] == countries;
    }

    /** `get_admin_stats`: the three collection sizes and the newest snapshot's time. */
    method GetAdminStats() returns (s: AdminStats)
      ensures s == AdminStats(|db.countries|, |db.channels|, |db.stats|, LatestStamp(db.stats))
    {
      s := AdminStats(|db.countries|, |db.channels|, |db.stats|, LatestStamp(db.stats));
    }

    /** `delete_channel`: 404 when no document has the id; otherwise the document, its
        snapshots and its rank history are removed. */
    method DeleteChannel(id: string) returns (r: Result<string, HttpError>)
      requires Valid()
      modifies db`channels, db`stats, db`rankHistory
      ensures Valid()
      ensures !HasChannel(old(db.channels), id) ==>
        r == Err(HttpError(404, "Channel not found")) && unchanged(db)
      ensures HasChannel(old(db.channels), id) ==>
        r == Ok("Channel deleted") &&
        db.channels == DeleteFirst(old(db.channels), id) &&
        db.stats == DropSnapshots(old(db.stats), id) &&
        db.rankHistory == DropHistory(old(db.rankHistory), id)
      ensures !HasChannel(db.channels, id)
      ensures HasChannel(old(db.channels), id) ==>
        (forall s :: s in db.stats ==> s.channelId != id) &&
        (forall h :: h in db.rankHistory ==> h.channelId != id)
    {
      if FindChannel(db.channels, id).None? {
        return Err(HttpError(404, "Channel not found"));
      }
      DeleteFirstRemoves(db.channels, id);
      db.channels := DeleteFirst(db.channels, id);
      db.stats := DropSnapshots(db.stats, id);
      db.rankHistory := DropHistory(db.rankHistory, id);
      r := Ok("Channel deleted");
    }

    /** The inner loop of `seed_initial_data` for one country: an id already stored is
        skipped, an id YouTube fails on or does not know is skipped, any other is stored with
        its first snapshot. */
    method SeedChannels(code: string, name: string, ids: seq<string>, now: Time, api: string -> StatsResponse)
      returns (added: nat)
      requires Valid()
      modifies db`channels, db`stats, yt`cache, yt`requests
      ensures Valid()
      ensures old(db.channels) <= db.channels && old(db.stats) <= db.stats
      ensures |db.channels| == |old(db.channels)| + added && |db.stats| == |old(db.stats)| + added
      ensures forall c :: c in db.channels[|old(db.channels)|..] ==>
        c.channelId in ids && c.countryCode == code && c.isActive && c.currentRank == Some(0)
      ensures var r := SeedSteps(code, name, ids, now, api, SeedState(old(db.channels), old(db.stats), old(yt.cache)));
        db.channels == r.channels && db.stats == r.stats && yt.cache == r.cache
    {
      ghost var start := SeedState(db.channels, db.stats, yt.cache);
      added := 0;
      var k := 0;
      while k < |ids|
        invariant 0 <= k <= |ids|
        invariant Valid()
        invariant SeedState(db.channels, db.stats, yt.cache) == SeedSteps(code, name, ids[..k], now, api, start)
        invariant |db.channels| == |old(db.channels)| + added
      {
        SeedStepsNext(code, name, ids, k, now, api, start);
        var stored := SeedOne(code, name, ids[k], now, api);
        if stored {
          added := added + 1;
        }
        k := k + 1;
      }
      assert ids[..|ids|] == ids;
      SeededSuffix(db.channels, |old(db.channels)|, ids, code);
    }

    /** One pass of the inner seed loop: store the channel `id` unless it is stored or its lookup fails. */
    method SeedOne(code: string, name: string, id: string, now: Time, api: string -> StatsResponse)
      returns (stored: bool)
      requires Valid()
      modifies db`channels, db`stats, yt`cache, yt`requests
      ensures Valid()
      ensures SeedState(db.channels, db.stats, yt.cache) ==
        SeedStep(code, name, id, now, api, SeedState(old(db.channels), old(db.stats), old(yt.cache)))
      ensures |db.channels| == |old(db.channels)| + (if stored then 1 else 0)
    {
      ghost var s := SeedState(db.channels, db.stats, yt.cache);
      stored := false;
      if FindChannel(db.channels, id).None? {
        var looked := yt.GetChannelStats(id, now, api);
        SeedStepLooked(code, name, id, now, api, s);
        if looked.Ok? && looked.value.Some? {
          var doc := NewChannel(id, looked.value.value, code, name, now);
          AppendUnique(db.channels, doc);
          db.channels := db.channels + [doc];
          db.stats := db.stats + [StatsDoc(id, looked.value.value, now)];
          stored := true;
        }
      }
    }

    /** One pass of the seed's outer loop: the country document, then its channels. */
    method SeedCountryEntry(entry: SeedCountry, now: Time, api: string -> StatsResponse) returns (added: nat)
      requires Valid() && !HasCountry(db.countries, entry.code)
      modifies db`countries, db`channels, db`stats, yt`cache, yt`requests
      ensures Valid()
      ensures db.countries == old(db.countries) + [Country(entry.code, entry.name, entry.flagEmoji, entry.region, now)]
      ensures old(db.channels) <= db.channels && old(db.stats) <= db.stats
      ensures |db.channels| == |old(db.channels)| + added && |db.stats| == |old(db.stats)| + added
      ensures forall c :: c in db.channels[|old(db.channels)|..] ==> c.isActive && c.currentRank == Some(0)
      ensures var r := SeedSteps(entry.code, entry.name, entry.channels, now, api,
          SeedState(old(db.channels), old(db.stats), old(yt.cache)));
        db.channels == r.channels && db.stats == r.stats && yt.cache == r.cache
    {
      var doc := Country(entry.code, entry.name, entry.flagEmoji, entry.region, now);
      AppendCountryUnique(db.countries, doc);
      db.countries := db.countries + [doc];
      added := SeedChannels(entry.code, entry.name, entry.channels, now, api);
    }

    /** `seed_initial_data`: does nothing when any country exists; otherwise inserts the 20
        seed countries and, under each, the seed channels not stored yet. */
    /** The seed's outer loop over `entries`, on an empty countries collection. */
    method SeedAll(entries: seq<SeedCountry>, now: Time, api: string -> StatsResponse)
      returns (countriesAdded: nat, channelsAdded: nat)
      requires Valid() && db.countries == [] && UniqueCodes(CountriesOf(entries, now))
      modifies db`countries, db`channels, db`stats, yt`cache, yt`requests
      ensures Valid()
      ensures countriesAdded == |entries| && db.countries == CountriesOf(entries, now)
      ensures var s := SeedEntries(entries, now, api, SeedState(old(db.channels), old(db.stats), old(yt.cache)));
        db.channels == s.channels && db.stats == s.stats && yt.cache == s.cache
      ensures |db.channels| == |old(db.channels)| + channelsAdded
    {
      ghost var start := SeedState(db.channels, db.stats, yt.cache);
      countriesAdded, channelsAdded := 0, 0;
      var i := 0;
      while i < |entries|
        invariant 0 <= i <= |entries|
        invariant Valid()
        invariant countriesAdded == i
        invariant db.countries == CountriesOf(entries, now)[..i]
        invariant SeedState(db.channels, db.stats, yt.cache) == SeedEntries(entries[..i], now, api, start)
        invariant |db.channels| == |old(db.channels)| + channelsAdded
      {
        SeedPrefixStep(entries, now, i);
        SeedEntriesNext(entries, i, now, api, start);
        var added := SeedCountryEntry(entries[i], now, api);
        countriesAdded := countriesAdded + 1;
        channelsAdded := channelsAdded + added;
        i := i + 1;
      }
      assert CountriesOf(entries, now)[..|entries|] == CountriesOf(entries, now);
      assert entries[..|entries|] == entries;
    }

    method SeedInitialData(now: Time, api: string -> StatsResponse) returns (r: SeedOutcome)
      requires Valid()
      modifies db`countries, db`channels, db`stats, yt`cache, yt`requests
      ensures Valid()
      ensures |old(db.countries)| > 0 ==>
        r == AlreadySeeded(|old(db.countries)|) && unchanged(db) && unchanged(yt)
      ensures |old(db.countries)| == 0 ==>
        r.Seeded? && r.countriesAdded == |SeedData| &&
        db.countries == SeedCountries(now) &&
        old(db.channels) <= db.channels && |db.channels| == |old(db.channels)| + r.channelsAdded &&
        |db.stats| == |old(db.stats)| + r.channelsAdded &&
        forall c :: c in db.channels[|old(db.channels)|..] ==> c.isActive && c.currentRank == Some(0)
      ensures |old(db.countries)| == 0 ==>
        var s := SeedEntries(SeedData, now, api, SeedState(old(db.channels), old(db.stats), old(yt.cache)));
        db.channels == s.channels && db.stats == s.stats && yt.cache == s.cache
      ensures |old(db.countries)| == 0 ==>
        forall id :: !HasChannel(old(db.channels), id) && (api(id).Found? || StatsHit(old(yt.cache), id, now).None?) ==>
          (HasChannel(db.channels, id) <==> (exists e :: e in SeedData && id in e.channels) && api(id).Found?)
    {
      if |db.countries| > 0 {
        return AlreadySeeded(|db.countries|);
      }
      ghost var start := SeedState(db.channels, db.stats, yt.cache);
      SeedCodesDistinct(now);
      var countriesAdded, channelsAdded := SeedAll(SeedData, now, api);
      ActiveSuffix(db.channels, |start.channels|);
      forall id | !HasChannel(start.channels, id) && (api(id).Found? || StatsHit(start.cache, id, now).None?)
        ensures HasChannel(db.channels, id) <==> (exists e :: e in SeedData && id in e.channels) && api(id).Found?
      {
        SeedEntriesStored(SeedData, now, api, start, id);
      }
      r := Seeded(countriesAdded, channelsAdded);
    }
  }
}
