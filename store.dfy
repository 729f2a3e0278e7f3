/** The MongoDB collections the backend reads and writes, as in-memory sequences.
    A collection's natural order is its insertion order; `update_one` on `channel_id`
    is written as an update of every document with that id, which is the same thing
    while the unique index on `channels.channel_id` holds (`Database.Valid`). */
module Store {
  import opened Wrappers

  /** Seconds since the epoch; the source stores ISO-8601 strings, which order the same way. */
  type Time = int

  datatype Country = Country(
    code: string,
    name: string,
    flagEmoji: string,
    region: string,
    createdAt: Time)

  /** A `channels` document. Fields a handler may leave unset are `Option`s. */
  datatype Channel = Channel(
    channelId: string,
    title: string,
    description: string,
    customUrl: string,
    countryCode: string,
    countryName: string,
    thumbnailUrl: string,
    subscriberCount: int,
    viewCount: int,
    videoCount: int,
    publishedAt: string,
    currentRank: Option<int>,
    previousRank: Option<int>,
    rankUpdatedAt: Option<Time>,
    dailyGain: int,
    dailyPercent: real,
    weeklyGain: Option<int>,
    weeklyPercent: real,
    monthlyGain: Option<int>,
    monthlyPercent: real,
    viralScore: real,
    viralLabel: Option<string>,
    metricsUpdatedAt: Option<Time>,
    isActive: bool,
    createdAt: Time,
    updatedAt: Time)

  /** A channel record as the YouTube service returns it (`get_channel_stats` and the batch call). */
  datatype ChannelData = ChannelData(
    channelId: string,
    title: string,
    description: string,
    customUrl: string,
    country: string,
    publishedAt: string,
    thumbnailUrl: string,
    subscriberCount: int,
    viewCount: int,
    videoCount: int,
    hiddenSubscriberCount: bool,
    fetchedAt: Time)

  /** A `channel_stats` snapshot. */
  datatype Snapshot = Snapshot(
    channelId: string,
    subscriberCount: int,
    viewCount: int,
    videoCount: int,
    timestamp: Time)

  /** A `rank_history` document. The ranking service records the country and no `change`;
      the scheduler's global pass records `change` and no country. */
  datatype RankEntry = RankEntry(
    channelId: string,
    countryCode: Option<string>,
    oldRank: int,
    newRank: int,
    change: Option<int>,
    timestamp: Time)

  /** The `system_status` document with `_id: "scheduler"`. */
  datatype SchedulerRecord = SchedulerRecord(
    lastChannelRefresh: Option<Time>,
    channelsRefreshed: Option<int>,
    lastRankingUpdate: Option<Time>,
    lastStatsSnapshot: Option<Time>)

  function Subs(c: Channel): int { c.subscriberCount }
  function IdOf(c: Channel): string { c.channelId }

  /** No two channel documents share a `channel_id` (the unique index created at startup). */
  predicate UniqueIds(chs: seq<Channel>)
  {
    forall i, j :: 0 <= i < j < |chs| ==> chs[i].channelId != chs[j].channelId
  }

  predicate HasChannel(chs: seq<Channel>, id: string)
  {
    exists i :: 0 <= i < |chs| && chs[i].channelId == id
  }

  predicate HasCountry(cs: seq<Country>, code: string)
  {
    exists i :: 0 <= i < |cs| && cs[i].code == code
  }

  /** `find_one({"channel_id": id})`: the first document with that id. */
  function FindChannel(chs: seq<Channel>, id: string): (r: Option<Channel>)
    ensures r.Some? <==> HasChannel(chs, id)
    ensures r.Some? ==> r.value in chs && r.value.channelId == id
  {
    if chs == [] then None
    else if chs[0].channelId == id then Some(chs[0])
    else
      var rest := FindChannel(chs[1..], id);
      assert HasChannel(chs[1..], id) <==> HasChannel(chs, id) by {
        if HasChannel(chs, id) {
          var i :| 0 <= i < |chs| && chs[i].channelId == id;
          assert i > 0 && chs[1..][i - 1] == chs[i];
        }
        if HasChannel(chs[1..], id) {
          var i :| 0 <= i < |chs[1..]| && chs[1..][i].channelId == id;
          assert chs[i + 1] == chs[1..][i];
        }
      }
      rest
  }

  /** `find_one({"code": code})` on countries. */
  function FindCountry(cs: seq<Country>, code: string): (r: Option<Country>)
    ensures r.Some? <==> HasCountry(cs, code)
    ensures r.Some? ==> r.value in cs && r.value.code == code
  {
    if cs == [] then None
    else if cs[0].code == code then Some(cs[0])
    else
      var rest := FindCountry(cs[1..], code);
      assert HasCountry(cs[1..], code) <==> HasCountry(cs, code) by {
        if HasCountry(cs, code) {
          var i :| 0 <= i < |cs| && cs[i].code == code;
          assert i > 0 && cs[1..][i - 1] == cs[i];
        }
        if HasCountry(cs[1..], code) {
          var i :| 0 <= i < |cs[1..]| && cs[1..][i].code == code;
          assert cs[i + 1] == cs[1..][i];
        }
      }
      rest
  }

  predicate InCountry(c: Channel, code: string) { c.isActive && c.countryCode == code }

  /** `find({"country_code": code, "is_active": True})` in natural order. */
  function ActiveIn(chs: seq<Channel>, code: string): (r: seq<Channel>)
    ensures |r| <= |chs|
    ensures forall c :: c in r <==> c in chs && InCountry(c, code)
  {
    if chs == [] then []
    else if InCountry(chs[0], code) then [chs[0]] + ActiveIn(chs[1..], code)
    else ActiveIn(chs[1..], code)
  }

  /** `find({"is_active": True})` in natural order. */
  function Active(chs: seq<Channel>): (r: seq<Channel>)
    ensures |r| <= |chs|
    ensures forall c :: c in r <==> c in chs && c.isActive
  {
    if chs == [] then []
    else if chs[0].isActive then [chs[0]] + Active(chs[1..])
    else Active(chs[1..])
  }

  /** Filtering keeps distinct ids distinct. */
  lemma {:induction false} ActiveInKeepsUnique(chs: seq<Channel>, code: string)
    requires UniqueIds(chs)
    ensures UniqueIds(ActiveIn(chs, code))
  {
    if chs != [] {
      assert UniqueIds(chs[1..]);
      ActiveInKeepsUnique(chs[1..], code);
      if InCountry(chs[0], code) {
        ConsUnique(chs[0], ActiveIn(chs[1..], code), chs);
      }
    }
  }

  lemma {:induction false} ActiveKeepsUnique(chs: seq<Channel>)
    requires UniqueIds(chs)
    ensures UniqueIds(Active(chs))
  {
    if chs != [] {
      assert UniqueIds(chs[1..]);
      ActiveKeepsUnique(chs[1..]);
      if chs[0].isActive {
        ConsUnique(chs[0], Active(chs[1..]), chs);
      }
    }
  }

  /** `[chs[0]] + rest` has unique ids when `rest` does and draws its elements from `chs[1..]`. */
  lemma ConsUnique(c: Channel, rest: seq<Channel>, chs: seq<Channel>)
    requires UniqueIds(chs) && chs != [] && chs[0] == c
    requires UniqueIds(rest)
    requires forall d :: d in rest ==> d in chs[1..]
    ensures UniqueIds([c] + rest)
  {
    var r := [c] + rest;
    forall i, j | 0 <= i < j < |r| ensures r[i].channelId != r[j].channelId {
      if i == 0 {
        assert r[j] == rest[j - 1] && r[j] in chs[1..];
        var k :| 0 <= k < |chs[1..]| && chs[1..][k] == r[j];
        assert chs[k + 1] == r[j];
      } else {
        assert r[i] == rest[i - 1] && r[j] == rest[j - 1];
      }
    }
  }

  /** Two collections holding the same documents up to fields that no filter of the model
      looks at: same ids, same `is_active`, same `country_code`, position by position. */
  predicate SameShape(a: seq<Channel>, b: seq<Channel>)
  {
    |a| == |b| &&
    forall k :: 0 <= k < |a| ==>
      a[k].channelId == b[k].channelId && a[k].isActive == b[k].isActive && a[k].countryCode == b[k].countryCode
  }

  /** Updates that leave ids alone keep them unique. */
  lemma SameShapeUnique(a: seq<Channel>, b: seq<Channel>)
    requires SameShape(a, b) && UniqueIds(b)
    ensures UniqueIds(a)
  {
    forall i, j | 0 <= i < j < |a| ensures a[i].channelId != a[j].channelId {
      assert a[i].channelId == b[i].channelId && a[j].channelId == b[j].channelId;
    }
  }

  /** Updates that leave ids, activity and country alone do not change who is counted per country. */
  lemma {:induction false} SameShapeSameActiveIn(a: seq<Channel>, b: seq<Channel>, code: string)
    requires SameShape(a, b)
    ensures |ActiveIn(a, code)| == |ActiveIn(b, code)|
  {
    if a != [] {
      assert SameShape(a[1..], b[1..]);
      SameShapeSameActiveIn(a[1..], b[1..], code);
    }
  }

  lemma {:induction false} SameShapeSameActive(a: seq<Channel>, b: seq<Channel>)
    requires SameShape(a, b)
    ensures |Active(a)| == |Active(b)|
  {
    if a != [] {
      assert SameShape(a[1..], b[1..]);
      SameShapeSameActive(a[1..], b[1..]);
    }
  }

  /** `delete_many({"channel_id": id})` on snapshots. */
  function DropSnapshots(ss: seq<Snapshot>, id: string): (r: seq<Snapshot>)
    ensures |r| <= |ss|
    ensures forall s :: s in r <==> s in ss && s.channelId != id
  {
    if ss == [] then []
    else if ss[0].channelId == id then DropSnapshots(ss[1..], id)
    else [ss[0]] + DropSnapshots(ss[1..], id)
  }

  /** `delete_many({"channel_id": id})` on rank history. */
  function DropHistory(hs: seq<RankEntry>, id: string): (r: seq<RankEntry>)
    ensures |r| <= |hs|
    ensures forall h :: h in r <==> h in hs && h.channelId != id
  {
    if hs == [] then []
    else if hs[0].channelId == id then DropHistory(hs[1..], id)
    else [hs[0]] + DropHistory(hs[1..], id)
  }

  /** `delete_one({"channel_id": id})`: removes the first document with that id. */
  function DeleteFirst(chs: seq<Channel>, id: string): (r: seq<Channel>)
    ensures HasChannel(chs, id) ==> |r| == |chs| - 1
    ensures !HasChannel(chs, id) ==> r == chs
    ensures forall c :: c in r ==> c in chs
  {
    if chs == [] then []
    else if chs[0].channelId == id then chs[1..]
    else
      assert HasChannel(chs[1..], id) <==> HasChannel(chs, id) by {
        if HasChannel(chs, id) {
          var i :| 0 <= i < |chs| && chs[i].channelId == id;
          assert i > 0 && chs[1..][i - 1] == chs[i];
        }
        if HasChannel(chs[1..], id) {
          var i :| 0 <= i < |chs[1..]| && chs[1..][i].channelId == id;
          assert chs[i + 1] == chs[1..][i];
        }
      }
      [chs[0]] + DeleteFirst(chs[1..], id)
  }

  /** The backend's database: one field per collection. */
  class Database {
    var countries: seq<Country>
    var channels: seq<Channel>
    var stats: seq<Snapshot>
    var rankHistory: seq<RankEntry>
    var scheduler: Option<SchedulerRecord>

    /** The unique index on `channel_id`. */
    predicate Valid()
      reads this
    {
      UniqueIds(channels)
    }

    constructor ()
      ensures Valid()
      ensures countries == [] && channels == [] && stats == [] && rankHistory == []
      ensures scheduler == None
    {
      countries := [];
      channels := [];
      stats := [];
      rankHistory := [];
      scheduler := None;
    }
  }
}
