/** `backend/services/scheduler_service.py`: the background jobs run one after another, each
    guarded by a busy flag that makes an overlapping run return at once; the flags are modelled
    as a sequential skip/clear state machine. The YouTube batch call is the parameter `api`,
    the clock the parameter `now`. */
module Scheduler {
  import opened Wrappers
  import opened Store
  import opened Sorting
  import opened Ranking

  /** The `to_list(1000)` cap on the active-channel queries. */
  const ChannelCap: nat := 1000

  /** How a call of `refresh_all_channels` ended. */
  datatype RefreshOutcome =
    | Skipped          // another refresh was in progress
    | NoChannels       // no active channel to refresh
    | Failed(error: string)   // the YouTube call raised; the exception is logged
    | Refreshed(count: nat)

  /** The ids of the channels a job works on: the first 1000 active channels. */
  function ActiveIds(chs: seq<Channel>): (r: seq<string>)
    ensures |r| == |Take(Active(chs), ChannelCap)|
    ensures forall i :: 0 <= i < |r| ==> r[i] == Take(Active(chs), ChannelCap)[i].channelId
  {
    var cs := Take(Active(chs), ChannelCap);
    seq(|cs|, i requires 0 <= i < |cs| => cs[i].channelId)
  }

  /** The `$set` of `refresh_all_channels` on the document of a fetched channel. */
  function WithFetched(c: Channel, d: ChannelData, now: Time): Channel
  {
    c.(title := d.title, description := d.description, thumbnailUrl := d.thumbnailUrl,
       subscriberCount := d.subscriberCount, viewCount := d.viewCount, videoCount := d.videoCount,
       updatedAt := now)
  }

  /** `update_one({"channel_id": d.channel_id}, {"$set": ...})` for one fetched record. */
  function ApplyFetched(chs: seq<Channel>, d: ChannelData, now: Time): (r: seq<Channel>)
    ensures |r| == |chs|
    ensures forall k :: 0 <= k < |chs| ==>
      r[k] == (if chs[k].channelId == d.channelId then WithFetched(chs[k], d, now) else chs[k])
  {
    seq(|chs|, k requires 0 <= k < |chs| => if chs[k].channelId == d.channelId then WithFetched(chs[k], d, now) else chs[k])
  }

  /** The channels collection after the updates for the records `ds`, in order. */
  function ApplyAllFetched(chs: seq<Channel>, ds: seq<ChannelData>, now: Time): (r: seq<Channel>)
    ensures SameShape(r, chs)
  {
    if ds == [] then chs
    else
      var prev := ApplyAllFetched(chs, ds[..|ds| - 1], now);
      var r := ApplyFetched(prev, ds[|ds| - 1], now);
      assert SameShape(r, prev);
      SameShapeTrans(r, prev, chs);
      r
  }

  /** The stats snapshot stored for a fetched record. */
  function FetchedSnapshot(d: ChannelData, now: Time): Snapshot
  {
    Snapshot(d.channelId, d.subscriberCount, d.viewCount, d.videoCount, now)
  }

  /** One snapshot per fetched record, in order. */
  function FetchedSnapshots(ds: seq<ChannelData>, now: Time): (r: seq<Snapshot>)
    ensures |r| == |ds|
    ensures forall i :: 0 <= i < |ds| ==> r[i] == FetchedSnapshot(ds[i], now)
  {
    if ds == [] then [] else FetchedSnapshots(ds[..|ds| - 1], now) + [FetchedSnapshot(ds[|ds| - 1], now)]
  }

  /** Every fetched record yields exactly one snapshot with its counts, and nothing else does. */
  lemma {:induction false} SnapshotPerRecord(ds: seq<ChannelData>, now: Time)
    ensures forall s :: s in FetchedSnapshots(ds, now) <==> exists i :: 0 <= i < |ds| && s == FetchedSnapshot(ds[i], now)
    ensures forall s :: s in FetchedSnapshots(ds, now) ==> s.timestamp == now
  {
    var r := FetchedSnapshots(ds, now);
    forall s | s in r ensures exists i :: 0 <= i < |ds| && s == FetchedSnapshot(ds[i], now) {
      var i :| 0 <= i < |r| && r[i] == s;
      assert s == FetchedSnapshot(ds[i], now);
    }
    forall i | 0 <= i < |ds| ensures FetchedSnapshot(ds[i], now) in r {
      assert r[i] == FetchedSnapshot(ds[i], now);
    }
  }

  /** A refreshed channel holds the counts of the last record fetched for it. */
  lemma {:induction false} FetchedCountsStick(chs: seq<Channel>, ds: seq<ChannelData>, now: Time, k: nat, i: nat)
    requires k < |chs| && i < |ds| && ds[i].channelId == chs[k].channelId
    requires forall j :: i < j < |ds| ==> ds[j].channelId != chs[k].channelId
    ensures ApplyAllFetched(chs, ds, now)[k] == WithFetched(ApplyAllFetched(chs, ds[..i], now)[k], ds[i], now)
  {
    if i < |ds| - 1 {
      var front := ds[..|ds| - 1];
      assert front[..i] == ds[..i];
      FetchedCountsStick(chs, front, now, k, i);
      assert ApplyAllFetched(chs, ds, now)[k] == ApplyAllFetched(chs, front, now)[k];
    } else {
      assert ds[..|ds| - 1] == ds[..i];
    }
  }

  /** The loop of `refresh_all_channels` over the fetched records: each record's fields are
      written to its channel document, a snapshot is stored, and the count goes up by one. */
  method StoreFetched(chs: seq<Channel>, stats: seq<Snapshot>, results: seq<ChannelData>, now: Time)
    returns (newChs: seq<Channel>, newStats: seq<Snapshot>, updatedCount: nat)
    ensures newChs == ApplyAllFetched(chs, results, now)
    ensures newStats == stats + FetchedSnapshots(results, now)
    ensures updatedCount == |results|
  {
    newChs, newStats := chs, stats;
    updatedCount := 0;
    while updatedCount < |results|
      invariant 0 <= updatedCount <= |results|
      invariant newChs == ApplyAllFetched(chs, results[..updatedCount], now)
      invariant newStats == stats + FetchedSnapshots(results[..updatedCount], now)
    {
      var d := results[updatedCount];
      assert results[..updatedCount + 1][..updatedCount] == results[..updatedCount];
      newChs := ApplyFetched(newChs, d, now);
      newStats := newStats + [FetchedSnapshot(d, now)];
      updatedCount := updatedCount + 1;
    }
    assert results[..|results|] == results;
  }

  /** The loop of `record_stats_snapshot`: one snapshot per channel, all with timestamp `now`. */
  method StoreSnapshots(stats: seq<Snapshot>, channels: seq<Channel>, now: Time) returns (newStats: seq<Snapshot>)
    ensures newStats == stats + ChannelSnapshots(channels, now)
  {
    newStats := stats;
    var i := 0;
    while i < |channels|
      invariant 0 <= i <= |channels|
      invariant newStats == stats + ChannelSnapshots(channels[..i], now)
    {
      assert channels[..i + 1][..i] == channels[..i];
      newStats := newStats + [ChannelSnapshot(channels[i], now)];
      i := i + 1;
    }
    assert channels[..|channels|] == channels;
  }

  /** The `$set` with `upsert=True` on the scheduler status document. */
  function EmptyRecord(): SchedulerRecord { SchedulerRecord(None, None, None, None) }

  function RecordRefresh(rec: Option<SchedulerRecord>, now: Time, count: nat): (r: SchedulerRecord)
    ensures r.lastChannelRefresh == Some(now) && r.channelsRefreshed == Some(count)
    ensures r.lastRankingUpdate == rec.GetOr(EmptyRecord()).lastRankingUpdate
    ensures r.lastStatsSnapshot == rec.GetOr(EmptyRecord()).lastStatsSnapshot
  {
    rec.GetOr(EmptyRecord()).(lastChannelRefresh := Some(now), channelsRefreshed := Some(count))
  }

  function RecordRanking(rec: Option<SchedulerRecord>, now: Time): (r: SchedulerRecord)
    ensures r.lastRankingUpdate == Some(now)
    ensures r.lastChannelRefresh == rec.GetOr(EmptyRecord()).lastChannelRefresh
    ensures r.channelsRefreshed == rec.GetOr(EmptyRecord()).channelsRefreshed
    ensures r.lastStatsSnapshot == rec.GetOr(EmptyRecord()).lastStatsSnapshot
  {
    rec.GetOr(EmptyRecord()).(lastRankingUpdate := Some(now))
  }

  function RecordSnapshot(rec: Option<SchedulerRecord>, now: Time): (r: SchedulerRecord)
    ensures r.lastStatsSnapshot == Some(now)
    ensures r.lastChannelRefresh == rec.GetOr(EmptyRecord()).lastChannelRefresh
    ensures r.channelsRefreshed == rec.GetOr(EmptyRecord()).channelsRefreshed
    ensures r.lastRankingUpdate == rec.GetOr(EmptyRecord()).lastRankingUpdate
  {
    rec.GetOr(EmptyRecord()).(lastStatsSnapshot := Some(now))
  }

  /** The snapshot `record_stats_snapshot` stores for a channel document. */
  function ChannelSnapshot(c: Channel, now: Time): Snapshot
  {
    Snapshot(c.channelId, c.subscriberCount, c.viewCount, c.videoCount, now)
  }

  /** One snapshot per channel of `cs`, in order, all with the same timestamp. */
  function ChannelSnapshots(cs: seq<Channel>, now: Time): (r: seq<Snapshot>)
    ensures |r| == |cs|
    ensures forall i :: 0 <= i < |cs| ==> r[i] == ChannelSnapshot(cs[i], now)
  {
    if cs == [] then [] else ChannelSnapshots(cs[..|cs| - 1], now) + [ChannelSnapshot(cs[|cs| - 1], now)]
  }

  /** The global pass: `_update_global_rankings` over the collection `chs`. */
  function GlobalPass(chs: seq<Channel>): (r: seq<Channel>)
    ensures SameShape(r, chs)
  {
    var ranked := GlobalRanked(chs);
    AppliedShape(chs, ranked, |ranked|, None);
    Applied(chs, ranked, |ranked|, None)
  }

  function GlobalPassRows(chs: seq<Channel>, now: Time): seq<RankEntry>
  {
    var ranked := GlobalRanked(chs);
    HistoryOf(ranked, |ranked|, GlobalScope, now)
  }

  /** `_update_global_rankings`: every globally ranked channel gets its position as
      `current_rank` and its old rank as `previous_rank`, leaving `rank_updated_at` alone;
      every other document is untouched. */
  lemma GlobalPassOutcome(chs: seq<Channel>)
    requires UniqueIds(chs)
    ensures var ranked := GlobalRanked(chs);
      forall k, j :: 0 <= k < |chs| && 0 <= j < |ranked| && ranked[j] == chs[k] ==>
        GlobalPass(chs)[k] == WithRank(chs[k], j + 1, OldRank(chs[k], j + 1), None)
    ensures forall k :: 0 <= k < |chs| && chs[k] !in GlobalRanked(chs) ==> GlobalPass(chs)[k] == chs[k]
    ensures forall k :: 0 <= k < |chs| ==> GlobalPass(chs)[k].rankUpdatedAt == chs[k].rankUpdatedAt
  {
    var ranked := GlobalRanked(chs);
    GlobalRankedMembers(chs);
    RankedOutcome(chs, ranked, None);
    UnrankedOutcome(chs, ranked, None);
    forall k | 0 <= k < |chs| ensures GlobalPass(chs)[k].rankUpdatedAt == chs[k].rankUpdatedAt {
      AppliedAt(chs, ranked, |ranked|, None, k);
    }
  }

  /** The global pass logs a row exactly for the channels whose stored rank differs from their
      position, recording `change` and no country. */
  lemma GlobalRowsExactlyMoved(chs: seq<Channel>, now: Time)
    ensures var ranked := GlobalRanked(chs);
      |GlobalPassRows(chs, now)| == |ChangesOf(ranked, |ranked|, now)| &&
      forall p :: 0 <= p < |GlobalPassRows(chs, now)| ==>
        GlobalPassRows(chs, now)[p].countryCode == None &&
        GlobalPassRows(chs, now)[p].change == Some(GlobalPassRows(chs, now)[p].oldRank - GlobalPassRows(chs, now)[p].newRank) &&
        GlobalPassRows(chs, now)[p].oldRank != GlobalPassRows(chs, now)[p].newRank
  {
    var ranked := GlobalRanked(chs);
    HistoryMatchesChanges(ranked, |ranked|, GlobalScope, now);
    ChangesExactlyMoved(ranked, |ranked|, now);
    forall p | 0 <= p < |GlobalPassRows(chs, now)|
      ensures GlobalPassRows(chs, now)[p].oldRank != GlobalPassRows(chs, now)[p].newRank
    {
      assert ChangesOf(ranked, |ranked|, now)[p] in ChangesOf(ranked, |ranked|, now);
    }
  }

  /** What `get_scheduler_status` reports (the job list and `is_running` are left out). */
  datatype Status = Status(
    isRefreshing: bool,
    isRanking: bool,
    lastChannelRefresh: Option<Time>,
    lastRankingUpdate: Option<Time>,
    channelsRefreshed: int)

  class SchedulerService {
    const db: Database
    const ranking: RankingService
    var isRefreshing: bool
    var isRanking: bool

    constructor (db: Database, ranking: RankingService)
      requires ranking.db == db
      ensures this.db == db && this.ranking == ranking
      ensures !isRefreshing && !isRanking
    {
      this.db := db;
      this.ranking := ranking;
      isRefreshing := false;
      isRanking := false;
    }

    /** `refresh_all_channels`: fetches the active channels from YouTube, writes the fetched
        fields back, stores one snapshot per fetched record and records the count. */
    method RefreshAllChannels(api: seq<string> -> Result<seq<ChannelData>, string>, now: Time)
      returns (outcome: RefreshOutcome)
      requires db.Valid()
      modifies this`isRefreshing, db`channels, db`stats, db`scheduler
      ensures db.Valid()
      ensures old(isRefreshing) ==> outcome == Skipped && isRefreshing
      ensures !old(isRefreshing) ==> !isRefreshing
      ensures outcome.Skipped? || outcome.NoChannels? || outcome.Failed? ==>
        db.channels == old(db.channels) && db.stats == old(db.stats) && db.scheduler == old(db.scheduler)
      ensures !old(isRefreshing) ==> (outcome == NoChannels <==> Active(old(db.channels)) == [])
      ensures !old(isRefreshing) && Active(old(db.channels)) != [] ==>
        match api(ActiveIds(old(db.channels)))
        case Err(e) => outcome == Failed(e)
        case Ok(results) =>
          outcome == Refreshed(|results|) &&
          db.channels == ApplyAllFetched(old(db.channels), results, now) &&
          db.stats == old(db.stats) + FetchedSnapshots(results, now) &&
          db.scheduler == Some(RecordRefresh(old(db.scheduler), now, |results|))
    {
      if isRefreshing {
        return Skipped;
      }
      isRefreshing := true;
      var ids := ActiveIds(db.channels);
      if |ids| == 0 {
        isRefreshing := false;
        return NoChannels;
      }
      var fetched := api(ids);
      if fetched.Err? {
        isRefreshing := false;
        return Failed(fetched.error);
      }
      var results := fetched.value;
      var channels, stats, updatedCount := StoreFetched(db.channels, db.stats, results, now);
      SameShapeUnique(channels, db.channels);
      db.channels, db.stats := channels, stats;
      db.scheduler := Some(RecordRefresh(db.scheduler, now, updatedCount));
      isRefreshing := false;
      outcome := Refreshed(updatedCount);
    }

    /** `_update_global_rankings`: the rank loop over all active channels, highest first. */
    method UpdateGlobalRankings(now: Time)
      requires db.Valid()
      modifies db`channels, db`rankHistory
      ensures db.Valid()
      ensures db.channels == GlobalPass(old(db.channels))
      ensures db.rankHistory == old(db.rankHistory) + GlobalPassRows(old(db.channels), now)
    {
      var ranked := GlobalRanked(db.channels);
      var chs, rows, changes := RankPass(db.channels, ranked, GlobalScope, None, now);
      assert chs == GlobalPass(db.channels);
      SameShapeUnique(chs, db.channels);
      db.channels := chs;
      db.rankHistory := db.rankHistory + rows;
    }

    /** `update_all_rankings` of the scheduler: the per-country passes (at most 300 countries),
        then the global pass, then the status record. */
    method UpdateAllRankings(now: Time)
      requires db.Valid() && ranking.db == db
      modifies this`isRanking, db`channels, db`rankHistory, db`scheduler
      ensures db.Valid()
      ensures old(isRanking) ==> isRanking && unchanged(db)
      ensures !old(isRanking) ==> !isRanking
      ensures !old(isRanking) ==>
        var codes := CodesOf(Take(old(db.countries), CountryCap));
        var afterCountries := CountryPasses(old(db.channels), codes, now);
        db.channels == GlobalPass(afterCountries) &&
        db.rankHistory == CountryRows(old(db.rankHistory), old(db.channels), codes, now) + GlobalPassRows(afterCountries, now) &&
        db.scheduler == Some(RecordRanking(old(db.scheduler), now))
    {
      if isRanking {
        return;
      }
      isRanking := true;
      var _, _, _ := ranking.UpdateAllRankings(now);
      UpdateGlobalRankings(now);
      db.scheduler := Some(RecordRanking(db.scheduler, now));
      isRanking := false;
    }

    /** `record_stats_snapshot`: one snapshot per active channel (at most 1000), all stamped
        with the same time, and the time recorded in the status document. */
    method RecordStatsSnapshot(now: Time)
      modifies db`stats, db`scheduler
      ensures db.stats == old(db.stats) + ChannelSnapshots(Take(Active(db.channels), ChannelCap), now)
      ensures db.scheduler == Some(RecordSnapshot(old(db.scheduler), now))
    {
      var channels := Take(Active(db.channels), ChannelCap);
      db.stats := StoreSnapshots(db.stats, channels, now);
      db.scheduler := Some(RecordSnapshot(db.scheduler, now));
    }

    /** `get_scheduler_status`: without a status document the timestamps are absent and the
        refreshed count is 0. */
    method GetSchedulerStatus() returns (s: Status)
      ensures s.isRefreshing == isRefreshing && s.isRanking == isRanking
      ensures db.scheduler.None? ==> s.lastChannelRefresh.None? && s.lastRankingUpdate.None? && s.channelsRefreshed == 0
      ensures db.scheduler.Some? ==>
        s.lastChannelRefresh == db.scheduler.value.lastChannelRefresh &&
        s.lastRankingUpdate == db.scheduler.value.lastRankingUpdate &&
        s.channelsRefreshed == db.scheduler.value.channelsRefreshed.GetOr(0)
    {
      match db.scheduler
      case None =>
        s := Status(isRefreshing, isRanking, None, None, 0);
      case Some(rec) =>
        s := Status(isRefreshing, isRanking, rec.lastChannelRefresh, rec.lastRankingUpdate, rec.channelsRefreshed.GetOr(0));
    }
  }
}
