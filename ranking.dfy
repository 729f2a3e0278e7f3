/** The ranking engine of `backend/services/ranking_service.py` and the global pass of the
    scheduler: channels ordered by subscribers, highest first, given 1-based positional ranks;
    a rank change is recorded when the stored rank differs from the new one. */
module Ranking {
  import opened Wrappers
  import opened Store
  import opened Sorting

  /** The `to_list(1000)` cap on every ranking query. */
  const FetchCap: nat := 1000
  /** The `to_list(300)` cap on the countries query. */
  const CountryCap: nat := 300

  /** A channel with the `rank` (or `global_rank`) key the source attaches to it. */
  datatype RankedChannel = RankedChannel(channel: Channel, rank: int)

  /** An entry of the `changes` list `update_rankings` returns. */
  datatype RankChange = RankChange(
    channelId: string,
    channelName: string,
    oldRank: int,
    newRank: int,
    change: int,
    timestamp: Time)

  /** Which pass wrote a rank-history row. */
  datatype Scope = CountryScope(code: string) | GlobalScope

  /** `update_rankings`' list: the first 1000 active channels of the country in natural order,
      then sorted in memory by subscribers, highest first (Python's stable sort). */
  function CountryRanked(chs: seq<Channel>, code: string): seq<Channel>
  {
    SortDesc(Take(ActiveIn(chs, code), FetchCap), Subs)
  }

  /** `_update_global_rankings`' and `get_global_top_100`'s list: every active channel sorted by
      subscribers, highest first, then cut at 1000. */
  function GlobalRanked(chs: seq<Channel>): seq<Channel>
  {
    Take(SortDesc(Active(chs), Subs), FetchCap)
  }

  /** `channel.get("current_rank", new_rank)`: a channel with no stored rank counts as unmoved. */
  function OldRank(c: Channel, newRank: int): int
  {
    c.currentRank.GetOr(newRank)
  }

  /** The channel at position `j` (0-based) moves when its stored rank differs from `j + 1`. */
  predicate Moved(ranked: seq<Channel>, j: nat)
    requires j < |ranked|
  {
    OldRank(ranked[j], j + 1) != j + 1
  }

  function ChangeAt(ranked: seq<Channel>, j: nat, now: Time): RankChange
    requires j < |ranked|
  {
    var oldRank := OldRank(ranked[j], j + 1);
    RankChange(ranked[j].channelId, ranked[j].title, oldRank, j + 1, oldRank - (j + 1), now)
  }

  /** The `changes` list after the first `i` positions: one entry per moved channel, in rank order. */
  function ChangesOf(ranked: seq<Channel>, i: nat, now: Time): (r: seq<RankChange>)
    requires i <= |ranked|
    ensures |r| <= i
  {
    if i == 0 then []
    else ChangesOf(ranked, i - 1, now) + (if Moved(ranked, i - 1) then [ChangeAt(ranked, i - 1, now)] else [])
  }

  /** A change entry is recorded exactly for the channels whose rank differs, and its `change`
      is old rank minus new rank, so a positive value means the channel moved up. */
  lemma {:induction false} ChangesExactlyMoved(ranked: seq<Channel>, i: nat, now: Time)
    requires i <= |ranked|
    ensures forall e :: e in ChangesOf(ranked, i, now) <==>
      exists j :: 0 <= j < i && Moved(ranked, j) && e == ChangeAt(ranked, j, now)
    ensures forall e :: e in ChangesOf(ranked, i, now) ==>
      e.oldRank != e.newRank && e.change == e.oldRank - e.newRank && 1 <= e.newRank <= i
  {
    if i > 0 {
      ChangesExactlyMoved(ranked, i - 1, now);
    }
  }

  /** The rank-history row the pass writes for a moved channel. */
  function EntryAt(ranked: seq<Channel>, j: nat, scope: Scope, now: Time): RankEntry
    requires j < |ranked|
  {
    var oldRank := OldRank(ranked[j], j + 1);
    match scope
    case CountryScope(code) => RankEntry(ranked[j].channelId, Some(code), oldRank, j + 1, None, now)
    case GlobalScope => RankEntry(ranked[j].channelId, None, oldRank, j + 1, Some(oldRank - (j + 1)), now)
  }

  /** The rows appended to `rank_history` after the first `i` positions. */
  function HistoryOf(ranked: seq<Channel>, i: nat, scope: Scope, now: Time): (r: seq<RankEntry>)
    requires i <= |ranked|
    ensures |r| == |ChangesOf(ranked, i, now)|
  {
    if i == 0 then []
    else HistoryOf(ranked, i - 1, scope, now) + (if Moved(ranked, i - 1) then [EntryAt(ranked, i - 1, scope, now)] else [])
  }

  /** Exactly one rank-history row is written per change entry, with the same channel and ranks;
      the global pass stores `change` and no country, the country pass the reverse. */
  lemma {:induction false} HistoryMatchesChanges(ranked: seq<Channel>, i: nat, scope: Scope, now: Time)
    requires i <= |ranked|
    ensures forall p :: 0 <= p < |HistoryOf(ranked, i, scope, now)| ==>
      var e := ChangesOf(ranked, i, now)[p];
      var h := HistoryOf(ranked, i, scope, now)[p];
      h.channelId == e.channelId && h.oldRank == e.oldRank && h.newRank == e.newRank && h.timestamp == now &&
      (scope.GlobalScope? ==> h.change == Some(e.change) && h.countryCode == None) &&
      (scope.CountryScope? ==> h.change == None && h.countryCode == Some(scope.code))
  {
    if i > 0 {
      HistoryMatchesChanges(ranked, i - 1, scope, now);
      var prevH := HistoryOf(ranked, i - 1, scope, now);
      var prevC := ChangesOf(ranked, i - 1, now);
      forall p | 0 <= p < |HistoryOf(ranked, i, scope, now)|
        ensures var e := ChangesOf(ranked, i, now)[p];
          var h := HistoryOf(ranked, i, scope, now)[p];
          h.channelId == e.channelId && h.oldRank == e.oldRank && h.newRank == e.newRank && h.timestamp == now &&
          (scope.GlobalScope? ==> h.change == Some(e.change) && h.countryCode == None) &&
          (scope.CountryScope? ==> h.change == None && h.countryCode == Some(scope.code))
      {
        if p < |prevH| {
          assert HistoryOf(ranked, i, scope, now)[p] == prevH[p];
          assert ChangesOf(ranked, i, now)[p] == prevC[p];
        }
      }
    }
  }

  /** The `$set` of the ranking passes: `current_rank`, `previous_rank` and, for the per-country
      pass only (`stamp` present), `rank_updated_at`. */
  function WithRank(c: Channel, newRank: int, oldRank: int, stamp: Option<Time>): Channel
  {
    c.(currentRank := Some(newRank), previousRank := Some(oldRank),
       rankUpdatedAt := if stamp.Some? then stamp else c.rankUpdatedAt)
  }

  /** The `update_one` for position `j`, applied to every document with that channel's id. */
  function SetRankAt(chs: seq<Channel>, ranked: seq<Channel>, j: nat, stamp: Option<Time>): (r: seq<Channel>)
    requires j < |ranked|
    ensures |r| == |chs|
    ensures forall k :: 0 <= k < |chs| ==>
      r[k] == (if chs[k].channelId == ranked[j].channelId then WithRank(chs[k], j + 1, OldRank(ranked[j], j + 1), stamp) else chs[k])
  {
    seq(|chs|, k requires 0 <= k < |chs| =>
      if chs[k].channelId == ranked[j].channelId then WithRank(chs[k], j + 1, OldRank(ranked[j], j + 1), stamp)
      else chs[k])
  }

  /** The channels collection after the rank writes for the first `i` positions. */
  function Applied(chs: seq<Channel>, ranked: seq<Channel>, i: nat, stamp: Option<Time>): (r: seq<Channel>)
    requires i <= |ranked|
    ensures |r| == |chs|
  {
    if i == 0 then chs else SetRankAt(Applied(chs, ranked, i - 1, stamp), ranked, i - 1, stamp)
  }

  /** Rank writes touch neither ids, activity, country nor subscriber counts. */
  lemma {:induction false} AppliedShape(chs: seq<Channel>, ranked: seq<Channel>, i: nat, stamp: Option<Time>)
    requires i <= |ranked|
    ensures SameShape(Applied(chs, ranked, i, stamp), chs)
    ensures forall k :: 0 <= k < |chs| ==> Applied(chs, ranked, i, stamp)[k].subscriberCount == chs[k].subscriberCount
  {
    if i > 0 {
      AppliedShape(chs, ranked, i - 1, stamp);
    }
  }

  /** The last position before `i` holding a channel with id `id`. */
  function LastPos(ranked: seq<Channel>, id: string, i: nat): (r: Option<nat>)
    requires i <= |ranked|
    ensures r.None? <==> forall j :: 0 <= j < i ==> ranked[j].channelId != id
    ensures r.Some? ==> r.value < i && ranked[r.value].channelId == id
    ensures r.Some? ==> forall j :: r.value < j < i ==> ranked[j].channelId != id
  {
    if i == 0 then None
    else if ranked[i - 1].channelId == id then Some(i - 1)
    else LastPos(ranked, id, i - 1)
  }

  /** What one document looks like after the writes for the first `i` positions. */
  function Expected(c: Channel, ranked: seq<Channel>, i: nat, stamp: Option<Time>): Channel
    requires i <= |ranked|
  {
    match LastPos(ranked, c.channelId, i)
    case None => c
    case Some(j) => WithRank(c, j + 1, OldRank(ranked[j], j + 1), stamp)
  }

  /** Each document ends as the last rank write for its id left it: the writes set fields to
      constants, so a later write to the same document replaces an earlier one. */
  lemma {:induction false} AppliedAt(chs: seq<Channel>, ranked: seq<Channel>, i: nat, stamp: Option<Time>, k: nat)
    requires i <= |ranked| && k < |chs|
    ensures Applied(chs, ranked, i, stamp)[k] == Expected(chs[k], ranked, i, stamp)
  {
    if i > 0 {
      var c := chs[k];
      var prev := Applied(chs, ranked, i - 1, stamp);
      AppliedAt(chs, ranked, i - 1, stamp, k);
      assert prev[k].channelId == c.channelId;
      if ranked[i - 1].channelId == c.channelId {
        var o := OldRank(ranked[i - 1], i);
        assert Applied(chs, ranked, i, stamp)[k] == WithRank(prev[k], i, o, stamp);
        assert LastPos(ranked, c.channelId, i) == Some(i - 1);
        assert Expected(c, ranked, i, stamp) == WithRank(c, i, o, stamp);
        var lp := LastPos(ranked, c.channelId, i - 1);
        if lp.Some? {
          var j := lp.value;
          assert Expected(c, ranked, i - 1, stamp) == WithRank(c, j + 1, OldRank(ranked[j], j + 1), stamp);
          RankOverwrites(c, j + 1, OldRank(ranked[j], j + 1), i, o, stamp);
        }
      } else {
        assert Applied(chs, ranked, i, stamp)[k] == prev[k];
        assert LastPos(ranked, c.channelId, i) == LastPos(ranked, c.channelId, i - 1);
      }
    }
  }

  /** A rank write replaces whatever an earlier rank write of the same pass left. */
  lemma RankOverwrites(c: Channel, n1: int, o1: int, n2: int, o2: int, stamp: Option<Time>)
    ensures WithRank(WithRank(c, n1, o1, stamp), n2, o2, stamp) == WithRank(c, n2, o2, stamp)
  {
  }

  /** In a list without repeated ids, the last position of `ranked[j]`'s id is `j`. */
  lemma {:induction false} LastPosDistinct(ranked: seq<Channel>, j: nat, i: nat)
    requires KeyDistinct(ranked, IdOf)
    requires j < i <= |ranked|
    ensures LastPos(ranked, ranked[j].channelId, i) == Some(j)
  {
    if i - 1 != j {
      assert IdOf(ranked[j]) != IdOf(ranked[i - 1]);
      LastPosDistinct(ranked, j, i - 1);
    }
  }

  /** The outcome of a full ranking pass over `ranked`, drawn without repeated ids from a
      collection with unique ids: the channel at position `j` ends with `current_rank = j + 1`
      and `previous_rank` = its old rank. */
  lemma RankedOutcome(chs: seq<Channel>, ranked: seq<Channel>, stamp: Option<Time>)
    requires UniqueIds(chs) && KeyDistinct(ranked, IdOf)
    requires forall c :: c in ranked ==> c in chs
    ensures forall k, j :: 0 <= k < |chs| && 0 <= j < |ranked| && ranked[j].channelId == chs[k].channelId ==>
      chs[k] == ranked[j] &&
      Applied(chs, ranked, |ranked|, stamp)[k] == WithRank(chs[k], j + 1, OldRank(chs[k], j + 1), stamp)
  {
    forall k, j | 0 <= k < |chs| && 0 <= j < |ranked| && ranked[j].channelId == chs[k].channelId {
      RankedAt(chs, ranked, stamp, k, j);
    }
  }

  lemma RankedAt(chs: seq<Channel>, ranked: seq<Channel>, stamp: Option<Time>, k: nat, j: nat)
    requires UniqueIds(chs) && KeyDistinct(ranked, IdOf)
    requires forall c :: c in ranked ==> c in chs
    requires k < |chs| && j < |ranked| && ranked[j].channelId == chs[k].channelId
    ensures chs[k] == ranked[j]
    ensures Applied(chs, ranked, |ranked|, stamp)[k] == WithRank(chs[k], j + 1, OldRank(chs[k], j + 1), stamp)
  {
    assert ranked[j] in chs;
    var k' :| 0 <= k' < |chs| && chs[k'] == ranked[j];
    assert k' == k;
    LastPosDistinct(ranked, j, |ranked|);
    AppliedAt(chs, ranked, |ranked|, stamp, k);
    assert Expected(chs[k], ranked, |ranked|, stamp) == WithRank(chs[k], j + 1, OldRank(ranked[j], j + 1), stamp);
  }

  /** Every document whose channel is not in the ranked list is left as it was. */
  lemma UnrankedOutcome(chs: seq<Channel>, ranked: seq<Channel>, stamp: Option<Time>)
    requires UniqueIds(chs)
    requires forall c :: c in ranked ==> c in chs
    ensures forall k :: 0 <= k < |chs| && chs[k] !in ranked ==> Applied(chs, ranked, |ranked|, stamp)[k] == chs[k]
  {
    forall k | 0 <= k < |chs| && chs[k] !in ranked ensures Applied(chs, ranked, |ranked|, stamp)[k] == chs[k] {
      forall j | 0 <= j < |ranked| ensures ranked[j].channelId != chs[k].channelId {
        assert ranked[j] in chs;
        var k' :| 0 <= k' < |chs| && chs[k'] == ranked[j];
        assert k' != k;
      }
      AppliedAt(chs, ranked, |ranked|, stamp, k);
    }
  }

  /** The per-country list has no repeated id and holds only active channels of that country;
      below the 1000 cap it holds all of them. */
  lemma CountryRankedMembers(chs: seq<Channel>, code: string)
    requires UniqueIds(chs)
    ensures KeyDistinct(CountryRanked(chs, code), IdOf)
    ensures NonIncreasing(CountryRanked(chs, code), Subs)
    ensures forall c :: c in CountryRanked(chs, code) ==> c in chs && InCountry(c, code)
    ensures |ActiveIn(chs, code)| <= FetchCap ==>
      forall c :: c in chs && InCountry(c, code) ==> c in CountryRanked(chs, code)
  {
    var active := ActiveIn(chs, code);
    var fetched := Take(active, FetchCap);
    ActiveInKeepsUnique(chs, code);
    assert KeyDistinct(active, IdOf);
    TakeKeepsDistinct(active, FetchCap, IdOf);
    SortDescKeepsDistinct(fetched, Subs, IdOf);
    SortDescMembers(fetched, Subs);
  }

  /** The global list has no repeated id and holds only active channels, highest first. */
  lemma GlobalRankedMembers(chs: seq<Channel>)
    requires UniqueIds(chs)
    ensures KeyDistinct(GlobalRanked(chs), IdOf)
    ensures NonIncreasing(GlobalRanked(chs), Subs)
    ensures forall c :: c in GlobalRanked(chs) ==> c in chs && c.isActive
    ensures |Active(chs)| <= FetchCap ==> forall c :: c in chs && c.isActive ==> c in GlobalRanked(chs)
  {
    var active := Active(chs);
    var sorted := SortDesc(active, Subs);
    ActiveKeepsUnique(chs);
    assert KeyDistinct(active, IdOf);
    SortDescKeepsDistinct(active, Subs, IdOf);
    SortDescMembers(active, Subs);
    TakeKeepsDistinct(sorted, FetchCap, IdOf);
    TakeKeepsOrder(sorted, FetchCap, Subs);
  }

  /** `update_rankings(code)` on a collection: every ranked channel of the country gets its
      position as `current_rank` and its old rank as `previous_rank`; channels of other
      countries and inactive channels are untouched. */
  lemma CountryPassOutcome(chs: seq<Channel>, code: string, stamp: Option<Time>)
    requires UniqueIds(chs)
    ensures var ranked := CountryRanked(chs, code);
      forall k, j :: 0 <= k < |chs| && 0 <= j < |ranked| && ranked[j] == chs[k] ==>
        Applied(chs, ranked, |ranked|, stamp)[k] == WithRank(chs[k], j + 1, OldRank(chs[k], j + 1), stamp)
    ensures var ranked := CountryRanked(chs, code);
      forall k :: 0 <= k < |chs| && !InCountry(chs[k], code) ==> Applied(chs, ranked, |ranked|, stamp)[k] == chs[k]
  {
    CountryRankedMembers(chs, code);
    RankedOutcome(chs, CountryRanked(chs, code), stamp);
    UnrankedOutcome(chs, CountryRanked(chs, code), stamp);
  }

  /** A channel stored with `current_rank` 0, as `add_channel` creates it, always logs a change
      the first time it is ranked, since positions start at 1. */
  lemma FreshChannelLogsChange(ranked: seq<Channel>, j: nat, now: Time)
    requires j < |ranked| && ranked[j].currentRank == Some(0)
    ensures ChangeAt(ranked, j, now) in ChangesOf(ranked, |ranked|, now)
    ensures ChangeAt(ranked, j, now).change == -(j + 1)
  {
    assert Moved(ranked, j);
    ChangesExactlyMoved(ranked, |ranked|, now);
  }

  /** A channel with no stored rank never logs a change. */
  lemma UnrankedChannelLogsNothing(ranked: seq<Channel>, j: nat, now: Time)
    requires j < |ranked| && ranked[j].currentRank == None
    ensures ChangeAt(ranked, j, now) !in ChangesOf(ranked, |ranked|, now)
  {
    ChangesExactlyMoved(ranked, |ranked|, now);
    forall j' | 0 <= j' < |ranked| && Moved(ranked, j') ensures ChangeAt(ranked, j', now) != ChangeAt(ranked, j, now) {
      assert ChangeAt(ranked, j', now).newRank == j' + 1;
    }
  }

  /** Attaching `rank = idx + 1` to a list, as the `enumerate` loops do. */
  method AssignRanks(chs: seq<Channel>) returns (r: seq<RankedChannel>)
    ensures |r| == |chs|
    ensures forall i :: 0 <= i < |r| ==> r[i].channel == chs[i]
    ensures forall i :: 0 <= i < |r| ==> r[i].rank == i + 1
    ensures forall i, j :: 0 <= i < j < |r| ==> r[i].rank < r[j].rank
  {
    r := [];
    var idx := 0;
    while idx < |chs|
      invariant 0 <= idx <= |chs| && |r| == idx
      invariant forall i :: 0 <= i < idx ==> r[i] == RankedChannel(chs[i], i + 1)
    {
      r := r + [RankedChannel(chs[idx], idx + 1)];
      idx := idx + 1;
    }
  }

  /** The channels of a ranked list, without their ranks. */
  function ChannelsOf(r: seq<RankedChannel>): (cs: seq<Channel>)
    ensures |cs| == |r|
    ensures forall i :: 0 <= i < |r| ==> cs[i] == r[i].channel
  {
    seq(|r|, i requires 0 <= i < |r| => r[i].channel)
  }

  /** The sum of the per-country channel counts, one term per country code. */
  function SumRanked(chs: seq<Channel>, codes: seq<string>): nat
  {
    if codes == [] then 0
    else SumRanked(chs, codes[..|codes| - 1]) + |Take(ActiveIn(chs, codes[|codes| - 1]), FetchCap)|
  }

  function CodesOf(cs: seq<Country>): (r: seq<string>)
    ensures |r| == |cs|
    ensures forall i :: 0 <= i < |cs| ==> r[i] == cs[i].code
  {
    seq(|cs|, i requires 0 <= i < |cs| => cs[i].code)
  }

  /** The channels collection after one `update_rankings(code)`. */
  function CountryPass(chs: seq<Channel>, code: string, now: Time): (r: seq<Channel>)
    ensures SameShape(r, chs)
  {
    var ranked := CountryRanked(chs, code);
    AppliedShape(chs, ranked, |ranked|, Some(now));
    Applied(chs, ranked, |ranked|, Some(now))
  }

  /** The rank-history rows one `update_rankings(code)` writes. */
  function CountryPassRows(chs: seq<Channel>, code: string, now: Time): seq<RankEntry>
  {
    var ranked := CountryRanked(chs, code);
    HistoryOf(ranked, |ranked|, CountryScope(code), now)
  }

  /** The channels collection after `update_rankings` for each code in turn. */
  function CountryPasses(chs: seq<Channel>, codes: seq<string>, now: Time): (r: seq<Channel>)
    ensures SameShape(r, chs)
  {
    if codes == [] then chs
    else
      var prev := CountryPasses(chs, codes[..|codes| - 1], now);
      SameShapeTrans(CountryPass(prev, codes[|codes| - 1], now), prev, chs);
      CountryPass(prev, codes[|codes| - 1], now)
  }

  /** The rank history `h` extended by the rows `update_rankings` writes for each code in turn. */
  function CountryRows(h: seq<RankEntry>, chs: seq<Channel>, codes: seq<string>, now: Time): (r: seq<RankEntry>)
    ensures |r| >= |h|
  {
    if codes == [] then h
    else
      var prev := CountryPasses(chs, codes[..|codes| - 1], now);
      CountryRows(h, chs, codes[..|codes| - 1], now) + CountryPassRows(prev, codes[|codes| - 1], now)
  }

  /** One more `update_rankings` extends the folds over the codes by that country's pass. */
  lemma AllRankingsStep(h0: seq<RankEntry>, chs0: seq<Channel>, codes: seq<string>, i: nat, now: Time,
                        before: seq<Channel>, updated: nat, rows: seq<RankEntry>)
    requires i < |codes|
    requires before == CountryPasses(chs0, codes[..i], now)
    requires updated == |CountryRanked(before, codes[i])|
    requires rows == CountryPassRows(before, codes[i], now)
    ensures CountryPass(before, codes[i], now) == CountryPasses(chs0, codes[..i + 1], now)
    ensures CountryRows(h0, chs0, codes[..i + 1], now) == CountryRows(h0, chs0, codes[..i], now) + rows
    ensures SumRanked(chs0, codes[..i + 1]) == SumRanked(chs0, codes[..i]) + updated
  {
    assert codes[..i + 1][..i] == codes[..i];
    SumRankedStep(chs0, before, codes, i);
  }

  /** A rank pass changes no channel's country or activity, so the per-country counts are the
      same before and after it. */
  lemma {:induction false} SumRankedSameShape(a: seq<Channel>, b: seq<Channel>, codes: seq<string>)
    requires SameShape(a, b)
    ensures SumRanked(a, codes) == SumRanked(b, codes)
  {
    if codes != [] {
      SumRankedSameShape(a, b, codes[..|codes| - 1]);
      SameShapeSameActiveIn(a, b, codes[|codes| - 1]);
    }
  }

  /** The `enumerate` loop shared by `update_rankings` and `_update_global_rankings`: position
      `idx` gets rank `idx + 1`; a channel whose stored rank differs gets a change entry and a
      rank-history row; every channel gets both ranks written. */
  method RankPass(chs: seq<Channel>, ranked: seq<Channel>, scope: Scope, stamp: Option<Time>, now: Time)
    returns (newChs: seq<Channel>, rows: seq<RankEntry>, changes: seq<RankChange>)
    ensures changes == ChangesOf(ranked, |ranked|, now)
    ensures rows == HistoryOf(ranked, |ranked|, scope, now)
    ensures newChs == Applied(chs, ranked, |ranked|, stamp)
  {
    newChs, rows, changes := chs, [], [];
    var idx := 0;
    while idx < |ranked|
      invariant 0 <= idx <= |ranked|
      invariant changes == ChangesOf(ranked, idx, now)
      invariant rows == HistoryOf(ranked, idx, scope, now)
      invariant newChs == Applied(chs, ranked, idx, stamp)
    {
      var channel := ranked[idx];
      var newRank := idx + 1;
      var oldRank := channel.currentRank.GetOr(newRank);
      assert oldRank != newRank <==> Moved(ranked, idx);
      if oldRank != newRank {
        var row := match scope
          case CountryScope(code) => RankEntry(channel.channelId, Some(code), oldRank, newRank, None, now)
          case GlobalScope => RankEntry(channel.channelId, None, oldRank, newRank, Some(oldRank - newRank), now);
        assert row == EntryAt(ranked, idx, scope, now);
        var change := RankChange(channel.channelId, channel.title, oldRank, newRank, oldRank - newRank, now);
        assert change == ChangeAt(ranked, idx, now);
        changes := changes + [change];
        rows := rows + [row];
      }
      newChs := SetRankAt(newChs, ranked, idx, stamp);
      idx := idx + 1;
    }
  }

  /** Adding the next country's count to the running sum. */
  lemma SumRankedStep(chs0: seq<Channel>, now: seq<Channel>, codes: seq<string>, i: nat)
    requires i < |codes| && SameShape(now, chs0)
    ensures SumRanked(chs0, codes[..i + 1]) ==
      SumRanked(chs0, codes[..i]) + |CountryRanked(now, codes[i])|
  {
    assert codes[..i + 1][..i] == codes[..i];
    SameShapeSameActiveIn(now, chs0, codes[i]);
  }

  lemma SameShapeTrans(a: seq<Channel>, b: seq<Channel>, c: seq<Channel>)
    requires SameShape(a, b) && SameShape(b, c)
    ensures SameShape(a, c)
  {
  }

  class RankingService {
    const db: Database

    constructor (db: Database)
      ensures this.db == db
    {
      this.db := db;
    }

    /** `calculate_country_rankings`: the country's active channels, highest first, ranked 1..n. */
    method CalculateCountryRankings(code: string) returns (r: seq<RankedChannel>)
      requires db.Valid()
      ensures ChannelsOf(r) == CountryRanked(db.channels, code)
      ensures NonIncreasing(ChannelsOf(r), Subs)
      ensures forall c :: c in ChannelsOf(r) ==> c in db.channels && InCountry(c, code)
      ensures forall i :: 0 <= i < |r| ==> r[i].rank == i + 1
    {
      CountryRankedMembers(db.channels, code);
      var channels := CountryRanked(db.channels, code);
      r := AssignRanks(channels);
    }

    /** `update_rankings`: ranks the country's active channels, records every rank change in the
        returned list and in `rank_history`, and writes both ranks to every ranked channel. */
    method UpdateRankings(code: string, now: Time) returns (updated: nat, changes: seq<RankChange>)
      requires db.Valid()
      modifies db`channels, db`rankHistory
      ensures db.Valid()
      ensures var ranked := CountryRanked(old(db.channels), code);
        updated == |ranked| &&
        changes == ChangesOf(ranked, |ranked|, now)
      ensures db.channels == CountryPass(old(db.channels), code, now)
      ensures db.rankHistory == old(db.rankHistory) + CountryPassRows(old(db.channels), code, now)
      ensures SameShape(db.channels, old(db.channels))
    {
      var channels := Take(ActiveIn(db.channels, code), FetchCap);
      if |channels| == 0 {
        return 0, [];
      }
      var ranked := SortDesc(channels, Subs);
      var chs, rows;
      chs, rows, changes := RankPass(db.channels, ranked, CountryScope(code), Some(now), now);
      assert chs == CountryPass(db.channels, code, now);
      SameShapeUnique(chs, db.channels);
      db.channels := chs;
      db.rankHistory := db.rankHistory + rows;
      updated := |ranked|;
    }

    /** `get_global_top_100`: up to 1000 active channels, highest first, `global_rank` 1..n. */
    method GetGlobalTop() returns (r: seq<RankedChannel>)
      requires db.Valid()
      ensures ChannelsOf(r) == GlobalRanked(db.channels)
      ensures |r| <= FetchCap
      ensures NonIncreasing(ChannelsOf(r), Subs)
      ensures forall c :: c in ChannelsOf(r) ==> c in db.channels && c.isActive
      ensures forall i :: 0 <= i < |r| ==> r[i].rank == i + 1
    {
      GlobalRankedMembers(db.channels);
      r := AssignRanks(GlobalRanked(db.channels));
    }

    /** `get_country_leaderboard`: the first `limit` active channels of the country by
        subscribers, ranked 1..n. */
    method GetCountryLeaderboard(code: string, limit: nat) returns (r: seq<RankedChannel>)
      requires limit > 0
      ensures ChannelsOf(r) == Take(SortDesc(ActiveIn(db.channels, code), Subs), limit)
      ensures |r| <= limit
      ensures NonIncreasing(ChannelsOf(r), Subs)
      ensures forall i :: 0 <= i < |r| ==> r[i].rank == i + 1
    {
      var channels := Take(SortDesc(ActiveIn(db.channels, code), Subs), limit);
      TakeKeepsOrder(SortDesc(ActiveIn(db.channels, code), Subs), limit, Subs);
      r := AssignRanks(channels);
    }

    /** `update_all_rankings`: one `update_rankings` per country (at most 300). The channel count
        is the sum of the per-country counts, and the change count equals the number of
        rank-history rows written. */
    method UpdateAllRankings(now: Time) returns (countries: nat, channelsUpdated: nat, changes: nat)
      requires db.Valid()
      modifies db`channels, db`rankHistory
      ensures db.Valid()
      ensures countries == |Take(old(db.countries), CountryCap)|
      ensures channelsUpdated == SumRanked(old(db.channels), CodesOf(Take(old(db.countries), CountryCap)))
      ensures db.channels == CountryPasses(old(db.channels), CodesOf(Take(old(db.countries), CountryCap)), now)
      ensures db.rankHistory == CountryRows(old(db.rankHistory), old(db.channels), CodesOf(Take(old(db.countries), CountryCap)), now)
      ensures changes == |db.rankHistory| - |old(db.rankHistory)|
      ensures SameShape(db.channels, old(db.channels))
    {
      var codes := CodesOf(Take(db.countries, CountryCap));
      ghost var chs0, h0 := db.channels, db.rankHistory;
      channelsUpdated := 0;
      changes := 0;
      var i := 0;
      while i < |codes|
        invariant 0 <= i <= |codes|
        invariant db.Valid()
        invariant channelsUpdated == SumRanked(chs0, codes[..i])
        invariant db.channels == CountryPasses(chs0, codes[..i], now)
        invariant db.rankHistory == CountryRows(h0, chs0, codes[..i], now)
        invariant changes == |db.rankHistory| - |h0|
      {
        ghost var before, hBefore := db.channels, db.rankHistory;
        var updated, countryChanges := UpdateRankings(codes[i], now);
        ghost var rows := CountryPassRows(before, codes[i], now);
        AllRankingsStep(h0, chs0, codes, i, now, before, updated, rows);
        channelsUpdated := channelsUpdated + updated;
        changes := changes + |countryChanges|;
        i := i + 1;
      }
      assert codes[..|codes|] == codes;
      countries := |codes|;
    }
  }
}
