/** `backend/services/youtube_service.py`: the response cache (a map from `prefix:id` to the
    data and the time it was stored, valid for 300 seconds), single-channel lookups, batched
    lookups in chunks of 50 ids, and the top-videos list. The YouTube Data API is the parameter
    `api`; the clock is the parameter `now`. */
module YouTube {
  import opened Wrappers
  import opened Store
  import opened Sorting
  import opened Text

  /** `_cache_ttl`, in seconds. */
  const CacheTtl: int := 300
  /** `chunk_size` of the batch call (the API's limit on ids per request). */
  const ChunkSize: nat := 50
  const StatsPrefix: string := "channel_stats"
  const VideosPrefix: string := "top_videos"

  datatype Video = Video(
    videoId: string,
    title: string,
    description: string,
    thumbnailUrl: string,
    publishedAt: string,
    viewCount: int,
    likeCount: int,
    commentCount: int)

  function Views(v: Video): int { v.viewCount }

  /** What the cache holds: a channel record or a top-videos list. */
  datatype CacheData = Stats(stats: ChannelData) | Videos(videos: seq<Video>)

  /** A cache entry; `_set_cache` always stores a timestamp, but `_is_cache_valid` allows for none. */
  datatype CacheEntry = CacheEntry(data: CacheData, timestamp: Option<Time>)

  type Cache = map<string, CacheEntry>

  /** `_get_cache_key`: the prefix, a colon, the identifier. */
  function CacheKey(prefix: string, id: string): (k: string)
    ensures |k| == |prefix| + 1 + |id|
    ensures k[..|prefix|] == prefix && k[|prefix|] == ':' && k[|prefix| + 1..] == id
  {
    prefix + ":" + id
  }

  /** Under one prefix, distinct identifiers get distinct keys. */
  lemma CacheKeyInjective(prefix: string, a: string, b: string)
    requires CacheKey(prefix, a) == CacheKey(prefix, b)
    ensures a == b
  {
    assert a == CacheKey(prefix, a)[|prefix| + 1..];
  }

  /** Channel-stats keys and top-videos keys never collide. */
  lemma CacheKeySpacesDisjoint(a: string, b: string)
    ensures CacheKey(StatsPrefix, a) != CacheKey(VideosPrefix, b)
  {
    assert CacheKey(StatsPrefix, a)[0] == StatsPrefix[0];
    assert CacheKey(VideosPrefix, b)[0] == VideosPrefix[0];
  }

  /** `_is_cache_valid`: present, stamped, and younger than the time-to-live. */
  predicate IsCacheValid(cache: Cache, key: string, now: Time)
  {
    key in cache && cache[key].timestamp.Some? && now - cache[key].timestamp.value < CacheTtl
  }

  /** `_get_cached`: the stored data while the entry is valid, else nothing. */
  function GetCached(cache: Cache, key: string, now: Time): (r: Option<CacheData>)
    ensures r.Some? <==> IsCacheValid(cache, key, now)
    ensures r.Some? ==> r.value == cache[key].data
  {
    if IsCacheValid(cache, key, now) then Some(cache[key].data) else None
  }

  /** An entry stored at `stored` is served until 300 seconds have passed and never after;
      other keys are not affected. */
  lemma SetThenGet(cache: Cache, key: string, data: CacheData, stored: Time, now: Time)
    ensures var c := cache[key := CacheEntry(data, Some(stored))];
      GetCached(c, key, now) == (if now - stored < CacheTtl then Some(data) else None) &&
      forall k :: k != key ==> GetCached(c, k, now) == GetCached(cache, k, now)
  {
  }

  /** Validity only runs out: an entry valid at some time was valid at every earlier time. */
  lemma ValidEarlier(cache: Cache, key: string, t1: Time, t2: Time)
    requires t1 <= t2 && IsCacheValid(cache, key, t2)
    ensures IsCacheValid(cache, key, t1)
  {
  }

  /** The cached channel record for `id`, if any. A channel record is a non-empty dict, so a
      valid one is always a hit; an entry of the other kind counts as a miss. */
  function StatsHit(cache: Cache, id: string, now: Time): Option<ChannelData>
  {
    match GetCached(cache, CacheKey(StatsPrefix, id), now)
    case Some(Stats(d)) => Some(d)
    case _ => None
  }

  /** Every channel record is cached under the key of the channel it describes. */
  predicate Consistent(cache: Cache)
  {
    forall k :: k in cache && cache[k].data.Stats? ==> k == CacheKey(StatsPrefix, cache[k].data.stats.channelId)
  }

  /** A channel record served from a consistent cache is the record of the channel asked for. */
  lemma HitIsForChannel(cache: Cache, id: string, now: Time)
    requires Consistent(cache)
    ensures StatsHit(cache, id, now).Some? ==> StatsHit(cache, id, now).value.channelId == id
  {
    var key := CacheKey(StatsPrefix, id);
    if StatsHit(cache, id, now).Some? {
      CacheKeyInjective(StatsPrefix, id, cache[key].data.stats.channelId);
    }
  }

  /** A chunk split into its cache hits and the ids still to fetch. */
  datatype Split = Split(hits: seq<ChannelData>, misses: seq<string>)

  /** The partition loop of the batch call: each id is either a hit, whose record is kept, or a
      miss, whose id is kept, both in chunk order. */
  function SplitChunk(cache: Cache, chunk: seq<string>, now: Time): (s: Split)
    ensures |s.hits| + |s.misses| == |chunk|
  {
    if chunk == [] then Split([], [])
    else
      var p := SplitChunk(cache, chunk[..|chunk| - 1], now);
      var id := chunk[|chunk| - 1];
      match StatsHit(cache, id, now)
      case Some(d) => Split(p.hits + [d], p.misses)
      case None => Split(p.hits, p.misses + [id])
  }

  /** The ids still to fetch are exactly the chunk's misses, and every record kept is the
      cached record of one of the chunk's ids. */
  lemma {:induction false} SplitChunkMembers(cache: Cache, chunk: seq<string>, now: Time)
    ensures var s := SplitChunk(cache, chunk, now);
      (forall id :: id in s.misses <==> id in chunk && StatsHit(cache, id, now).None?) &&
      (forall d :: d in s.hits ==> exists id :: id in chunk && StatsHit(cache, id, now) == Some(d))
  {
    if chunk != [] {
      var front := chunk[..|chunk| - 1];
      var id := chunk[|chunk| - 1];
      assert chunk == front + [id];
      SplitChunkMembers(cache, front, now);
    }
  }

  /** The `fetched_at` stamp the service puts on a fetched record. */
  function Stamp(d: ChannelData, now: Time): ChannelData { d.(fetchedAt := now) }

  function Stamped(items: seq<ChannelData>, now: Time): (r: seq<ChannelData>)
    ensures |r| == |items|
    ensures forall j :: 0 <= j < |items| ==> r[j] == Stamp(items[j], now)
  {
    seq(|items|, j requires 0 <= j < |items| => Stamp(items[j], now))
  }

  /** The cache after `_set_cache` for each fetched record in turn. */
  function StoreAll(cache: Cache, items: seq<ChannelData>, now: Time): Cache
  {
    if items == [] then cache
    else
      var d := items[|items| - 1];
      StoreAll(cache, items[..|items| - 1], now)[CacheKey(StatsPrefix, d.channelId) := CacheEntry(Stats(Stamp(d, now)), Some(now))]
  }

  /** Every fetched record is cached under its id, valid at the time of the call, and the
      cached record is one of the fetched records for that id. */
  lemma {:induction false} FetchedAreCached(cache: Cache, items: seq<ChannelData>, now: Time)
    ensures forall j :: 0 <= j < |items| ==>
      var h := StatsHit(StoreAll(cache, items, now), items[j].channelId, now);
      h.Some? && h.value.channelId == items[j].channelId && h.value in Stamped(items, now)
  {
    if items != [] {
      var front := items[..|items| - 1];
      FetchedAreCached(cache, front, now);
      var d := items[|items| - 1];
      forall j | 0 <= j < |items|
        ensures var h := StatsHit(StoreAll(cache, items, now), items[j].channelId, now);
          h.Some? && h.value.channelId == items[j].channelId && h.value in Stamped(items, now)
      {
        var c := StoreAll(cache, items, now);
        if items[j].channelId == d.channelId {
          assert StatsHit(c, items[j].channelId, now) == Some(Stamp(d, now));
          assert Stamped(items, now)[|items| - 1] == Stamp(d, now);
        } else {
          CacheKeyDistinct(items[j].channelId, d.channelId);
          assert items[j] == front[j];
          assert StatsHit(c, items[j].channelId, now) == StatsHit(StoreAll(cache, front, now), front[j].channelId, now);
          assert Stamped(front, now)[j] == Stamped(items, now)[j];
          var h := StatsHit(c, items[j].channelId, now);
          var i :| 0 <= i < |front| && Stamped(front, now)[i] == h.value;
          assert Stamped(items, now)[i] == h.value;
        }
      }
    }
  }

  lemma CacheKeyDistinct(a: string, b: string)
    requires a != b
    ensures CacheKey(StatsPrefix, a) != CacheKey(StatsPrefix, b)
  {
    if CacheKey(StatsPrefix, a) == CacheKey(StatsPrefix, b) {
      CacheKeyInjective(StatsPrefix, a, b);
    }
  }

  /** What the batch call has produced so far: the records in output order, the cache, the id
      lists sent to the API, and the error that ended the call, if any. */
  datatype BatchState = BatchState(
    results: seq<ChannelData>,
    cache: Cache,
    requests: seq<seq<string>>,
    error: Option<string>)

  /** One chunk of the batch call: cached records are appended first; if some ids missed, one
      request is made for exactly those ids, and its records are cached and appended. A failed
      request ends the call. Nothing happens once the call has failed. */
  function ProcessChunk(st: BatchState, chunk: seq<string>, now: Time,
                        api: seq<string> -> Result<seq<ChannelData>, string>): BatchState
  {
    if st.error.Some? then st
    else
      var s := SplitChunk(st.cache, chunk, now);
      var results := st.results + s.hits;
      if s.misses == [] then st.(results := results)
      else
        match api(s.misses)
        case Err(e) => BatchState(results, st.cache, st.requests + [s.misses], Some(e))
        case Ok(items) => BatchState(results + Stamped(items, now), StoreAll(st.cache, items, now), st.requests + [s.misses], None)
  }

  /** A chunk whose ids all hit the cache makes no request and leaves the cache alone. */
  lemma AllCachedNoRequest(st: BatchState, chunk: seq<string>, now: Time,
                           api: seq<string> -> Result<seq<ChannelData>, string>)
    requires forall id :: id in chunk ==> StatsHit(st.cache, id, now).Some?
    ensures ProcessChunk(st, chunk, now, api).requests == st.requests
    ensures ProcessChunk(st, chunk, now, api).cache == st.cache
    ensures ProcessChunk(st, chunk, now, api).error == st.error
  {
    var s := SplitChunk(st.cache, chunk, now);
    SplitChunkMembers(st.cache, chunk, now);
    EmptyIffNoMembers(s.misses);
  }

  /** A chunk with a miss makes exactly one request, for the missed ids in chunk order, and
      puts the cached records before the fetched ones. */
  lemma MissesRequested(st: BatchState, chunk: seq<string>, now: Time,
                        api: seq<string> -> Result<seq<ChannelData>, string>)
    requires st.error.None?
    requires exists id :: id in chunk && StatsHit(st.cache, id, now).None?
    ensures var s := SplitChunk(st.cache, chunk, now);
      var after := ProcessChunk(st, chunk, now, api);
      s.misses != [] &&
      after.requests == st.requests + [s.misses] &&
      after.results[..|st.results| + |s.hits|] == st.results + s.hits &&
      (api(s.misses).Ok? ==> after.results == st.results + s.hits + Stamped(api(s.misses).value, now))
  {
    var s := SplitChunk(st.cache, chunk, now);
    SplitChunkMembers(st.cache, chunk, now);
    var id :| id in chunk && StatsHit(st.cache, id, now).None?;
    assert id in s.misses;
  }

  /** The chunk starting at index `i`: `channel_ids[i:i + 50]`. */
  function Chunk(ids: seq<string>, i: nat): (c: seq<string>)
    requires i < |ids|
    ensures 1 <= |c| <= ChunkSize
  {
    if i + ChunkSize <= |ids| then ids[i..i + ChunkSize] else ids[i..]
  }

  /** The chunks from index `i` on. */
  function ChunksFrom(ids: seq<string>, i: nat): seq<seq<string>>
    decreases |ids| - i
  {
    if i >= |ids| then [] else [Chunk(ids, i)] + ChunksFrom(ids, i + ChunkSize)
  }

  function Flatten(cs: seq<seq<string>>): seq<string>
  {
    if cs == [] then [] else cs[0] + Flatten(cs[1..])
  }

  /** The chunks cover the ids in order, each holding between 1 and 50 of them. */
  lemma {:induction false} ChunksCover(ids: seq<string>, i: nat)
    requires i <= |ids|
    ensures Flatten(ChunksFrom(ids, i)) == ids[i..]
    ensures forall c :: c in ChunksFrom(ids, i) ==> 1 <= |c| <= ChunkSize
    decreases |ids| - i
  {
    if i < |ids| {
      var first, rest := Chunk(ids, i), ChunksFrom(ids, i + ChunkSize);
      assert ChunksFrom(ids, i) == [first] + rest;
      assert ([first] + rest)[1..] == rest;
      if i + ChunkSize <= |ids| {
        ChunksCover(ids, i + ChunkSize);
        assert ids[i..] == first + ids[i + ChunkSize..];
      } else {
        assert rest == [];
      }
    }
  }

  /** The batch call from chunk index `i` on. */
  function RunFrom(st: BatchState, ids: seq<string>, i: nat, now: Time,
                   api: seq<string> -> Result<seq<ChannelData>, string>): BatchState
    decreases |ids| - i
  {
    if i >= |ids| then st else RunFrom(ProcessChunk(st, Chunk(ids, i), now, api), ids, i + ChunkSize, now, api)
  }

  /** Once a request has failed, later chunks change nothing. */
  lemma {:induction false} FailureStops(st: BatchState, ids: seq<string>, i: nat, now: Time,
                                        api: seq<string> -> Result<seq<ChannelData>, string>)
    requires st.error.Some?
    ensures RunFrom(st, ids, i, now, api) == st
    decreases |ids| - i
  {
    if i < |ids| {
      FailureStops(st, ids, i + ChunkSize, now, api);
    }
  }

  /** The batch result: the records, or the error that ended the call. */
  function BatchResult(st: BatchState): Result<seq<ChannelData>, string>
  {
    if st.error.Some? then Err(st.error.value) else Ok(st.results)
  }

  /** The partition loop over one chunk. */
  method SplitPass(cache: Cache, chunk: seq<string>, now: Time) returns (hits: seq<ChannelData>, misses: seq<string>)
    ensures Split(hits, misses) == SplitChunk(cache, chunk, now)
  {
    hits, misses := [], [];
    var j := 0;
    while j < |chunk|
      invariant 0 <= j <= |chunk|
      invariant Split(hits, misses) == SplitChunk(cache, chunk[..j], now)
    {
      assert chunk[..j + 1][..j] == chunk[..j];
      var cached := GetCached(cache, CacheKey(StatsPrefix, chunk[j]), now);
      if cached.Some? && cached.value.Stats? {
        hits := hits + [cached.value.stats];
      } else {
        misses := misses + [chunk[j]];
      }
      j := j + 1;
    }
    assert chunk[..|chunk|] == chunk;
  }

  /** The outcome of the single-channel request of `get_channel_stats`. */
  datatype StatsResponse =
    | Found(item: ChannelData)
    | NotFound                              // the response has no items
    | HttpFail(content: string, text: string)   // an `HttpError`: its body and its `str()`
    | OtherFail(message: string)            // any other exception, re-raised

  /** The message of the exception raised for an `HttpError`: fixed texts for an exhausted
      quota and an invalid key (the quota check first), otherwise the error's own text. */
  function HttpErrorMessage(content: string, text: string): (m: string)
    ensures var body := if content == [] then text else content;
      (Contains(body, "quotaExceeded") ==> m == "YouTube API quota exceeded") &&
      (!Contains(body, "quotaExceeded") && Contains(body, "keyInvalid") ==> m == "Invalid YouTube API key") &&
      (!Contains(body, "quotaExceeded") && !Contains(body, "keyInvalid") ==> m == "YouTube API error: " + text)
  {
    var body := if content == [] then text else content;
    if Contains(body, "quotaExceeded") then "YouTube API quota exceeded"
    else if Contains(body, "keyInvalid") then "Invalid YouTube API key"
    else "YouTube API error: " + text
  }

  /** The value `get_channel_stats` returns or raises. */
  function StatsLookup(cache: Cache, id: string, now: Time, api: string -> StatsResponse): (r: Result<Option<ChannelData>, string>)
    requires Consistent(cache)
    ensures r.Ok? && r.value.Some? ==> r.value.value.channelId == id
    ensures StatsHit(cache, id, now).Some? ==> r == Ok(StatsHit(cache, id, now))
    ensures StatsHit(cache, id, now).None? && api(id).Found? ==>
      r == Ok(Some(api(id).item.(channelId := id, fetchedAt := now)))
    ensures StatsHit(cache, id, now).None? && api(id).NotFound? ==> r == Ok(None)
    ensures StatsHit(cache, id, now).None? && api(id).HttpFail? ==> r == Err(HttpErrorMessage(api(id).content, api(id).text))
    ensures StatsHit(cache, id, now).None? && api(id).OtherFail? ==> r == Err(api(id).message)
  {
    HitIsForChannel(cache, id, now);
    match StatsHit(cache, id, now)
    case Some(d) => Ok(Some(d))
    case None =>
      match api(id)
      case Found(item) => Ok(Some(item.(channelId := id, fetchedAt := now)))
      case NotFound => Ok(None)
      case HttpFail(content, text) => Err(HttpErrorMessage(content, text))
      case OtherFail(m) => Err(m)
  }

  /** The cache after `get_channel_stats`: only a fetched channel is stored. */
  function StatsCacheAfter(cache: Cache, id: string, now: Time, api: string -> StatsResponse): (r: Cache)
    requires Consistent(cache)
    ensures Consistent(r)
  {
    if StatsHit(cache, id, now).None? && api(id).Found? then
      var d := api(id).item.(channelId := id, fetchedAt := now);
      cache[CacheKey(StatsPrefix, id) := CacheEntry(Stats(d), Some(now))]
    else cache
  }

  /** A channel fetched at `now` is served from the cache, whatever the API would answer, by
      every lookup in the following 300 seconds. */
  lemma FetchedThenCached(cache: Cache, id: string, now: Time, later: Time, api: string -> StatsResponse, api2: string -> StatsResponse)
    requires Consistent(cache)
    requires StatsHit(cache, id, now).None? && api(id).Found?
    requires now <= later < now + CacheTtl
    ensures StatsLookup(StatsCacheAfter(cache, id, now, api), id, later, api2) == StatsLookup(cache, id, now, api)
  {
  }

  /** The outcome of the three requests of `get_channel_top_videos`. */
  datatype VideosResponse =
    | NoChannel                 // the channel lookup has no items
    | NoUploads                 // the uploads playlist has no videos
    | Listed(videos: seq<Video>)
    | VideosFail                // any exception

  /** The list `get_channel_top_videos` returns for the fetched videos. */
  function TopVideos(videos: seq<Video>, maxResults: int): (r: seq<Video>)
    ensures NonIncreasing(r, Views)
    ensures forall v :: v in r ==> v in videos
    ensures maxResults >= 0 ==> |r| == if maxResults < |videos| then maxResults else |videos|
  {
    var sorted := SortDesc(videos, Views);
    SortDescMembers(videos, Views);
    PrefixKeepsOrder(sorted, PyPrefix(sorted, maxResults));
    PyPrefix(sorted, maxResults)
  }

  lemma PrefixKeepsOrder(s: seq<Video>, p: seq<Video>)
    requires NonIncreasing(s, Views) && p <= s
    ensures NonIncreasing(p, Views)
    ensures forall v :: v in p ==> v in s
  {
    forall v | v in p ensures v in s {
      var i :| 0 <= i < |p| && p[i] == v;
      assert s[i] == v;
    }
  }

  /** Every video left out of the list has no more views than any video in it. */
  lemma TopVideosAreTop(videos: seq<Video>, maxResults: int)
    ensures var sorted := SortDesc(videos, Views);
      var r := TopVideos(videos, maxResults);
      forall i, j :: 0 <= i < |r| <= j < |sorted| ==> sorted[j].viewCount <= r[i].viewCount
  {
    var sorted := SortDesc(videos, Views);
    var r := TopVideos(videos, maxResults);
    forall i, j | 0 <= i < |r| <= j < |sorted| ensures sorted[j].viewCount <= r[i].viewCount {
      assert r[i] == sorted[i];
    }
  }

  class YouTubeService {
    var cache: Cache
    /** The id lists sent to the API, one per request, in order. */
    ghost var requests: seq<seq<string>>

    /** The cache's channel records sit under their own channel's key. */
    predicate Valid()
      reads this
    {
      Consistent(cache)
    }

    constructor ()
      ensures Valid()
      ensures cache == map[] && requests == []
    {
      cache := map[];
      requests := [];
    }

    /** `_set_cache`: overwrites the entry and stamps it with the current time. */
    method SetCache(key: string, data: CacheData, now: Time)
      modifies this`cache
      ensures cache == old(cache)[key := CacheEntry(data, Some(now))]
    {
      cache := cache[key := CacheEntry(data, Some(now))];
    }

    /** `get_channel_stats`: a cache hit is returned without a request; otherwise one request
        is made, and a found channel is cached and returned, a missing one gives nothing, and
        an error is raised with its message. */
    method GetChannelStats(id: string, now: Time, api: string -> StatsResponse)
      returns (r: Result<Option<ChannelData>, string>)
      requires Valid()
      modifies this`cache, this`requests
      ensures Valid()
      ensures r == StatsLookup(old(cache), id, now, api)
      ensures cache == StatsCacheAfter(old(cache), id, now, api)
      ensures requests == if StatsHit(old(cache), id, now).Some? then old(requests) else old(requests) + [[id]]
    {
      var key := CacheKey(StatsPrefix, id);
      var cached := GetCached(cache, key, now);
      if cached.Some? && cached.value.Stats? {
        return Ok(Some(cached.value.stats));
      }
      requests := requests + [[id]];
      match api(id)
      case Found(item) =>
        var d := item.(channelId := id, fetchedAt := now);
        SetCache(key, Stats(d), now);
        r := Ok(Some(d));
      case NotFound =>
        r := Ok(None);
      case HttpFail(content, text) =>
        r := Err(HttpErrorMessage(content, text));
      case OtherFail(m) =>
        r := Err(m);
    }

    /** The loop over a response's items: each record is stamped, cached and collected. */
    method CacheFetched(items: seq<ChannelData>, now: Time) returns (fetched: seq<ChannelData>)
      requires Valid()
      modifies this`cache
      ensures Valid()
      ensures cache == StoreAll(old(cache), items, now)
      ensures fetched == Stamped(items, now)
    {
      fetched := [];
      var j := 0;
      while j < |items|
        invariant 0 <= j <= |items|
        invariant Valid()
        invariant cache == StoreAll(old(cache), items[..j], now)
        invariant fetched == Stamped(items[..j], now)
      {
        assert items[..j + 1][..j] == items[..j];
        var d := Stamp(items[j], now);
        SetCache(CacheKey(StatsPrefix, items[j].channelId), Stats(d), now);
        fetched := fetched + [d];
        j := j + 1;
      }
      assert items[..|items|] == items;
    }

    /** `get_batch_channel_stats`: the chunks in order, each split into cache hits and misses,
        with one request per chunk that has a miss. */
    method GetBatchChannelStats(ids: seq<string>, now: Time, api: seq<string> -> Result<seq<ChannelData>, string>)
      returns (r: Result<seq<ChannelData>, string>)
      requires Valid()
      modifies this`cache, this`requests
      ensures Valid()
      ensures var st := RunFrom(BatchState([], old(cache), old(requests), None), ids, 0, now, api);
        r == BatchResult(st) && cache == st.cache && requests == st.requests
    {
      var results := [];
      var i := 0;
      while i < |ids|
        invariant RunFrom(BatchState([], old(cache), old(requests), None), ids, 0, now, api) ==
          RunFrom(BatchState(results, cache, requests, None), ids, i, now, api)
        invariant Valid()
        decreases |ids| - i
      {
        var chunk := Chunk(ids, i);
        var hits, misses := SplitPass(cache, chunk, now);
        results := results + hits;
        if misses != [] {
          requests := requests + [misses];
          var response := api(misses);
          if response.Err? {
            FailureStops(BatchState(results, cache, requests, Some(response.error)), ids, i + ChunkSize, now, api);
            return Err(response.error);
          }
          var fetched := CacheFetched(response.value, now);
          results := results + fetched;
        }
        i := i + ChunkSize;
      }
      r := Ok(results);
    }

    /** `get_channel_top_videos`: a cached non-empty list is returned without a request (an
        empty one is falsy and refetched); a listed result is sorted by views, cut to
        `maxResults` and cached; every other outcome gives an empty list and caches nothing. */
    method GetChannelTopVideos(id: string, maxResults: int, now: Time, api: string -> VideosResponse)
      returns (r: seq<Video>)
      requires Valid()
      modifies this`cache, this`requests
      ensures Valid()
      ensures var cached := GetCached(old(cache), CacheKey(VideosPrefix, id), now);
        cached.Some? && cached.value.Videos? && cached.value.videos != [] ==>
          r == cached.value.videos && cache == old(cache) && requests == old(requests)
      ensures var cached := GetCached(old(cache), CacheKey(VideosPrefix, id), now);
        !(cached.Some? && cached.value.Videos? && cached.value.videos != []) ==>
          requests == old(requests) + [[id]] &&
          if api(id).Listed? then
            r == TopVideos(api(id).videos, maxResults) &&
            cache == old(cache)[CacheKey(VideosPrefix, id) := CacheEntry(Videos(r), Some(now))]
          else
            r == [] && cache == old(cache)
    {
      var key := CacheKey(VideosPrefix, id);
      var cached := GetCached(cache, key, now);
      if cached.Some? && cached.value.Videos? && cached.value.videos != [] {
        return cached.value.videos;
      }
      requests := requests + [[id]];
      var response := api(id);
      if response.Listed? {
        r := TopVideos(response.videos, maxResults);
        SetCache(key, Videos(r), now);
      } else {
        r := [];
      }
    }
  }
}
