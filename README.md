# TopTube World Pro — a verified model of its ranking, growth, caching, API and front-end rules

TopTube World Pro ranks YouTube channels by subscriber count, globally and per country. It has
a FastAPI backend over MongoDB and the YouTube Data API, and a React front end. This project
models the deterministic rules under that I/O and proves them in Dafny:

- **Ranking** (`ranking.dfy`, `sorting.dfy`). Channels are sorted by subscribers, highest first,
  and ranked 1..n. A rank change `old − new` is logged exactly when a rank moves. Both rank
  fields are written on every ranked channel.
- **Growth** (`growth.dfy`). The daily, weekly and monthly gains and percentages, the viral
  label chain and score clamp, the overtake prediction and the metrics write.
- **Scheduler** (`scheduler.dfy`). The busy flags around the refresh and ranking jobs, the
  global ranking pass, stats snapshots and the status record.
- **YouTube client** (`youtube.dfy`). The 300-second response cache, updated in place. Batch
  ids are split into chunks of 50, and each chunk into cached and uncached ids. Top videos
  are sorted and cut.
- **API handlers** (`server.py` → `server.dfy`, collections in `store.dfy`). The validation
  chains, the cascade delete, seeding, paging, the leaderboard slice and the map data.
- **Blog generator** (`blog.dfy`). Date strings, slugs, the upsert by slug, the content
  tables and the milestone post.
- **Front end**: `format.dfy`, `favorites.dfy`, `badges.dfy`, `indicators.dfy`, `theme.dfy`,
  `head.dfy` (the document head and `useSEO`), `seo_helpers.dfy`, `faq.dfy`, `breadcrumb.dfy`,
  `ads.dfy`, `header.dfy`, `newsletter.dfy`, `app_helpers.dfy` (the helpers `App.js` defines
  for itself) and `site.dfy` (the site constants).

Each MongoDB collection is a sequence field of `Store.Database`, in insertion order. Handlers
and services are classes whose methods change those fields. Each method's `ensures` ties the
new state to a specification function, and lemmas prove the promised properties about that
function.

The clock, identifiers (`uuid4`), the random choice of intro and closing, browser storage,
the system colour preference and every network answer are parameters. Times are whole seconds.

Some behaviours of the code are stated exactly as written:

- A YouTube "not found" raised inside `add_channel` and `refresh_channel` reaches the client
  as a 400, not a 404.
- A channel added with rank 0 always logs a rank change when it is first ranked.
- `Badges.jsx` does not style the backend's "Rising Fast" label; `App.js` does.
- Python's `round` can predict an overtake in 0 days.
- The milestone formatter writes 999,999,999 as "1000M".
- `Query(le=500)` on the list endpoints rejects a larger limit with 422; it does not cap it.
  The model follows the code here.
- Header's search sends a `search` parameter that `get_all_channels` does not read.

## Model

| member | source | states |
|---|---|---|
| Ranking.ChangesOf | backend/services/ranking_service.py:43-59 | the change list holds at most one entry per ranked position |
| Ranking.ChangesExactlyMoved | backend/services/ranking_service.py:46-59 | a change entry exists exactly for a channel whose stored rank (default: its new rank) differs from its position + 1, with `change` = old rank − new rank |
| Ranking.HistoryOf | backend/services/ranking_service.py:61-68 | one rank-history row per change entry |
| Ranking.HistoryMatchesChanges | backend/services/ranking_service.py:51-68 | the p-th history row has the p-th change's channel, old and new rank; the country pass records the country code |
| Ranking.SetRankAt | backend/services/ranking_service.py:70-80 | the `update_one` for one position sets both ranks on the documents with that id and leaves every other document alone |
| Ranking.Applied | backend/services/ranking_service.py:46-80 | the rank writes of a pass keep the collection's length |
| Ranking.AppliedShape | backend/services/ranking_service.py:71-80 | rank writes change no id, activity, country or subscriber count |
| Ranking.AppliedAt | backend/services/ranking_service.py:71-80 | every document ends as the last rank write for its id left it |
| Ranking.RankOverwrites | backend/services/ranking_service.py:73-79 | a later `$set` of the ranks replaces an earlier one |
| Ranking.LastPosDistinct | backend/services/ranking_service.py:46-49 | in a list with distinct ids a channel's last position is its own |
| Ranking.RankedOutcome | backend/services/ranking_service.py:46-80 | after a pass the channel at position j has `current_rank` j+1 and `previous_rank` its old rank |
| Ranking.RankedAt | backend/services/ranking_service.py:46-80 | the same outcome for one given document and position |
| Ranking.UnrankedOutcome | backend/services/ranking_service.py:71-80 | documents whose channel is not ranked are unchanged |
| Ranking.CountryRankedMembers | backend/services/ranking_service.py:32-41 | the country list has distinct ids, is sorted by subscribers descending, holds only active channels of the country, and all of them below the 1000 cap |
| Ranking.GlobalRankedMembers | backend/services/ranking_service.py:86-89 | the global list has distinct ids, is sorted descending, holds only active channels, and all of them below the cap |
| Ranking.CountryPassOutcome | backend/services/ranking_service.py:30-82 | `update_rankings(code)`: ranked channels get position and old rank; channels of other countries and inactive ones are untouched |
| Ranking.FreshChannelLogsChange | backend/services/ranking_service.py:48-57 | a channel stored with `current_rank` 0 always logs a change, of −(position+1) |
| Ranking.UnrankedChannelLogsNothing | backend/services/ranking_service.py:48-51 | a channel without a stored rank never logs a change |
| Ranking.AssignRanks | backend/services/ranking_service.py:25-26 | the `enumerate` loop attaches ranks 1..n in list order, strictly increasing, channels unchanged |
| Ranking.ChannelsOf | backend/services/ranking_service.py:25-28 | the ranked list's channels, in order |
| Ranking.CodesOf | backend/services/ranking_service.py:150-156 | the country codes, one per country, in order |
| Ranking.CountryPass | backend/services/ranking_service.py:30-82 | one `update_rankings` changes no id, activity, country or subscriber count |
| Ranking.CountryPasses | backend/services/ranking_service.py:155-158 | the passes for all codes change no id, activity, country or subscriber count |
| Ranking.CountryRows | backend/services/ranking_service.py:155-158 | the passes only append to the rank history |
| Ranking.AllRankingsStep | backend/services/ranking_service.py:155-158 | one more country extends the collection, the history and the running channel count by that country's pass |
| Ranking.SumRankedSameShape | backend/services/ranking_service.py:155-157 | rank passes do not change any country's ranked count |
| Ranking.SumRankedStep | backend/services/ranking_service.py:156-157 | the running `total_updated` grows by the next country's count |
| Ranking.RankPass | backend/services/ranking_service.py:46-80 | the loop returns exactly the change list, the history rows and the collection of the specification functions |
| Ranking.RankingService.constructor | backend/services/ranking_service.py:12-13 | the service works on the database it is given |
| Ranking.RankingService.CalculateCountryRankings | backend/services/ranking_service.py:15-28 | the country's active channels, highest first, ranked 1..n |
| Ranking.RankingService.UpdateRankings | backend/services/ranking_service.py:30-82 | `updated` is the number of ranked channels (0 and no changes for a country without active channels); changes, history and ranks as the pass functions say |
| Ranking.RankingService.GetGlobalTop | backend/services/ranking_service.py:84-94 | at most 1000 active channels, highest first, `global_rank` 1..n |
| Ranking.RankingService.GetCountryLeaderboard | backend/services/ranking_service.py:114-124 | the first `limit` active channels of the country by subscribers, ranked 1..n |
| Ranking.RankingService.UpdateAllRankings | backend/services/ranking_service.py:148-161 | one pass per country (at most 300); the channel count is the sum of the per-country counts and the change count equals the history rows written |
| Growth.Latest | backend/services/growth_analyzer.py:21-35 | the `find_one` sorted by timestamp descending: present iff a qualifying snapshot exists, and then one with the latest timestamp |
| Growth.Percent | backend/services/growth_analyzer.py:45 | the exact percentage times a positive old count is the gain times 100; it is 0 when the old count is not positive |
| Growth.WindowGrowth | backend/services/growth_analyzer.py:15-53 | gain and percentage are 0 without a current or an old snapshot; otherwise the gain is newest minus old count and the percentage is the exact one rounded to four places |
| Growth.PercentSign | backend/services/growth_analyzer.py:45 | for a positive old count, the exact percentage is positive iff the gain is, and negative iff the gain is |
| Growth.PercentFollowsGain | backend/services/growth_analyzer.py:42-52 | the rounded percentage is never of the opposite sign to the gain, and is 0 for no gain |
| Growth.TinyLossReadsStable | backend/services/growth_analyzer.py:52 | a loss of 1 from 3,000,000 rounds to a 0 percent daily rate, which the label chain reads as "Stable"; the unrounded rate would read "Slowing" |
| Growth.NoStatsNoGrowth | backend/services/growth_analyzer.py:37-38 | a channel without snapshots has zero daily, weekly and monthly growth |
| Growth.StaleStatsNoGain | backend/services/growth_analyzer.py:21-44 | when the newest snapshot is older than the window, the gain is 0 |
| Growth.LatestSameChoice | backend/services/growth_analyzer.py:21-35 | both queries pick the same document when the newest is within the cutoff |
| Growth.Classify | backend/services/growth_analyzer.py:184-195 | the label chain, each label stated as an if-and-only-if on the daily and weekly rates |
| Growth.ClassifyMonotone | backend/services/growth_analyzer.py:184-195 | higher rates never give a weaker label |
| Growth.ViralScore | backend/services/growth_analyzer.py:171-181 | the score before rounding lies in [0, 100]; it is 0 without subscribers and equals the raw score when that is in range |
| Growth.ScoreNeedsAgreeingRates | backend/services/growth_analyzer.py:172-181 | rates of opposite sign (or a zero rate) give score 0 |
| Growth.CalculateViralScore | backend/services/growth_analyzer.py:145-204 | "Unknown" with score 0 iff the channel has no snapshot; otherwise the label comes from the rounded daily and weekly percentages and the score is the clamped score rounded to two places, still in [0, 100] |
| Growth.PredictOvertake | backend/services/growth_analyzer.py:206-245 | None iff either channel is missing; already ahead iff its count is at least the target's; a prediction iff it closes the gap faster, with the gap and closure rate |
| Growth.DaysBound | backend/services/growth_analyzer.py:234-241 | the rounded day count times the closure rate is within half a day's closure of the gap |
| Growth.RoundedProduct | backend/services/growth_analyzer.py:235-241 | rounding the quotient keeps the product within half the divisor |
| Growth.OvertakeCanRoundToZero | backend/services/growth_analyzer.py:241 | `round(1/3)` is 0, so an overtake can be predicted in 0 days |
| Growth.MetricsOf | backend/services/growth_analyzer.py:247-264 | the nine fields: "Unknown" iff no snapshot, the time stamp is `now`, the rounded score in [0, 100] |
| Growth.SetMetrics | backend/services/growth_analyzer.py:266-269 | the `$set` changes only the documents with the id, and only the nine fields |
| Growth.SetMetricsKeepsShape | backend/services/growth_analyzer.py:266-269 | the write keeps ids, activity and country, hence id uniqueness |
| Growth.GrowthAnalyzer.constructor | backend/services/growth_analyzer.py:12-13 | the analyzer works on the database it is given |
| Growth.GrowthAnalyzer.UpdateChannelGrowthMetrics | backend/services/growth_analyzer.py:247-271 | returns the computed fields and writes them onto the channel's documents |
| Scheduler.ActiveIds | backend/services/scheduler_service.py:106-115 | the ids of the first 1000 active channels, in order |
| Scheduler.ApplyFetched | backend/services/scheduler_service.py:125-139 | the `$set` of one fetched record changes only the documents with its id |
| Scheduler.ApplyAllFetched | backend/services/scheduler_service.py:122-139 | the refresh writes keep ids, activity and country |
| Scheduler.FetchedSnapshots | backend/services/scheduler_service.py:141-149 | one snapshot per fetched record, in order |
| Scheduler.SnapshotPerRecord | backend/services/scheduler_service.py:141-149 | a snapshot is stored exactly for each fetched record, all stamped `now` |
| Scheduler.FetchedCountsStick | backend/services/scheduler_service.py:122-139 | a channel ends with the fields of the last record fetched for it |
| Scheduler.StoreFetched | backend/services/scheduler_service.py:121-150 | the loop writes every record, stores its snapshot and counts one per record |
| Scheduler.StoreSnapshots | backend/services/scheduler_service.py:275-284 | one snapshot per channel, all with the same time |
| Scheduler.RecordRefresh | backend/services/scheduler_service.py:153-162 | the upsert sets the refresh time and count and keeps the other fields |
| Scheduler.RecordRanking | backend/services/scheduler_service.py:192-200 | the upsert sets the ranking time and keeps the other fields |
| Scheduler.RecordSnapshot | backend/services/scheduler_service.py:287-291 | the upsert sets the snapshot time and keeps the other fields |
| Scheduler.ChannelSnapshots | backend/services/scheduler_service.py:275-284 | the snapshots of `record_stats_snapshot`, one per channel with its counts |
| Scheduler.GlobalPass | backend/services/scheduler_service.py:209-242 | the global pass keeps ids, activity and country |
| Scheduler.GlobalPassOutcome | backend/services/scheduler_service.py:217-242 | globally ranked channels get position and old rank; other documents are unchanged; `rank_updated_at` is not written |
| Scheduler.GlobalRowsExactlyMoved | backend/services/scheduler_service.py:222-231 | a history row exactly for each moved channel, with `change` and no country |
| Scheduler.SchedulerService.constructor | backend/services/scheduler_service.py:15-23 | a new scheduler shares the ranking service's database, and neither busy flag is set |
| Scheduler.SchedulerService.RefreshAllChannels | backend/services/scheduler_service.py:95-169 | a busy flag skips; no active channels or a failed fetch writes nothing; otherwise the records, snapshots and count are stored; the flag is cleared on every path |
| Scheduler.SchedulerService.UpdateGlobalRankings | backend/services/scheduler_service.py:209-242 | the collection and history become those of the global pass |
| Scheduler.SchedulerService.UpdateAllRankings | backend/services/scheduler_service.py:171-207 | a busy flag skips with nothing changed; otherwise the country passes, then the global pass, then the ranking time; the flag is cleared |
| Scheduler.SchedulerService.RecordStatsSnapshot | backend/services/scheduler_service.py:262-296 | one snapshot per active channel (at most 1000) and the snapshot time recorded |
| Scheduler.SchedulerService.GetSchedulerStatus | backend/services/scheduler_service.py:298-320 | reports both flags; without a status document the times are absent and the count is 0 |
| YouTube.CacheKey | backend/services/youtube_service.py:34-35 | the key is the prefix, a colon and the identifier, each recoverable from it |
| YouTube.CacheKeyInjective | backend/services/youtube_service.py:34-35 | under one prefix, equal keys mean equal identifiers |
| YouTube.CacheKeySpacesDisjoint | backend/services/youtube_service.py:59-61 | a channel-stats key never equals a top-videos key |
| YouTube.CacheKeyDistinct | backend/services/youtube_service.py:126-128 | distinct channel ids have distinct stats keys |
| YouTube.GetCached | backend/services/youtube_service.py:37-55 | data is returned iff the entry exists, is stamped and is younger than 300 seconds |
| YouTube.SetThenGet | backend/services/youtube_service.py:46-55 | a stored entry is served for exactly 300 seconds; other keys are unaffected |
| YouTube.ValidEarlier | backend/services/youtube_service.py:37-44 | validity only runs out with time |
| YouTube.HitIsForChannel | backend/services/youtube_service.py:59-63 | a hit in a consistent cache is the record of the channel asked for |
| YouTube.SplitChunk | backend/services/youtube_service.py:123-132 | every id of the chunk is either a hit or a miss |
| YouTube.SplitChunkMembers | backend/services/youtube_service.py:126-132 | the misses are exactly the uncached ids, in order, and each hit is the cached record of a chunk id |
| YouTube.Stamped | backend/services/youtube_service.py:151-163 | every fetched record is stamped with the call time |
| YouTube.FetchedAreCached | backend/services/youtube_service.py:147-168 | every fetched record is cached under its own id, valid at the call time |
| YouTube.AllCachedNoRequest | backend/services/youtube_service.py:134-137 | a chunk with no miss makes no request and leaves cache and error alone |
| YouTube.MissesRequested | backend/services/youtube_service.py:134-168 | a chunk with a miss makes one request for exactly the missed ids; cached records come before fetched ones |
| YouTube.Chunk | backend/services/youtube_service.py:119-120 | each chunk holds between 1 and 50 ids |
| YouTube.ChunksCover | backend/services/youtube_service.py:119-120 | the chunks concatenate to the id list, each of size 1..50 |
| YouTube.FailureStops | backend/services/youtube_service.py:170-173 | once a request has failed, later chunks change nothing |
| YouTube.SplitPass | backend/services/youtube_service.py:123-132 | the loop returns exactly the specified hits and misses |
| YouTube.HttpErrorMessage | backend/services/youtube_service.py:99-109 | the quota text wins over the key text, which wins over the error's own text |
| YouTube.StatsLookup | backend/services/youtube_service.py:57-112 | a hit is returned; otherwise the API's record stamped with the id asked and the fetch time, nothing for a missing channel, or the error message |
| YouTube.StatsCacheAfter | backend/services/youtube_service.py:96 | only a fetched record is cached, and the cache stays consistent |
| YouTube.FetchedThenCached | backend/services/youtube_service.py:57-97 | a record fetched now is served unchanged by every lookup in the next 300 seconds, whatever the API answers |
| YouTube.TopVideos | backend/services/youtube_service.py:235-237 | the list is sorted by views descending, drawn from the fetched videos, of length min(max_results, n) |
| YouTube.PrefixKeepsOrder | backend/services/youtube_service.py:236-237 | a prefix of a sorted list is sorted and drawn from it |
| YouTube.TopVideosAreTop | backend/services/youtube_service.py:235-237 | every video left out has no more views than any video kept |
| YouTube.YouTubeService.constructor | backend/services/youtube_service.py:18-22 | a new client starts with an empty cache and has made no API request |
| YouTube.YouTubeService.SetCache | backend/services/youtube_service.py:46-50 | overwrites the entry and stamps it with the current time |
| YouTube.YouTubeService.GetChannelStats | backend/services/youtube_service.py:57-112 | result and cache as the lookup functions say; a request only on a miss |
| YouTube.YouTubeService.CacheFetched | backend/services/youtube_service.py:147-168 | the item loop caches and collects every stamped record |
| YouTube.YouTubeService.GetBatchChannelStats | backend/services/youtube_service.py:114-175 | the results, cache and requests of the chunk-by-chunk run; an error is raised when a request fails |
| YouTube.YouTubeService.GetChannelTopVideos | backend/services/youtube_service.py:177-247 | a cached non-empty list is returned without a request; a listed result is sorted, cut and cached; any other outcome gives an empty list and caches nothing |
| Server.NewCountry | backend/server.py:175-181 | for an ASCII code, the stored country code is the request's code upper-cased, so it holds no lower-case letter |
| Server.NewChannel | backend/server.py:261-285 | a new channel document belongs to the requested country, is active, carries the fetched subscriber count, ranks 0 and 0, gain 0 and the label "Stable" |
| Server.NewChannelFirstRankingMoves | backend/server.py:273-274 | a channel stored with rank 0 logs a rank change (from old rank 0) the first time its country is ranked, wherever it lands |
| Server.Matching | backend/server.py:197-199 | the channel list selects exactly the active channels, of the upper-cased country when a country code is given |
| Server.Drop | backend/server.py:202 | `skip(n)` keeps the elements from position n on, and nothing when n is past the end |
| Server.PagesJoin | backend/server.py:202 | two consecutive pages join into the page spanning both: paging neither loses nor repeats a channel |
| Server.PageOfSorted | backend/server.py:200-202 | a page of the subscriber-sorted list is itself sorted and holds only listed channels |
| Server.HistoryIn | backend/server.py:157-159 | a country's rank history holds exactly the history rows tagged with its code |
| Server.TopChannelIsTop | backend/server.py:341-345 | a country has a top channel exactly when it has an active channel, and no active channel of the country has more subscribers |
| Server.MapEntries | backend/server.py:339-359 | the map has at most one entry per country |
| Server.MapEntriesStep | backend/server.py:340-359 | each further country adds exactly its own entry, and only when it has a top channel |
| Server.MapEntriesComplete | backend/server.py:340-359 | every country with an active channel is on the map, with its top channel and "Stable" for a missing label |
| Server.MapEntryAt | backend/server.py:339-359 | the country at any index that has an active channel contributes its top channel's entry to the map |
| Server.MapEntriesSound | backend/server.py:340-359 | every map entry is some listed country's top channel |
| Server.LatestStamp | backend/server.py:386-387 | the last update is absent ("Never") exactly when there is no snapshot, otherwise the largest snapshot timestamp |
| Server.SeedCountries | backend/server.py:586-596 | the seed inserts one country document per seed entry, in order, with the entry's code and name |
| Server.SeedCodesDistinct | backend/server.py:540-581 | the 20 seed country codes are distinct, so seeding never violates the unique index on `countries.code` |
| Server.SeedCodesDistinctHead | backend/server.py:540-581 | each of the first six seed country codes differs from every later one |
| Server.SeedCodesDistinctTail | backend/server.py:540-581 | the remaining seed country codes are pairwise distinct |
| Server.CountriesOf | backend/server.py:586-596 | seeding a list of entries inserts exactly one country document per entry, in order, built from that entry's code, name, flag and region |
| Server.SeedPrefixStep | backend/server.py:586-596 | when the entries' codes are distinct, each entry's code is absent from the countries inserted before it |
| Server.SeedStep | backend/server.py:599-634 | one id of the inner seed loop: a stored id changes nothing; otherwise the cache is updated as the lookup does, and the only channel appended (with its one snapshot) carries that id, the country's code, is active and has rank 0; ids stay unique |
| Server.SeedStepLooked | backend/server.py:599-634 | for an id not yet stored, the step appends the channel and snapshot built from the looked-up statistics exactly when the lookup returns a document, and otherwise only updates the cache |
| Server.SeedSteps | backend/server.py:599-634 | the inner seed loop over a list of ids only appends channels whose id is listed, of the country, active and ranked 0, one snapshot per channel, keeping ids unique |
| Server.SeedEntries | backend/server.py:586-634 | the outer seed loop only appends active rank-0 channels, one snapshot each, keeping ids unique |
| Server.SeedStepKeepsMiss | backend/server.py:599-634 | a step never puts a statistics entry in the cache for an id YouTube does not find |
| Server.SeedStepsKeepMiss | backend/server.py:599-634 | the same for the whole inner loop |
| Server.SeedEntriesKeepMiss | backend/server.py:586-634 | the same for the whole outer loop |
| Server.SeedStepStored | backend/server.py:599-634 | an id not stored before, and either found by YouTube or without a fresh cached statistics entry, is stored after a step exactly when it is that step's id and YouTube finds it |
| Server.SeedStepsStored | backend/server.py:599-634 | such an id (as in `SeedStepStored`) is stored after the inner loop exactly when it is listed and YouTube finds it |
| Server.SeedEntriesStored | backend/server.py:586-634 | such an id is stored after the outer loop exactly when some entry lists it and YouTube finds it |
| Server.HasChannelAppend | backend/server.py:601-603 | an id is stored in a concatenation exactly when it is stored in either part |
| Server.AppendKeepsUnique | backend/server.py:601-603 | appending a channel whose id is absent keeps channel ids unique |
| Server.AppendUnique | backend/server.py:667 | inserting a channel whose id is not stored keeps channel ids unique |
| Server.AppendCountryUnique | backend/server.py:671 | inserting a country whose code is not stored keeps country codes unique |
| Server.DeleteFirstRemoves | backend/server.py:476 | under the unique index, `delete_one` leaves no channel with the id and keeps ids unique |
| Server.Router.constructor | backend/server.py:667-671 | a router over a database whose unique indexes hold starts valid |
| Server.Router.CreateCountry | backend/server.py:168-184 | an existing upper-cased code is refused with 400 "Country already exists" and nothing changes; otherwise the country is appended with its code upper-cased and the unique index still holds |
| Server.Router.GetCountry | backend/server.py:139-166 | 404 "Country not found" exactly for an unknown code; otherwise the country, its first 100 active channels by subscribers ranked from 1 in order, and its 10 newest rank-history rows |
| Server.Router.GetAllChannels | backend/server.py:189-206 | a limit above 500 is refused with 422; otherwise the page `skip`/`limit` of the matching channels sorted by subscribers, at most `limit` long, with `total` counting every match |
| Server.Router.AddChannel | backend/server.py:239-297 | in order: a tracked id gives 400 "Channel already being tracked", an unknown country 400 "Country not found", both with nothing changed; a YouTube error or unknown channel gives 400 with nothing stored; otherwise the new document and its first snapshot are appended |
| Server.Router.RefreshChannel | backend/server.py:396-432 | an untracked id gives 404 "Channel not found"; YouTube errors give 400; a fetched record overwrites the stored channel's texts and counts and appends one snapshot |
| Server.Router.GetGlobalLeaderboard | backend/server.py:300-304 | a limit above 500 gives 422; otherwise `channels[:limit]` of the global ranking with Python slice semantics (a negative limit drops from the end), ranks from 1, and `total` the full length |
| Server.Router.GetMapData | backend/server.py:334-361 | the loop over the first 300 countries yields exactly the map entries of those countries |
| Server.Router.GetAdminStats | backend/server.py:378-394 | the three collection sizes and the newest snapshot's timestamp |
| Server.Router.DeleteChannel | backend/server.py:473-484 | an unknown id gives 404 with nothing changed; otherwise the channel is deleted and none of its snapshots or rank-history rows remain |
| Server.Router.SeedOne | backend/server.py:599-634 | one pass of the inner loop leaves the channels, snapshots and cache equal to `SeedStep` of the old ones, and reports whether a channel was added |
| Server.Router.SeedChannels | backend/server.py:599-634 | the channels, snapshots and cache after the inner loop are `SeedSteps` of the old ones: stored ids and ids YouTube fails on are skipped; every channel added is one of the listed ids, of the country, active and ranked 0, with one snapshot per channel added |
| Server.Router.SeedCountryEntry | backend/server.py:586-634 | one pass of the seed loop appends the country document, then leaves channels, snapshots and cache equal to `SeedSteps` over the entry's ids, adding only active rank-0 channels |
| Server.Router.SeedAll | backend/server.py:586-634 | the outer loop over entries with distinct codes inserts exactly their country documents, counts one per entry, and leaves channels, snapshots and cache equal to `SeedEntries` of the old ones |
| Server.Router.SeedInitialData | backend/server.py:530-648 | a database with any country is left unchanged ("already seeded"); otherwise exactly the 20 seed countries are inserted in order, channels, snapshots and cache are `SeedEntries` of the old ones, every channel added is active with rank 0, as many snapshots as channels, and an id not stored before is stored afterwards exactly when some seed entry lists it and YouTube finds it |
| Store.FindChannel | backend/server.py:242-244 | a channel is found exactly when a document has the id, and what is found is a stored document with that id |
| Store.FindCountry | backend/server.py:247-249 | a country is found exactly when a document has the code, and what is found is a stored country with that code |
| Store.ActiveIn | backend/services/ranking_service.py:17-19 | the query selects exactly the stored channels that are active and of the country |
| Store.Active | backend/services/ranking_service.py:86-88 | the query selects exactly the stored active channels |
| Store.ActiveInKeepsUnique | backend/server.py:667 | selecting a country's active channels keeps channel ids unique |
| Store.ActiveKeepsUnique | backend/server.py:667 | selecting the active channels keeps channel ids unique |
| Store.SameShapeUnique | backend/server.py:421 | an `update_one` that does not touch `channel_id` keeps the unique index |
| Store.SameShapeSameActiveIn | backend/services/ranking_service.py:71-80 | rank and statistic updates do not change how many active channels a country has |
| Store.SameShapeSameActive | backend/services/ranking_service.py:71-80 | rank and statistic updates do not change how many channels are active |
| Store.DropSnapshots | backend/server.py:481 | `delete_many` keeps exactly the snapshots of other channels |
| Store.DropHistory | backend/server.py:482 | `delete_many` keeps exactly the rank-history rows of other channels |
| Store.DeleteFirst | backend/server.py:476-478 | `delete_one` removes exactly one document when one has the id and changes nothing otherwise; nothing new appears |
| Store.Database.constructor | backend/server.py:667-671 | a fresh database is empty and satisfies the unique index |
| Blog.DashedDate | backend/services/auto_blog_service.py:24 | `%Y-%m-%d` is always ten characters |
| Blog.CompactDate | backend/services/auto_blog_service.py:206 | `%Y%m%d` is always eight characters |
| Blog.DashedDateInjective | backend/services/auto_blog_service.py:24 | different days give different dashed dates |
| Blog.DailySlug | backend/services/auto_blog_service.py:68 | the daily slug is "daily-youtube-rankings-" followed by the dashed date |
| Blog.DailySlugInjective | backend/services/auto_blog_service.py:68 | posts of different days never share a slug, so the upsert keeps one daily post per day |
| Blog.DailyTags | backend/services/auto_blog_service.py:80 | four tags: "rankings", "daily update", "youtube stats" and the lower-cased English month name, a space and the year |
| Blog.FmtTiers | backend/services/auto_blog_service.py:107-114 | exactly one tier applies with inclusive lower bounds (B with 2 decimals from 1e9, M with 2 from 1e6, K with 1 from 1e3, plain below); a scaled value is at least 1 and below 1000 outside the B tier, and times its unit gives the number |
| Blog.TopRows | backend/services/auto_blog_service.py:135-136 | one top-10 row per channel, numbered from 1 in order, with its title, country and formatted subscribers |
| Blog.GainRowsExact | backend/services/auto_blog_service.py:155-158 | a fastest-growing channel gets a row exactly when its daily gain is positive |
| Blog.GainRowsPositive | backend/services/auto_blog_service.py:157-158 | every fastest-growing row shows a positive gain |
| Blog.GeneratePostContent | backend/services/auto_blog_service.py:103-190 | an empty top list fails on `top_channels[0]`; otherwise the rows, the leader and its subscribers, the top-10 total, the fastest-growing section only for a non-empty list and the countries section only for non-empty statistics |
| Blog.EmptyGainTable | backend/services/auto_blog_service.py:147-158 | a non-empty fastest list whose gains are all non-positive yields the section heading with no rows |
| Blog.GroupNames | backend/services/auto_blog_service.py:49 | the `$group` stage yields each country name of an active channel exactly once |
| Blog.StatLines | backend/services/auto_blog_service.py:47-50 | the `$group` stage: one line per distinct country name of the active channels, with that name's count, names distinct |
| Blog.CutKeepsLargest | backend/services/auto_blog_service.py:50-51 | a line left out by sorting on count and keeping five counts no more than every kept line |
| Blog.CutLinesCounted | backend/services/auto_blog_service.py:47-52 | every kept line counts the active channels of a name that occurs |
| Blog.CutLinesLargest | backend/services/auto_blog_service.py:47-52 | every country name left out has no more active channels than any kept line |
| Blog.CountryStats | backend/services/auto_blog_service.py:47-52 | the five largest groups: min(number of names, 5) lines with distinct names, most channels first, each counting the active channels of a name that occurs, and every name left out counts no more than each kept line |
| Blog.Growing | backend/services/auto_blog_service.py:33-36 | exactly the active channels with a positive daily gain |
| Blog.ReplaceFirst | backend/services/auto_blog_service.py:87-90 | `update_one` by slug keeps the number of posts |
| Blog.ReplaceFirstFacts | backend/services/auto_blog_service.py:87-90 | every position keeps its slug, only the first post with the slug becomes the new post, and the post is present when the slug was |
| Blog.UpsertFacts | backend/services/auto_blog_service.py:84-95 | with unique slugs before, after the upsert slugs stay unique, the post is present and is the only one with its slug, other posts remain, and the count grows by one only for a new slug |
| Blog.UpsertIdempotent | backend/services/auto_blog_service.py:84-95 | generating the same day's post twice leaves the same posts as once |
| Blog.ReplaceFirstTwice | backend/services/auto_blog_service.py:87-90 | replacing by slug twice is replacing once |
| Blog.ReplaceFirstAppended | backend/services/auto_blog_service.py:84-95 | after an insert, a second upsert of the same post changes nothing |
| Blog.MilestoneFmt | backend/services/auto_blog_service.py:198-203 | below a million the milestone is written as the plain integer |
| Blog.MilestoneFmtRoundsToThousandM | backend/services/auto_blog_service.py:198-203 | 999,999,999 is written "1000M", not "1B", because the M tier rounds up without moving to B |
| Blog.MilestoneSlug | backend/services/auto_blog_service.py:206 | on an ASCII title, the slug starts with the title lower-cased and spaces turned into dashes (no space and no upper-case ASCII letter there) and ends with the `%Y%m%d` date |
| Blog.DailyPost | backend/services/auto_blog_service.py:64-81 | the daily post has the day's slug and title, category "Daily Rankings" and author "TopTube Editorial" |
| Blog.BlogService.constructor | backend/services/auto_blog_service.py:14-15 | a service over the database with no posts yet |
| Blog.BlogService.GenerateDailyRankingPost | backend/services/auto_blog_service.py:17-101 | fails, writing nothing, exactly when no channel is active; otherwise the post is the daily post (title "YouTube Rankings Update - " and the long date, slug, excerpt, tags) whose content is built from the 10 largest active channels, the 5 fastest growing, the active count and total, and the country statistics; it is upserted by slug, keeping slugs unique |
| Blog.BlogService.GenerateMilestonePost | backend/services/auto_blog_service.py:192-252 | always appends the milestone post with its title and slug, even when a post with that slug exists |
| Sorting.Insert | backend/services/ranking_service.py:41 | inserting into a list sorted by decreasing key keeps it sorted and a permutation of the list plus the element |
| Sorting.SortDesc | backend/services/ranking_service.py:41 | `sort(key=..., reverse=True)` returns a permutation of its input in non-increasing key order |
| Sorting.SortDescMembers | backend/services/ranking_service.py:41 | sorting neither adds nor loses an element |
| Sorting.SortDescKeepsDistinct | backend/services/ranking_service.py:41 | sorting keeps distinct ids distinct |
| Sorting.Take | backend/services/ranking_service.py:89 | `limit(n)` keeps a prefix of at most n elements |
| Sorting.PyPrefix | backend/server.py:303 | `s[:n]` is a prefix: n elements when n is non-negative, all but the last -n when n is negative, clipped at the ends |
| Sorting.TakeKeepsOrder | backend/services/ranking_service.py:89 | a prefix of a sorted list is sorted |
| Sorting.TakeKeepsDistinct | backend/services/ranking_service.py:89 | a prefix keeps ids distinct and holds only elements of the list |
| Text.Upper | backend/server.py:176 | `upper()` on ASCII text keeps the length and upper-cases exactly the lower-case letters |
| Text.UpperIdempotent | backend/server.py:142 | upper-casing twice is upper-casing once, and leaves no lower-case ASCII letter |
| Text.Lower | backend/services/auto_blog_service.py:206 | `lower()` on ASCII text keeps the length and lower-cases exactly the upper-case letters |
| Text.ReplaceChar | backend/services/auto_blog_service.py:206 | `replace(' ', '-')` on single characters keeps the length and changes exactly the matching characters |
| Text.NatToString | backend/services/auto_blog_service.py:114 | `str(n)` of a natural number is a non-empty run of digits without a leading zero |
| Text.ParseNatToString | backend/services/auto_blog_service.py:114 | reading the digits of `str(n)` gives back n |
| Text.ZeroPadFacts | backend/services/auto_blog_service.py:24 | a `%d`, `%m` or `%Y` field is all digits, reads back as its number, and has exactly the field width when the number fits |
| Text.ZeroPadInjective | backend/services/auto_blog_service.py:24 | different numbers give different zero-padded fields |
| Numeric.RoundHalfEven | backend/services/auto_blog_service.py:200-202 | `.0f` rounds to the nearest integer, ties to the even one |
| Numeric.RoundTo | backend/services/growth_analyzer.py:52 | `round(x, n)` is a whole number of `10^-n` units, within half a unit of x |
| Numeric.RoundToSign | backend/services/growth_analyzer.py:52 | rounding never turns a loss into a gain or a gain into a loss, and keeps 0 |
| Numeric.RoundToBetween | backend/services/growth_analyzer.py:181-198 | rounding a value between two integers stays between them, so the rounded viral score stays in [0, 100] |
| Numeric.JsRound | frontend/src/components/common/Indicators.jsx:24 | `Math.round` rounds to the nearest integer, ties upward |
| Numeric.JsRem | frontend/src/components/ads/AdComponents.jsx:50 | JavaScript's `%` takes the sign of the dividend and agrees with Euclidean remainder on non-negative operands |
| Format.ToNumber | frontend/src/components/common/Badges.jsx:29 | `Number(v)` is NaN exactly for undefined and NaN; null is 0 |
| Format.FormatNumber | frontend/src/utils/format.js:3-9 | "0" for a falsy value; otherwise exactly one tier applies with inclusive lower bounds (B and M with 2 decimals, K with 1, plain below 1000), and a scaled value times its unit gives back the number |
| Format.FormatNumberUnscaled | frontend/src/utils/format.js:8 | a non-zero number below 1000 is shown as its own digits, with a leading minus when negative |
| Format.FormatDate | frontend/src/utils/format.js:11-15 | "" exactly for a missing or empty date string; otherwise the localized date with the year |
| Format.FormatShortDate | frontend/src/utils/format.js:17-21 | "" exactly for a missing or empty date string; otherwise the localized date without the year |
| Favorites.Load | frontend/src/hooks/useFavorites.js:4-11 | a missing or empty entry, or one that does not parse, gives no favorites; a stored list is taken as it is |
| Favorites.AddedFacts | frontend/src/hooks/useFavorites.js:20-27 | after adding, the channel is a favorite, every other channel's status is unchanged, the list only grows by at most one at the end, and ids stay unique |
| Favorites.Removed | frontend/src/hooks/useFavorites.js:31 | the filter keeps exactly the favorites with another id |
| Favorites.RemovedAppend | frontend/src/hooks/useFavorites.js:31 | filtering distributes over concatenation |
| Favorites.RemovedFacts | frontend/src/hooks/useFavorites.js:29-35 | after removing, the id is no favorite, every other id's status is unchanged, and ids stay unique |
| Favorites.RemovedUnique | frontend/src/hooks/useFavorites.js:31 | filtering keeps ids unique |
| Favorites.RemovedAbsent | frontend/src/hooks/useFavorites.js:31 | removing an id that is not a favorite leaves the list as it is |
| Favorites.ToggledFacts | frontend/src/hooks/useFavorites.js:41-47 | toggling flips the channel's status, leaves every other id alone, keeps ids unique, and toggling a new channel twice restores the list |
| Favorites.FavoritesHook.constructor | frontend/src/hooks/useFavorites.js:18 | the initial state is what `getFavorites` loads |
| Favorites.FavoritesHook.AddFavorite | frontend/src/hooks/useFavorites.js:20-27 | the state becomes the list with the channel added; storage is written only when it was new |
| Favorites.FavoritesHook.RemoveFavorite | frontend/src/hooks/useFavorites.js:29-35 | the state becomes the filtered list and is written to storage |
| Favorites.FavoritesHook.ToggleFavorite | frontend/src/hooks/useFavorites.js:41-47 | the channel's status flips, the new list is saved to storage, and unique ids stay unique |
| Badges.StyleOf | frontend/src/components/common/Badges.jsx:7-12 | a label has its own style exactly when it is Exploding, Rising, Stable or Slowing |
| Badges.IconOf | frontend/src/components/common/Badges.jsx:14-19 | a label has an icon exactly when it has its own style |
| Badges.ViralBadge | frontend/src/components/common/Badges.jsx:4-26 | nothing exactly for a falsy label; otherwise the label's text with its own style, or the Stable style and no icon for a label outside the table |
| Badges.BackendLabelsStyled | frontend/src/components/common/Badges.jsx:7-19 | of the growth analyzer's labels only Exploding, Stable and Slowing get an icon; "Rising Fast" falls back to the Stable style without one |
| Badges.RankChange | frontend/src/components/common/Badges.jsx:28-36 | nothing for a falsy previous rank; for numeric ranks a change shows exactly when they differ, up exactly when the rank number fell, with the positive distance; a non-numeric current rank shows a down arrow with NaN |
| Indicators.NestedDiv | frontend/src/components/common/Indicators.jsx:52-54 | flooring minutes into hours and hours into days is flooring the milliseconds once by the product |
| Indicators.TimeAgo | frontend/src/components/common/Indicators.jsx:43-60 | "" without a timestamp; otherwise "Just now" under a minute (and in the future), then whole minutes, hours or days, each bucket starting where the previous ends |
| Indicators.Indicator | frontend/src/components/common/Indicators.jsx:39-74 | nothing is rendered exactly when there is no timestamp |
| Indicators.RoundBetween | frontend/src/components/common/Indicators.jsx:24 | `Math.round` keeps a value between two integers between them |
| Indicators.FrameBetween | frontend/src/components/common/Indicators.jsx:17-25 | every displayed frame lies between the start value and the target |
| Indicators.AnimatedCounter.constructor | frontend/src/components/common/Indicators.jsx:5-6 | the display and the ref start at the value |
| Indicators.AnimatedCounter.Animate | frontend/src/components/common/Indicators.jsx:8-30 | an unchanged value does nothing; otherwise the ref takes the value at once and twenty ticks show the rounded intermediate frames, the last one exactly the target |
| Theme.InitialTheme | frontend/src/context/ThemeContext.jsx:6-15 | a stored non-empty theme wins unvalidated; otherwise light exactly when the system prefers light, and dark when the read throws |
| Theme.Toggle | frontend/src/context/ThemeContext.jsx:30-32 | the result is light or dark, light exactly when the theme was dark |
| Theme.ToggleTwice | frontend/src/context/ThemeContext.jsx:30-32 | toggling twice restores light or dark; any other stored value becomes light |
| Theme.ThemeColor | frontend/src/context/ThemeContext.jsx:24-27 | the meta colour is "#0a0a0a" exactly for dark, "#ffffff" otherwise |
| Theme.ThemeProvider.constructor | frontend/src/context/ThemeContext.jsx:17-28 | the initial theme is chosen and persisted; the meta colour is set when the page has the element |
| Theme.ThemeProvider.Persist | frontend/src/context/ThemeContext.jsx:20-28 | the effect stores the theme, sets `data-theme` and the meta colour, and changes nothing else |
| Theme.ThemeProvider.ToggleTheme | frontend/src/context/ThemeContext.jsx:30-32 | the theme is toggled and persisted |
| Ads.ShowsAd | frontend/src/components/ads/AdComponents.jsx:49-50 | an in-feed ad shows exactly at non-negative indices whose remainder by 10 is 9, never in the first nine rows and never at a negative index |
| Ads.AdsIn | frontend/src/components/ads/AdComponents.jsx:50 | a window of n rows holds at most n ads |
| Ads.OneAdPerTen | frontend/src/components/ads/AdComponents.jsx:50 | every ten consecutive non-negative rows hold exactly one ad |
| Ads.AdsInSplit | frontend/src/components/ads/AdComponents.jsx:50 | the ads in two adjacent windows add up to the ads in their union |
| Ads.AdsInTens | frontend/src/components/ads/AdComponents.jsx:50 | a window of 10q rows starting at a non-negative row holds exactly q ads |
| Ads.AdsUpTo | frontend/src/components/ads/AdComponents.jsx:50 | a window in which exactly one index qualifies counts one ad when that index lies inside it, else none |
| Faq.MainEntity | frontend/src/components/seo/FAQSection.jsx:9-16 | one schema question per item, in order, with the item's question and answer |
| Faq.Click | frontend/src/components/seo/FAQSection.jsx:39 | a click opens the item exactly when it was not the open one, and never opens another item |
| Faq.Render | frontend/src/components/seo/FAQSection.jsx:33-54 | each item shows its question, is expanded exactly when it is the open index, and shows its answer exactly when expanded |
| Faq.AtMostOneExpanded | frontend/src/components/seo/FAQSection.jsx:41 | no two items are expanded at once |
| Faq.Accordion.constructor | frontend/src/components/seo/FAQSection.jsx:23 | nothing is open at first |
| Faq.Accordion.Toggle | frontend/src/components/seo/FAQSection.jsx:39 | the open index becomes the click's result |
| Breadcrumb.ListItems | frontend/src/components/seo/Breadcrumb.jsx:11-16 | one list item per crumb with position from 1 and the crumb's name; an `item` URL, the site URL followed by the crumb's url, exactly when the crumb has a non-empty url |
| Breadcrumb.Trail | frontend/src/components/seo/Breadcrumb.jsx:24-48 | the home link first, then one entry per crumb with its name, a link to its url exactly when it has one |
| Breadcrumb.SchemaMatchesTrail | frontend/src/components/seo/Breadcrumb.jsx:15-47 | a crumb's schema entry carries a URL exactly when its rendered entry is a link |
| Header.SearchBox.constructor | frontend/src/components/common/Header.jsx:11-13 | the dropdown starts closed, with an empty query and no results |
| Header.SearchBox.ToggleOpen | frontend/src/components/common/Header.jsx:66 | the search button flips the dropdown and leaves query and results alone |
| Header.SearchBox.HandleSearch | frontend/src/components/common/Header.jsx:16-28 | the query is always stored; under two characters the results are cleared and nothing is sent; otherwise the request carries the query and limit 5, an answer replaces the results (missing channels give none), and a failure keeps the old results |
| Header.SearchBox.SelectResult | frontend/src/components/common/Header.jsx:30-35 | selecting closes the dropdown, clears query and results, and navigates to the channel's page |
| Newsletter.FailureMessage | frontend/src/components/common/Newsletter.jsx:23 | the failure message is never empty: the server's detail when it is non-empty, else "Subscription failed" |
| Newsletter.SignupForm.constructor | frontend/src/components/common/Newsletter.jsx:7-9 | an empty email, idle status and no message |
| Newsletter.SignupForm.SetEmail | frontend/src/components/common/Newsletter.jsx:65 | typing changes only the email |
| Newsletter.SignupForm.Submit | frontend/src/components/common/Newsletter.jsx:11-15 | a request is sent exactly when the email is non-empty, and then the status is loading; otherwise nothing changes |
| Newsletter.SignupForm.Settle | frontend/src/components/common/Newsletter.jsx:16-24 | success thanks the user and clears the email; failure shows the failure message and keeps the email; either way the button is enabled again |
| Head.FirstMatch | frontend/src/hooks/useSEO.js:10 | `querySelector` finds the first element with the key, and finds nothing exactly when no element has it |
| Head.SetValue | frontend/src/hooks/useSEO.js:16 | setting `content` or `href` keeps the element's key and gives it the value; an element that already has the value is unchanged |
| Head.Created | frontend/src/hooks/useSEO.js:11-15 | a created element has the update's key and value |
| Head.StepFacts | frontend/src/hooks/useSEO.js:8-27 | one `updateMeta`/`updateLink` call sets its key's value, touches no other key, keeps every existing element's key, adds nothing when the key exists, keeps one element per key, and is a no-op when disabled or already applied |
| Head.PrefixMatchAppended | frontend/src/hooks/useSEO.js:11-14 | an element appended for a missing key is the one later calls find |
| Head.SameKeysSameMatch | frontend/src/hooks/useSEO.js:10 | changing values without changing keys does not change which element a key finds |
| Head.PrefixMatch | frontend/src/hooks/useSEO.js:10 | appending elements does not change which element a key already present finds |
| Head.ApplyKeeps | frontend/src/hooks/useSEO.js:29-45 | a run of calls keeps every existing element's key and keeps one element per key |
| Head.ApplyUntouched | frontend/src/hooks/useSEO.js:29-45 | a key that no enabled call targets keeps its value |
| Head.ApplySets | frontend/src/hooks/useSEO.js:29-45 | with distinct targets, every enabled call's key ends with that call's value |
| Head.ApplyInPlace | frontend/src/hooks/useSEO.js:29-45 | calls whose values are already present change nothing |
| Head.ApplyIdempotent | frontend/src/hooks/useSEO.js:5-47 | with distinct targets, running the calls twice gives the head of running them once |
| Head.JsText | frontend/src/hooks/useSEO.js:6 | a defined string is written as it is |
| Head.HookKeysDistinct | frontend/src/hooks/useSEO.js:29-45 | the hook's thirteen calls target thirteen different tags |
| Head.DistinctFromKeys | frontend/src/hooks/useSEO.js:29-45 | calls aimed at distinct keys have distinct targets |
| Head.KeyUntouched | frontend/src/hooks/useSEO.js:29-45 | a disabled call's tag keeps its value when all targets are distinct |
| Head.HookUpdates | frontend/src/hooks/useSEO.js:29-45 | the hook's calls target description, keywords, canonical, og:title, og:description, og:type, og:site_name, og:url, og:image, twitter:card, twitter:title, twitter:description and twitter:image, in that order |
| Head.HookTargetsDistinct | frontend/src/hooks/useSEO.js:29-45 | no two of the hook's calls target the same tag |
| Head.HookAlwaysWrites | frontend/src/hooks/useSEO.js:34-43 | og:title and twitter:title always get the title, og:type the type or "website", og:site_name the site name and twitter:card "summary_large_image" |
| Head.HookGuardedWrites | frontend/src/hooks/useSEO.js:29-45 | a truthy description, keywords, canonical or image is written to every tag that carries it |
| Head.HookFalsyKeeps | frontend/src/hooks/useSEO.js:29-45 | a falsy description, keywords, canonical or image leaves every tag that would carry it unchanged |
| Head.HookIdempotent | frontend/src/hooks/useSEO.js:5-47 | re-running the effect with the same arguments leaves the head as one run does |
| Head.DocumentHead.constructor | frontend/src/hooks/useSEO.js:5 | a head with the given title and elements |
| Head.DocumentHead.Upsert | frontend/src/hooks/useSEO.js:8-27 | the scan for the key, then the update in place or the append, gives the single-call head and keeps the title |
| Head.DocumentHead.UpsertAll | frontend/src/hooks/useSEO.js:29-45 | the calls applied in order give the run's head |
| Head.DocumentHead.UseSeo | frontend/src/hooks/useSEO.js:4-48 | the document title becomes the title and the head becomes the hook's calls applied in order |
| SeoHelpers.Redirect | frontend/src/components/seo/SEOHelpers.jsx:10-17 | a known slug replaces the page with its country's page, any other slug with the countries page |
| SeoHelpers.PrefixCancel | frontend/src/components/seo/SEOHelpers.jsx:13 | paths with the same prefix are equal only when their rests are |
| SeoHelpers.RedirectInjective | frontend/src/utils/constants.js:13-26 | two known slugs redirect to the same page exactly when they are the same slug |
| SeoHelpers.WithoutHreflang | frontend/src/components/seo/SEOHelpers.jsx:33 | after removal no hreflang link is left |
| SeoHelpers.WithoutHreflangKeeps | frontend/src/components/seo/SEOHelpers.jsx:33 | removal keeps every element that is not an hreflang link |
| SeoHelpers.HreflangLinks | frontend/src/components/seo/SEOHelpers.jsx:33 | `link[hreflang]` selects only hreflang links |
| SeoHelpers.WithoutHreflangAppend | frontend/src/components/seo/SEOHelpers.jsx:33 | removal distributes over concatenation |
| SeoHelpers.HreflangLinksAppend | frontend/src/components/seo/SEOHelpers.jsx:33 | selection distributes over concatenation |
| SeoHelpers.AlternateLinks | frontend/src/components/seo/SEOHelpers.jsx:36-51 | two alternate links, x-default then en, both pointing at the site URL followed by the current path |
| SeoHelpers.EffectThenCleanup | frontend/src/components/seo/SEOHelpers.jsx:30-56 | after the effect the hreflang links are exactly the two alternates and the other elements are as before; the cleanup leaves no hreflang link |
| SeoHelpers.NoHreflangLeft | frontend/src/components/seo/SEOHelpers.jsx:53-55 | a head without hreflang links is left as it is by the removal |
| SeoHelpers.EffectIdempotent | frontend/src/components/seo/SEOHelpers.jsx:31-52 | running the effect again gives the same head |
| SeoHelpers.RemoveHreflang | frontend/src/components/seo/SEOHelpers.jsx:33 | the removal loop leaves the head without its hreflang links and keeps the title |
| SeoHelpers.AddHreflangTags | frontend/src/components/seo/SEOHelpers.jsx:31-52 | the effect leaves the other elements followed by the two alternate links |
| AppHelpers.RankChange | frontend/src/App.js:887-896 | a gain exactly when the rank number fell, a loss exactly when it rose, a dash when equal, with the distance |
| AppHelpers.RankChangeAgrees | frontend/src/App.js:887-896 | with a non-zero previous rank, App's rank change and the shared badge agree on whether a change shows, its direction and its size |
| AppHelpers.RowRank | frontend/src/App.js:1239 | a falsy rank falls back to the row's position `idx + 1`, any other is kept |
| AppHelpers.RowDefaults | frontend/src/App.js:1239 | a row with neither rank shows a dash; a row with only a current rank is compared with its position |
| AppHelpers.StyleOf | frontend/src/App.js:865-870 | App's table styles exactly Exploding, "Rising Fast", Stable and Slowing |
| AppHelpers.IconOf | frontend/src/App.js:872-877 | a label has an icon exactly when it has a style |
| AppHelpers.ViralBadge | frontend/src/App.js:864-884 | always renders: a falsy label shows "Stable" in the Stable style; a label outside the table the Stable style without icon; a known label its own style and icon |
| AppHelpers.BackendLabelsStyled | frontend/src/App.js:865-877 | every growth label except "Unknown" gets its own icon; "Rising Fast" is green with the rising icon here, unlike the shared badge |
| AppHelpers.RankedItems | frontend/src/App.js:196-206 | one list item per channel, positions from 1, with the channel's name, YouTube URL and image |
| AppHelpers.CountrySchema | frontend/src/App.js:186-207 | no schema exactly without a country; otherwise the page URL, the number of channels, and the items are exactly `RankedItems` of the first ten channels |
| AppHelpers.Rating | frontend/src/App.js:243 | the rating always lies in [1, 5]; a missing or zero score rates 2.5; a score between 20 and 100 rates score/20 |
| AppHelpers.SchemaDescription | frontend/src/App.js:236 | a falsy description falls back to "YouTube channel from" and the country; otherwise a non-empty prefix of at most 500 characters, the whole text when it fits |
| AppHelpers.ChannelSchema | frontend/src/App.js:228-247 | no schema exactly without a channel; otherwise the name, URL, description, rating in [1, 5] and a rating count of the subscribers or 1 |
| AppHelpers.Lookup | frontend/src/App.js:900-903 | every entry of the lookup is stored under its own country code |
| AppHelpers.LookupLastWins | frontend/src/App.js:900-903 | a code is in the lookup exactly when an entry has it, and holds the last such entry |
| AppHelpers.LookupDomain | frontend/src/App.js:900-903 | the lookup holds a code exactly when some map entry has that code |
| AppHelpers.LookupLast | frontend/src/App.js:900-903 | the entry held under a code is one with no later entry of the same code |
| AppHelpers.BuildLookup | frontend/src/App.js:900-903 | the `forEach` loop builds the lookup of the map data, empty when there is none |
| AppHelpers.Click | frontend/src/App.js:913-918 | a click navigates, to the clicked code, exactly when the lookup has it |
| AppHelpers.AppKeysDistinct | frontend/src/App.js:103-139 | App's hook targets twelve different tags |
| AppHelpers.AppUpdates | frontend/src/App.js:103-139 | App's calls in order, each guarded by its argument's truthiness; og:site_name unguarded |
| AppHelpers.AppTitleWrites | frontend/src/App.js:103-139 | the site name is always written; a truthy title reaches og:title and twitter:title, a falsy one leaves them unchanged |
| AppHelpers.AppIdempotent | frontend/src/App.js:84-142 | re-running App's effect with the same arguments changes nothing |
| AppHelpers.UseAppSeo | frontend/src/App.js:84-142 | the document title changes only for a truthy title; the head becomes App's calls applied in order |

## Left out

- Server.Router.GetAllChannels: requires `limit > 0`. MongoDB reads `limit(0)` as "no limit", and the model does not represent an unbounded query.
- Ranking.RankingService.GetCountryLeaderboard: requires `limit > 0`, for the same reason as `GetAllChannels`.
- A negative `skip` on `get_all_channels` is excluded by the `nat` type. The handler does not check it, and MongoDB answers one with an error that the model does not represent.
- MongoDB plumbing: indexes, projections, aggregation pipelines and `to_list` caps beyond those the handlers rely on. Collections are in-memory sequences. Ties between equal subscriber counts keep insertion order (a stable sort), and among snapshots with equal timestamps a `find_one` picks the first in storage order; MongoDB promises neither, so `Growth.LatestSameChoice` and `Growth.StaleStatsNoGain` rely on this deterministic choice. The contracts promise only a non-increasing order and a permutation.
- Server.Router.SeedInitialData: "stored exactly when listed and found" is stated only for ids that were not stored before and that YouTube finds or that have no fresh cached statistics. An id with a fresh cache entry that YouTube no longer finds is stored from the cache, as the source does, and the contract still covers it through `SeedEntries`.
- The network: the YouTube Data API client, `run_in_executor` and every axios request. Their answers are parameters (`Some(stats)`, `None`, an error message).
- The clock, `uuid4` and the random choice of the blog intro and closing (`auto_blog_service.py:117-183`) are parameters. The model does not choose them.
- Text.Upper, Text.Lower, Blog.MilestoneSlug, Server.NewCountry: case mapping covers ASCII letters only. Python's `upper()` and `lower()` are Unicode-aware: other letters are left as they are here, and mappings that change the length (`"ß".upper() == "SS"`) are absent, so the length facts hold only for ASCII text.
- Floating point: growth percentages and the viral score are exact reals, rounded by `round(x, 4)` and `round(x, 2)` as Python rounds an exact value (`Numeric.RoundTo`, ties to even). Binary double rounding before and inside `round` is not modelled. A rounded rate of `-0.0` is 0 here; the label chain treats both alike, since `-0.0 >= 0` holds in Python.
- Decimal rendering of amounts: `toFixed` and Python's `:.2f` and `:.1f` are a structured value (number, decimal places, suffix), not digits. The milestone slug's `:.0f` is rendered into digits, by round-half-even.
- `calculate_viral_score`'s informational fields `daily_growth_rate`, `weekly_growth_rate` and `acceleration` are not part of `Growth.Viral`: only the score and the label are written to the channel.
- Dates in the front end (`toLocaleDateString` in `format.js` and `App.js`) are carried as their numeric parts. The blog's `strftime` strings are built exactly: English month names for `"%B %d, %Y"` and `"%B %Y"`, and the `%Y-%m-%d` and `%Y%m%d` slug dates.
- Date parsing that yields `NaN` in `Indicators.jsx` and `format.js`: ages and dates are given as numbers, or as absent.
- APScheduler job registration, intervals and cron triggers (`scheduler_service.py:25-77`) and `stop`: timing is outside the model. The busy flags are modelled as a sequential skip-and-clear state machine, without the concurrency they guard against.
- `calculate_growth_metrics` and `generate_daily_blog_post` in the scheduler: each is a loop or a single call around `GrowthAnalyzer.UpdateChannelGrowthMetrics` and `BlogService.GenerateDailyRankingPost`, which are modelled. The loops themselves are not.
- Exceptions thrown by MongoDB inside the jobs are not modelled. A failing YouTube call is modelled, and the busy flag is cleared on every modelled exit: the skip, the "no channels" return, the failure and the normal return.
- Ranking queries outside the core: `get_fastest_growing`, `get_biggest_gainers_24h`, `get_rank_history` and `get_recent_ranking_changes` are single sorted reads with no rule of their own. `get_growth_history` is left out for the same reason.
- Endpoints other than the ones modelled in `server.py`: the root and health routes, `get_countries`, `get_channel`, the country, fastest-growing and biggest-gainers leaderboard routes, `refresh_all`, channel history, ranking changes, predictions and search. Each is a read or a loop around a modelled service call. The blog, sitemap, newsletter, contact and related-channel endpoints are not in this server.
- Background tasks scheduled by `add_channel` and `refresh_channel` after the response: the model ends at the response.
- The detail list of FastAPI's 422 validation error: the model returns only the status.
- The prose `description` strings and the interaction counters of the `CountrySEO` and `ChannelSEO` schemas. Their structure, ranks and rating are modelled.
- `App.js`'s `formatNumber` (lines 49-55) is the same rule as `format.js`; `Format.FormatNumber` models both.
- The `REACT_APP_BACKEND_URL` override of `SITE_URL`: the constant is used as written in `constants.js`.
- `COUNTRY_SLUGS` lookups of inherited object keys such as "constructor": slugs are looked up only among the listed entries.
- A search answer that arrives after a later keystroke in `Header.jsx`: answers are applied in request order.
- `AnimatedCounter`: steps use exact reals, not float accumulation. A value change during a running animation and the `setInterval` timing are not modelled.
- React rendering, JSX, CSS, routing, icons, charts and maps, the AdSense `push`, the `LiveIndicator`, and the presentation-only components (`SocialShare`, `EmbedWidget`, `ThemeToggle`, `FavoriteButton`, `Footer`) and static pages. Only the render decisions the core states are modelled: what is shown, and which link or text.
