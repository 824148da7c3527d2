# MyLiveTv core, modelled in Dafny

MyLiveTv is an Android IPTV player. It downloads extended-M3U playlists from
the iptv-org collection and parses them into channels. The channels are
cached per playlist URL in a Room (SQLite) table for 24 hours. The app keeps
a history of watched channels, shows the channels in a searchable grid, and
plays them, stepping to the next or previous channel of the list on screen.

This project models the core of that app and proves properties of the model:

- **The playlist parser** (`M3UParser`, `m3u_parser.dfy`). A `for` loop over
  Kotlin's `lines()` carries three pending fields and emits one record per
  `http` line. It is proved equal to a recursive specification, and lemmas
  give the record count, the record order and the field carry-over.
- **The channel cache** (`ChannelEntities`, `ChannelDtos`, `ChannelDaos`,
  `ChannelRepository`).
  - The `channels` table is a class holding the rows in rowid order and the
    AUTOINCREMENT counter. Each DAO statement is a method whose contract is
    a function on rows.
  - `getChannels` is a method over that DAO. Its result and the table it
    leaves are tied to the pure function `GetChannelsOutcome`, and the
    cache-aside decisions are lemmas about that function.
- **The watch history** (`RecentlyWatchedDaos`, `RecentlyWatchedRepository`).
  It is a table keyed by stream URL, with `INSERT OR REPLACE` saves and
  newest-first reads cut to a limit.
- **The view models.**
  - `ChannelViewModels`: the load guards and the `Resource` transitions.
  - `PlayerViewModels`: the initialization guard, release, and channel
    stepping, with the media player reduced to whether one exists.
  - `HomeViewModels`: tab and item selection mirrored into the saved state.
  - `ChannelListHolders`: the process-wide list handed from the channel
    screen to the player.
- **Pure helpers.**
  - `UrlBuilders`: the playlist URL templates.
  - `ScreenRoutes` and `FormEncoding`: the navigation routes, whose fields
    are encoded with `application/x-www-form-urlencoded` over UTF-8, with
    the decoder proved to invert the encoder.
  - `PlayerErrorHandlers`: the playback error messages and categories.
  - `ChannelScreens`: the grid-column rule, the search filter and the click
    index lookup.

Shared modules: `Domain` holds `Channel`, `Resource` and an `Option` for
Kotlin's nullable types. `Text` holds Kotlin's string functions written out
as scanners. `Sorting` holds a stable insertion sort and SQLite's BINARY
string collation.

Modelling conventions:

- **Clock, network and failures are inputs.** Every clock read becomes a
  `now` parameter, with one reading per call. The network fetch is an input
  `FetchOutcome`, either a body or a failure with its message. Whether the
  expiry sweep's DELETE throws is the input `sweepFails`. Whether the history
  read throws is the input `historyFails`.
- **Coroutines run in two steps.** `viewModelScope.launch` starts on the
  immediate main dispatcher, so `ChannelViewModel.LoadChannels` runs the
  guards and the launched block up to its first suspension, and returns the
  started `Job`. `ChannelViewModel.FinishFetch` or
  `ChannelViewModel.FinishHistory` runs the rest of that block once the
  repository answers.
- **SQL ordering is stable.**
  - `ORDER BY` is a stable sort of the rows in scan (rowid) order. Ties are
    left in scan order, which SQLite does not promise.
  - `LIMIT 1` without `ORDER BY` takes the first row in scan order.
  - A negative `LIMIT` means no limit.

## Model

| member | source | states |
|---|---|---|
| Text.Lines | app/src/main/java/com/ravi/mylivetv/data/parser/M3Uparser.kt:9 | `lines()` always yields at least one line, and no line holds a CR or LF. The text is a single line exactly when it has no line break. |
| Text.LinesCons | app/src/main/java/com/ravi/mylivetv/data/parser/M3Uparser.kt:9 | A line followed by `\n` contributes exactly that line, and the rest is split on its own. |
| Text.LinesCrLf | app/src/main/java/com/ravi/mylivetv/data/parser/M3Uparser.kt:9 | A line followed by `\r\n` contributes exactly that line: the pair is one separator. |
| Text.LinesCr | app/src/main/java/com/ravi/mylivetv/data/parser/M3Uparser.kt:9 | A line followed by a lone `\r` (not followed by `\n`) contributes exactly that line. |
| Text.SubstringAfter | app/src/main/java/com/ravi/mylivetv/data/parser/M3Uparser.kt:19 | Without the delimiter the result is the whole text. Otherwise the text is the part before the first delimiter, the delimiter, and the result. |
| Text.Trim | app/src/main/java/com/ravi/mylivetv/data/parser/M3Uparser.kt:19 | The result is the input with its leading and trailing whitespace (Kotlin's definition) cut off: a contiguous slice of the input, everything outside it is whitespace, and it neither starts nor ends with whitespace. |
| Text.TrimKeepsPrefix | app/src/main/java/com/ravi/mylivetv/data/parser/M3Uparser.kt:26-31 | Trimming a line that starts with a whitespace-free prefix such as `http` keeps that prefix. |
| M3UParser.ValueEnd | app/src/main/java/com/ravi/mylivetv/data/parser/M3Uparser.kt:20-23 | The lazy group `(.*?)"` ends at the first quote, and fails at a line terminator or the end of the line. |
| M3UParser.FindAttr | app/src/main/java/com/ravi/mylivetv/data/parser/M3Uparser.kt:20-23 | `Regex.find` returns the leftmost position where the pattern matches, or -1 when none does. |
| M3UParser.AttrValue | app/src/main/java/com/ravi/mylivetv/data/parser/M3Uparser.kt:20-23 | The extracted logo or group value never contains a quote. |
| M3UParser.AttrValueOfFirstOccurrence | app/src/main/java/com/ravi/mylivetv/data/parser/M3Uparser.kt:20-23 | The value is the text between the first closed `key="` occurrence and the next quote. |
| M3UParser.ValueEndAtQuote | app/src/main/java/com/ravi/mylivetv/data/parser/M3Uparser.kt:20-23 | A quote preceded only by ordinary characters is where the group ends. |
| M3UParser.AttrValueAbsent | app/src/main/java/com/ravi/mylivetv/data/parser/M3Uparser.kt:21-23 | A line without the key gives `""` (`orEmpty()`). |
| M3UParser.ParseLines | app/src/main/java/com/ravi/mylivetv/data/parser/M3Uparser.kt:16-37 | The specification of the scan: there are never more records than lines. |
| M3UParser.Parse | app/src/main/java/com/ravi/mylivetv/data/parser/M3Uparser.kt:8-39 | The loop over `lines()` with the three pending variables returns exactly `ParseLines(Lines(content))`. |
| M3UParser.ScanStep | app/src/main/java/com/ravi/mylivetv/data/parser/M3Uparser.kt:17-35 | What one more line does: an `#EXTINF` line sets the pending fields, an `http` line appends one record, and any other line changes nothing. |
| M3UParser.UrlLinePositions | app/src/main/java/com/ravi/mylivetv/data/parser/M3Uparser.kt:26 | Lists every line that reaches the `http` branch, in increasing order, and only those. |
| M3UParser.ParseLinesFollowsUrlLines | app/src/main/java/com/ravi/mylivetv/data/parser/M3Uparser.kt:16-37 | There is one record per `http` line, in input order. Record k is its line trimmed, with the fields pending before it. |
| M3UParser.RecordsHaveHttpUrls | app/src/main/java/com/ravi/mylivetv/data/parser/M3Uparser.kt:26-31 | Every record's stream URL starts with `http`. |
| M3UParser.PendingIsLastExtinf | app/src/main/java/com/ravi/mylivetv/data/parser/M3Uparser.kt:18-23 | The pending fields are those of the last `#EXTINF` line. |
| M3UParser.PendingWithoutExtinf | app/src/main/java/com/ravi/mylivetv/data/parser/M3Uparser.kt:12-14 | Before any `#EXTINF` line, every pending field is empty. |
| M3UParser.PendingCarriesOver | app/src/main/java/com/ravi/mylivetv/data/parser/M3Uparser.kt:12-14 | Lines without `#EXTINF` leave the pending fields as they were; emitting a record resets nothing. |
| M3UParser.TwoUrlsShareMetadata | app/src/main/java/com/ravi/mylivetv/data/parser/M3Uparser.kt:26-34 | Two consecutive URL lines get the same name, logo and category. |
| M3UParser.NonUrlLineEmitsNothing | app/src/main/java/com/ravi/mylivetv/data/parser/M3Uparser.kt:17-36 | A trailing `#EXTINF` line, or any line that is not a URL line, emits nothing. |
| M3UParser.ParseEmptyContent | app/src/main/java/com/ravi/mylivetv/data/parser/M3Uparser.kt:38 | Empty content yields no records. |
| ChannelDtos.AllToDomain | app/src/main/java/com/ravi/mylivetv/data/repository/ChannelRepositoryImpl.kt:55 | The mapped list has the same length, and element i is record i mapped. |
| ChannelDtos.ToDomainKeepsFields | app/src/main/java/com/ravi/mylivetv/data/model/ChannelDto.kt:12-19 | `toDomain` copies all four fields unchanged. |
| ChannelDtos.ToDomainInjective | app/src/main/java/com/ravi/mylivetv/data/model/ChannelDto.kt:5-19 | Distinct records map to distinct channels. |
| ChannelDtos.ToDomainKeepsUrlPrefix | app/src/main/java/com/ravi/mylivetv/data/model/ChannelDto.kt:16 | The `http` prefix from the parser survives the mapping. |
| ChannelEntities.AllToDomain | app/src/main/java/com/ravi/mylivetv/data/repository/ChannelRepositoryImpl.kt:41 | The cached rows map one for one, in order. |
| ChannelEntities.AllToEntity | app/src/main/java/com/ravi/mylivetv/data/repository/ChannelRepositoryImpl.kt:58 | Each channel becomes `toEntity(url)`, in order, all stamped with the same time. |
| ChannelEntities.EntityRoundTrip | app/src/main/java/com/ravi/mylivetv/data/local/entity/ChannelEntity.kt:20-37 | `toEntity(c, url).toDomain() == c`. |
| ChannelEntities.ToEntityStorageFields | app/src/main/java/com/ravi/mylivetv/data/local/entity/ChannelEntity.kt:9-16 | A new row carries its key, id 0 (left for storage to assign) and the creation time. |
| ChannelEntities.ToDomainIgnoresStorageFields | app/src/main/java/com/ravi/mylivetv/data/local/entity/ChannelEntity.kt:20-27 | Rows that differ only in id, key or timestamp map to the same channel. |
| ChannelEntities.DtoCacheRoundTrip | app/src/main/java/com/ravi/mylivetv/data/local/entity/ChannelEntity.kt:20-37 | A parsed record survives a trip through the cache. |
| ChannelEntities.ListCacheRoundTrip | app/src/main/java/com/ravi/mylivetv/data/repository/ChannelRepositoryImpl.kt:58 | A whole list survives the trip, in order. |
| Sorting.SortBy | app/src/main/java/com/ravi/mylivetv/data/local/dao/ChannelDao.kt:13 | `ORDER BY` returns its input sorted, and as a permutation. |
| Sorting.InsertSorted | app/src/main/java/com/ravi/mylivetv/data/local/dao/ChannelDao.kt:13 | Inserting into a sorted list keeps it sorted and adds exactly that element. |
| Sorting.Take | app/src/main/java/com/ravi/mylivetv/data/local/dao/RecentlyWatchedDao.kt:29 | `LIMIT n` keeps the first `min(n, size)` rows. |
| Sorting.TakeKeepsFront | app/src/main/java/com/ravi/mylivetv/data/local/dao/RecentlyWatchedDao.kt:29 | Cutting a sorted list keeps it sorted, and no dropped row sorts ahead of a kept row. |
| Sorting.LexLeTotal | app/src/main/java/com/ravi/mylivetv/data/local/dao/ChannelDao.kt:13 | The BINARY collation compares any two names. |
| Sorting.LexLeTransitive | app/src/main/java/com/ravi/mylivetv/data/local/dao/ChannelDao.kt:13 | The BINARY collation is transitive. |
| Sorting.LexLeAntisymmetric | app/src/main/java/com/ravi/mylivetv/data/local/dao/ChannelDao.kt:13 | Names that collate both ways are equal. |
| ChannelDaos.Select | app/src/main/java/com/ravi/mylivetv/data/local/dao/ChannelDao.kt:22-35 | A `WHERE` keeps exactly the rows that satisfy it. |
| ChannelDaos.SelectCommutes | app/src/main/java/com/ravi/mylivetv/data/local/dao/ChannelDao.kt:22-35 | Two `WHERE` filters applied in either order leave the same rows in the same order. |
| ChannelDaos.SelectKeepsValid | app/src/main/java/com/ravi/mylivetv/data/local/dao/ChannelDao.kt:22-35 | A DELETE keeps the ids ascending, non-zero and below the counter. |
| ChannelDaos.InsertById | app/src/main/java/com/ravi/mylivetv/data/local/dao/ChannelDao.kt:19-20 | The row is added at its id position, and nothing is lost. |
| ChannelDaos.InsertOne | app/src/main/java/com/ravi/mylivetv/data/local/dao/ChannelDao.kt:19-20 | One `INSERT OR REPLACE` keeps the table well formed. |
| ChannelDaos.InsertReplaces | app/src/main/java/com/ravi/mylivetv/data/local/dao/ChannelDao.kt:19-20 | The new row is stored under its assigned id, and it replaces only the row that had that id. |
| ChannelDaos.InsertNewRow | app/src/main/java/com/ravi/mylivetv/data/local/entity/ChannelEntity.kt:9-10 | A row with id 0 is appended under the next AUTOINCREMENT id, and the counter moves on. |
| ChannelDaos.InsertAll | app/src/main/java/com/ravi/mylivetv/data/local/dao/ChannelDao.kt:19-20 | Inserting a list keeps the table well formed. |
| ChannelDaos.InsertAllNewRows | app/src/main/java/com/ravi/mylivetv/data/local/dao/ChannelDao.kt:19-20 | New rows are appended in list order under fresh ids, and the existing rows stay in place. |
| ChannelDaos.NumberedIds | app/src/main/java/com/ravi/mylivetv/data/local/entity/ChannelEntity.kt:9-10 | Row i of a batch gets id `n + i`, with its other fields unchanged. |
| ChannelDaos.NumberedStep | app/src/main/java/com/ravi/mylivetv/data/local/entity/ChannelEntity.kt:9-10 | Numbering the first row of a batch, then the rest from the next id, numbers the whole batch. |
| ChannelDaos.ByNameIsTotalPreorder | app/src/main/java/com/ravi/mylivetv/data/local/dao/ChannelDao.kt:13 | `ORDER BY name ASC` is a total preorder. |
| ChannelDaos.ChannelsByCategory | app/src/main/java/com/ravi/mylivetv/data/local/dao/ChannelDao.kt:13-14 | Returns exactly the rows of the key, sorted by name, as a permutation of them. |
| ChannelDaos.NoRowsNoListing | app/src/main/java/com/ravi/mylivetv/data/local/dao/ChannelDao.kt:13-14 | The listing is empty if and only if the key has no rows. |
| ChannelDaos.ChannelCount | app/src/main/java/com/ravi/mylivetv/data/local/dao/ChannelDao.kt:28-29 | The count equals the length of `getChannelsByCategory`. |
| ChannelDaos.CacheTimestamp | app/src/main/java/com/ravi/mylivetv/data/local/dao/ChannelDao.kt:31-32 | Null if and only if the key has no row. Otherwise it is the timestamp of some row of the key. |
| ChannelDaos.ChannelDao.constructor | app/src/main/java/com/ravi/mylivetv/data/local/dao/ChannelDao.kt:11 | A new database has an empty, well-formed table. |
| ChannelDaos.ChannelDao.GetChannelsByCategory | app/src/main/java/com/ravi/mylivetv/data/local/dao/ChannelDao.kt:13-14 | Returns `ChannelsByCategory` of the current rows and changes nothing. |
| ChannelDaos.ChannelDao.InsertChannels | app/src/main/java/com/ravi/mylivetv/data/local/dao/ChannelDao.kt:19-20 | The new table is `InsertAll` of the old one, and it stays well formed. |
| ChannelDaos.ChannelDao.DeleteChannelsByCategory | app/src/main/java/com/ravi/mylivetv/data/local/dao/ChannelDao.kt:22-23 | Keeps exactly the rows of other keys, in order, with the counter unchanged. |
| ChannelDaos.ChannelDao.DeleteAllChannels | app/src/main/java/com/ravi/mylivetv/data/local/dao/ChannelDao.kt:25-26 | Leaves no rows, with the counter unchanged. |
| ChannelDaos.ChannelDao.GetChannelCount | app/src/main/java/com/ravi/mylivetv/data/local/dao/ChannelDao.kt:28-29 | Returns `ChannelCount` of the current rows. |
| ChannelDaos.ChannelDao.GetCacheTimestamp | app/src/main/java/com/ravi/mylivetv/data/local/dao/ChannelDao.kt:31-32 | Returns `CacheTimestamp` of the current rows. |
| ChannelDaos.ChannelDao.DeleteExpiredChannels | app/src/main/java/com/ravi/mylivetv/data/local/dao/ChannelDao.kt:34-35 | Keeps exactly the rows with `timestamp >= t`, in order. |
| ChannelDaos.DeleteByCategoryExact | app/src/main/java/com/ravi/mylivetv/data/local/dao/ChannelDao.kt:22-23 | Removes every row of the key, and every other key keeps exactly its rows. |
| ChannelDaos.DeleteExpiredPerRow | app/src/main/java/com/ravi/mylivetv/data/local/dao/ChannelDao.kt:34-35 | The expiry works row by row across all keys, and no row left is older than t. |
| Domain.MessageText | app/src/main/java/com/ravi/mylivetv/data/repository/ChannelRepositoryImpl.kt:77 | A string template renders a null message as `null`. |
| ChannelRepository.Fallback | app/src/main/java/com/ravi/mylivetv/data/repository/ChannelRepositoryImpl.kt:67-79 | `Success` if and only if rows remain for the key, and then it holds exactly those rows, name-ordered and mapped to channels. Otherwise `Error("Failed to load channels: " + message)`. |
| ChannelRepository.Refresh | app/src/main/java/com/ravi/mylivetv/data/repository/ChannelRepositoryImpl.kt:51-79 | The fetch and what follows it keep the table well formed. |
| ChannelRepository.GetChannelsOutcome | app/src/main/java/com/ravi/mylivetv/data/repository/ChannelRepositoryImpl.kt:30-80 | The result is always `Success` or `Error`, never `Loading`, and the table stays well formed. |
| ChannelRepository.ChannelRepositoryImpl.constructor | app/src/main/java/com/ravi/mylivetv/data/repository/ChannelRepositoryImpl.kt:19-23 | The repository works on the DAO it is given. |
| ChannelRepository.ChannelRepositoryImpl.GetChannels | app/src/main/java/com/ravi/mylivetv/data/repository/ChannelRepositoryImpl.kt:30-81 | The cache check, then the fetch, return the result of `GetChannelsOutcome` and leave the table it gives. |
| ChannelRepository.ChannelRepositoryImpl.FetchAndStore | app/src/main/java/com/ravi/mylivetv/data/repository/ChannelRepositoryImpl.kt:51-79 | From the fetch on, the DAO calls return the result of `Refresh` and leave its table: on success the key's rows are replaced and the table swept; on failure, the `catch` fallback. |
| ChannelRepository.ChannelRepositoryImpl.CleanupExpiredCaches | app/src/main/java/com/ravi/mylivetv/data/repository/ChannelRepositoryImpl.kt:88-96 | Removes every row older than 24 hours, or changes nothing when the DELETE throws. |
| ChannelRepository.CachedKeyHasTimestamp | app/src/main/java/com/ravi/mylivetv/data/repository/ChannelRepositoryImpl.kt:36-37 | A key with cached rows has a timestamp, so the `?: 0` default never applies to it. |
| ChannelRepository.CacheHitReturnsCache | app/src/main/java/com/ravi/mylivetv/data/repository/ChannelRepositoryImpl.kt:28-43 | A fresh, non-empty cache without a forced refresh is returned in name order. The network is not consulted and the table does not change. |
| ChannelRepository.ExpiredCacheDeletedBeforeFetch | app/src/main/java/com/ravi/mylivetv/data/repository/ChannelRepositoryImpl.kt:37-46 | An expired cache is deleted before the fetch, and the other keys are untouched. |
| ChannelRepository.ExpiredCacheAndFailedFetchIsError | app/src/main/java/com/ravi/mylivetv/data/repository/ChannelRepositoryImpl.kt:46-78 | An expired cache followed by a failing fetch gives `Error`, not the stale rows. |
| ChannelRepository.ForcedRefreshFailureFallsBack | app/src/main/java/com/ravi/mylivetv/data/repository/ChannelRepositoryImpl.kt:34-79 | With a forced refresh and a failing fetch, the rows stored before the call are returned if there are any, else `Error`. The table does not change. |
| ChannelRepository.FailedFetchFallsBack | app/src/main/java/com/ravi/mylivetv/data/repository/ChannelRepositoryImpl.kt:67-79 | Any failing fetch ends in the fallback over the rows left at that point. |
| ChannelRepository.BatchRows | app/src/main/java/com/ravi/mylivetv/data/repository/ChannelRepositoryImpl.kt:58 | The stored batch maps back to the channels, with key `url` and time `now`. |
| ChannelRepository.BatchSurvivesSweep | app/src/main/java/com/ravi/mylivetv/data/repository/ChannelRepositoryImpl.kt:64 | Rows stamped `now` survive the sweep that runs at `now`. |
| ChannelRepository.RefreshStoresBatch | app/src/main/java/com/ravi/mylivetv/data/repository/ChannelRepositoryImpl.kt:59-64 | After delete, insert and sweep, the key holds exactly the new batch. |
| ChannelRepository.FetchReplacesCache | app/src/main/java/com/ravi/mylivetv/data/repository/ChannelRepositoryImpl.kt:53-66 | A successful fetch returns the parsed channels in parser order, and the key then holds exactly those channels stamped `now`, even when there are none. |
| ChannelRepository.RefreshOtherKey | app/src/main/java/com/ravi/mylivetv/data/repository/ChannelRepositoryImpl.kt:57-64 | A successful refresh of one key leaves every other key's rows as they were, apart from the 24-hour sweep when it runs. |
| ChannelRepository.SweepRemovesExpiredRows | app/src/main/java/com/ravi/mylivetv/data/repository/ChannelRepositoryImpl.kt:64 | After a successful fetch and sweep, no row of any key is older than 24 hours. |
| ChannelRepository.SweepFailureKeepsResult | app/src/main/java/com/ravi/mylivetv/data/repository/ChannelRepositoryImpl.kt:93-95 | A failing sweep never changes the result. |
| ChannelRepository.OtherKeysOnlySwept | app/src/main/java/com/ravi/mylivetv/data/repository/ChannelRepositoryImpl.kt:46-64 | Other keys change only through the global sweep. |
| RecentlyWatchedDaos.Where | app/src/main/java/com/ravi/mylivetv/data/local/dao/RecentlyWatchedDao.kt:23-39 | A `WHERE` keeps exactly the rows that satisfy it. |
| RecentlyWatchedDaos.WhereKeepsUnique | app/src/main/java/com/ravi/mylivetv/data/local/dao/RecentlyWatchedDao.kt:32-39 | A DELETE keeps the stream URLs unique. |
| RecentlyWatchedDaos.WhereIdempotent | app/src/main/java/com/ravi/mylivetv/data/local/dao/RecentlyWatchedDao.kt:32-33 | Deleting by the same key twice is deleting once. |
| RecentlyWatchedDaos.Replace | app/src/main/java/com/ravi/mylivetv/data/local/dao/RecentlyWatchedDao.kt:14-15 | Holds the new row, plus exactly the old rows with other keys. |
| RecentlyWatchedDaos.UpdateRow | app/src/main/java/com/ravi/mylivetv/data/local/dao/RecentlyWatchedDao.kt:17-18 | The row with the key takes the new fields in place. Every other row, and the row count, is unchanged. |
| RecentlyWatchedDaos.FindByUrl | app/src/main/java/com/ravi/mylivetv/data/local/dao/RecentlyWatchedDao.kt:20-21 | Null if and only if no row has the key. Otherwise it is a stored row with that key. |
| RecentlyWatchedDaos.NewerOrSameIsTotalPreorder | app/src/main/java/com/ravi/mylivetv/data/local/dao/RecentlyWatchedDao.kt:29 | `ORDER BY lastWatchedTime DESC` is a total preorder. |
| RecentlyWatchedDaos.Limit | app/src/main/java/com/ravi/mylivetv/data/local/dao/RecentlyWatchedDao.kt:29-30 | `LIMIT` keeps a prefix of `min(limit, size)` rows, or every row for a negative limit. |
| RecentlyWatchedDaos.NewestFirst | app/src/main/java/com/ravi/mylivetv/data/local/dao/RecentlyWatchedDao.kt:29-30 | Newest first, cut to the limit, holding only stored rows and each at most as often as it is stored; with no limit, or a limit at least the table size, every stored row comes back. |
| RecentlyWatchedDaos.NewestFirstDropsOnlyOlder | app/src/main/java/com/ravi/mylivetv/data/local/dao/RecentlyWatchedDao.kt:29-30 | No omitted row is newer than a returned row. |
| RecentlyWatchedDaos.NewestRowFirst | app/src/main/java/com/ravi/mylivetv/data/local/dao/RecentlyWatchedDao.kt:29-30 | A strictly newest row comes first. |
| RecentlyWatchedDaos.RecentlyWatchedDao.constructor | app/src/main/java/com/ravi/mylivetv/data/local/dao/RecentlyWatchedDao.kt:11-12 | A new table is empty. |
| RecentlyWatchedDaos.RecentlyWatchedDao.InsertOrUpdate | app/src/main/java/com/ravi/mylivetv/data/local/dao/RecentlyWatchedDao.kt:14-15 | The table becomes `Replace(old, e)`, with unique keys kept. |
| RecentlyWatchedDaos.RecentlyWatchedDao.Update | app/src/main/java/com/ravi/mylivetv/data/local/dao/RecentlyWatchedDao.kt:17-18 | The table becomes `UpdateRow(old, e)`, with unique keys kept. |
| RecentlyWatchedDaos.RecentlyWatchedDao.GetByStreamUrl | app/src/main/java/com/ravi/mylivetv/data/local/dao/RecentlyWatchedDao.kt:20-21 | Returns `FindByUrl` of the current rows. |
| RecentlyWatchedDaos.RecentlyWatchedDao.GetRecentlyWatchedByCategory | app/src/main/java/com/ravi/mylivetv/data/local/dao/RecentlyWatchedDao.kt:23-24 | Returns only the rows of that category, newest first, cut to the limit (default 10). |
| RecentlyWatchedDaos.RecentlyWatchedDao.GetAllRecentlyWatched | app/src/main/java/com/ravi/mylivetv/data/local/dao/RecentlyWatchedDao.kt:29-30 | Returns all rows newest first, cut to the limit (default 50). |
| RecentlyWatchedDaos.RecentlyWatchedDao.DeleteByStreamUrl | app/src/main/java/com/ravi/mylivetv/data/local/dao/RecentlyWatchedDao.kt:32-33 | Removes only the row with the key. |
| RecentlyWatchedDaos.RecentlyWatchedDao.ClearAll | app/src/main/java/com/ravi/mylivetv/data/local/dao/RecentlyWatchedDao.kt:35-36 | Leaves the table empty. |
| RecentlyWatchedDaos.RecentlyWatchedDao.DeleteOldEntries | app/src/main/java/com/ravi/mylivetv/data/local/dao/RecentlyWatchedDao.kt:38-39 | Keeps exactly the rows with `lastWatchedTime >= t`. |
| RecentlyWatchedDaos.ReplaceLeavesOneRow | app/src/main/java/com/ravi/mylivetv/data/local/dao/RecentlyWatchedDao.kt:14-15 | After a replace, exactly one row has the key; it is the new row, and keys stay unique. |
| RecentlyWatchedDaos.FindByUrlExact | app/src/main/java/com/ravi/mylivetv/data/local/dao/RecentlyWatchedDao.kt:20-21 | With unique keys, the lookup finds exactly the stored row. |
| RecentlyWatchedRepository.RecentlyWatchedRepositoryImpl.constructor | app/src/main/java/com/ravi/mylivetv/data/repository/RecentlyWatchedRepositoryImpl.kt:15-17 | The repository works on the DAO it is given. |
| RecentlyWatchedRepository.RecentlyWatchedRepositoryImpl.SaveRecentlyWatched | app/src/main/java/com/ravi/mylivetv/data/repository/RecentlyWatchedRepositoryImpl.kt:19-54 | Lookup, conditional delete and insert leave exactly `Replace(old, entry stamped now)`. |
| RecentlyWatchedRepository.RecentlyWatchedRepositoryImpl.GetRecentlyWatchedByCategory | app/src/main/java/com/ravi/mylivetv/data/repository/RecentlyWatchedRepositoryImpl.kt:56-59 | Returns the DAO result unchanged and does not touch the table. |
| RecentlyWatchedRepository.RecentlyWatchedRepositoryImpl.GetAllRecentlyWatched | app/src/main/java/com/ravi/mylivetv/data/repository/RecentlyWatchedRepositoryImpl.kt:61-69 | Returns the DAO result unchanged and does not touch the table. |
| RecentlyWatchedRepository.RecentlyWatchedRepositoryImpl.ClearAll | app/src/main/java/com/ravi/mylivetv/data/repository/RecentlyWatchedRepositoryImpl.kt:71-75 | Leaves the history empty. |
| RecentlyWatchedRepository.SaveThenLookup | app/src/main/java/com/ravi/mylivetv/data/repository/RecentlyWatchedRepositoryImpl.kt:27-48 | After a save, the lookup of its URL returns exactly the saved entry with time `now`. |
| RecentlyWatchedRepository.SaveKeepsOtherEntries | app/src/main/java/com/ravi/mylivetv/data/repository/RecentlyWatchedRepositoryImpl.kt:35-48 | A save leaves every other URL's entry as it was. |
| RecentlyWatchedRepository.SavedEntryIsNewest | app/src/main/java/com/ravi/mylivetv/data/repository/RecentlyWatchedRepositoryImpl.kt:27-48 | Saving at a time no earlier than every stored entry makes the saved time maximal. |
| RecentlyWatchedRepository.SavedEntryHeadsHistory | app/src/main/java/com/ravi/mylivetv/data/local/dao/RecentlyWatchedDao.kt:29-30 | Saving strictly later than every entry puts the saved entry first in `getAllRecentlyWatched`. |
| ChannelListHolders.ChannelListHolder.constructor | app/src/main/java/com/ravi/mylivetv/utils/ChannelListHolder.kt:10-11 | The holder starts with an empty list and category `""`. |
| ChannelListHolders.ChannelListHolder.SetChannels | app/src/main/java/com/ravi/mylivetv/utils/ChannelListHolder.kt:13-16 | Overwrites both fields, without merging. |
| ChannelListHolders.ChannelListHolder.GetChannels | app/src/main/java/com/ravi/mylivetv/utils/ChannelListHolder.kt:18 | Returns the list and changes nothing. |
| ChannelListHolders.ChannelListHolder.GetCategory | app/src/main/java/com/ravi/mylivetv/utils/ChannelListHolder.kt:20 | Returns the category and changes nothing. |
| ChannelListHolders.ChannelListHolder.Clear | app/src/main/java/com/ravi/mylivetv/utils/ChannelListHolder.kt:22-25 | Resets to an empty list and `""`. |
| ChannelListHolders.SetThenGet | app/src/main/java/com/ravi/mylivetv/utils/ChannelListHolder.kt:13-20 | After a set, the two reads give back exactly what was set, whatever the holder held before. |
| ChannelViewModels.LoadDecision | app/src/main/java/com/ravi/mylivetv/ui/channel/ChannelViewModel.kt:37-59 | The history category always takes the history path. Otherwise a duplicate load is skipped, and any load is skipped while one is running, even a forced one. A fetch starts exactly when neither guard applies. |
| ChannelViewModels.HistoryChannels | app/src/main/java/com/ravi/mylivetv/ui/channel/ChannelViewModel.kt:95-102 | The history entries map field for field, in the same order. |
| ChannelViewModels.HistoryState | app/src/main/java/com/ravi/mylivetv/ui/channel/ChannelViewModel.kt:104-114 | A failed read gives `Error("Failed to load recently watched channels")`, empty history gives `Error("No recently watched channels")`, and otherwise `Success` of the mapped entries. |
| ChannelViewModels.ChannelViewModel.constructor | app/src/main/java/com/ravi/mylivetv/ui/channel/ChannelViewModel.kt:29-35 | The view model starts `Loading`, with no URL, no category, and no load running. |
| ChannelViewModels.ChannelViewModel.LoadChannels | app/src/main/java/com/ravi/mylivetv/ui/channel/ChannelViewModel.kt:37-63 | Records the category and starts the job `LoadDecision` names. A skip changes nothing more; a fetch sets `Loading`, the URL and the busy flag. |
| ChannelViewModels.ChannelViewModel.StartHistoryLoad | app/src/main/java/com/ravi/mylivetv/ui/channel/ChannelViewModel.kt:84-89 | The history load first shows `Loading`. |
| ChannelViewModels.ChannelViewModel.FinishFetch | app/src/main/java/com/ravi/mylivetv/ui/channel/ChannelViewModel.kt:65-68 | The screen shows the repository's result for the load, the table becomes the one that load leaves, and the busy flag is cleared; URL and category are kept. |
| ChannelViewModels.ChannelViewModel.FinishHistory | app/src/main/java/com/ravi/mylivetv/ui/channel/ChannelViewModel.kt:92-114 | The screen shows `HistoryState` of the 100 newest entries: an error when the read throws or finds nothing, else the entries as channels. URL, category and busy flag are kept. |
| ChannelViewModels.ChannelViewModel.RefreshChannels | app/src/main/java/com/ravi/mylivetv/ui/channel/ChannelViewModel.kt:118-127 | Reloads the history for the history category. Does nothing without a current URL; otherwise does a forced `loadChannels` of the current URL: skipped while busy, leaving everything but the category; else the screen shows Loading, the URL is kept and the busy flag is set. |
| ChannelViewModels.ChannelViewModel.ClearCache | app/src/main/java/com/ravi/mylivetv/ui/channel/ChannelViewModel.kt:129-134 | Clears the URL and category and shows `Loading`. |
| ChannelViewModels.RefreshReloads | app/src/main/java/com/ravi/mylivetv/ui/channel/ChannelViewModel.kt:47-55 | A forced reload of the current URL is never a duplicate; it is skipped only while busy. |
| ChannelViewModels.HistoryLoadShowsNewest | app/src/main/java/com/ravi/mylivetv/ui/channel/ChannelViewModel.kt:92-108 | The history load is an error exactly when the table is empty. Otherwise it shows at most 100 channels, each from a stored entry. |
| PlayerViewModels.StartingUi | app/src/main/java/com/ravi/mylivetv/ui/player/PlayerViewModel.kt:93-102 | The new stream's UI state: buffering, not yet started, the given labels, and the next/previous flags of the list and index. |
| PlayerViewModels.PlayerViewModel.constructor | app/src/main/java/com/ravi/mylivetv/ui/player/PlayerViewModel.kt:40-54 | The view model starts with no player, no stream, the default UI state, index -1 and an empty list. |
| PlayerViewModels.PlayerViewModel.InitializePlayer | app/src/main/java/com/ravi/mylivetv/ui/player/PlayerViewModel.kt:61-152 | Skips when already set up for this stream. Otherwise it releases a player on another stream, re-reads the list when the index is at least 0, resets the UI state, and ensures a player exists. |
| PlayerViewModels.PlayerViewModel.ReleasePlayer | app/src/main/java/com/ravi/mylivetv/ui/player/PlayerViewModel.kt:154-168 | Leaves no player, not initialized, no stream, and the default UI state. |
| PlayerViewModels.PlayerViewModel.SwitchToNextChannel | app/src/main/java/com/ravi/mylivetv/ui/player/PlayerViewModel.kt:393-406 | Without a next channel: null, and nothing changes. Otherwise the index goes up by one, the channel there is returned, and the player restarts on it. When the shared holder still holds the list the step was taken in, the new index lies inside the re-read list. |
| PlayerViewModels.PlayerViewModel.SwitchToPreviousChannel | app/src/main/java/com/ravi/mylivetv/ui/player/PlayerViewModel.kt:408-421 | Without a previous channel: null, and nothing changes. Otherwise the index goes down by one, the channel there is returned, and the player restarts on it. When the shared holder still holds the list the step was taken in, the new index lies inside the re-read list. |
| PlayerViewModels.PlayerViewModel.SwitchChannel | app/src/main/java/com/ravi/mylivetv/ui/player/PlayerViewModel.kt:423-443 | Re-initializes on the channel at the current index, re-reading the holder's list and keeping the category URL. |
| PlayerViewModels.StepStaysInList | app/src/main/java/com/ravi/mylivetv/ui/player/PlayerViewModel.kt:385-391 | A step the guards allow lands inside the list. |
| PlayerViewModels.StepsAreReversible | app/src/main/java/com/ravi/mylivetv/ui/player/PlayerViewModel.kt:385-391 | After a step forward a step back is possible, and the reverse. |
| PlayerViewModels.EndsOfTheList | app/src/main/java/com/ravi/mylivetv/ui/player/PlayerViewModel.kt:385-391 | The first channel has no previous channel and the last has no next. |
| HomeViewModels.Restored | app/src/main/java/com/ravi/mylivetv/ui/home/HomeViewModel.kt:17-22 | The initial state is the saved tab or 0, and the saved item or -1. |
| HomeViewModels.HomeViewModel.constructor | app/src/main/java/com/ravi/mylivetv/ui/home/HomeViewModel.kt:17-22 | The UI state is restored from the saved state. |
| HomeViewModels.HomeViewModel.SelectTab | app/src/main/java/com/ravi/mylivetv/ui/home/HomeViewModel.kt:25-32 | Sets the tab and resets the item to -1, in the UI and the store, and keeps the UI equal to what a restart would restore. |
| HomeViewModels.HomeViewModel.SelectItem | app/src/main/java/com/ravi/mylivetv/ui/home/HomeViewModel.kt:34-37 | Sets the item and keeps the tab, in the UI and the store, and keeps the same invariant. |
| HomeViewModels.SelectTabIdempotent | app/src/main/java/com/ravi/mylivetv/ui/home/HomeViewModel.kt:25-32 | Selecting a tab twice is selecting it once. |
| HomeViewModels.TabSavedHoldsBothFields | app/src/main/java/com/ravi/mylivetv/ui/home/HomeViewModel.kt:26-31 | After `selectTab`, both saved entries exist and equal the UI fields. |
| HomeViewModels.ItemSavedMayLackTab | app/src/main/java/com/ravi/mylivetv/ui/home/HomeViewModel.kt:35 | After `selectItem` on a fresh store, the tab entry is still missing. |
| ChannelScreens.GridColumns | app/src/main/java/com/ravi/mylivetv/ui/channel/ChannelScreen.kt:67-74 | Always 2 to 6 columns: 6 from 1200 dp, 5 from 840 dp, and at most 4 below that. |
| ChannelScreens.GridColumnsMonotone | app/src/main/java/com/ravi/mylivetv/ui/channel/ChannelScreen.kt:67-74 | A wider screen never gets fewer columns. |
| ChannelScreens.LandscapeAtLeastPortrait | app/src/main/java/com/ravi/mylivetv/ui/channel/ChannelScreen.kt:67-74 | Landscape never gets fewer columns than portrait. |
| Text.IndexOfIgnoreCase | app/src/main/java/com/ravi/mylivetv/ui/channel/ChannelScreen.kt:212-214 | Finds the first case-insensitive match position, or -1. |
| Text.ContainsIgnoreCaseIsLowerInfix | app/src/main/java/com/ravi/mylivetv/ui/channel/ChannelScreen.kt:212-214 | A case-insensitive `contains` is an infix match of the lower-cased texts. |
| ChannelScreens.FilterChannels | app/src/main/java/com/ravi/mylivetv/ui/channel/ChannelScreen.kt:212-214 | Keeps exactly the channels whose name contains the query, ignoring case. |
| ChannelScreens.FilterAppend | app/src/main/java/com/ravi/mylivetv/ui/channel/ChannelScreen.kt:212-214 | The filter works element by element, so it keeps the list order. |
| ChannelScreens.EmptyQueryKeepsAll | app/src/main/java/com/ravi/mylivetv/ui/channel/ChannelScreen.kt:212-214 | An empty query keeps every channel, in order. |
| ChannelScreens.FilterIdempotent | app/src/main/java/com/ravi/mylivetv/ui/channel/ChannelScreen.kt:212-214 | Filtering twice with the same query is filtering once. |
| ChannelScreens.IndexOfStream | app/src/main/java/com/ravi/mylivetv/ui/channel/ChannelScreen.kt:237 | `indexOfFirst`: the first position with that stream URL, or -1 if and only if there is none. |
| ChannelScreens.ClickedChannelHasIndex | app/src/main/java/com/ravi/mylivetv/ui/channel/ChannelScreen.kt:228-237 | A clicked channel gets a valid index that points at the same stream. |
| ChannelScreens.EmptyStateMessage | app/src/main/java/com/ravi/mylivetv/ui/channel/ChannelScreen.kt:216-218 | `No channels available` for an empty query, else `No channels found for "q"`. |
| ChannelScreens.CategoryUrlFor | app/src/main/java/com/ravi/mylivetv/ui/channel/ChannelScreen.kt:97-108 | The history category gets `""`; any other category gets the mapped URL. |
| Text.Lower | app/src/main/java/com/ravi/mylivetv/utils/UrlBuilder.kt:8 | `lowercase()` maps each character, keeping the length. |
| Text.LowerIdempotent | app/src/main/java/com/ravi/mylivetv/utils/UrlBuilder.kt:8 | Lower-casing twice is lower-casing once. |
| UrlBuilders.PlaylistUrl | app/src/main/java/com/ravi/mylivetv/utils/UrlBuilder.kt:5-14 | Starts with the base and the family directory, ends with `.m3u`, and holds the lower-cased name in between. |
| UrlBuilders.Categories | app/src/main/java/com/ravi/mylivetv/utils/UrlBuilder.kt:7-8 | `BASE + "/categories/" + lowercase + ".m3u"`. |
| UrlBuilders.Languages | app/src/main/java/com/ravi/mylivetv/utils/UrlBuilder.kt:10-11 | `BASE + "/languages/" + lowercase + ".m3u"`. |
| UrlBuilders.Countries | app/src/main/java/com/ravi/mylivetv/utils/UrlBuilder.kt:13-14 | `BASE + "/countries/" + lowercase + ".m3u"`. |
| UrlBuilders.CaseDoesNotMatter | app/src/main/java/com/ravi/mylivetv/utils/UrlBuilder.kt:8-14 | Only the lower-case form of the name matters. |
| UrlBuilders.DistinctNamesDistinctUrls | app/src/main/java/com/ravi/mylivetv/utils/UrlBuilder.kt:8-14 | Different lower-case names give different URLs from the same builder. |
| UrlBuilders.FamiliesDoNotCollide | app/src/main/java/com/ravi/mylivetv/utils/UrlBuilder.kt:8-14 | The three builders give pairwise different URLs for the same name. |
| PlayerErrorHandlers.ErrorMessage | app/src/main/java/com/ravi/mylivetv/utils/PlayerErrorHandler.kt:10-39 | Each of the 11 listed codes gets its fixed message. Any other code gets the exception message, or `Unknown playback error occurred` when that is null. |
| PlayerErrorHandlers.GetErrorType | app/src/main/java/com/ravi/mylivetv/utils/PlayerErrorHandler.kt:59-67 | Each thousand from 1000 to 4999 has its own category, and every other code is `UNKNOWN_ERROR`. Each range holds if and only if the type says so. |
| PlayerErrorHandlers.KnownCodeIgnoresMessage | app/src/main/java/com/ravi/mylivetv/utils/PlayerErrorHandler.kt:11-33 | A listed code's message does not depend on the exception message. |
| PlayerErrorHandlers.TypeNamesDistinct | app/src/main/java/com/ravi/mylivetv/utils/PlayerErrorHandler.kt:59-67 | The five category names are pairwise different. |
| FormEncoding.Utf8Char | app/src/main/java/com/ravi/mylivetv/navigation/ScreenRoutes.kt:32-36 | One to four bytes per character, and a single byte exactly for ASCII. |
| FormEncoding.Utf8Append | app/src/main/java/com/ravi/mylivetv/navigation/ScreenRoutes.kt:32-36 | The UTF-8 encoding of a concatenation is the concatenation of the encodings. |
| FormEncoding.Utf8DecodeChar | app/src/main/java/com/ravi/mylivetv/navigation/Navigation.kt:75-79 | Decoding a character's bytes gives that character back, followed by the decoding of the rest. |
| FormEncoding.Utf8RoundTrip | app/src/main/java/com/ravi/mylivetv/navigation/Navigation.kt:75-79 | UTF-8 decoding inverts UTF-8 encoding. |
| FormEncoding.HexDigit | app/src/main/java/com/ravi/mylivetv/navigation/ScreenRoutes.kt:32-36 | Escapes use upper-case hex digits. |
| FormEncoding.Escape | app/src/main/java/com/ravi/mylivetv/navigation/ScreenRoutes.kt:32-36 | Three form characters per byte. |
| FormEncoding.EncodeChar | app/src/main/java/com/ravi/mylivetv/navigation/ScreenRoutes.kt:32-36 | A non-empty run of form characters. |
| FormEncoding.FormEncode | app/src/main/java/com/ravi/mylivetv/navigation/ScreenRoutes.kt:32-36 | The output holds only `A-Z a-z 0-9 . - * _ + %` and is no shorter than the input. |
| FormEncoding.HexValue | app/src/main/java/com/ravi/mylivetv/navigation/Navigation.kt:75-79 | A hex digit's value, or -1 for a non-digit. |
| FormEncoding.EscapeConsumed | app/src/main/java/com/ravi/mylivetv/navigation/Navigation.kt:75-79 | The decoder collects escaped bytes into its pending bytes. |
| FormEncoding.PlainStep | app/src/main/java/com/ravi/mylivetv/navigation/Navigation.kt:75-79 | An unescaped character, or `+` for a space, flushes the pending bytes and is decoded as itself. |
| FormEncoding.DecodeEncodeAfter | app/src/main/java/com/ravi/mylivetv/navigation/Navigation.kt:75-79 | Decoding the encoding of `s`, with the bytes of `p` pending, gives `p + s`. |
| FormEncoding.FormRoundTrip | app/src/main/java/com/ravi/mylivetv/navigation/Navigation.kt:75-79 | `URLDecoder.decode(URLEncoder.encode(s)) == s` for every string of Unicode scalar values (no unpaired surrogates). |
| FormEncoding.EncodedHasNoSlash | app/src/main/java/com/ravi/mylivetv/navigation/ScreenRoutes.kt:32-36 | An encoded field never contains `/`. |
| ScreenRoutes.ChannelRoute | app/src/main/java/com/ravi/mylivetv/navigation/ScreenRoutes.kt:16-18 | `"channelScreen/"` followed by the category unencoded. |
| ScreenRoutes.PlayerRoute | app/src/main/java/com/ravi/mylivetv/navigation/ScreenRoutes.kt:24-38 | The route starts with `playerScreen/`. |
| ScreenRoutes.PlayerSegments | app/src/main/java/com/ravi/mylivetv/navigation/ScreenRoutes.kt:32-37 | The route is made of seven segments. |
| ScreenRoutes.Split | app/src/main/java/com/ravi/mylivetv/navigation/ScreenRoutes.kt:22 | Splitting gives at least one segment, and none contains the separator. |
| ScreenRoutes.SplitAtFirst | app/src/main/java/com/ravi/mylivetv/navigation/ScreenRoutes.kt:22 | Splitting cuts at the first separator. |
| ScreenRoutes.SplitJoin | app/src/main/java/com/ravi/mylivetv/navigation/ScreenRoutes.kt:37 | Splitting joined separator-free segments gives them back. |
| ScreenRoutes.PlayerRouteRoundTrip | app/src/main/java/com/ravi/mylivetv/navigation/ScreenRoutes.kt:32-37 | The player route splits into exactly 7 segments. Decoding segments 1 to 5 gives back the five fields, and the last segment is the index in decimal. |
| Text.IntToDecimalRoundTrip | app/src/main/java/com/ravi/mylivetv/navigation/Navigation.kt:73 | The decimal channel index reads back as the same integer. |
| ScreenRoutes.PlayerRouteDefaults | app/src/main/java/com/ravi/mylivetv/navigation/ScreenRoutes.kt:24-37 | With the default arguments, the route is `playerScreen/<url>/////-1`. |
| ScreenRoutes.HomeRouteTemplate | app/src/main/java/com/ravi/mylivetv/navigation/ScreenRoutes.kt:10 | The home route is one segment. |
| ScreenRoutes.ChannelRouteTemplate | app/src/main/java/com/ravi/mylivetv/navigation/ScreenRoutes.kt:14 | The channel route template splits at `/` into its two segments, `channelScreen` and the `{category}` placeholder. |
| ScreenRoutes.PlayerRouteTemplate | app/src/main/java/com/ravi/mylivetv/navigation/ScreenRoutes.kt:22 | The player route template splits at `/` into seven segments, `playerScreen` and one placeholder per argument, as many as `createRoute` builds. |
| ScreenRoutes.ChannelRouteSegments | app/src/main/java/com/ravi/mylivetv/navigation/ScreenRoutes.kt:14-18 | The channel route has exactly two segments if and only if the category has no `/`. |

## Left out

- Media playback. The ExoPlayer machinery is not modelled: track selection, load control, listeners, analytics, seeking, pause, resume and retry (PlayerViewModel.kt lines 104-148 and 171-362). A player is only "present or absent". Saving the playback position and play-when-ready flag on release is left out too.
- Compose UI. Rendering, layout, animation and focus handling are not modelled. From `ChannelScreen` only the grid-column rule, the filter, the click index, the empty-state text and the history `categoryUrl` choice are modelled.
- The category mapper is not part of this model. `ChannelScreens.CategoryUrlFor` takes its answer as the parameter `mapped`.
- The NavHost wiring is not modelled. Route matching, argument extraction and the Int conversion of `channelIndex` belong to the navigation library. The model proves that `URLEncoder` followed by `URLDecoder` gives each field back, that the decimal index reads back, and that the route templates have the segment counts `createRoute` fills. Any percent-decoding the navigation library applies to path arguments before Navigation.kt lines 75-79 decode them is outside the model.
- Dependency injection, the database builder and the HTTP client are not modelled. The fetch is the input `FetchOutcome`.
- Storage failures are not modelled. The DAO statements never throw, except the expiry sweep, whose failure is the input `sweepFails`, and the history read, whose failure is the input `historyFails`. A failing parse or insert inside `getChannels` would reach the same `catch` as a failing fetch, and is not a separate input.
- Concurrency is not modelled: dispatchers, races between coroutines, and the missing transaction around delete plus insert. A launched block runs to completion before the next call, after its synchronous prefix.
- The Flow variants of the queries are not modelled (`getChannelsByCategoryFlow`, `getAllRecentlyWatchedFlow`). They return the same rows as their suspend twins, as a stream.
- Logging is not modelled: every `Log` call, and `PlayerErrorHandler.logError`, `logStreamInfo`, `logChunkLoad` and `logPlaybackState`.
- Text functions are ASCII-level. `lowercase`, `ignoreCase` matching and `isWhitespace` are written out for ASCII case mapping and the JVM whitespace set. They are not the full Unicode tables.
- Integer width is not modelled. `Int` and `Long` are unbounded here, so the 32-bit AUTOINCREMENT limit and any `Long` overflow in `now - timestamp` are not captured.
- FormEncoding.FormRoundTrip: strings here are sequences of Unicode scalar values. A Kotlin string is UTF-16 and can hold an unpaired surrogate; `URLEncoder` encodes one as `%3F` (its UTF-8 conversion substitutes `?`), so such a string does not round-trip. The round trip, and ScreenRoutes.PlayerRouteRoundTrip with it, is only claimed for well-formed strings.
- FormEncoding.Decode: it gives `None` on malformed input, such as a bad escape or invalid UTF-8. Java's `URLDecoder` instead throws on a bad escape, and substitutes U+FFFD for invalid UTF-8. It also accepts `Integer.parseInt` quirks such as a sign inside an escape. Only the round trip of encoder output is claimed, and that output is always well formed.
- PlayerViewModels.PlayerViewModel.SwitchToPreviousChannel: requires `currentChannelIndex <= |channelList|`. `hasPreviousChannel` has no upper bound on the index. With a larger index, `channelList[currentChannelIndex - 1]` would throw `IndexOutOfBoundsException`, and the model does not capture that exception.
- PlayerViewModels.PlayerViewModel.SwitchToNextChannel, PlayerViewModels.PlayerViewModel.SwitchToPreviousChannel: the index is stepped in the view model's own copy of the list, and the switch then re-reads the list from the shared holder. If the holder's list changed in between, the new index need not lie inside the new list; the range is only promised when the two lists agree.
- PlayerViewModels.PlayerViewModel.SwitchChannel: requires `currentChannelIndex >= 0`. It is only called after a successful step, which guarantees this.
- ChannelRepository.GetChannelsOutcome: the clock is read once per call (`now`). The source reads it separately for the cache age, the row timestamps and the sweep limit.
- SQL ties: rows with equal names, or equal watch times, come back in scan order here. SQLite leaves their order unspecified.
- `RecentlyWatchedRepositoryImpl.saveRecentlyWatched` re-reads the row after the insert. That read only feeds a log line, so it is left out.
