/**
 * `ChannelRepositoryImpl`: cache-aside loading of a playlist.
 *
 * The network fetch is an input (`FetchOutcome`), the clock is one reading
 * `now` shared by every clock read of a call, and whether the expiry sweep's
 * DELETE throws is the input `sweepFails`.
 */
module ChannelRepository {
  import opened Domain
  import opened Text
  import opened Sorting
  import opened ChannelEntities
  import ChannelDtos
  import M3UParser
  import opened ChannelDaos

  /** 24 hours in milliseconds. */
  const CACHE_EXPIRATION_MS := 24 * 60 * 60 * 1000

  /** What `service.fetchPlaylist(url)` did: returned a body, or threw with a (nullable) message. */
  datatype FetchOutcome = Fetched(body: string) | FetchFailed(message: Option<string>)

  /** The value `getChannels` returns and the table it leaves behind. */
  datatype Outcome = Outcome(result: Resource, table: Table)

  /** `parser.parse(raw).map { it.toDomain() }` */
  function ParsedChannels(body: string): seq<Channel> {
    ChannelDtos.AllToDomain(M3UParser.ParseLines(Lines(body)))
  }

  /** How old the cache of `url` is; a missing timestamp counts as 0. */
  function CacheAge(t: Table, url: string, now: int): int {
    now - CacheTimestamp(t.rows, url).GetOr(0)
  }

  /** The three conditions under which the cached rows are returned without a fetch. */
  predicate IsCacheHit(t: Table, url: string, forceRefresh: bool, now: int) {
    !forceRefresh && ChannelsByCategory(t.rows, url) != [] && CacheAge(t, url, now) < CACHE_EXPIRATION_MS
  }

  /** The table when the fetch starts: an expired cache has been deleted. */
  function TableBeforeFetch(t: Table, url: string, forceRefresh: bool): Table {
    if !forceRefresh && ChannelsByCategory(t.rows, url) != [] then Table(Select(t.rows, KeyIsNot(url)), t.nextId)
    else t
  }

  /** The `catch` block: whatever rows remain for the key, or an error naming the exception's message. */
  function Fallback(t: Table, url: string, message: Option<string>): (r: Resource)
    ensures r.Success? <==> ChannelsByCategory(t.rows, url) != []
    ensures r.Success? ==> r.data == AllToDomain(ChannelsByCategory(t.rows, url))
    ensures r.Error? ==> r.message == "Failed to load channels: " + MessageText(message)
  {
    var cached := ChannelsByCategory(t.rows, url);
    if cached != [] then Success(AllToDomain(cached))
    else Error("Failed to load channels: " + MessageText(message))
  }

  /** `cleanupExpiredCaches`: the sweep, or no change when its DELETE throws. */
  function Sweep(t: Table, now: int, fails: bool): Table {
    if fails then t else Table(Select(t.rows, NotOlderThan(now - CACHE_EXPIRATION_MS)), t.nextId)
  }

  /** The fetch and what follows it, from table `t`. */
  function Refresh(t: Table, url: string, fetch: FetchOutcome, sweepFails: bool, now: int): (o: Outcome)
    requires TableValid(t)
    ensures TableValid(o.table)
  {
    match fetch
    case FetchFailed(message) => Outcome(Fallback(t, url, message), t)
    case Fetched(body) =>
      var channels := ParsedChannels(body);
      SelectKeepsValid(t, KeyIsNot(url));
      var stored := InsertAll(Table(Select(t.rows, KeyIsNot(url)), t.nextId), AllToEntity(channels, url, now));
      SelectKeepsValid(stored, NotOlderThan(now - CACHE_EXPIRATION_MS));
      Outcome(Success(channels), Sweep(stored, now, sweepFails))
  }

  /** `getChannels(url, forceRefresh)` */
  function GetChannelsOutcome(t: Table, url: string, forceRefresh: bool, fetch: FetchOutcome, sweepFails: bool, now: int): (o: Outcome)
    requires TableValid(t)
    ensures TableValid(o.table)
    ensures o.result.Success? || o.result.Error?
  {
    if IsCacheHit(t, url, forceRefresh, now) then
      Outcome(Success(AllToDomain(ChannelsByCategory(t.rows, url))), t)
    else
      SelectKeepsValid(t, KeyIsNot(url));
      Refresh(TableBeforeFetch(t, url, forceRefresh), url, fetch, sweepFails, now)
  }

  class ChannelRepositoryImpl {
    const dao: ChannelDao

    constructor (dao: ChannelDao)
      ensures this.dao == dao
    {
      this.dao := dao;
    }

    method GetChannels(url: string, forceRefresh: bool, fetch: FetchOutcome, sweepFails: bool, now: int)
      returns (r: Resource)
      requires dao.Valid()
      modifies dao
      ensures dao.Valid()
      ensures Outcome(r, dao.Snapshot()) ==
        GetChannelsOutcome(old(dao.Snapshot()), url, forceRefresh, fetch, sweepFails, now)
    {
      if !forceRefresh {
        var cached := dao.GetChannelsByCategory(url);
        if |cached| > 0 {
          var cacheTimestamp := dao.GetCacheTimestamp(url);
          var age := now - cacheTimestamp.GetOr(0);
          if age < CACHE_EXPIRATION_MS {
            return Success(AllToDomain(cached));
          }
          dao.DeleteChannelsByCategory(url);
        }
      }
      r := FetchAndStore(url, fetch, sweepFails, now);
    }

    /** The `try` block of `getChannels` from the fetch on, with its `catch`. */
    method FetchAndStore(url: string, fetch: FetchOutcome, sweepFails: bool, now: int)
      returns (r: Resource)
      requires dao.Valid()
      modifies dao
      ensures dao.Valid()
      ensures Outcome(r, dao.Snapshot()) == Refresh(old(dao.Snapshot()), url, fetch, sweepFails, now)
    {
      match fetch {
        case FetchFailed(message) =>
          var cached := dao.GetChannelsByCategory(url);
          if |cached| > 0 {
            r := Success(AllToDomain(cached));
          } else {
            r := Error("Failed to load channels: " + MessageText(message));
          }
        case Fetched(raw) =>
          var dtos := M3UParser.Parse(raw);
          var channels := ChannelDtos.AllToDomain(dtos);
          var entities := AllToEntity(channels, url, now);
          dao.DeleteChannelsByCategory(url);
          dao.InsertChannels(entities);
          CleanupExpiredCaches(sweepFails, now);
          r := Success(channels);
      }
    }

    /** `cleanupExpiredCaches`: a failing DELETE is caught and ignored. */
    method CleanupExpiredCaches(fails: bool, now: int)
      requires dao.Valid()
      modifies dao
      ensures dao.Valid()
      ensures dao.Snapshot() == Sweep(old(dao.Snapshot()), now, fails)
    {
      if !fails {
        var expirationTime := now - CACHE_EXPIRATION_MS;
        dao.DeleteExpiredChannels(expirationTime);
      }
    }
  }

  // ------------------------------------------------------ properties

  /** A key with cached rows has a timestamp, so the `?: 0` default never applies to it. */
  lemma CachedKeyHasTimestamp(t: Table, url: string)
    requires ChannelsByCategory(t.rows, url) != []
    ensures CacheTimestamp(t.rows, url).Some?
  {
    var c := ChannelsByCategory(t.rows, url);
    assert c[0] in c;
  }

  /**
   * A fresh, non-empty cache is returned as is, in name order, whatever the
   * network would have done, and the table does not change.
   */
  lemma CacheHitReturnsCache(t: Table, url: string, fetch: FetchOutcome, sweepFails: bool, now: int)
    requires TableValid(t)
    requires ChannelsByCategory(t.rows, url) != []
    requires now - CacheTimestamp(t.rows, url).GetOr(0) < CACHE_EXPIRATION_MS
    ensures var o := GetChannelsOutcome(t, url, false, fetch, sweepFails, now);
      && o.table == t
      && o.result == Success(AllToDomain(ChannelsByCategory(t.rows, url)))
      && forall i, j :: 0 <= i < j < |o.result.data| ==> LexLe(o.result.data[i].name, o.result.data[j].name)
  {
    var c := ChannelsByCategory(t.rows, url);
    forall i, j | 0 <= i < j < |c| ensures LexLe(AllToDomain(c)[i].name, AllToDomain(c)[j].name) {
      assert ByName(c[i], c[j]);
    }
  }

  /** With `forceRefresh = false`, an expired cache is gone before the fetch starts. */
  lemma ExpiredCacheDeletedBeforeFetch(t: Table, url: string, now: int)
    requires ChannelsByCategory(t.rows, url) != []
    requires CacheAge(t, url, now) >= CACHE_EXPIRATION_MS
    ensures ChannelsByCategory(TableBeforeFetch(t, url, false).rows, url) == []
    ensures forall k :: k != url ==> Select(TableBeforeFetch(t, url, false).rows, KeyIs(k)) == Select(t.rows, KeyIs(k))
  {
    DeleteByCategoryExact(t.rows, url);
    NoRowsNoListing(Select(t.rows, KeyIsNot(url)), url);
  }

  /**
   * So an expired cache and a failing fetch give an error, not the stale rows:
   * the rows were deleted before the fetch.
   */
  lemma ExpiredCacheAndFailedFetchIsError(t: Table, url: string, message: Option<string>, sweepFails: bool, now: int)
    requires TableValid(t)
    requires ChannelsByCategory(t.rows, url) != []
    requires CacheAge(t, url, now) >= CACHE_EXPIRATION_MS
    ensures var o := GetChannelsOutcome(t, url, false, FetchFailed(message), sweepFails, now);
      && o.result == Error("Failed to load channels: " + MessageText(message))
      && Select(o.table.rows, KeyIs(url)) == []
  {
    ExpiredCacheDeletedBeforeFetch(t, url, now);
    DeleteByCategoryExact(t.rows, url);
  }

  /** A forced refresh whose fetch fails falls back to the rows stored before the call. */
  lemma ForcedRefreshFailureFallsBack(t: Table, url: string, message: Option<string>, sweepFails: bool, now: int)
    requires TableValid(t)
    ensures var o := GetChannelsOutcome(t, url, true, FetchFailed(message), sweepFails, now);
      && o.table == t
      && (ChannelsByCategory(t.rows, url) != [] ==> o.result == Success(AllToDomain(ChannelsByCategory(t.rows, url))))
      && (ChannelsByCategory(t.rows, url) == [] ==> o.result == Error("Failed to load channels: " + MessageText(message)))
  {
  }

  /** Any failing fetch ends in the fallback over the rows left at that point, and changes nothing further. */
  lemma FailedFetchFallsBack(t: Table, url: string, forceRefresh: bool, message: Option<string>, sweepFails: bool, now: int)
    requires TableValid(t) && !IsCacheHit(t, url, forceRefresh, now)
    ensures var o := GetChannelsOutcome(t, url, forceRefresh, FetchFailed(message), sweepFails, now);
      && o.table == TableBeforeFetch(t, url, forceRefresh)
      && o.result == Fallback(o.table, url, message)
  {
  }

  /** The rows a successful fetch stores: the batch, numbered from the table's counter. */
  function StoredBatch(t: Table, url: string, body: string, now: int): seq<ChannelEntity> {
    Numbered(AllToEntity(ParsedChannels(body), url, now), t.nextId)
  }

  lemma {:induction false} BatchRows(cs: seq<Channel>, url: string, now: int, n: int)
    ensures var b := Numbered(AllToEntity(cs, url, now), n);
      && AllToDomain(b) == cs
      && forall i :: 0 <= i < |b| ==> b[i].categoryUrl == url && b[i].timestamp == now
  {
    var es := AllToEntity(cs, url, now);
    NumberedIds(es, n);
  }

  /** A batch stamped `now` is never older than 24 hours at `now`. */
  lemma BatchSurvivesSweep(cs: seq<Channel>, url: string, now: int, n: int)
    ensures var b := Numbered(AllToEntity(cs, url, now), n);
      Select(b, NotOlderThan(now - CACHE_EXPIRATION_MS)) == b
  {
    BatchRows(cs, url, now, n);
    SelectKeepsAll(Numbered(AllToEntity(cs, url, now), n), NotOlderThan(now - CACHE_EXPIRATION_MS));
  }

  /** What `Refresh` leaves stored under `url` after a successful fetch. */
  lemma {:induction false} RefreshStoresBatch(t: Table, url: string, body: string, sweepFails: bool, now: int)
    requires TableValid(t)
    ensures var o := Refresh(t, url, Fetched(body), sweepFails, now);
      Select(o.table.rows, KeyIs(url)) == StoredBatch(t, url, body, now)
  {
    var cs := ParsedChannels(body);
    var es := AllToEntity(cs, url, now);
    var cleared := Table(Select(t.rows, KeyIsNot(url)), t.nextId);
    SelectKeepsValid(t, KeyIsNot(url));
    InsertAllNewRows(cleared, es);
    var batch := Numbered(es, t.nextId);
    var stored := cleared.rows + batch;
    BatchRows(cs, url, now, t.nextId);
    DeleteByCategoryExact(t.rows, url);
    SelectAppend(cleared.rows, batch, KeyIs(url));
    SelectKeepsAll(batch, KeyIs(url));
    assert Select(stored, KeyIs(url)) == batch;
    if !sweepFails {
      var limit := now - CACHE_EXPIRATION_MS;
      SelectCommutes(stored, NotOlderThan(limit), KeyIs(url));
      BatchSurvivesSweep(cs, url, now, t.nextId);
    }
  }

  /**
   * After a successful fetch the result is the parsed channels in parser order,
   * and the rows stored for `url` are exactly those channels, stamped `now`,
   * even when the playlist is empty.
   */
  lemma FetchReplacesCache(t: Table, url: string, forceRefresh: bool, body: string, sweepFails: bool, now: int)
    requires TableValid(t) && !IsCacheHit(t, url, forceRefresh, now)
    ensures var o := GetChannelsOutcome(t, url, forceRefresh, Fetched(body), sweepFails, now);
      && o.result == Success(ParsedChannels(body))
      && AllToDomain(Select(o.table.rows, KeyIs(url))) == ParsedChannels(body)
      && forall e :: e in Select(o.table.rows, KeyIs(url)) ==> e.timestamp == now
  {
    var t0 := TableBeforeFetch(t, url, forceRefresh);
    SelectKeepsValid(t, KeyIsNot(url));
    RefreshStoresBatch(t0, url, body, sweepFails, now);
    BatchRows(ParsedChannels(body), url, now, t0.nextId);
  }

  /** After a successful fetch whose sweep runs, no row of any key is older than 24 hours. */
  lemma SweepRemovesExpiredRows(t: Table, url: string, forceRefresh: bool, body: string, now: int)
    requires TableValid(t) && !IsCacheHit(t, url, forceRefresh, now)
    ensures var o := GetChannelsOutcome(t, url, forceRefresh, Fetched(body), false, now);
      forall e :: e in o.table.rows ==> e.timestamp >= now - CACHE_EXPIRATION_MS
  {
  }

  /** A failing sweep never changes what `getChannels` returns. */
  lemma SweepFailureKeepsResult(t: Table, url: string, forceRefresh: bool, fetch: FetchOutcome, now: int)
    requires TableValid(t)
    ensures GetChannelsOutcome(t, url, forceRefresh, fetch, true, now).result ==
      GetChannelsOutcome(t, url, forceRefresh, fetch, false, now).result
  {
  }

  /** A successful refresh of `url` leaves the rows of another key alone, up to the sweep. */
  lemma {:induction false} RefreshOtherKey(t: Table, url: string, k: string, body: string, sweepFails: bool, now: int)
    requires TableValid(t) && k != url
    ensures var o := Refresh(t, url, Fetched(body), sweepFails, now);
      Select(o.table.rows, KeyIs(k)) ==
        if sweepFails then Select(t.rows, KeyIs(k))
        else Select(Select(t.rows, KeyIs(k)), NotOlderThan(now - CACHE_EXPIRATION_MS))
  {
    var es := AllToEntity(ParsedChannels(body), url, now);
    var cleared := Table(Select(t.rows, KeyIsNot(url)), t.nextId);
    SelectKeepsValid(t, KeyIsNot(url));
    InsertAllNewRows(cleared, es);
    var batch := Numbered(es, t.nextId);
    BatchRows(ParsedChannels(body), url, now, t.nextId);
    SelectKeepsNone(batch, KeyIs(k));
    SelectAppend(cleared.rows, batch, KeyIs(k));
    DeleteByCategoryExact(t.rows, url);
    var stored := cleared.rows + batch;
    assert Select(stored, KeyIs(k)) == Select(t.rows, KeyIs(k));
    if !sweepFails {
      SelectCommutes(stored, NotOlderThan(now - CACHE_EXPIRATION_MS), KeyIs(k));
    }
  }

  /** Rows of the other keys change only through the global sweep. */
  lemma {:induction false} OtherKeysOnlySwept(t: Table, url: string, k: string, forceRefresh: bool, fetch: FetchOutcome, sweepFails: bool, now: int)
    requires TableValid(t) && k != url
    ensures var o := GetChannelsOutcome(t, url, forceRefresh, fetch, sweepFails, now);
      var swept := !IsCacheHit(t, url, forceRefresh, now) && fetch.Fetched? && !sweepFails;
      Select(o.table.rows, KeyIs(k)) ==
        if swept then Select(Select(t.rows, KeyIs(k)), NotOlderThan(now - CACHE_EXPIRATION_MS))
        else Select(t.rows, KeyIs(k))
  {
    if !IsCacheHit(t, url, forceRefresh, now) {
      var t0 := TableBeforeFetch(t, url, forceRefresh);
      SelectKeepsValid(t, KeyIsNot(url));
      DeleteByCategoryExact(t.rows, url);
      assert Select(t0.rows, KeyIs(k)) == Select(t.rows, KeyIs(k));
      if fetch.Fetched? {
        RefreshOtherKey(t0, url, k, fetch.body, sweepFails, now);
      }
    }
  }

}
