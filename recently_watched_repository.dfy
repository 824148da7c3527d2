/** `RecentlyWatchedRepositoryImpl`: the watch history over its DAO. */
module RecentlyWatchedRepository {
  import opened Domain
  import opened RecentlyWatchedDaos

  class RecentlyWatchedRepositoryImpl {
    const dao: RecentlyWatchedDao

    constructor (dao: RecentlyWatchedDao)
      ensures this.dao == dao
    {
      this.dao := dao;
    }

    /**
     * `saveRecentlyWatched`, with the clock reading `now`. The delete of an
     * existing row before the insert leaves the same table that
     * `INSERT OR REPLACE` alone would.
     */
    method SaveRecentlyWatched(streamUrl: string, channelName: string, channelLogo: string,
                               category: string, categoryUrl: string, now: int)
      requires dao.Valid()
      modifies dao
      ensures dao.Valid()
      ensures dao.rows ==
        Replace(old(dao.rows), RecentlyWatchedEntity(streamUrl, channelName, channelLogo, category, categoryUrl, now))
    {
      var existing := dao.GetByStreamUrl(streamUrl);
      if existing.Some? {
        WhereIdempotent(dao.rows, UrlIsNot(streamUrl));
        dao.DeleteByStreamUrl(streamUrl);
      }
      var entity := RecentlyWatchedEntity(streamUrl, channelName, channelLogo, category, categoryUrl, now);
      dao.InsertOrUpdate(entity);
    }

    method GetRecentlyWatchedByCategory(categoryUrl: string, limit: int) returns (r: seq<RecentlyWatchedEntity>)
      ensures r == NewestFirst(Where(dao.rows, CategoryIs(categoryUrl)), limit)
    {
      r := dao.GetRecentlyWatchedByCategory(categoryUrl, limit);
    }

    method GetAllRecentlyWatched(limit: int) returns (r: seq<RecentlyWatchedEntity>)
      ensures r == NewestFirst(dao.rows, limit)
    {
      r := dao.GetAllRecentlyWatched(limit);
    }

    method ClearAll()
      modifies dao
      ensures dao.Valid() && dao.rows == []
    {
      dao.ClearAll();
    }
  }

  // ------------------------------------------------------ properties

  /** A save is read back as the entry just written, stamped with the save time. */
  lemma SaveThenLookup(rows: seq<RecentlyWatchedEntity>, e: RecentlyWatchedEntity)
    requires UniqueUrls(rows)
    ensures FindByUrl(Replace(rows, e), e.streamUrl) == Some(e)
  {
    ReplaceLeavesOneRow(rows, e);
  }

  /** A save leaves the entries of every other stream URL as they were. */
  lemma SaveKeepsOtherEntries(rows: seq<RecentlyWatchedEntity>, e: RecentlyWatchedEntity, u: string)
    requires UniqueUrls(rows) && u != e.streamUrl
    ensures FindByUrl(Replace(rows, e), u) == FindByUrl(rows, u)
  {
    var after := Replace(rows, e);
    ReplaceLeavesOneRow(rows, e);
    var before := FindByUrl(rows, u);
    if before.Some? {
      FindByUrlExact(rows, before.value);
      FindByUrlExact(after, before.value);
    }
  }

  /** Saving at a time no earlier than any stored entry makes the new entry the newest. */
  lemma SavedEntryIsNewest(rows: seq<RecentlyWatchedEntity>, e: RecentlyWatchedEntity)
    requires forall x :: x in rows ==> x.lastWatchedTime <= e.lastWatchedTime
    ensures forall x :: x in Replace(rows, e) ==> x.lastWatchedTime <= e.lastWatchedTime
  {
  }

  /** Saving strictly later than every stored entry puts the new entry at the head of the history. */
  lemma SavedEntryHeadsHistory(rows: seq<RecentlyWatchedEntity>, e: RecentlyWatchedEntity, limit: int)
    requires forall x :: x in rows ==> x.lastWatchedTime < e.lastWatchedTime
    requires limit != 0
    ensures var r := NewestFirst(Replace(rows, e), limit); r != [] && r[0] == e
  {
    NewestRowFirst(Replace(rows, e), e, limit);
  }
}
