/**
 * The `recently_watched` table, keyed by `streamUrl`, and the statements of
 * `RecentlyWatchedDao`. Rows are kept in rowid order; `INSERT OR REPLACE`
 * deletes a row with the same key and appends the new row under a new rowid.
 */
module RecentlyWatchedDaos {
  import opened Domain
  import opened Sorting

  /** `RecentlyWatchedEntity`: `streamUrl` is the primary key. */
  datatype RecentlyWatchedEntity = RecentlyWatchedEntity(
    streamUrl: string,
    channelName: string,
    channelLogo: string,
    category: string,
    categoryUrl: string,
    lastWatchedTime: int)

  /** The primary key constraint: no two rows share a `streamUrl`. */
  predicate UniqueUrls(rows: seq<RecentlyWatchedEntity>) {
    forall i, j :: 0 <= i < j < |rows| ==> rows[i].streamUrl != rows[j].streamUrl
  }

  /** The `WHERE` conditions the statements use. */
  datatype HistoryFilter =
    | UrlIsNot(streamUrl: string)
    | CategoryIs(categoryUrl: string)
    | NotBefore(time: int)
  {
    predicate Keeps(e: RecentlyWatchedEntity) {
      match this
      case UrlIsNot(u) => e.streamUrl != u
      case CategoryIs(k) => e.categoryUrl == k
      case NotBefore(t) => e.lastWatchedTime >= t
    }
  }

  /** The rows a filter keeps, in table order. */
  function Where(rows: seq<RecentlyWatchedEntity>, f: HistoryFilter): (r: seq<RecentlyWatchedEntity>)
    ensures forall e :: e in r <==> e in rows && f.Keeps(e)
    ensures |r| <= |rows|
  {
    if rows == [] then []
    else (if f.Keeps(rows[0]) then [rows[0]] else []) + Where(rows[1..], f)
  }

  lemma {:induction false} WhereKeepsUnique(rows: seq<RecentlyWatchedEntity>, f: HistoryFilter)
    requires UniqueUrls(rows)
    ensures UniqueUrls(Where(rows, f))
  {
    if rows != [] {
      WhereKeepsUnique(rows[1..], f);
      var tail := Where(rows[1..], f);
      forall j | 0 <= j < |tail| ensures rows[0].streamUrl != tail[j].streamUrl {
        assert tail[j] in rows[1..];
        var k :| 0 <= k < |rows[1..]| && rows[1..][k] == tail[j];
        assert rows[k + 1] == tail[j];
      }
    }
  }

  lemma {:induction false} WhereIdempotent(rows: seq<RecentlyWatchedEntity>, f: HistoryFilter)
    ensures Where(Where(rows, f), f) == Where(rows, f)
  {
    if rows != [] {
      WhereIdempotent(rows[1..], f);
      var tail := Where(rows[1..], f);
      if f.Keeps(rows[0]) {
        assert ([rows[0]] + tail)[1..] == tail;
      } else {
        assert [] + tail == tail;
      }
    }
  }

  /** `INSERT OR REPLACE`: the row with the same key goes, the new row is appended. */
  function Replace(rows: seq<RecentlyWatchedEntity>, e: RecentlyWatchedEntity): (r: seq<RecentlyWatchedEntity>)
    ensures forall x :: x in r <==> x == e || (x in rows && x.streamUrl != e.streamUrl)
  {
    Where(rows, UrlIsNot(e.streamUrl)) + [e]
  }

  /** `@Update`: the row with the same key takes the new fields in place; no such row, no change. */
  function UpdateRow(rows: seq<RecentlyWatchedEntity>, e: RecentlyWatchedEntity): (r: seq<RecentlyWatchedEntity>)
    ensures |r| == |rows|
    ensures forall i :: 0 <= i < |rows| ==> r[i] == if rows[i].streamUrl == e.streamUrl then e else rows[i]
  {
    if rows == [] then []
    else [if rows[0].streamUrl == e.streamUrl then e else rows[0]] + UpdateRow(rows[1..], e)
  }

  /** `SELECT ... WHERE streamUrl = :streamUrl LIMIT 1` */
  function FindByUrl(rows: seq<RecentlyWatchedEntity>, streamUrl: string): (r: Option<RecentlyWatchedEntity>)
    ensures r.None? <==> forall i :: 0 <= i < |rows| ==> rows[i].streamUrl != streamUrl
    ensures r.Some? ==> r.value in rows && r.value.streamUrl == streamUrl
  {
    if rows == [] then None
    else if rows[0].streamUrl == streamUrl then Some(rows[0])
    else
      var r := FindByUrl(rows[1..], streamUrl);
      assert forall i :: 1 <= i < |rows| ==> rows[i] == rows[1..][i - 1];
      r
  }

  /** `ORDER BY lastWatchedTime DESC` */
  predicate NewerOrSame(a: RecentlyWatchedEntity, b: RecentlyWatchedEntity) {
    a.lastWatchedTime >= b.lastWatchedTime
  }

  lemma NewerOrSameIsTotalPreorder()
    ensures TotalPreorder(NewerOrSame)
  {
  }

  /** `LIMIT :limit`: SQLite treats a negative limit as no limit. */
  function Limit<T>(s: seq<T>, limit: int): (r: seq<T>)
    ensures |r| <= |s| && r == s[..|r|]
    ensures limit >= 0 ==> |r| == if limit < |s| then limit else |s|
    ensures limit < 0 ==> r == s
  {
    if limit < 0 then s else Take(s, limit)
  }

  /** Newest first, then cut to `limit`. */
  function NewestFirst(rows: seq<RecentlyWatchedEntity>, limit: int): (r: seq<RecentlyWatchedEntity>)
    ensures SortedBy(r, NewerOrSame)
    ensures |r| == if 0 <= limit < |rows| then limit else |rows|
    ensures forall x :: x in r ==> x in rows
    ensures multiset(r) <= multiset(rows)
    ensures limit < 0 || limit >= |rows| ==> multiset(r) == multiset(rows)
  {
    NewerOrSameIsTotalPreorder();
    var s := SortBy(rows, NewerOrSame);
    assert |s| == |multiset(s)| == |rows|;
    var r := Limit(s, limit);
    TakeKeepsFront(s, if limit < 0 then |s| else limit, NewerOrSame);
    assert forall x :: x in r ==> x in multiset(s);
    PrefixSubMultiset(s, |r|);
    r
  }

  /** A prefix holds each element at most as often as the whole sequence. */
  lemma PrefixSubMultiset<T>(s: seq<T>, k: nat)
    requires k <= |s|
    ensures multiset(s[..k]) <= multiset(s)
  {
    assert s == s[..k] + s[k..];
  }

  /**
   * Cutting loses only the oldest rows: no row left out is newer than a row
   * returned.
   */
  lemma NewestFirstDropsOnlyOlder(rows: seq<RecentlyWatchedEntity>, limit: int)
    ensures var r := NewestFirst(rows, limit);
      forall x, y :: x in r && y in rows && y !in r ==> x.lastWatchedTime >= y.lastWatchedTime
  {
    NewerOrSameIsTotalPreorder();
    var s := SortBy(rows, NewerOrSame);
    var n := if limit < 0 then |s| else limit;
    var r := NewestFirst(rows, limit);
    assert r == Take(s, n);
    forall x, y | x in r && y in rows && y !in r ensures x.lastWatchedTime >= y.lastWatchedTime {
      assert y in multiset(s);
      KeptBeatsDropped(s, n, x, y);
    }
  }

  /** In a newest-first list, a kept row is no older than a dropped one. */
  lemma KeptBeatsDropped(s: seq<RecentlyWatchedEntity>, n: nat, x: RecentlyWatchedEntity, y: RecentlyWatchedEntity)
    requires SortedBy(s, NewerOrSame)
    requires x in Take(s, n) && y in s && y !in Take(s, n)
    ensures x.lastWatchedTime >= y.lastWatchedTime
  {
    var r := Take(s, n);
    TakeKeepsFront(s, n, NewerOrSame);
    var i :| 0 <= i < |r| && r[i] == x;
    var j :| 0 <= j < |s| && s[j] == y;
    if j < |r| {
      assert r[j] == y;
    }
  }

  /** If a row is strictly newer than every other row, it comes first whenever anything is returned. */
  lemma NewestRowFirst(rows: seq<RecentlyWatchedEntity>, e: RecentlyWatchedEntity, limit: int)
    requires e in rows
    requires forall x :: x in rows && x != e ==> x.lastWatchedTime < e.lastWatchedTime
    requires limit != 0
    ensures var r := NewestFirst(rows, limit); r != [] && r[0] == e
  {
    NewerOrSameIsTotalPreorder();
    var s := SortBy(rows, NewerOrSame);
    assert e in multiset(s);
    var j :| 0 <= j < |s| && s[j] == e;
    assert s[0] in multiset(rows);
    assert NewerOrSame(s[0], s[j]);
    assert s[0] == e;
    assert NewestFirst(rows, limit) == Limit(s, limit);
  }

  class RecentlyWatchedDao {
    var rows: seq<RecentlyWatchedEntity>

    ghost predicate Valid()
      reads this
    {
      UniqueUrls(rows)
    }

    constructor ()
      ensures Valid() && rows == []
    {
      rows := [];
    }

    method InsertOrUpdate(recentlyWatched: RecentlyWatchedEntity)
      requires Valid()
      modifies this
      ensures Valid()
      ensures rows == Replace(old(rows), recentlyWatched)
    {
      ReplaceLeavesOneRow(rows, recentlyWatched);
      rows := Replace(rows, recentlyWatched);
    }

    method Update(recentlyWatched: RecentlyWatchedEntity)
      requires Valid()
      modifies this
      ensures Valid()
      ensures rows == UpdateRow(old(rows), recentlyWatched)
    {
      var updated := UpdateRow(rows, recentlyWatched);
      assert forall i :: 0 <= i < |rows| ==> updated[i].streamUrl == rows[i].streamUrl;
      rows := updated;
    }

    method GetByStreamUrl(streamUrl: string) returns (r: Option<RecentlyWatchedEntity>)
      ensures r == FindByUrl(rows, streamUrl)
    {
      r := FindByUrl(rows, streamUrl);
    }

    method GetRecentlyWatchedByCategory(categoryUrl: string, limit: int := 10) returns (r: seq<RecentlyWatchedEntity>)
      ensures r == NewestFirst(Where(rows, CategoryIs(categoryUrl)), limit)
    {
      r := NewestFirst(Where(rows, CategoryIs(categoryUrl)), limit);
    }

    method GetAllRecentlyWatched(limit: int := 50) returns (r: seq<RecentlyWatchedEntity>)
      ensures r == NewestFirst(rows, limit)
    {
      r := NewestFirst(rows, limit);
    }

    method DeleteByStreamUrl(streamUrl: string)
      requires Valid()
      modifies this
      ensures Valid()
      ensures rows == Where(old(rows), UrlIsNot(streamUrl))
    {
      WhereKeepsUnique(rows, UrlIsNot(streamUrl));
      rows := Where(rows, UrlIsNot(streamUrl));
    }

    method ClearAll()
      modifies this
      ensures Valid() && rows == []
    {
      rows := [];
    }

    method DeleteOldEntries(expirationTime: int)
      requires Valid()
      modifies this
      ensures Valid()
      ensures rows == Where(old(rows), NotBefore(expirationTime))
    {
      WhereKeepsUnique(rows, NotBefore(expirationTime));
      rows := Where(rows, NotBefore(expirationTime));
    }
  }

  // ------------------------------------------------------ properties

  /** After a replace exactly one row carries the key, and it is the new row. */
  lemma ReplaceLeavesOneRow(rows: seq<RecentlyWatchedEntity>, e: RecentlyWatchedEntity)
    requires UniqueUrls(rows)
    ensures var r := Replace(rows, e);
      && UniqueUrls(r)
      && FindByUrl(r, e.streamUrl) == Some(e)
      && forall i :: 0 <= i < |r| && r[i].streamUrl == e.streamUrl ==> i == |r| - 1
  {
    var kept := Where(rows, UrlIsNot(e.streamUrl));
    WhereKeepsUnique(rows, UrlIsNot(e.streamUrl));
    var r := kept + [e];
    forall i | 0 <= i < |r| - 1 ensures r[i].streamUrl != e.streamUrl {
      assert r[i] == kept[i] && kept[i] in kept;
    }
  }

  /** On a table with unique keys, the lookup finds exactly the row with that key. */
  lemma FindByUrlExact(rows: seq<RecentlyWatchedEntity>, x: RecentlyWatchedEntity)
    requires UniqueUrls(rows) && x in rows
    ensures FindByUrl(rows, x.streamUrl) == Some(x)
  {
    var r := FindByUrl(rows, x.streamUrl);
    var i :| 0 <= i < |rows| && rows[i] == x;
    var j :| 0 <= j < |rows| && rows[j] == r.value;
  }
}
