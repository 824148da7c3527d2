/**
 * The `channels` table and the statements of `ChannelDao`.
 *
 * The table is kept in rowid order, which is the order a plain table scan
 * visits rows in. `nextId` is SQLite's AUTOINCREMENT counter: a new row gets an
 * id larger than every id the table has ever held, and deletes never lower it.
 */
module ChannelDaos {
  import opened Domain
  import opened Sorting
  import opened ChannelEntities

  /** The table contents and the next id AUTOINCREMENT hands out. */
  datatype Table = Table(rows: seq<ChannelEntity>, nextId: int)

  /** Rows are in ascending id order, so ids are distinct. */
  predicate IdsAscending(rows: seq<ChannelEntity>) {
    forall i, j :: 0 <= i < j < |rows| ==> rows[i].id < rows[j].id
  }

  /** What SQLite keeps true of the table between statements. */
  predicate TableValid(t: Table) {
    && IdsAscending(t.rows)
    && t.nextId >= 1
    && forall i :: 0 <= i < |t.rows| ==> t.rows[i].id != 0 && t.rows[i].id < t.nextId
  }

  const EMPTY_TABLE := Table([], 1)

  // ------------------------------------------------------------ WHERE

  /** The `WHERE` conditions the statements use. */
  datatype RowFilter =
    | KeyIs(categoryUrl: string)
    | KeyIsNot(categoryUrl: string)
    | NotOlderThan(time: int)
    | IdIsNot(id: int)
  {
    predicate Keeps(e: ChannelEntity) {
      match this
      case KeyIs(k) => e.categoryUrl == k
      case KeyIsNot(k) => e.categoryUrl != k
      case NotOlderThan(t) => e.timestamp >= t
      case IdIsNot(id) => e.id != id
    }
  }

  /** The rows a filter keeps, in table order. */
  function Select(rows: seq<ChannelEntity>, f: RowFilter): (r: seq<ChannelEntity>)
    ensures forall e :: e in r <==> e in rows && f.Keeps(e)
    ensures |r| <= |rows|
  {
    if rows == [] then []
    else (if f.Keeps(rows[0]) then [rows[0]] else []) + Select(rows[1..], f)
  }

  lemma {:induction false} SelectAppend(a: seq<ChannelEntity>, b: seq<ChannelEntity>, f: RowFilter)
    ensures Select(a + b, f) == Select(a, f) + Select(b, f)
    decreases |a|
  {
    if a == [] {
      assert a + b == b;
    } else {
      var h, t := a[0], a[1..];
      assert a == [h] + t;
      assert a + b == [h] + (t + b);
      SelectAppend(t, b, f);
      SelectHead(h, t + b, f);
      SelectHead(h, t, f);
      AppendAssoc(if f.Keeps(h) then [h] else [], Select(t, f), Select(b, f));
    }
  }

  lemma AppendAssoc(x: seq<ChannelEntity>, y: seq<ChannelEntity>, z: seq<ChannelEntity>)
    ensures x + (y + z) == (x + y) + z
  {
  }

  /** The first row is kept or dropped, then the rest is filtered. */
  lemma SelectHead(h: ChannelEntity, t: seq<ChannelEntity>, f: RowFilter)
    ensures Select([h] + t, f) == (if f.Keeps(h) then [h] else []) + Select(t, f)
  {
    assert ([h] + t)[0] == h && ([h] + t)[1..] == t;
  }

  lemma {:induction false} SelectKeepsAll(rows: seq<ChannelEntity>, f: RowFilter)
    requires forall i :: 0 <= i < |rows| ==> f.Keeps(rows[i])
    ensures Select(rows, f) == rows
  {
    if rows != [] {
      SelectKeepsAll(rows[1..], f);
    }
  }

  lemma {:induction false} SelectKeepsNone(rows: seq<ChannelEntity>, f: RowFilter)
    requires forall i :: 0 <= i < |rows| ==> !f.Keeps(rows[i])
    ensures Select(rows, f) == []
  {
    if rows != [] {
      SelectKeepsNone(rows[1..], f);
    }
  }

  /** Two filters applied one after the other commute. */
  lemma {:induction false} SelectCommutes(rows: seq<ChannelEntity>, f: RowFilter, g: RowFilter)
    ensures Select(Select(rows, f), g) == Select(Select(rows, g), f)
  {
    if rows != [] {
      SelectCommutes(rows[1..], f, g);
      var h := rows[0];
      SelectAppend(if f.Keeps(h) then [h] else [], Select(rows[1..], f), g);
      SelectAppend(if g.Keeps(h) then [h] else [], Select(rows[1..], g), f);
    }
  }

  /** Every id above `b`. */
  predicate IdsAbove(rows: seq<ChannelEntity>, b: int) {
    forall i :: 0 <= i < |rows| ==> rows[i].id > b
  }

  /** Every id nonzero and below `n`. */
  predicate IdsIssuedBelow(rows: seq<ChannelEntity>, n: int) {
    forall i :: 0 <= i < |rows| ==> rows[i].id != 0 && rows[i].id < n
  }

  lemma {:induction false} SelectKeepsBounds(rows: seq<ChannelEntity>, f: RowFilter, b: int, n: int)
    ensures IdsAbove(rows, b) ==> IdsAbove(Select(rows, f), b)
    ensures IdsIssuedBelow(rows, n) ==> IdsIssuedBelow(Select(rows, f), n)
  {
    if rows != [] {
      SelectKeepsBounds(rows[1..], f, b, n);
    }
  }

  lemma {:induction false} SelectKeepsAscending(rows: seq<ChannelEntity>, f: RowFilter)
    requires IdsAscending(rows)
    ensures IdsAscending(Select(rows, f))
  {
    if rows != [] {
      var h, t := rows[0], rows[1..];
      assert rows == [h] + t;
      SelectKeepsAscending(t, f);
      assert IdsAbove(t, h.id);
      SelectKeepsBounds(t, f, h.id, 0);
      SelectHead(h, t, f);
      if f.Keeps(h) {
        AscendingCons(h, Select(t, f));
      }
    }
  }

  /** A row below every id of an ascending list can go in front of it. */
  lemma AscendingCons(h: ChannelEntity, t: seq<ChannelEntity>)
    requires IdsAscending(t) && IdsAbove(t, h.id)
    ensures IdsAscending([h] + t)
  {
    var r := [h] + t;
    forall i, j | 0 <= i < j < |r| ensures r[i].id < r[j].id {
      assert r[j] == t[j - 1];
      if i > 0 {
        assert r[i] == t[i - 1];
      }
    }
  }

  /** Deleting rows keeps the table well formed. */
  lemma SelectKeepsValid(t: Table, f: RowFilter)
    requires TableValid(t)
    ensures TableValid(Table(Select(t.rows, f), t.nextId))
  {
    SelectKeepsAscending(t.rows, f);
    assert IdsIssuedBelow(t.rows, t.nextId);
    SelectKeepsBounds(t.rows, f, 0, t.nextId);
  }

  // ---------------------------------------------------------- INSERT

  /** Places `e` before the first row with a larger id. */
  function InsertById(rows: seq<ChannelEntity>, e: ChannelEntity): (r: seq<ChannelEntity>)
    ensures forall x :: x in r <==> x == e || x in rows
    ensures |r| == |rows| + 1
    ensures IdsAbove(rows, e.id) ==> r == [e] + rows
  {
    if rows == [] || e.id < rows[0].id then [e] + rows
    else [rows[0]] + InsertById(rows[1..], e)
  }

  lemma {:induction false} InsertByIdBounds(rows: seq<ChannelEntity>, e: ChannelEntity, b: int, n: int)
    ensures IdsAbove(rows, b) && e.id > b ==> IdsAbove(InsertById(rows, e), b)
    ensures IdsIssuedBelow(rows, n) && e.id != 0 && e.id < n ==> IdsIssuedBelow(InsertById(rows, e), n)
  {
    if rows != [] && e.id >= rows[0].id {
      InsertByIdBounds(rows[1..], e, b, n);
    }
  }

  /** The row lands at its id position, so ids stay ascending. */
  lemma {:induction false} InsertByIdAscending(rows: seq<ChannelEntity>, e: ChannelEntity)
    requires IdsAscending(rows)
    requires forall i :: 0 <= i < |rows| ==> rows[i].id != e.id
    ensures IdsAscending(InsertById(rows, e))
  {
    if rows != [] && e.id >= rows[0].id {
      InsertByIdAscending(rows[1..], e);
      assert IdsAbove(rows[1..], rows[0].id);
      InsertByIdBounds(rows[1..], e, rows[0].id, 0);
    }
  }

  /** Ids at or above `nextId` are unused, so a fresh id goes last. */
  lemma AppendWhenAbove(rows: seq<ChannelEntity>, e: ChannelEntity)
    requires forall i :: 0 <= i < |rows| ==> rows[i].id < e.id
    ensures InsertById(rows, e) == rows + [e]
    decreases |rows|
  {
    if rows != [] {
      AppendWhenAbove(rows[1..], e);
    }
  }

  /** The id a row is stored under: Room hands id 0 to SQLite as "none", which then assigns `nextId`. */
  function AssignedId(t: Table, e: ChannelEntity): int {
    if e.id == 0 then t.nextId else e.id
  }

  /** One `INSERT OR REPLACE`: a row with the same id is deleted first. */
  function InsertOne(t: Table, e: ChannelEntity): (r: Table)
    requires TableValid(t)
    ensures TableValid(r)
  {
    var id := AssignedId(t, e);
    var kept := Select(t.rows, IdIsNot(id));
    SelectKeepsValid(t, IdIsNot(id));
    var next := if t.nextId > id then t.nextId else id + 1;
    assert forall i :: 0 <= i < |kept| ==> kept[i] in kept;
    InsertByIdAscending(kept, e.(id := id));
    assert IdsIssuedBelow(kept, next);
    InsertByIdBounds(kept, e.(id := id), 0, next);
    Table(InsertById(kept, e.(id := id)), next)
  }

  /**
   * After an insert the table holds the new row under its assigned id, and
   * every earlier row except the one that had that id.
   */
  lemma InsertReplaces(t: Table, e: ChannelEntity)
    requires TableValid(t)
    ensures forall x :: x in InsertOne(t, e).rows <==>
      x == e.(id := AssignedId(t, e)) || (x in t.rows && x.id != AssignedId(t, e))
  {
  }

  /** `insertChannels`: the rows in list order. */
  function InsertAll(t: Table, es: seq<ChannelEntity>): (r: Table)
    requires TableValid(t)
    ensures TableValid(r)
    decreases |es|
  {
    if es == [] then t else InsertAll(InsertOne(t, es[0]), es[1..])
  }

  /** `es` with ids `n`, `n + 1`, ... */
  function Numbered(es: seq<ChannelEntity>, n: int): (r: seq<ChannelEntity>)
    ensures |r| == |es|
  {
    if es == [] then [] else [es[0].(id := n)] + Numbered(es[1..], n + 1)
  }

  /** Row `i` of the batch is stored under id `n + i`, its other fields unchanged. */
  lemma {:induction false} NumberedIds(es: seq<ChannelEntity>, n: int)
    ensures forall i :: 0 <= i < |es| ==> Numbered(es, n)[i] == es[i].(id := n + i)
    decreases |es|
  {
    if es != [] {
      NumberedIds(es[1..], n + 1);
      var r := Numbered(es, n);
      forall i | 1 <= i < |es| ensures r[i] == es[i].(id := n + i) {
        assert r[i] == Numbered(es[1..], n + 1)[i - 1];
      }
    }
  }

  /** A new row (id 0) is appended under the next id and the counter moves on. */
  lemma InsertNewRow(t: Table, e: ChannelEntity)
    requires TableValid(t) && e.id == 0
    ensures InsertOne(t, e) == Table(t.rows + [e.(id := t.nextId)], t.nextId + 1)
  {
    SelectKeepsAll(t.rows, IdIsNot(t.nextId));
    AppendWhenAbove(t.rows, e.(id := t.nextId));
  }

  /**
   * Inserting new rows appends them, in list order, under fresh ids above
   * every id in the table, and leaves the existing rows in place.
   */
  lemma {:induction false} InsertAllNewRows(t: Table, es: seq<ChannelEntity>)
    requires TableValid(t)
    requires forall i :: 0 <= i < |es| ==> es[i].id == 0
    ensures InsertAll(t, es) == Table(t.rows + Numbered(es, t.nextId), t.nextId + |es|)
    decreases |es|
  {
    if es != [] {
      var t1 := Table(t.rows + [es[0].(id := t.nextId)], t.nextId + 1);
      var tail := es[1..];
      InsertNewRow(t, es[0]);
      InsertAllNewRows(t1, tail);
      NumberedStep(t.rows, es, t.nextId);
    }
  }

  /** Numbering the first row and then the rest is numbering the whole batch. */
  lemma NumberedStep(rows: seq<ChannelEntity>, es: seq<ChannelEntity>, n: int)
    requires es != []
    ensures rows + [es[0].(id := n)] + Numbered(es[1..], n + 1) == rows + Numbered(es, n)
  {
    assert Numbered(es, n) == [es[0].(id := n)] + Numbered(es[1..], n + 1);
  }

  // ---------------------------------------------------------- SELECT

  /** `ORDER BY name ASC` under the BINARY collation. */
  predicate ByName(a: ChannelEntity, b: ChannelEntity) {
    LexLe(a.name, b.name)
  }

  lemma ByNameIsTotalPreorder()
    ensures TotalPreorder(ByName)
  {
    forall a: ChannelEntity, b: ChannelEntity ensures ByName(a, b) || ByName(b, a) {
      LexLeTotal(a.name, b.name);
    }
    forall a: ChannelEntity, b: ChannelEntity, c: ChannelEntity | ByName(a, b) && ByName(b, c)
      ensures ByName(a, c)
    {
      LexLeTransitive(a.name, b.name, c.name);
    }
  }

  /** `getChannelsByCategory`: exactly the rows of that key, in name order. */
  function ChannelsByCategory(rows: seq<ChannelEntity>, categoryUrl: string): (r: seq<ChannelEntity>)
    ensures SortedBy(r, ByName)
    ensures multiset(r) == multiset(Select(rows, KeyIs(categoryUrl)))
    ensures forall e :: e in r <==> e in rows && e.categoryUrl == categoryUrl
  {
    ByNameIsTotalPreorder();
    var s := Select(rows, KeyIs(categoryUrl));
    var r := SortBy(s, ByName);
    assert forall e :: e in r <==> e in s by {
      forall e ensures e in r <==> e in s {
        assert multiset(r)[e] == multiset(s)[e];
      }
    }
    r
  }

  /** A key without rows has an empty listing, and the other way round. */
  lemma NoRowsNoListing(rows: seq<ChannelEntity>, categoryUrl: string)
    ensures ChannelsByCategory(rows, categoryUrl) == [] <==> Select(rows, KeyIs(categoryUrl)) == []
  {
    var r, s := ChannelsByCategory(rows, categoryUrl), Select(rows, KeyIs(categoryUrl));
    assert |r| == |multiset(r)| == |multiset(s)| == |s|;
  }

  /** `getChannelCount` */
  function ChannelCount(rows: seq<ChannelEntity>, categoryUrl: string): (n: nat)
    ensures n == |ChannelsByCategory(rows, categoryUrl)|
  {
    var r := ChannelsByCategory(rows, categoryUrl);
    var s := Select(rows, KeyIs(categoryUrl));
    assert |r| == |multiset(r)| == |multiset(s)| == |s|;
    |s|
  }

  /** `getCacheTimestamp`: `LIMIT 1` without `ORDER BY` takes the first row in scan order. */
  function CacheTimestamp(rows: seq<ChannelEntity>, categoryUrl: string): (r: Option<int>)
    ensures r.None? <==> forall i :: 0 <= i < |rows| ==> rows[i].categoryUrl != categoryUrl
    ensures r.Some? ==> exists i :: 0 <= i < |rows| && rows[i].categoryUrl == categoryUrl && rows[i].timestamp == r.value
  {
    if rows == [] then None
    else if rows[0].categoryUrl == categoryUrl then Some(rows[0].timestamp)
    else
      var r := CacheTimestamp(rows[1..], categoryUrl);
      assert forall i :: 1 <= i < |rows| ==> rows[i] == rows[1..][i - 1];
      r
  }

  // ---------------------------------------------------------- the DAO

  class ChannelDao {
    var rows: seq<ChannelEntity>
    var nextId: int

    ghost predicate Valid()
      reads this
    {
      TableValid(Table(rows, nextId))
    }

    function Snapshot(): Table
      reads this
    {
      Table(rows, nextId)
    }

    /** A freshly created database. */
    constructor ()
      ensures Valid() && Snapshot() == EMPTY_TABLE
    {
      rows := [];
      nextId := 1;
    }

    method GetChannelsByCategory(categoryUrl: string) returns (r: seq<ChannelEntity>)
      ensures r == ChannelsByCategory(rows, categoryUrl)
    {
      r := ChannelsByCategory(rows, categoryUrl);
    }

    method InsertChannels(channels: seq<ChannelEntity>)
      requires Valid()
      modifies this
      ensures Valid()
      ensures Snapshot() == InsertAll(old(Snapshot()), channels)
    {
      var t := InsertAll(Table(rows, nextId), channels);
      rows, nextId := t.rows, t.nextId;
    }

    method DeleteChannelsByCategory(categoryUrl: string)
      requires Valid()
      modifies this
      ensures Valid()
      ensures rows == Select(old(rows), KeyIsNot(categoryUrl)) && nextId == old(nextId)
    {
      SelectKeepsValid(Snapshot(), KeyIsNot(categoryUrl));
      rows := Select(rows, KeyIsNot(categoryUrl));
    }

    method DeleteAllChannels()
      requires Valid()
      modifies this
      ensures Valid()
      ensures rows == [] && nextId == old(nextId)
    {
      rows := [];
    }

    method GetChannelCount(categoryUrl: string) returns (n: int)
      ensures n == ChannelCount(rows, categoryUrl)
    {
      n := ChannelCount(rows, categoryUrl);
    }

    method GetCacheTimestamp(categoryUrl: string) returns (r: Option<int>)
      ensures r == CacheTimestamp(rows, categoryUrl)
    {
      r := CacheTimestamp(rows, categoryUrl);
    }

    method DeleteExpiredChannels(expirationTime: int)
      requires Valid()
      modifies this
      ensures Valid()
      ensures rows == Select(old(rows), NotOlderThan(expirationTime)) && nextId == old(nextId)
    {
      SelectKeepsValid(Snapshot(), NotOlderThan(expirationTime));
      rows := Select(rows, NotOlderThan(expirationTime));
    }
  }

  // ------------------------------------------------------ properties

  /** `deleteChannelsByCategory` removes every row of the key and no other row. */
  lemma DeleteByCategoryExact(rows: seq<ChannelEntity>, categoryUrl: string)
    ensures Select(Select(rows, KeyIsNot(categoryUrl)), KeyIs(categoryUrl)) == []
    ensures forall k :: k != categoryUrl ==>
      Select(Select(rows, KeyIsNot(categoryUrl)), KeyIs(k)) == Select(rows, KeyIs(k))
  {
    var kept := Select(rows, KeyIsNot(categoryUrl));
    assert forall i :: 0 <= i < |kept| ==> kept[i] in kept;
    SelectKeepsNone(kept, KeyIs(categoryUrl));
    forall k | k != categoryUrl
      ensures Select(Select(rows, KeyIsNot(categoryUrl)), KeyIs(k)) == Select(rows, KeyIs(k))
    {
      SelectCommutes(rows, KeyIsNot(categoryUrl), KeyIs(k));
      var same := Select(rows, KeyIs(k));
      assert forall i :: 0 <= i < |same| ==> same[i] in same;
      SelectKeepsAll(same, KeyIsNot(categoryUrl));
    }
  }

  /** `deleteExpiredChannels` works row by row across all keys. */
  lemma DeleteExpiredPerRow(rows: seq<ChannelEntity>, t: int, k: string)
    ensures Select(Select(rows, NotOlderThan(t)), KeyIs(k)) == Select(Select(rows, KeyIs(k)), NotOlderThan(t))
    ensures forall e :: e in Select(rows, NotOlderThan(t)) ==> e.timestamp >= t
  {
    SelectCommutes(rows, NotOlderThan(t), KeyIs(k));
  }
}
