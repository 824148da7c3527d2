/** A row of the `channels` table and the mappings between rows and channels. */
module ChannelEntities {
  import opened Domain
  import ChannelDtos

  /**
   * `ChannelEntity`: `id` is the auto-generated primary key (0 = not yet
   * assigned), `categoryUrl` the playlist URL the row was fetched from, and
   * `timestamp` the creation time in milliseconds.
   */
  datatype ChannelEntity = ChannelEntity(
    id: int,
    name: string,
    logo: string,
    streamUrl: string,
    category: string,
    categoryUrl: string,
    timestamp: int)
  {
    /** `ChannelEntity.toDomain()`: drops the three storage fields. */
    function ToDomain(): Channel {
      Channel(name, logo, streamUrl, category)
    }
  }

  /**
   * `Channel.toEntity(categoryUrl)`: the id is left at 0 for storage to assign,
   * and the timestamp defaults to the clock reading `now`.
   */
  function ToEntity(c: Channel, categoryUrl: string, now: int): ChannelEntity {
    ChannelEntity(0, c.name, c.logo, c.streamUrl, c.category, categoryUrl, now)
  }

  /** `entities.map { it.toDomain() }` */
  function AllToDomain(es: seq<ChannelEntity>): (cs: seq<Channel>)
    ensures |cs| == |es|
    ensures forall i :: 0 <= i < |es| ==> cs[i] == es[i].ToDomain()
  {
    seq(|es|, i requires 0 <= i < |es| => es[i].ToDomain())
  }

  /** `channels.map { it.toEntity(url) }`, all stamped with the same clock reading. */
  function AllToEntity(cs: seq<Channel>, categoryUrl: string, now: int): (es: seq<ChannelEntity>)
    ensures |es| == |cs|
    ensures forall i :: 0 <= i < |cs| ==> es[i] == ToEntity(cs[i], categoryUrl, now)
  {
    seq(|cs|, i requires 0 <= i < |cs| => ToEntity(cs[i], categoryUrl, now))
  }

  /** Storing a channel and reading it back gives the same channel. */
  lemma EntityRoundTrip(c: Channel, categoryUrl: string, now: int)
    ensures ToEntity(c, categoryUrl, now).ToDomain() == c
  {
  }

  /** A new row carries the key it is stored under, id 0 and the creation time. */
  lemma ToEntityStorageFields(c: Channel, categoryUrl: string, now: int)
    ensures var e := ToEntity(c, categoryUrl, now);
      e.categoryUrl == categoryUrl && e.id == 0 && e.timestamp == now
  {
  }

  /** Rows that differ only in id, key or timestamp show the same channel. */
  lemma ToDomainIgnoresStorageFields(a: ChannelEntity, b: ChannelEntity)
    requires a.name == b.name && a.logo == b.logo && a.streamUrl == b.streamUrl && a.category == b.category
    ensures a.ToDomain() == b.ToDomain()
  {
  }

  /** A parsed record survives a trip through the cache unchanged. */
  lemma DtoCacheRoundTrip(d: ChannelDtos.ChannelDto, categoryUrl: string, now: int)
    ensures ToEntity(d.ToDomain(), categoryUrl, now).ToDomain() == d.ToDomain()
  {
  }

  /** Whole lists survive the trip too, in order. */
  lemma {:induction false} ListCacheRoundTrip(cs: seq<Channel>, categoryUrl: string, now: int)
    ensures AllToDomain(AllToEntity(cs, categoryUrl, now)) == cs
  {
    var back := AllToDomain(AllToEntity(cs, categoryUrl, now));
    forall i | 0 <= i < |cs| ensures back[i] == cs[i] {
      EntityRoundTrip(cs[i], categoryUrl, now);
    }
  }
}
