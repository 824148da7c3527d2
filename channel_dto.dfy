/** The parser's output record and its mapping to the domain `Channel`. */
module ChannelDtos {
  import opened Domain
  import opened Text

  /** One record produced by the playlist parser. */
  datatype ChannelDto = ChannelDto(name: string, logo: string, streamUrl: string, category: string) {

    /** `ChannelDto.toDomain()`: a field-for-field copy. */
    function ToDomain(): Channel {
      Channel(name, logo, streamUrl, category)
    }
  }

  /** `dtos.map { it.toDomain() }` */
  function AllToDomain(ds: seq<ChannelDto>): (cs: seq<Channel>)
    ensures |cs| == |ds|
    ensures forall i :: 0 <= i < |ds| ==> cs[i] == ds[i].ToDomain()
  {
    seq(|ds|, i requires 0 <= i < |ds| => ds[i].ToDomain())
  }

  /** The mapping keeps all four fields. */
  lemma ToDomainKeepsFields(d: ChannelDto)
    ensures var c := d.ToDomain();
      c.name == d.name && c.logo == d.logo && c.streamUrl == d.streamUrl && c.category == d.category
  {
  }

  /** Distinct records give distinct channels, so the mapping loses nothing. */
  lemma ToDomainInjective(a: ChannelDto, b: ChannelDto)
    requires a.ToDomain() == b.ToDomain()
    ensures a == b
  {
  }

  /** The `http` prefix the parser guarantees survives the mapping. */
  lemma ToDomainKeepsUrlPrefix(d: ChannelDto)
    requires StartsWith(d.streamUrl, "http")
    ensures StartsWith(d.ToDomain().streamUrl, "http")
  {
  }
}
