/** `UrlBuilder`: the iptv-org playlist URL for a category, language or country. */
module UrlBuilders {
  import opened Text

  const BASE := "https://iptv-org.github.io/iptv"
  const EXTENSION := ".m3u"

  /** The three playlist families, one per directory. */
  datatype Family = CategoryFamily | LanguageFamily | CountryFamily {
    function Directory(): (d: string)
      ensures |d| >= 3 && d[0] == '/' && d[|d| - 1] == '/'
    {
      match this
      case CategoryFamily => "/categories/"
      case LanguageFamily => "/languages/"
      case CountryFamily => "/countries/"
    }
  }

  /** `categories`, `languages` and `countries`: the lower-cased name in the family's directory. */
  function PlaylistUrl(family: Family, name: string): (u: string)
    ensures |u| == |BASE + family.Directory()| + |name| + |EXTENSION|
    ensures StartsWith(u, BASE + family.Directory())
    ensures EndsWith(u, EXTENSION)
    ensures u[|BASE + family.Directory()|..|u| - |EXTENSION|] == Lower(name)
  {
    var prefix := BASE + family.Directory();
    var u := prefix + Lower(name) + EXTENSION;
    assert u[..|prefix|] == prefix;
    assert u[|u| - |EXTENSION|..] == EXTENSION;
    assert u[|prefix|..|u| - |EXTENSION|] == Lower(name);
    u
  }

  function Categories(category: string): (u: string)
    ensures u == BASE + "/categories/" + Lower(category) + EXTENSION
  {
    PlaylistUrl(CategoryFamily, category)
  }

  function Languages(code: string): (u: string)
    ensures u == BASE + "/languages/" + Lower(code) + EXTENSION
  {
    PlaylistUrl(LanguageFamily, code)
  }

  function Countries(code: string): (u: string)
    ensures u == BASE + "/countries/" + Lower(code) + EXTENSION
  {
    PlaylistUrl(CountryFamily, code)
  }

  // ------------------------------------------------------ properties

  /** Only the lower-case form of the name matters. */
  lemma CaseDoesNotMatter(family: Family, name: string)
    ensures PlaylistUrl(family, name) == PlaylistUrl(family, Lower(name))
  {
    LowerIdempotent(name);
  }

  /** Within one family, names with different lower-case forms give different URLs. */
  lemma DistinctNamesDistinctUrls(family: Family, a: string, b: string)
    requires Lower(a) != Lower(b)
    ensures PlaylistUrl(family, a) != PlaylistUrl(family, b)
  {
  }

  /** The same name in two families gives two different URLs. */
  lemma FamiliesDoNotCollide(f: Family, g: Family, name: string)
    requires f != g
    ensures PlaylistUrl(f, name) != PlaylistUrl(g, name)
  {
    var uf, ug := PlaylistUrl(f, name), PlaylistUrl(g, name);
    var n := |BASE|;
    assert uf[..|BASE + f.Directory()|] == BASE + f.Directory();
    assert ug[..|BASE + g.Directory()|] == BASE + g.Directory();
    assert uf[n + 1] == f.Directory()[1] && uf[n + 2] == f.Directory()[2];
    assert ug[n + 1] == g.Directory()[1] && ug[n + 2] == g.Directory()[2];
  }
}
