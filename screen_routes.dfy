/**
 * `ScreenRoutes`: the navigation routes of the three screens. The player
 * route carries five form-encoded text fields and the channel index as
 * `/`-separated path segments; the player destination reads them back with
 * the form decoder.
 */
module ScreenRoutes {
  import opened Domain
  import opened Text
  import opened FormEncoding

  const HOME_ROUTE := "homeScreen"
  /** The route templates, as the `/`-separated segments they are registered with. */
  const CHANNEL_TEMPLATE: seq<string> := ["channelScreen", "{category}"]
  const PLAYER_TEMPLATE: seq<string> :=
    ["playerScreen", "{streamUrl}", "{channelName}", "{logoUrl}", "{category}", "{categoryUrl}", "{channelIndex}"]
  const CHANNEL_ROUTE := Join(CHANNEL_TEMPLATE, '/')
  const PLAYER_ROUTE := Join(PLAYER_TEMPLATE, '/')

  /** `ChannelScreen.createRoute`: the category is inserted as it is, not encoded. */
  function ChannelRoute(category: string): (r: string)
    ensures StartsWith(r, "channelScreen/") && r[|"channelScreen/"|..] == category
  {
    "channelScreen/" + category
  }

  /**
   * `PlayerScreen.createRoute`: the template
   * `playerScreen/$url/$name/$logo/$category/$categoryUrl/$channelIndex`
   * over the form-encoded fields, that is, its seven segments joined by `/`.
   */
  function PlayerRoute(streamUrl: string, channelName: string, logoUrl: string,
                       category: string, categoryUrl: string, channelIndex: int): (r: string)
    ensures StartsWith(r, "playerScreen/")
  {
    var p := PlayerSegments(streamUrl, channelName, logoUrl, category, categoryUrl, channelIndex);
    var r := Join(p, '/');
    assert r == p[0] + "/" + Join(p[1..], '/');
    r
  }

  /** The segments of a route: the text between `/` separators, in order. */
  function Split(s: string, sep: char): (r: seq<string>)
    ensures |r| >= 1
    ensures forall k :: 0 <= k < |r| ==> sep !in r[k]
    decreases |s|
  {
    var i := IndexOfChar(s, sep);
    if i < 0 then [s]
    else
      var rest := Split(s[i + 1..], sep);
      assert forall k :: 1 <= k < 1 + |rest| ==> ([s[..i]] + rest)[k] == rest[k - 1];
      [s[..i]] + rest
  }

  /** Segments joined with `sep` between them. */
  function Join(parts: seq<string>, sep: char): string
    requires |parts| >= 1
  {
    if |parts| == 1 then parts[0] else parts[0] + [sep] + Join(parts[1..], sep)
  }

  /** The segments the player route is made of. */
  function PlayerSegments(streamUrl: string, channelName: string, logoUrl: string,
                          category: string, categoryUrl: string, channelIndex: int): (p: seq<string>)
    ensures |p| == 7
  {
    ["playerScreen", FormEncode(streamUrl), FormEncode(channelName), FormEncode(logoUrl),
     FormEncode(category), FormEncode(categoryUrl), IntToDecimal(channelIndex)]
  }

  // ------------------------------------------------------ properties

  /** Splitting at the first separator. */
  lemma SplitAtFirst(a: string, sep: char, b: string)
    requires sep !in a
    ensures Split(a + [sep] + b, sep) == [a] + Split(b, sep)
  {
    var s := a + [sep] + b;
    assert s[|a|] == sep && s[..|a|] == a && s[|a| + 1..] == b;
  }

  /** Joining segments without separators and splitting again gives the segments back. */
  lemma {:induction false} SplitJoin(parts: seq<string>, sep: char)
    requires |parts| >= 1
    requires forall k :: 0 <= k < |parts| ==> sep !in parts[k]
    ensures Split(Join(parts, sep), sep) == parts
  {
    if |parts| == 1 {
      assert Split(parts[0], sep) == [parts[0]];
    } else {
      SplitJoin(parts[1..], sep);
      SplitAtFirst(parts[0], sep, Join(parts[1..], sep));
      assert parts == [parts[0]] + parts[1..];
    }
  }

  /**
   * The player route splits at `/` into exactly seven segments; the form
   * decoder gives each text field back and the last segment reads back as
   * the channel index.
   */
  lemma PlayerRouteRoundTrip(streamUrl: string, channelName: string, logoUrl: string,
                             category: string, categoryUrl: string, channelIndex: int)
    ensures var s := Split(PlayerRoute(streamUrl, channelName, logoUrl, category, categoryUrl, channelIndex), '/');
      && |s| == 7
      && s[0] == "playerScreen"
      && Decode(s[1]) == Some(streamUrl)
      && Decode(s[2]) == Some(channelName)
      && Decode(s[3]) == Some(logoUrl)
      && Decode(s[4]) == Some(category)
      && Decode(s[5]) == Some(categoryUrl)
      && s[6] == IntToDecimal(channelIndex)
  {
    var p := PlayerSegments(streamUrl, channelName, logoUrl, category, categoryUrl, channelIndex);
    EncodedHasNoSlash(streamUrl);
    EncodedHasNoSlash(channelName);
    EncodedHasNoSlash(logoUrl);
    EncodedHasNoSlash(category);
    EncodedHasNoSlash(categoryUrl);
    assert '/' !in p[6];
    SplitJoin(p, '/');
    FormRoundTrip(streamUrl);
    FormRoundTrip(channelName);
    FormRoundTrip(logoUrl);
    FormRoundTrip(category);
    FormRoundTrip(categoryUrl);
  }

  /** Joining a segment in front of at least one more. */
  lemma JoinCons(x: string, rest: seq<string>, sep: char)
    requires |rest| >= 1
    ensures Join([x] + rest, sep) == x + [sep] + Join(rest, sep)
  {
    assert ([x] + rest)[1..] == rest;
  }

  /** The segments with every default argument. */
  lemma DefaultSegments(streamUrl: string)
    ensures PlayerSegments(streamUrl, "", "", "", "", -1) == ["playerScreen", FormEncode(streamUrl), "", "", "", "", "-1"]
  {
    assert FormEncode("") == "";
    assert IntToDecimal(-1) == "-1";
  }

  /** Joining the default segments. */
  lemma JoinDefaults(u: string)
    ensures Join(["playerScreen", u, "", "", "", "", "-1"], '/') == "playerScreen/" + u + "/////-1"
  {
    var t5: seq<string> := ["", "-1"];
    var t4 := [""] + t5;
    var t3 := [""] + t4;
    var t2 := [""] + t3;
    var t1 := [u] + t2;
    JoinCons("", ["-1"], '/');
    JoinCons("", t5, '/');
    JoinCons("", t4, '/');
    JoinCons("", t3, '/');
    JoinCons(u, t2, '/');
    JoinCons("playerScreen", t1, '/');
    assert ["playerScreen", u, "", "", "", "", "-1"] == ["playerScreen"] + t1;
  }

  /** With every default argument the text fields are empty and the index is -1. */
  lemma PlayerRouteDefaults(streamUrl: string)
    ensures PlayerRoute(streamUrl, "", "", "", "", -1) == "playerScreen/" + FormEncode(streamUrl) + "/////-1"
  {
    DefaultSegments(streamUrl);
    JoinDefaults(FormEncode(streamUrl));
  }

  /** The channel route has exactly two segments if and only if the category has no `/`. */
  lemma ChannelRouteSegments(category: string)
    ensures |Split(ChannelRoute(category), '/')| == 2 <==> '/' !in category
    ensures '/' !in category ==> Split(ChannelRoute(category), '/') == ["channelScreen", category]
  {
    SplitAtFirst("channelScreen", '/', category);
    assert ChannelRoute(category) == "channelScreen" + ['/'] + category;
    var rest := Split(category, '/');
    if '/' in category {
      var i := IndexOfChar(category, '/');
      assert rest == [category[..i]] + Split(category[i + 1..], '/');
    } else {
      assert rest == [category];
    }
  }

  /** The home route is a single segment. */
  lemma HomeRouteTemplate()
    ensures Split(HOME_ROUTE, '/') == [HOME_ROUTE]
  {
    assert '/' !in HOME_ROUTE;
  }

  /** The channel route template splits back into its two segments. */
  lemma ChannelRouteTemplate()
    ensures Split(CHANNEL_ROUTE, '/') == CHANNEL_TEMPLATE && |CHANNEL_TEMPLATE| == 2
  {
    var c := CHANNEL_TEMPLATE;
    assert '/' !in c[0] && '/' !in c[1];
    SplitJoin(c, '/');
  }

  /**
   * The player route template splits back into its seven segments, the
   * same number `PlayerRoute` builds, one placeholder per argument.
   */
  lemma PlayerRouteTemplate()
    ensures Split(PLAYER_ROUTE, '/') == PLAYER_TEMPLATE && |PLAYER_TEMPLATE| == 7
  {
    var p := PLAYER_TEMPLATE;
    assert '/' !in p[0] && '/' !in p[1] && '/' !in p[2] && '/' !in p[3];
    assert '/' !in p[4] && '/' !in p[5] && '/' !in p[6];
    SplitJoin(p, '/');
  }
}
