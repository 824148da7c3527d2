/**
 * The decisions the channel screen makes around its grid: how many columns,
 * which channels the search keeps, which index a click reports, what an
 * empty result says, and which playlist URL the history is filed under.
 */
module ChannelScreens {
  import opened Domain
  import opened Text

  /** Columns for the screen width in dp and the orientation. */
  function GridColumns(screenWidthDp: int, isLandscape: bool): (n: int)
    ensures 2 <= n <= 6
    ensures screenWidthDp >= 1200 ==> n == 6
    ensures 840 <= screenWidthDp < 1200 ==> n == 5
    ensures screenWidthDp < 840 ==> n <= 4
  {
    if screenWidthDp >= 1200 then 6
    else if screenWidthDp >= 840 then 5
    else if screenWidthDp >= 600 && isLandscape then 4
    else if screenWidthDp >= 600 then 3
    else if isLandscape then 3
    else 2
  }

  /** The search: channels whose name contains the query, ignoring ASCII case, in list order. */
  function FilterChannels(channels: seq<Channel>, query: string): (r: seq<Channel>)
    ensures |r| <= |channels|
    ensures forall c :: c in r <==> c in channels && ContainsIgnoreCase(c.name, query)
  {
    if channels == [] then []
    else
      (if ContainsIgnoreCase(channels[0].name, query) then [channels[0]] else [])
      + FilterChannels(channels[1..], query)
  }

  /** `indexOfFirst { it.streamUrl == url }` */
  function IndexOfStream(channels: seq<Channel>, url: string): (i: int)
    ensures -1 <= i < |channels|
    ensures i >= 0 ==> channels[i].streamUrl == url
    ensures i >= 0 ==> forall k :: 0 <= k < i ==> channels[k].streamUrl != url
    ensures i == -1 <==> forall k :: 0 <= k < |channels| ==> channels[k].streamUrl != url
  {
    if channels == [] then -1
    else if channels[0].streamUrl == url then 0
    else
      var j := IndexOfStream(channels[1..], url);
      assert forall k :: 1 <= k < |channels| ==> channels[k] == channels[1..][k - 1];
      if j == -1 then -1 else j + 1
  }

  /** What the screen says when the search keeps nothing. */
  function EmptyStateMessage(searchQuery: string): (m: string)
    ensures searchQuery == [] ==> m == "No channels available"
    ensures searchQuery != [] ==> m == "No channels found for \"" + searchQuery + "\""
  {
    if searchQuery == [] then "No channels available"
    else "No channels found for \"" + searchQuery + "\""
  }

  /**
   * The playlist URL watched channels are filed under: none for the history
   * itself, otherwise what the category mapper answers (`mapped`).
   */
  function CategoryUrlFor(category: string, mapped: string): (u: string)
    ensures category == "Recently Watched" ==> u == ""
    ensures category != "Recently Watched" ==> u == mapped
  {
    if category == "Recently Watched" then "" else mapped
  }

  // ------------------------------------------------------ properties

  /** At a fixed orientation a wider screen never gets fewer columns. */
  lemma GridColumnsMonotone(w1: int, w2: int, isLandscape: bool)
    requires w1 <= w2
    ensures GridColumns(w1, isLandscape) <= GridColumns(w2, isLandscape)
  {
  }

  /** Landscape never gets fewer columns than portrait at the same width. */
  lemma LandscapeAtLeastPortrait(w: int)
    ensures GridColumns(w, false) <= GridColumns(w, true)
  {
  }

  /** Filtering a concatenation filters each part: the search keeps the list's order. */
  lemma {:induction false} FilterAppend(a: seq<Channel>, b: seq<Channel>, query: string)
    ensures FilterChannels(a + b, query) == FilterChannels(a, query) + FilterChannels(b, query)
  {
    if a == [] {
      assert a + b == b;
    } else {
      assert (a + b)[0] == a[0];
      assert (a + b)[1..] == a[1..] + b;
      FilterAppend(a[1..], b, query);
    }
  }

  /** An empty query keeps every channel, in order. */
  lemma {:induction false} EmptyQueryKeepsAll(channels: seq<Channel>)
    ensures FilterChannels(channels, "") == channels
  {
    if channels != [] {
      ContainsEmpty(channels[0].name);
      EmptyQueryKeepsAll(channels[1..]);
    }
  }

  /** Filtering twice with the same query is filtering once. */
  lemma {:induction false} FilterIdempotent(channels: seq<Channel>, query: string)
    ensures FilterChannels(FilterChannels(channels, query), query) == FilterChannels(channels, query)
  {
    if channels != [] {
      var head := if ContainsIgnoreCase(channels[0].name, query) then [channels[0]] else [];
      FilterAppend(head, FilterChannels(channels[1..], query), query);
      FilterIdempotent(channels[1..], query);
      if head != [] {
        assert head[1..] == [];
      }
    }
  }

  /**
   * A channel clicked in the shown list gets a valid index into that list,
   * and the channel at that index plays the same stream.
   */
  lemma ClickedChannelHasIndex(shown: seq<Channel>, c: Channel)
    requires c in shown
    ensures var i := IndexOfStream(shown, c.streamUrl);
      0 <= i < |shown| && shown[i].streamUrl == c.streamUrl
  {
  }
}
