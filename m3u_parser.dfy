/**
 * `M3UParser.parse`: a line scanner over extended-M3U text. Three pending
 * fields (name, logo, category) are set by each `#EXTINF` line and are never
 * reset; every line starting with `http` emits one record built from them.
 */
module M3UParser {
  import opened Text
  import opened ChannelDtos

  const EXTINF_MARKER := "#EXTINF"
  const URL_MARKER := "http"
  /** The literal part of `tvg-logo="(.*?)"` before the group. */
  const LOGO_KEY := "tvg-logo=\""
  /** The literal part of `group-title="(.*?)"` before the group. */
  const GROUP_KEY := "group-title=\""

  // ------------------------------------------------- attribute extraction

  /** Characters that Java's regex `.` does not match (no DOTALL flag). */
  predicate IsRegexLineTerminator(c: char) {
    c == '\n' || c == '\r' || c == '\U{85}' || c == '\U{2028}' || c == '\U{2029}'
  }

  /**
   * Where the lazy group `(.*?)"` that starts at `from` closes: the first '"',
   * or -1 when a line terminator or the end of the line comes first.
   */
  function ValueEnd(line: string, from: nat): (e: int)
    requires from <= |line|
    ensures e == -1 || (from <= e < |line| && line[e] == '"')
    ensures e >= 0 ==> forall j :: from <= j < e ==> line[j] != '"' && !IsRegexLineTerminator(line[j])
    decreases |line| - from
  {
    if from == |line| then -1
    else if line[from] == '"' then from
    else if IsRegexLineTerminator(line[from]) then -1
    else ValueEnd(line, from + 1)
  }

  /** `key` occurs in `line` at position `p`. */
  predicate KeyAt(line: string, key: string, p: int) {
    0 <= p && p + |key| <= |line| && line[p..p + |key|] == key
  }

  /** The pattern `key(.*?)"` matches at position `p`. */
  predicate AttrMatchAt(line: string, key: string, p: int) {
    KeyAt(line, key, p) && ValueEnd(line, p + |key|) >= 0
  }

  /** `Regex.find`: the leftmost match position at or after `from`, or -1. */
  function FindAttr(line: string, key: string, from: nat): (p: int)
    ensures p == -1 || (from <= p && AttrMatchAt(line, key, p))
    ensures forall q :: from <= q && (p == -1 || q < p) ==> !AttrMatchAt(line, key, q)
    decreases |line| - from
  {
    if from + |key| > |line| then -1
    else if AttrMatchAt(line, key, from) then from
    else FindAttr(line, key, from + 1)
  }

  /** `Regex("key(.*?)\"").find(line)?.groupValues?.get(1).orEmpty()` */
  function AttrValue(line: string, key: string): (v: string)
    ensures '"' !in v
  {
    var p := FindAttr(line, key, 0);
    if p == -1 then ""
    else
      var a := p + |key|;
      var e := ValueEnd(line, a);
      var v := line[a..e];
      assert '"' !in v by {
        forall j | 0 <= j < |v| ensures v[j] != '"' {
          assert v[j] == line[a + j];
        }
      }
      v
  }

  /**
   * The value is the text between the first `key` occurrence that is closed by
   * a quote on the same line, and that quote.
   */
  lemma AttrValueOfFirstOccurrence(line: string, key: string, pre: string, v: string, post: string)
    requires line == pre + key + v + "\"" + post
    requires '"' !in v && forall j :: 0 <= j < |v| ==> !IsRegexLineTerminator(v[j])
    requires forall q :: 0 <= q < |pre| ==> !AttrMatchAt(line, key, q)
    ensures AttrValue(line, key) == v
  {
    var p := |pre|;
    assert line[p..p + |key|] == key;
    assert line[p + |key| + |v|] == '"';
    assert forall j :: p + |key| <= j < p + |key| + |v| ==> line[j] == v[j - p - |key|];
    ValueEndAtQuote(line, p + |key|, p + |key| + |v|);
    assert AttrMatchAt(line, key, p);
    assert line[p + |key|..p + |key| + |v|] == v;
  }

  lemma {:induction false} ValueEndAtQuote(line: string, from: nat, e: nat)
    requires from <= e < |line| && line[e] == '"'
    requires forall j :: from <= j < e ==> line[j] != '"' && !IsRegexLineTerminator(line[j])
    ensures ValueEnd(line, from) == e
    decreases e - from
  {
    if from < e {
      ValueEndAtQuote(line, from + 1, e);
    }
  }

  /** Without the key the attribute is empty. */
  lemma AttrValueAbsent(line: string, key: string)
    requires forall q :: !KeyAt(line, key, q)
    ensures AttrValue(line, key) == ""
  {
  }

  // ------------------------------------------------------ line handling

  /** Metadata carried from line to line. */
  datatype Pending = Pending(name: string, logo: string, category: string)

  /** The pending fields before any `#EXTINF` line. */
  const NO_METADATA := Pending("", "", "")

  predicate IsExtinf(line: string) {
    StartsWith(line, EXTINF_MARKER)
  }

  /** The `when` reaches the `http` branch only for lines that are not `#EXTINF` lines. */
  predicate IsUrlLine(line: string) {
    !IsExtinf(line) && StartsWith(line, URL_MARKER)
  }

  /** The fields an `#EXTINF` line sets. */
  function ExtinfFields(line: string): Pending {
    Pending(Trim(SubstringAfter(line, ',')), AttrValue(line, LOGO_KEY), AttrValue(line, GROUP_KEY))
  }

  /** The record a URL line emits under the pending fields. */
  function Record(p: Pending, line: string): ChannelDto {
    ChannelDto(p.name, p.logo, Trim(line), p.category)
  }

  /** The pending fields after scanning `lines`: those of the last `#EXTINF` line, if any. */
  function PendingAfter(lines: seq<string>): Pending {
    if lines == [] then NO_METADATA
    else if IsExtinf(lines[|lines| - 1]) then ExtinfFields(lines[|lines| - 1])
    else PendingAfter(lines[..|lines| - 1])
  }

  /** The records emitted for `lines`, read from the last line backwards. */
  function ParseLines(lines: seq<string>): (r: seq<ChannelDto>)
    ensures |r| <= |lines|
  {
    if lines == [] then []
    else
      var prefix, line := lines[..|lines| - 1], lines[|lines| - 1];
      if IsUrlLine(line) then ParseLines(prefix) + [Record(PendingAfter(prefix), line)]
      else ParseLines(prefix)
  }

  /** `M3UParser.parse(content)` */
  method Parse(content: string) returns (channels: seq<ChannelDto>)
    ensures channels == ParseLines(Lines(content))
  {
    var lines := Lines(content);
    channels := [];
    var name, logo, category := "", "", "";
    for i := 0 to |lines|
      invariant channels == ParseLines(lines[..i])
      invariant Pending(name, logo, category) == PendingAfter(lines[..i])
    {
      var line := lines[i];
      ScanStep(lines, i);
      if StartsWith(line, EXTINF_MARKER) {
        name := Trim(SubstringAfter(line, ','));
        logo := AttrValue(line, LOGO_KEY);
        category := AttrValue(line, GROUP_KEY);
      } else if StartsWith(line, URL_MARKER) {
        channels := channels + [ChannelDto(name, logo, Trim(line), category)];
      }
    }
    assert lines[..|lines|] == lines;
  }

  /** What scanning one more line does to the records and the pending fields. */
  lemma ScanStep(lines: seq<string>, i: nat)
    requires i < |lines|
    ensures ParseLines(lines[..i + 1]) ==
      if IsUrlLine(lines[i]) then ParseLines(lines[..i]) + [Record(PendingAfter(lines[..i]), lines[i])]
      else ParseLines(lines[..i])
    ensures PendingAfter(lines[..i + 1]) ==
      if IsExtinf(lines[i]) then ExtinfFields(lines[i]) else PendingAfter(lines[..i])
  {
    assert lines[..i + 1][..i] == lines[..i];
  }

  // ------------------------------------------------------------ properties

  /** Positions of the URL lines, in increasing order. */
  function UrlLinePositions(lines: seq<string>): (ps: seq<nat>)
    ensures forall k :: 0 <= k < |ps| ==> ps[k] < |lines| && IsUrlLine(lines[ps[k]])
    ensures forall k, m :: 0 <= k < m < |ps| ==> ps[k] < ps[m]
    ensures forall j :: 0 <= j < |lines| && IsUrlLine(lines[j]) ==> j in ps
  {
    if lines == [] then []
    else
      var prefix := lines[..|lines| - 1];
      var ps := UrlLinePositions(prefix);
      if IsUrlLine(lines[|lines| - 1]) then ps + [|lines| - 1] else ps
  }

  /**
   * One record per URL line, in input order: record k is emitted by the k-th
   * URL line, from that line trimmed and the metadata pending before it.
   */
  lemma {:induction false} ParseLinesFollowsUrlLines(lines: seq<string>)
    ensures var r, ps := ParseLines(lines), UrlLinePositions(lines);
      |r| == |ps| &&
      forall k :: 0 <= k < |r| ==> r[k] == Record(PendingAfter(lines[..ps[k]]), lines[ps[k]])
  {
    if lines != [] {
      var prefix, line := lines[..|lines| - 1], lines[|lines| - 1];
      ParseLinesFollowsUrlLines(prefix);
      var rp, pp := ParseLines(prefix), UrlLinePositions(prefix);
      EarlierLinesUnchanged(lines, pp);
      if IsUrlLine(line) {
        var r := rp + [Record(PendingAfter(prefix), line)];
        var ps := pp + [|lines| - 1];
        assert ParseLines(lines) == r && UrlLinePositions(lines) == ps;
        forall k | 0 <= k < |r| ensures r[k] == Record(PendingAfter(lines[..ps[k]]), lines[ps[k]]) {
          if k < |rp| {
            assert r[k] == rp[k] && ps[k] == pp[k];
          } else {
            assert lines[..ps[k]] == prefix;
          }
        }
      } else {
        assert ParseLines(lines) == rp && UrlLinePositions(lines) == pp;
      }
    }
  }

  /** Lines before the last are read the same from `lines` and from its prefix. */
  lemma EarlierLinesUnchanged(lines: seq<string>, pp: seq<nat>)
    requires lines != []
    requires forall k :: 0 <= k < |pp| ==> pp[k] < |lines| - 1
    ensures forall k :: 0 <= k < |pp| ==>
      lines[..pp[k]] == lines[..|lines| - 1][..pp[k]] && lines[pp[k]] == lines[..|lines| - 1][pp[k]]
  {
  }

  /** Every record's stream URL is its line trimmed, so it begins with `http`. */
  lemma {:induction false} RecordsHaveHttpUrls(lines: seq<string>)
    ensures forall d :: d in ParseLines(lines) ==> StartsWith(d.streamUrl, URL_MARKER)
  {
    if lines != [] {
      var prefix, line := lines[..|lines| - 1], lines[|lines| - 1];
      RecordsHaveHttpUrls(prefix);
      if IsUrlLine(line) {
        TrimKeepsPrefix(line, URL_MARKER);
      }
    }
  }

  /** The pending fields are those of the last `#EXTINF` line. */
  lemma {:induction false} PendingIsLastExtinf(lines: seq<string>, j: nat)
    requires j < |lines| && IsExtinf(lines[j])
    requires forall k :: j < k < |lines| ==> !IsExtinf(lines[k])
    ensures PendingAfter(lines) == ExtinfFields(lines[j])
    decreases |lines|
  {
    if j < |lines| - 1 {
      var prefix := lines[..|lines| - 1];
      PendingIsLastExtinf(prefix, j);
    }
  }

  /** Before any `#EXTINF` line all pending fields are empty. */
  lemma {:induction false} PendingWithoutExtinf(lines: seq<string>)
    requires forall k :: 0 <= k < |lines| ==> !IsExtinf(lines[k])
    ensures PendingAfter(lines) == NO_METADATA
    decreases |lines|
  {
    if lines != [] {
      PendingWithoutExtinf(lines[..|lines| - 1]);
    }
  }

  /**
   * The pending fields are not reset when a record is emitted: lines without
   * `#EXTINF` between positions i and j leave the fields as they were at i.
   */
  lemma {:induction false} PendingCarriesOver(lines: seq<string>, i: nat, j: nat)
    requires i <= j <= |lines|
    requires forall k :: i <= k < j ==> !IsExtinf(lines[k])
    ensures PendingAfter(lines[..j]) == PendingAfter(lines[..i])
    decreases j - i
  {
    if i < j {
      assert lines[..j][..j - 1] == lines[..j - 1];
      PendingCarriesOver(lines, i, j - 1);
    }
  }

  /** Two URL lines after one `#EXTINF` line get the same name, logo and category. */
  lemma TwoUrlsShareMetadata(prefix: seq<string>, u1: string, u2: string)
    requires IsUrlLine(u1) && IsUrlLine(u2)
    ensures var r := ParseLines(prefix + [u1, u2]);
      |r| >= 2 &&
      r[|r| - 2].name == r[|r| - 1].name && r[|r| - 2].logo == r[|r| - 1].logo &&
      r[|r| - 2].category == r[|r| - 1].category
  {
    var lines := prefix + [u1, u2];
    assert lines[..|lines| - 1] == prefix + [u1];
    assert (prefix + [u1])[..|prefix|] == prefix;
  }

  /** A line that is not a URL line, such as a trailing `#EXTINF`, emits nothing. */
  lemma NonUrlLineEmitsNothing(lines: seq<string>, line: string)
    requires !IsUrlLine(line)
    ensures ParseLines(lines + [line]) == ParseLines(lines)
  {
    assert (lines + [line])[..|lines|] == lines;
  }

  /** Empty content yields no records. */
  lemma ParseEmptyContent()
    ensures ParseLines(Lines("")) == []
  {
    assert Lines("") == [""];
  }
}
