/**
 * The application/x-www-form-urlencoded serializer as `java.net.URLEncoder`
 * applies it with UTF-8 (WHATWG URL Standard, section 5.2), and the
 * matching `java.net.URLDecoder`. Strings are sequences of Unicode scalar
 * values; bytes are integers below 256.
 */
module FormEncoding {
  import opened Domain

  type Byte = b: int | 0 <= b < 256

  // ------------------------------------------------------ UTF-8

  /** The UTF-8 bytes of one character. */
  function Utf8Char(c: char): (bs: seq<Byte>)
    ensures 1 <= |bs| <= 4
    ensures (c as int < 0x80) <==> |bs| == 1
    ensures |bs| == 1 ==> bs[0] == c as int
  {
    var n := c as int;
    if n < 0x80 then [n]
    else if n < 0x800 then [0xC0 + n / 64, 0x80 + n % 64]
    else if n < 0x10000 then [0xE0 + n / 4096, 0x80 + (n / 64) % 64, 0x80 + n % 64]
    else [0xF0 + n / 262144, 0x80 + (n / 4096) % 64, 0x80 + (n / 64) % 64, 0x80 + n % 64]
  }

  /** The UTF-8 bytes of a string. */
  function Utf8(s: string): seq<Byte> {
    if s == [] then [] else Utf8Char(s[0]) + Utf8(s[1..])
  }

  predicate IsContinuation(b: Byte) {
    0x80 <= b < 0xC0
  }

  function Prepend(c: char, r: Option<string>): Option<string> {
    match r
    case None => None
    case Some(s) => Some([c] + s)
  }

  function Concat(a: Option<string>, b: Option<string>): Option<string> {
    match a
    case None => None
    case Some(x) => match b
      case None => None
      case Some(y) => Some(x + y)
  }

  /**
   * Decoding UTF-8: `None` for a sequence that is not well formed (an
   * overlong form, a surrogate, a value past U+10FFFF, a missing or stray
   * continuation byte).
   */
  function Utf8Decode(bs: seq<Byte>): (r: Option<string>)
    decreases |bs|
  {
    if bs == [] then Some([])
    else
      var b0 := bs[0] as int;
      if b0 < 0x80 then
        Prepend(b0 as char, Utf8Decode(bs[1..]))
      else if 0xC2 <= b0 < 0xE0 && |bs| >= 2 && IsContinuation(bs[1]) then
        var n := (b0 - 0xC0) * 64 + (bs[1] as int - 0x80);
        Prepend(n as char, Utf8Decode(bs[2..]))
      else if 0xE0 <= b0 < 0xF0 && |bs| >= 3 && IsContinuation(bs[1]) && IsContinuation(bs[2]) then
        var n := (b0 - 0xE0) * 4096 + (bs[1] as int - 0x80) * 64 + (bs[2] as int - 0x80);
        if n < 0x800 || (0xD800 <= n < 0xE000) then None
        else Prepend(n as char, Utf8Decode(bs[3..]))
      else if 0xF0 <= b0 < 0xF5 && |bs| >= 4 && IsContinuation(bs[1]) && IsContinuation(bs[2]) && IsContinuation(bs[3]) then
        var n := (b0 - 0xF0) * 262144 + (bs[1] as int - 0x80) * 4096 + (bs[2] as int - 0x80) * 64 + (bs[3] as int - 0x80);
        if n < 0x10000 || n >= 0x110000 then None
        else Prepend(n as char, Utf8Decode(bs[4..]))
      else None
  }

  lemma {:induction false} Utf8Append(a: string, b: string)
    ensures Utf8(a + b) == Utf8(a) + Utf8(b)
  {
    if a == [] {
      assert a + b == b;
    } else {
      assert (a + b)[0] == a[0];
      assert (a + b)[1..] == a[1..] + b;
      Utf8Append(a[1..], b);
    }
  }

  lemma Utf8OfLast(p: string, c: char)
    ensures Utf8(p + [c]) == Utf8(p) + Utf8Char(c)
  {
    Utf8Append(p, [c]);
    assert Utf8([c]) == Utf8Char(c) + Utf8([]);
    assert Utf8Char(c) + [] == Utf8Char(c);
  }

  /** Decoding the bytes of one character gives that character back, and then carries on. */
  lemma Utf8DecodeChar(c: char, rest: seq<Byte>)
    ensures Utf8Decode(Utf8Char(c) + rest) == Prepend(c, Utf8Decode(rest))
  {
    var n := c as int;
    if n < 0x80 {
      DecodeOneByte(c, rest);
    } else if n < 0x800 {
      DecodeTwoBytes(c, rest);
    } else if n < 0x10000 {
      DecodeThreeBytes(c, rest);
    } else {
      DecodeFourBytes(c, rest);
    }
  }

  lemma DecodeOneByte(c: char, rest: seq<Byte>)
    requires c as int < 0x80
    ensures Utf8Decode(Utf8Char(c) + rest) == Prepend(c, Utf8Decode(rest))
  {
    assert (Utf8Char(c) + rest)[1..] == rest;
  }

  lemma DecodeTwoBytes(c: char, rest: seq<Byte>)
    requires 0x80 <= c as int < 0x800
    ensures Utf8Decode(Utf8Char(c) + rest) == Prepend(c, Utf8Decode(rest))
  {
    var n := c as int;
    assert (Utf8Char(c) + rest)[2..] == rest;
    assert (n / 64) * 64 + n % 64 == n;
  }

  lemma DecodeThreeBytes(c: char, rest: seq<Byte>)
    requires 0x800 <= c as int < 0x10000
    ensures Utf8Decode(Utf8Char(c) + rest) == Prepend(c, Utf8Decode(rest))
  {
    var n := c as int;
    assert (Utf8Char(c) + rest)[3..] == rest;
    var q := n / 64;
    assert q * 64 + n % 64 == n;
    assert q / 64 == n / 4096;
    assert (q / 64) * 64 + q % 64 == q;
  }

  lemma DecodeFourBytes(c: char, rest: seq<Byte>)
    requires 0x10000 <= c as int
    ensures Utf8Decode(Utf8Char(c) + rest) == Prepend(c, Utf8Decode(rest))
  {
    var n := c as int;
    assert (Utf8Char(c) + rest)[4..] == rest;
    var q := n / 64;
    var q2 := q / 64;
    assert q * 64 + n % 64 == n;
    assert q2 * 64 + q % 64 == q;
    assert q2 == n / 4096;
    assert q2 / 64 == n / 262144;
    assert (q2 / 64) * 64 + q2 % 64 == q2;
  }

  /** UTF-8 decoding inverts UTF-8 encoding. */
  lemma {:induction false} Utf8RoundTrip(s: string)
    ensures Utf8Decode(Utf8(s)) == Some(s)
  {
    if s != [] {
      Utf8RoundTrip(s[1..]);
      Utf8DecodeChar(s[0], Utf8(s[1..]));
      assert [s[0]] + s[1..] == s;
    }
  }

  // ------------------------------------------------------ form encoding

  /** The characters `URLEncoder` copies unchanged. */
  predicate Unreserved(c: char) {
    ('a' <= c <= 'z') || ('A' <= c <= 'Z') || ('0' <= c <= '9') || c == '.' || c == '-' || c == '*' || c == '_'
  }

  /** Every character an encoded string can contain. */
  predicate IsFormChar(c: char) {
    Unreserved(c) || c == '+' || c == '%'
  }

  /** An upper-case hexadecimal digit. */
  function HexDigit(d: int): (c: char)
    requires 0 <= d < 16
    ensures ('0' <= c <= '9') || ('A' <= c <= 'F')
  {
    if d < 10 then ('0' as int + d) as char else ('A' as int + d - 10) as char
  }

  /** `%XX` for each byte, upper-case hexadecimal. */
  function Escape(bs: seq<Byte>): (r: string)
    ensures |r| == 3 * |bs|
    ensures forall k :: 0 <= k < |r| ==> IsFormChar(r[k])
  {
    if bs == [] then []
    else ['%', HexDigit(bs[0] / 16), HexDigit(bs[0] % 16)] + Escape(bs[1..])
  }

  /** One character encoded: kept, a space as `+`, anything else as its escaped UTF-8 bytes. */
  function EncodeChar(c: char): (r: string)
    ensures r != [] && forall k :: 0 <= k < |r| ==> IsFormChar(r[k])
  {
    if Unreserved(c) then [c]
    else if c == ' ' then "+"
    else Escape(Utf8Char(c))
  }

  /** `URLEncoder.encode(s, UTF-8)` */
  function FormEncode(s: string): (r: string)
    ensures forall k :: 0 <= k < |r| ==> IsFormChar(r[k])
    ensures |r| >= |s|
  {
    if s == [] then []
    else
      var head := EncodeChar(s[0]);
      var tail := FormEncode(s[1..]);
      assert forall k :: |head| <= k < |head| + |tail| ==> (head + tail)[k] == tail[k - |head|];
      head + tail
  }

  /** `Character.digit(c, 16)` on ASCII: -1 when `c` is not a hexadecimal digit. */
  function HexValue(c: char): (v: int)
    ensures -1 <= v < 16
  {
    if '0' <= c <= '9' then c as int - '0' as int
    else if 'a' <= c <= 'f' then c as int - 'a' as int + 10
    else if 'A' <= c <= 'F' then c as int - 'A' as int + 10
    else -1
  }

  /**
   * `URLDecoder.decode(t, UTF-8)`, with the bytes of the current run of
   * `%XX` escapes in `pending`: `+` is a space, each run of escapes is
   * decoded as UTF-8 when it ends, and a `%` without two hexadecimal digits
   * after it is an error (`None`).
   */
  function FormDecode(t: string, pending: seq<Byte>): (r: Option<string>)
    decreases |t|
  {
    if t == [] then Utf8Decode(pending)
    else if t[0] == '%' then
      if |t| >= 3 && HexValue(t[1]) >= 0 && HexValue(t[2]) >= 0 then
        FormDecode(t[3..], pending + [HexValue(t[1]) * 16 + HexValue(t[2])])
      else None
    else
      var c := if t[0] == '+' then ' ' else t[0];
      Concat(Utf8Decode(pending), Prepend(c, FormDecode(t[1..], [])))
  }

  /** `URLDecoder.decode` of a whole string. */
  function Decode(t: string): Option<string> {
    FormDecode(t, [])
  }

  // ------------------------------------------------------ properties

  /** One escape is read back as its byte. */
  lemma EscapeStep(b: Byte, t: string, pending: seq<Byte>)
    ensures FormDecode(['%', HexDigit(b / 16), HexDigit(b % 16)] + t, pending) == FormDecode(t, pending + [b])
  {
    var e := ['%', HexDigit(b / 16), HexDigit(b % 16)] + t;
    assert e[0] == '%' && e[1] == HexDigit(b / 16) && e[2] == HexDigit(b % 16);
    assert HexValue(e[1]) * 16 + HexValue(e[2]) == b;
    assert e[3..] == t;
  }

  /** A run of escapes is read back as its bytes. */
  lemma {:induction false} EscapeConsumed(bs: seq<Byte>, t: string, pending: seq<Byte>)
    ensures FormDecode(Escape(bs) + t, pending) == FormDecode(t, pending + bs)
    decreases |bs|
  {
    if bs == [] {
      assert Escape(bs) + t == t;
      assert pending + bs == pending;
    } else {
      var b := bs[0];
      calc {
        FormDecode(Escape(bs) + t, pending);
        { EscapeHead(bs, t); }
        FormDecode(['%', HexDigit(b / 16), HexDigit(b % 16)] + (Escape(bs[1..]) + t), pending);
        { EscapeStep(b, Escape(bs[1..]) + t, pending); }
        FormDecode(Escape(bs[1..]) + t, pending + [b]);
        { EscapeConsumed(bs[1..], t, pending + [b]); }
        FormDecode(t, pending + [b] + bs[1..]);
        { ByteConsTail(pending, bs); }
        FormDecode(t, pending + bs);
      }
    }
  }

  /** `pending + [bs[0]] + bs[1..]` is `pending + bs`. */
  lemma ByteConsTail(pending: seq<Byte>, bs: seq<Byte>)
    requires bs != []
    ensures pending + [bs[0]] + bs[1..] == pending + bs
  {
    assert [bs[0]] + bs[1..] == bs;
  }

  /** The escape of the first byte comes first. */
  lemma EscapeHead(bs: seq<Byte>, t: string)
    requires bs != []
    ensures Escape(bs) + t == ['%', HexDigit(bs[0] / 16), HexDigit(bs[0] % 16)] + (Escape(bs[1..]) + t)
  {
  }

  /** A character copied or written as `+` ends the pending run and is read back as itself. */
  lemma PlainStep(c: char, t: string, pending: seq<Byte>)
    requires Unreserved(c) || c == ' '
    ensures FormDecode(EncodeChar(c) + t, pending) == Concat(Utf8Decode(pending), Prepend(c, FormDecode(t, [])))
  {
    var e := EncodeChar(c) + t;
    assert e[0] != '%' && e[1..] == t;
    assert (if e[0] == '+' then ' ' else e[0]) == c;
  }

  /** The step of `DecodeEncodeAfter` for a first character that is copied or written as `+`. */
  lemma PlainFirst(s: string, p: string)
    requires s != [] && (Unreserved(s[0]) || s[0] == ' ')
    requires FormDecode(FormEncode(s[1..]), []) == Some(s[1..])
    ensures FormDecode(FormEncode(s), Utf8(p)) == Some(p + s)
  {
    var c, t := s[0], FormEncode(s[1..]);
    assert FormEncode(s) == EncodeChar(c) + t;
    PlainStep(c, t, Utf8(p));
    Utf8RoundTrip(p);
    assert [c] + s[1..] == s;
  }

  /** The step of `DecodeEncodeAfter` for a first character that is escaped. */
  lemma EscapedFirst(s: string, p: string)
    requires s != [] && !Unreserved(s[0]) && s[0] != ' '
    requires FormDecode(FormEncode(s[1..]), Utf8(p + [s[0]])) == Some(p + [s[0]] + s[1..])
    ensures FormDecode(FormEncode(s), Utf8(p)) == Some(p + s)
  {
    var c, t := s[0], FormEncode(s[1..]);
    EncodeHead(s);
    EscapedCharConsumed(c, t, Utf8(p));
    Utf8OfLast(p, c);
    ConsTail(p, s);
  }

  /** The encoding of a non-empty string: its first character's, then the rest's. */
  lemma EncodeHead(s: string)
    requires s != []
    ensures FormEncode(s) == EncodeChar(s[0]) + FormEncode(s[1..])
  {
  }

  /** An escaped character's bytes join the pending bytes. */
  lemma EscapedCharConsumed(c: char, t: string, pending: seq<Byte>)
    requires !Unreserved(c) && c != ' '
    ensures FormDecode(EncodeChar(c) + t, pending) == FormDecode(t, pending + Utf8Char(c))
  {
    EscapeConsumed(Utf8Char(c), t, pending);
  }

  /** `p + [s[0]] + s[1..]` is `p + s`. */
  lemma ConsTail(p: string, s: string)
    requires s != []
    ensures p + [s[0]] + s[1..] == p + s
  {
    assert [s[0]] + s[1..] == s;
  }

  /**
   * Decoding the encoding of `s` after characters `p` whose bytes are
   * still pending gives `p + s`.
   */
  lemma {:induction false} DecodeEncodeAfter(s: string, p: string)
    ensures FormDecode(FormEncode(s), Utf8(p)) == Some(p + s)
    decreases |s|
  {
    if s == [] {
      Utf8RoundTrip(p);
      assert p + s == p;
    } else if Unreserved(s[0]) || s[0] == ' ' {
      DecodeEncodeAfter(s[1..], []);
      assert Utf8([]) == [] && [] + s[1..] == s[1..];
      PlainFirst(s, p);
    } else {
      DecodeEncodeAfter(s[1..], p + [s[0]]);
      EscapedFirst(s, p);
    }
  }

  /** Form decoding inverts form encoding, for every string. */
  lemma FormRoundTrip(s: string)
    ensures Decode(FormEncode(s)) == Some(s)
  {
    DecodeEncodeAfter(s, []);
    assert Utf8([]) == [];
    assert [] + s == s;
  }

  /** An encoded string never contains `/`. */
  lemma EncodedHasNoSlash(s: string)
    ensures '/' !in FormEncode(s)
  {
  }
}
