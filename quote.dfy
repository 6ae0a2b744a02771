/**
 * `urllib.parse.quote(s)` with its default `safe='/'` (also reached through
 * `requests.utils.quote`): the text is encoded as UTF-8 and every byte outside
 * the unreserved set and `/` is written as `%XY` with upper-case hex digits.
 */
module UrlQuote {
  import opened Common

  /** The UTF-8 encoding of one Unicode scalar value. */
  function Utf8(c: char): (r: seq<Byte>)
    ensures 1 <= |r| <= 4
    ensures (c as int < 0x80) <==> |r| == 1
    ensures |r| == 1 ==> r[0] == c as int
    ensures |r| > 1 ==> forall i :: 0 <= i < |r| ==> r[i] >= 0x80
  {
    var cp := c as int;
    if cp < 0x80 then [cp]
    else if cp < 0x800 then [0xC0 + cp / 0x40, 0x80 + cp % 0x40]
    else if cp < 0x1_0000 then [0xE0 + cp / 0x1000, 0x80 + (cp / 0x40) % 0x40, 0x80 + cp % 0x40]
    else [0xF0 + cp / 0x4_0000, 0x80 + (cp / 0x1000) % 0x40, 0x80 + (cp / 0x40) % 0x40, 0x80 + cp % 0x40]
  }

  /** `s.encode('utf-8')`. */
  function Utf8Bytes(s: string): seq<Byte> {
    if s == [] then [] else Utf8(s[0]) + Utf8Bytes(s[1..])
  }

  /** The bytes `quote` never escapes: ASCII letters, digits, `_.-~` and `/`. */
  predicate IsSafeByte(b: Byte) {
    || ('A' as int <= b <= 'Z' as int)
    || ('a' as int <= b <= 'z' as int)
    || ('0' as int <= b <= '9' as int)
    || b == '_' as int || b == '.' as int || b == '-' as int || b == '~' as int
    || b == '/' as int
  }

  predicate IsSafeChar(c: char) {
    c as int < 0x80 && IsSafeByte(c as int)
  }

  predicate IsHexDigit(c: char) {
    ('0' <= c <= '9') || ('A' <= c <= 'F') || ('a' <= c <= 'f')
  }

  function HexValue(c: char): (n: nat)
    requires IsHexDigit(c)
    ensures n < 16
  {
    if '0' <= c <= '9' then c as int - '0' as int
    else if 'A' <= c <= 'F' then c as int - 'A' as int + 10
    else c as int - 'a' as int + 10
  }

  /** The upper-case hex digit `quote` writes for `n`. */
  function HexDigit(n: nat): (c: char)
    requires n < 16
    ensures IsHexDigit(c) && HexValue(c) == n
  {
    if n < 10 then ('0' as int + n) as char else ('A' as int + n - 10) as char
  }

  /** One byte as it appears in a quoted string. */
  function QuoteByte(b: Byte): (r: string)
    ensures IsSafeByte(b) ==> r == [b as char]
    ensures !IsSafeByte(b) ==> |r| == 3 && r[0] == '%' && IsHexDigit(r[1]) && IsHexDigit(r[2])
                                && HexValue(r[1]) * 16 + HexValue(r[2]) == b
  {
    if IsSafeByte(b) then [b as char] else ['%', HexDigit(b / 16), HexDigit(b % 16)]
  }

  /** Only safe characters, `%` and hex digits: nothing that could end a URL path or query value. */
  predicate UrlSafeText(s: string) {
    forall i :: 0 <= i < |s| ==> IsSafeChar(s[i]) || s[i] == '%' || IsHexDigit(s[i])
  }

  function QuoteBytes(bs: seq<Byte>): (r: string)
    ensures UrlSafeText(r)
  {
    if bs == [] then [] else QuoteByte(bs[0]) + QuoteBytes(bs[1..])
  }

  /** `quote(s)`; its result never holds `?`, `&`, `#`, `=` or whitespace. */
  function Quote(s: string): (r: string)
    ensures UrlSafeText(r)
  {
    QuoteBytes(Utf8Bytes(s))
  }

  /**
   * `unquote_to_bytes(s)`: `%XY` with two hex digits becomes that byte, every
   * other character stands for its own UTF-8 encoding.
   */
  function UnquoteToBytes(s: string): seq<Byte> {
    if s == [] then []
    else if s[0] == '%' && |s| >= 3 && IsHexDigit(s[1]) && IsHexDigit(s[2]) then
      [HexValue(s[1]) * 16 + HexValue(s[2])] + UnquoteToBytes(s[3..])
    else
      Utf8(s[0]) + UnquoteToBytes(s[1..])
  }

  lemma UnquoteQuoteByte(b: Byte, rest: string)
    ensures UnquoteToBytes(QuoteByte(b) + rest) == [b] + UnquoteToBytes(rest)
  {
    var q := QuoteByte(b);
    if IsSafeByte(b) {
      assert (q + rest)[1..] == rest;
    } else {
      assert (q + rest)[3..] == rest;
    }
  }

  lemma {:induction false} UnquoteQuoteBytes(bs: seq<Byte>)
    ensures UnquoteToBytes(QuoteBytes(bs)) == bs
  {
    if bs != [] {
      UnquoteQuoteByte(bs[0], QuoteBytes(bs[1..]));
      UnquoteQuoteBytes(bs[1..]);
    }
  }

  /** Quoting loses nothing: unquoting gives back the UTF-8 bytes of the input. */
  lemma UnquoteQuote(s: string)
    ensures UnquoteToBytes(Quote(s)) == Utf8Bytes(s)
  {
    UnquoteQuoteBytes(Utf8Bytes(s));
  }

  /** A text made only of safe characters is left as it is. */
  lemma {:induction false} QuoteSafeIdentity(s: string)
    requires forall i :: 0 <= i < |s| ==> IsSafeChar(s[i])
    ensures Quote(s) == s
  {
    if s != [] {
      QuoteSafeIdentity(s[1..]);
      assert Utf8Bytes(s) == [s[0] as int] + Utf8Bytes(s[1..]);
      assert QuoteBytes(Utf8Bytes(s)) == QuoteByte(s[0] as int) + QuoteBytes(Utf8Bytes(s[1..])) by {
        assert Utf8Bytes(s)[1..] == Utf8Bytes(s[1..]);
      }
    }
  }
}
