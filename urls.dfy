/**
 * URLs of the shopping search: the query URL built for a search term
 * (`build_url`, with `quote_plus` form encoding) and the absolutization of
 * product links against the site origin.
 */
module Urls {
  import opened Text

  const BaseUrl := "https://www.bing.com"
  const ShopUrlBase := "https://www.bing.com/shop"

  /** The characters `quote_plus` never encodes: ASCII letters, digits and `_.-~`. */
  predicate AlwaysSafe(c: char) {
    ('A' <= c <= 'Z') || ('a' <= c <= 'z') || ('0' <= c <= '9') || c == '_' || c == '.' || c == '-' || c == '~'
  }

  /** The UTF-8 encoding of one Unicode scalar value, as byte values. */
  function Utf8(c: char): (bytes: seq<int>)
    ensures 1 <= |bytes| <= 4
    ensures forall k :: 0 <= k < |bytes| ==> 0 <= bytes[k] < 256
  {
    var n := c as int;
    if n < 0x80 then [n]
    else if n < 0x800 then [0xC0 + n / 64, 0x80 + n % 64]
    else if n < 0x10000 then [0xE0 + n / 4096, 0x80 + (n / 64) % 64, 0x80 + n % 64]
    else [0xF0 + n / 262144, 0x80 + (n / 4096) % 64, 0x80 + (n / 64) % 64, 0x80 + n % 64]
  }

  /** An upper-case hexadecimal digit, as `quote` writes it. */
  function HexDigit(n: int): (c: char)
    requires 0 <= n < 16
    ensures ('0' <= c <= '9') || ('A' <= c <= 'F')
  {
    "0123456789ABCDEF"[n]
  }

  /** `%XX` for the bytes of an encoded character. */
  function PercentEncode(bytes: seq<int>): (r: string)
    requires forall k :: 0 <= k < |bytes| ==> 0 <= bytes[k] < 256
    ensures |r| == 3 * |bytes|
    ensures forall k :: 0 <= k < |r| ==> r[k] == '%' || ('0' <= r[k] <= '9') || ('A' <= r[k] <= 'F')
  {
    if bytes == [] then ""
    else ['%', HexDigit(bytes[0] / 16), HexDigit(bytes[0] % 16)] + PercentEncode(bytes[1..])
  }

  /** The characters `quote_plus` can produce: safe characters, `+`, `%` and hex digits. */
  predicate EncodedChar(c: char) {
    AlwaysSafe(c) || c == '+' || c == '%'
  }

  /** Python's urllib.parse.quote_plus(s) with its default empty `safe` set and UTF-8. */
  function QuotePlus(s: string): (r: string)
    ensures forall k :: 0 <= k < |r| ==> EncodedChar(r[k])
    ensures (forall k :: 0 <= k < |s| ==> AlwaysSafe(s[k])) ==> r == s
  {
    if s == [] then ""
    else
      var head := if AlwaysSafe(s[0]) then [s[0]] else if s[0] == ' ' then "+" else PercentEncode(Utf8(s[0]));
      head + QuotePlus(s[1..])
  }

  const QueryTail := "&cc=us&first=1"

  /**
   * `build_url`: the shopping search URL for a search term, with the query
   * parameters q (the encoded term), cc=us and first=1.
   */
  function ShopUrl(term: string): (url: string)
    ensures StartsWith(url, ShopUrlBase + "?q=")
    ensures url[|url| - |QueryTail|..] == QueryTail
  {
    ShopUrlBase + "?q=" + QuotePlus(term) + QueryTail
  }

  /**
   * Whatever the term, the URL has exactly three query parameters: its only `?`
   * ends the path and its only `&` characters are the two of the fixed tail.
   */
  lemma ShopUrlHasFixedParameters(term: string)
    ensures var url := ShopUrl(term);
      forall i :: 0 <= i < |url| ==>
        (url[i] == '?' <==> i == |ShopUrlBase|) &&
        (url[i] == '&' <==> (i == |url| - 14 || i == |url| - 8))
  {
    var e := QuotePlus(term);
    var url := ShopUrl(term);
    assert url == ShopUrlBase + "?q=" + e + QueryTail;
    forall i | 0 <= i < |url|
      ensures (url[i] == '?' <==> i == |ShopUrlBase|) && (url[i] == '&' <==> (i == |url| - 14 || i == |url| - 8))
    {
      if i < |ShopUrlBase| {
        assert url[i] == ShopUrlBase[i];
      } else if i < |ShopUrlBase| + 3 {
        assert url[i] == "?q="[i - |ShopUrlBase|];
      } else if i < |ShopUrlBase| + 3 + |e| {
        assert url[i] == e[i - |ShopUrlBase| - 3];
      } else {
        assert url[i] == QueryTail[i - |ShopUrlBase| - 3 - |e|];
      }
    }
  }

  /** The link already carries an http or https scheme (`startswith(('http://', 'https://'))`). */
  predicate HttpPrefixed(s: string) {
    StartsWith(s, "http://") || StartsWith(s, "https://")
  }

  /** A character that may occur in a URL scheme after its first letter. */
  predicate SchemeChar(c: char) {
    ('a' <= c <= 'z') || ('A' <= c <= 'Z') || ('0' <= c <= '9') || c == '+' || c == '-' || c == '.'
  }

  /** The reference starts with a scheme: an ASCII letter, scheme characters, then `:`. */
  predicate HasScheme(s: string) {
    exists i :: 0 < i < |s| && s[i] == ':' && IsSchemeName(s[..i])
  }

  /** A non-empty scheme name starting with a letter. */
  predicate IsSchemeName(name: string) {
    |name| > 0 && (('a' <= name[0] <= 'z') || ('A' <= name[0] <= 'Z')) &&
    forall k :: 0 <= k < |name| ==> SchemeChar(name[k])
  }

  /**
   * urllib.parse.urljoin(BaseUrl, ref), simplified for a base without a path:
   * an empty reference gives the base, a reference with its own scheme stands
   * as it is, a network-path reference takes the base's scheme, and any other
   * reference is appended to the base's origin.
   */
  function JoinToBase(ref: string): (r: string)
    ensures ref == "" ==> r == BaseUrl
    ensures HasScheme(ref) ==> r == ref
    ensures !HasScheme(ref) ==> HttpPrefixed(r)
  {
    if ref == "" then BaseUrl
    else if HasScheme(ref) then ref
    else if StartsWith(ref, "//") then "https:" + ref
    else if ref[0] == '/' || ref[0] == '?' || ref[0] == '#' then BaseUrl + ref
    else BaseUrl + "/" + ref
  }

  /**
   * A product link made absolute: a non-empty link without an http(s) prefix is
   * stripped and joined to the site origin; an empty or http(s) link is kept.
   */
  function Absolutize(link: string): (r: string)
    ensures HttpPrefixed(link) ==> r == link
    ensures r == "" <==> link == ""
    ensures link != "" ==> HttpPrefixed(r) || HasScheme(r)
    ensures r != "N/A"
  {
    if link != "" && !HttpPrefixed(link) then
      var j := JoinToBase(Strip(link));
      assert j != "N/A" by {
        if Strip(link) == "N/A" { assert !HasScheme("N/A"); }
      }
      j
    else link
  }

  /** Absolutizing twice is absolutizing once: an absolute link is a fixed point. */
  lemma AbsolutizeIdempotent(link: string)
    ensures Absolutize(Absolutize(link)) == Absolutize(link)
  {
    var r := Absolutize(link);
    if link != "" && !HttpPrefixed(link) && !HttpPrefixed(r) {
      var ref := Strip(link);
      assert HasScheme(ref) && r == ref;
      StripIdempotent(link);
      assert Strip(r) == r;
    }
  }

  /** The default link "N/A" is not http-prefixed, so it is joined to the origin. */
  lemma DefaultLinkIsAbsolutized()
    ensures Absolutize("N/A") == "https://www.bing.com/N/A"
  {
    var na := "N/A";
    assert !HttpPrefixed(na);
    assert !IsSpace(na[0]) && !IsSpace(na[2]);
    assert TrimStart(na) == na;
    assert TrimEnd(na) == na;
    assert forall i :: 0 <= i < |na| ==> na[i] != ':';
    assert !HasScheme(na);
    assert JoinToBase(na) == BaseUrl + "/" + na;
  }
}
