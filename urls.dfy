/**
 * The URLs the crawler requests: the keyword search (main.py:118-120), its paging
 * suffix (also used for a promotion's item search, main.py:180-182), the per-item
 * promotion lookup (main.py:219) and a promotion's activity search (main.py:227).
 */
module Urls {
  import opened Text
  import opened Seqs

  /** The characters `urllib.parse.quote_plus` never escapes. */
  predicate IsUnreserved(c: char) {
    ('A' <= c <= 'Z') || ('a' <= c <= 'z') || ('0' <= c <= '9') || c == '_' || c == '.' || c == '-' || c == '~'
  }

  /** The characters that can appear in the output of `quote_plus`. */
  predicate IsQuotedChar(c: char) {
    IsUnreserved(c) || c == '+' || c == '%'
  }

  /** The UTF-8 encoding of one character, as byte values. */
  function Utf8(c: char): (bytes: seq<nat>)
    ensures 1 <= |bytes| <= 4
    ensures forall k :: 0 <= k < |bytes| ==> bytes[k] < 256
  {
    var cp := c as int;
    if cp < 0x80 then [cp]
    else if cp < 0x800 then [0xC0 + cp / 0x40, 0x80 + cp % 0x40]
    else if cp < 0x1_0000 then [0xE0 + cp / 0x1000, 0x80 + (cp / 0x40) % 0x40, 0x80 + cp % 0x40]
    else [0xF0 + cp / 0x4_0000, 0x80 + (cp / 0x1000) % 0x40, 0x80 + (cp / 0x40) % 0x40, 0x80 + cp % 0x40]
  }

  /** `%XX` with upper-case hexadecimal digits, for each byte. */
  function PercentEncode(bytes: seq<nat>): (r: string)
    requires forall k :: 0 <= k < |bytes| ==> bytes[k] < 256
    ensures |r| == 3 * |bytes|
    ensures forall k :: 0 <= k < |r| ==> IsQuotedChar(r[k])
  {
    if bytes == [] then []
    else ['%', "0123456789ABCDEF"[bytes[0] / 16], "0123456789ABCDEF"[bytes[0] % 16]] + PercentEncode(bytes[1..])
  }

  function QuoteChar(c: char): string {
    if IsUnreserved(c) then [c]
    else if c == ' ' then "+"
    else PercentEncode(Utf8(c))
  }

  /**
   * `urllib.parse.quote_plus(s)`: unreserved characters stay, a space becomes `+`,
   * every other character becomes the `%XX` escapes of its UTF-8 bytes. The result
   * holds no `&`, `=` or `#`, so a keyword cannot add query parameters to a URL.
   */
  function QuotePlus(s: string): (r: string)
    ensures forall k :: 0 <= k < |r| ==> IsQuotedChar(r[k])
  {
    if s == [] then [] else QuoteChar(s[0]) + QuotePlus(s[1..])
  }

  /** Text made only of unreserved characters is passed through unchanged. */
  lemma {:induction false} QuotePlusKeepsUnreserved(s: string)
    requires forall k :: 0 <= k < |s| ==> IsUnreserved(s[k])
    ensures QuotePlus(s) == s
  {
    if s != [] {
      QuotePlusKeepsUnreserved(s[1..]);
      assert [s[0]] + s[1..] == s;
    }
  }

  /** A space is encoded as `+` (and a `+` in the keyword as `%2B`). */
  lemma QuotePlusSpace()
    ensures QuotePlus(" ") == "+"
    ensures QuotePlus("+") == "%2B"
  {
    assert QuotePlus("+") == QuoteChar('+') + QuotePlus("");
    assert Utf8('+') == [43];
  }

  /**
   * The paging suffix of a search URL: nothing for the first page; for page `page > 1`,
   * `&s=` followed by one more than the number of items already seen, then `&page=`
   * followed by the page number.
   */
  function PageSuffix(page: nat, offset: nat): string {
    if page > 1 then "&" + ("s=" + NatToDecimal(offset + 1)) + "&" + ("page=" + NatToDecimal(page)) else ""
  }

  const SEARCH_PREFIX := "https://search.jd.com/Search?keyword="

  /** The output of `quote_plus` holds no `&`. */
  lemma QuotedHasNoAmpersand(s: string)
    ensures '&' !in QuotePlus(s)
  {
    var quoted := QuotePlus(s);
    assert forall k :: 0 <= k < |quoted| ==> quoted[k] != '&';
  }

  lemma PrefixHasNoAmpersand()
    ensures '&' !in SEARCH_PREFIX
  {
  }

  /** The first-page search URL for `keyword`; it holds no `&`. */
  function SearchBase(keyword: string): (base: string)
    ensures '&' !in base
  {
    QuotedHasNoAmpersand(keyword);
    PrefixHasNoAmpersand();
    SEARCH_PREFIX + QuotePlus(keyword)
  }

  /** The URL of page `page` of the search for `keyword`, `offset` items having been seen. */
  function SearchUrl(keyword: string, page: nat, offset: nat): string {
    SearchBase(keyword) + PageSuffix(page, offset)
  }

  /** A field made of `name` and a number printed in decimal holds no `&`. */
  lemma NumberFieldHasNoAmpersand(name: string, n: nat)
    requires '&' !in name
    ensures '&' !in name + NatToDecimal(n)
  {
    var digits := NatToDecimal(n);
    assert forall k :: 0 <= k < |digits| ==> digits[k] != '&';
  }

  /** Two `&`-free fields after an `&`-free text, all joined by `&`, split back into the three. */
  lemma ThreeFields(base: string, x: string, y: string)
    requires '&' !in base && '&' !in x && '&' !in y
    ensures Split(base + ("&" + x + "&" + y), '&') == [base, x, y]
  {
    assert "&" + x + "&" + y == ['&'] + (x + ['&'] + y);
    AppendAssoc(base, ['&'], x + ['&'] + y);
    SplitAfterPiece(base, x + ['&'] + y, '&');
    SplitAfterPiece(x, y, '&');
    SplitWithoutSeparator(y, '&');
  }

  /**
   * The `&`-separated fields of a search URL are the keyword query alone on the first
   * page, and on a later page the keyword query, `s=` with one more than the offset and
   * `page=` with the page number: the suffix never runs into the keyword.
   */
  lemma SearchUrlFields(keyword: string, page: nat, offset: nat)
    ensures page <= 1 ==> Split(SearchUrl(keyword, page, offset), '&') == [SearchBase(keyword)]
    ensures page > 1 ==> Split(SearchUrl(keyword, page, offset), '&')
                         == [SearchBase(keyword), "s=" + NatToDecimal(offset + 1), "page=" + NatToDecimal(page)]
  {
    var base := SearchBase(keyword);
    if page <= 1 {
      assert SearchUrl(keyword, page, offset) == base;
      SplitWithoutSeparator(base, '&');
    } else {
      NumberFieldHasNoAmpersand("s=", offset + 1);
      NumberFieldHasNoAmpersand("page=", page);
      ThreeFields(base, "s=" + NatToDecimal(offset + 1), "page=" + NatToDecimal(page));
    }
  }

  /** The promotion-lookup URL for an item of a shop (main.py:219). */
  function PromotionLookupUrl(skuId: string, shopId: string): string {
    "https://item-soa.jd.com/getWareBusiness?skuId=" + skuId + "&shopId=" + shopId + "&venderId=" + shopId + "&num=1"
  }

  /** The search for the items of a promotion (main.py:227). */
  function ActivityUrl(promoId: string): string {
    "https://search.jd.com/Search?activity_id=" + promoId
  }
}
