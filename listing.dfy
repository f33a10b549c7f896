/**
 * Reading the items off a search-result page (main.py:232-249): the `data-sku` of each
 * goods entry, its title with newlines made spaces, and the shop id taken from the
 * `onclick` handler of its shop link, e.g. `searchlog(1,'1000281326',0,58)`.
 */
module Listing {
  import opened Wrappers
  import opened Text
  import opened Records

  /**
   * `onclick.split(",")[1].strip("'")`: the second comma-separated field without its
   * quotes; an `IndexError` when the string has no comma.
   */
  function ShopId(onclick: string): (r: Result<string, Fault>)
    ensures r.Err? <==> ',' !in onclick
    ensures r.Err? ==> r.error == NoShopToken
    ensures r.Ok? ==> ',' !in r.value && (r.value != [] ==> r.value[0] != '\'' && r.value[|r.value| - 1] != '\'')
  {
    var fields := Split(onclick, ',');
    SplitHasSeparator(onclick, ',');
    if |fields| < 2 then Err(NoShopToken) else Ok(Strip(fields[1], '\''))
  }

  /** A string splits into more than one field exactly when it holds the separator. */
  lemma {:induction false} SplitHasSeparator(s: string, sep: char)
    ensures |Split(s, sep)| >= 2 <==> sep in s
  {
    if s != [] {
      SplitHasSeparator(s[1..], sep);
      assert sep in s <==> s[0] == sep || sep in s[1..];
    }
  }

  /** Stripping the quotes around a quoted text gives the text back. */
  lemma StripQuoted(x: string, c: char)
    requires x != [] && x[0] != c && x[|x| - 1] != c
    ensures Strip([c] + x + [c], c) == x
  {
    var s := [c] + x + [c];
    assert s[1..][0] == x[0];
    assert LeadingRun(s, c) == 1;
    assert s[1..] == x + [c] && (x + [c])[..|x|] == x;
    assert TrailingRun(s[1..], c) == 1;
    assert s[1..|s| - 1] == x;
  }

  /**
   * The shop id of a `searchlog(...,'ID',...)` handler is `ID`: the text between the quotes
   * of the second argument, for any first argument and any rest.
   */
  lemma ShopIdOfSearchLog(head: string, id: string, rest: string)
    requires ',' !in head && ',' !in id
    requires id != [] && id[0] != '\'' && id[|id| - 1] != '\''
    ensures ShopId(head + [','] + (['\''] + id + ['\''] + [','] + rest)) == Ok(id)
  {
    var quoted := ['\''] + id + ['\''];
    assert ',' !in quoted;
    SplitAfterPiece(head, quoted + [','] + rest, ',');
    SplitAfterPiece(quoted, rest, ',');
    StripQuoted(id, '\'');
  }

  /**
   * One goods entry (main.py:237-248): `KeyError` without `data-sku`; skipped (`None`)
   * without `onclick`; otherwise its item.
   */
  function ParseEntry(e: Entry): (r: Result<Option<Item>, Fault>)
    ensures r.Err? <==> e.sku.None? || (e.onclick.Some? && ',' !in e.onclick.value)
    ensures r == Ok(None) <==> e.sku.Some? && e.onclick.None?
    ensures r.Ok? && r.value.Some? ==>
              var item := r.value.value;
              && item.id == e.sku.value
              && item.title == ReplaceNewlines(e.nameText) && '\n' !in item.title
              && item.shop.name == e.shopText
              && Ok(item.shop.id) == ShopId(e.onclick.value)
  {
    if e.sku.None? then Err(MissingSku)
    else
      var title := ReplaceNewlines(e.nameText);
      if e.onclick.None? then Ok(None)
      else match ShopId(e.onclick.value)
        case Err(f) => Err(f)
        case Ok(shopId) => Ok(Some(Item(e.sku.value, title, Shop(shopId, e.shopText))))
  }

  /** The items of the entries that parse, in page order. */
  function Items(goods: seq<Entry>): seq<Item> {
    if goods == [] then []
    else
      var rest := Items(goods[1..]);
      match ParseEntry(goods[0])
        case Ok(Some(item)) => [item] + rest
        case _ => rest
  }

  /** The entries of a page that carry an `onclick` handler. */
  function WithHandler(goods: seq<Entry>): seq<Entry> {
    if goods == [] then []
    else if goods[0].onclick.Some? then [goods[0]] + WithHandler(goods[1..])
    else WithHandler(goods[1..])
  }

  /**
   * On a page where every entry parses, there is one item per entry with a handler,
   * in the same order, carrying that entry's `data-sku`.
   */
  lemma {:induction false} ItemsOfHandlers(goods: seq<Entry>)
    requires forall k :: 0 <= k < |goods| ==> ParseEntry(goods[k]).Ok?
    ensures |Items(goods)| == |WithHandler(goods)|
    ensures forall k :: 0 <= k < |Items(goods)| ==>
              WithHandler(goods)[k].sku == Some(Items(goods)[k].id)
  {
    if goods != [] {
      assert ParseEntry(goods[0]).Ok?;
      ItemsOfHandlers(goods[1..]);
    }
  }

  /**
   * `_collect_items_from_search_result`: the items of the page in order, or the
   * exception of the first entry that cannot be read.
   */
  method CollectItems(goods: seq<Entry>) returns (r: Result<seq<Item>, Fault>)
    ensures r.Ok? <==> forall k :: 0 <= k < |goods| ==> ParseEntry(goods[k]).Ok?
    ensures r.Ok? ==> r.value == Items(goods)
    ensures r.Err? ==> exists k :: 0 <= k < |goods| && ParseEntry(goods[k]) == Err(r.error)
                                   && forall j :: 0 <= j < k ==> ParseEntry(goods[j]).Ok?
  {
    var lst: seq<Item> := [];
    var i := 0;
    while i < |goods|
      invariant 0 <= i <= |goods|
      invariant forall k :: 0 <= k < i ==> ParseEntry(goods[k]).Ok?
      invariant lst + Items(goods[i..]) == Items(goods)
    {
      assert goods[i..][1..] == goods[i + 1..];
      var parsed := ParseEntry(goods[i]);
      if parsed.Err? {
        return Err(parsed.error);
      }
      if parsed.value.Some? {
        lst := lst + [parsed.value.value];
      }
      i := i + 1;
    }
    r := Ok(lst);
  }
}
