/**
 * The crawler's entities. The site's HTML pages and JSON payloads are not parsed here:
 * a response body is represented by what the crawler reads out of it.
 */
module Records {
  import opened Wrappers

  /** The shop a search result belongs to. */
  datatype Shop = Shop(id: string, name: string)

  /** A product found on a search-result page; `id` is the site's SKU. */
  datatype Item = Item(id: string, title: string, shop: Shop)

  /**
   * A promotional campaign. `items` is absent for a promotion that was not matched
   * (the source's dict then has no "items" key) and present once the carrier items
   * of a matched promotion have been collected.
   */
  datatype Promotion = Promotion(id: string, title: string, url: string, items: Option<seq<Item>>)

  /**
   * One `li.gl-item` element of a search-result page, as the DOM queries see it:
   * the `data-sku` attribute (absent when the element has none), the text of
   * `.p-name em`, the `onclick` attribute of the `.p-shop a` anchor, and that anchor's text.
   */
  datatype Entry = Entry(sku: Option<string>, nameText: string, onclick: Option<string>, shopText: string)

  /** One element of `promotion.activity` in the promotion-lookup JSON payload. */
  datatype Activity = Activity(promoId: string, value: string)

  /**
   * What the crawler reads from a response body: whether the page holds the `#formlogin`
   * element, its goods-list entries, and the promotion activities of the JSON payload
   * (absent when the body is not such a payload, where `json.loads` or a key lookup raises).
   */
  datatype Body = Body(hasLoginForm: bool, goods: seq<Entry>, activities: Option<seq<Activity>>)

  /**
   * The exceptions the crawler can meet: a request that failed ten times, so that the
   * caller reads `.text` of `None`; a goods entry without `data-sku`; an `onclick` string
   * without a second comma-separated token; a promotion payload that does not parse.
   */
  datatype Fault = NoResponse | MissingSku | NoShopToken | MalformedPayload
}
