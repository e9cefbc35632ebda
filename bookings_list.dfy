/** The bookings list: rows filtered by client name, paged, with the
    service and price columns' labels. */
module BookingsList {
  import opened Common
  import opened Services
  import Pagination

  /** One booking as the list shows it. A price is None when the record's value is not a number. */
  datatype ListedBooking = ListedBooking(
    oid: string,
    client: Ref,
    serviceCode: string,
    serviceType: string,
    fullPrice: Option<real>,
    totalFee: Option<real>,
    discountedPrice: Option<real>,
    priceCurrency: string)

  const PAGE_SIZE: nat := 10
  const NO_VALUE: string := "-"

  /** A row is kept iff the query is empty or the client's name contains it, ignoring case. */
  predicate Matches(b: ListedBooking, query: string)
  {
    query == "" || MatchesQuery(RefName(b.client), query)
  }

  function Filtered(items: seq<ListedBooking>, query: string): (r: seq<ListedBooking>)
    ensures query == "" ==> r == items
    ensures forall i :: 0 <= i < |r| ==> r[i] in items && Matches(r[i], query)
    ensures forall i :: 0 <= i < |items| && Matches(items[i], query) ==> items[i] in r
  {
    if query == "" then items else Filter(items, (b: ListedBooking) => Matches(b, query))
  }

  /** A booking without a populated client never matches a non-empty query. */
  lemma UnpopulatedClientHidden(b: ListedBooking, query: string)
    requires !b.client.Populated? && query != ""
    ensures !Matches(b, query)
  {
    ContainsNeedsRoom(Lower(RefName(b.client)), Lower(query));
  }

  /** The rows the table shows on page `page`: at most ten, each a
      booking of the list that matches the query. */
  function PageRows(items: seq<ListedBooking>, query: string, page: int): (r: seq<ListedBooking>)
    ensures |r| <= PAGE_SIZE
    ensures forall k :: 0 <= k < |r| ==> r[k] in items && Matches(r[k], query)
  {
    Pagination.PageData(Filtered(items, query), page, PAGE_SIZE)
  }

  /** The service column: the catalogue name, else the service type, else "-". */
  function ServiceLabel(cat: Catalog, b: ListedBooking): (s: string)
    ensures b.serviceCode in cat ==> s == cat[b.serviceCode].name
    ensures b.serviceCode !in cat && b.serviceType != "" ==> s == b.serviceType
    ensures b.serviceCode !in cat && b.serviceType == "" ==> s == NO_VALUE
  {
    match FindServiceByCode(cat, b.serviceCode)
    case Some(def) => def.name
    case None => if b.serviceType != "" then b.serviceType else NO_VALUE
  }

  /** The price column, before numbers are printed: a discount with its
      currency and the full price it comes from (if any), a full price with
      its currency, or "-". */
  datatype PriceLabel = Discounted(discount: real, currency: string, from: Option<real>) | Full(price: real, currency: string) | NoPrice

  /** The full price a row shows: `fullPrice`, else `totalFee`, else none. */
  function ListedFullPrice(b: ListedBooking): (p: Option<real>)
    ensures b.fullPrice.Some? ==> p == b.fullPrice
    ensures b.fullPrice.None? ==> p == b.totalFee
  {
    if b.fullPrice.Some? then b.fullPrice else b.totalFee
  }

  function PriceLabelOf(b: ListedBooking): (l: PriceLabel)
    ensures l.Discounted? <==> b.discountedPrice.Some?
    ensures l.Discounted? ==> l.discount == b.discountedPrice.value && l.from == ListedFullPrice(b)
    ensures l.Full? <==> b.discountedPrice.None? && ListedFullPrice(b).Some?
    ensures l.Full? ==> l.price == ListedFullPrice(b).value
    ensures l.NoPrice? <==> b.discountedPrice.None? && b.fullPrice.None? && b.totalFee.None?
    ensures !l.NoPrice? && b.priceCurrency != "" ==> l.currency == b.priceCurrency
    ensures !l.NoPrice? && b.priceCurrency == "" ==> l.currency == DEFAULT_CURRENCY
  {
    var full := ListedFullPrice(b);
    var currency := if b.priceCurrency != "" then b.priceCurrency else DEFAULT_CURRENCY;
    if b.discountedPrice.Some? then Discounted(b.discountedPrice.value, currency, full)
    else if full.Some? then Full(full.value, currency)
    else NoPrice
  }
}
