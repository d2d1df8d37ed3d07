/** One venue's result, as each of the three fetchers builds it once the
    order book has been parsed into numeric orders. */
module Venue {
  import opened Wrappers
  import opened Bands
  import opened Aggregation

  /** A successful fetch: the venue, its mid price and its two aggregated
      sides. */
  datatype VenueResult = VenueResult(exchange: string, price: real, asks: seq<Summary>, bids: seq<Summary>)

  /** The summarising tail shared by the fetchers: the reference price is the
      mid of the first bid and the first ask, and both sides are aggregated
      around it. A side without orders has no first price, and a zero mid
      price makes the classification of the (non-empty) ask side divide by
      zero; either error makes the fetcher report failure, `None`. */
  function Summarize(exchange: string, bids: seq<Order>, asks: seq<Order>): (r: Option<VenueResult>)
    ensures r.Some? <==> bids != [] && asks != [] && MidPrice(bids[0].price, asks[0].price) != 0.0
    ensures r.Some? ==> r.value.exchange == exchange && r.value.price == MidPrice(bids[0].price, asks[0].price)
    ensures r.Some? ==> forall x :: x in r.value.asks <==> Describes(asks, r.value.price, Asks, x)
    ensures r.Some? ==> forall x :: x in r.value.bids <==> Describes(bids, r.value.price, Bids, x)
    ensures r.Some? ==> StrictlyOrdered(Asks, r.value.asks) && StrictlyOrdered(Bids, r.value.bids)
  {
    if bids == [] || asks == [] then None
    else
      var mid := MidPrice(bids[0].price, asks[0].price);
      if mid == 0.0 then None
      else
        AggregateContents(asks, mid, Asks);
        AggregateContents(bids, mid, Bids);
        AggregateOrdered(asks, mid, Asks);
        AggregateOrdered(bids, mid, Bids);
        Some(VenueResult(exchange, mid, Aggregate(asks, mid, Asks), Aggregate(bids, mid, Bids)))
  }
}
