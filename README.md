# AAVE/USDT order-depth bands, modelled in Dafny

`OB_AAVE.py` takes a snapshot of AAVE/USDT liquidity on three exchanges
(Binance, OKX, Bybit). Each venue's fetcher computes a reference price as
the mid of the best bid and the best ask. It then aggregates each side of
that venue's book into three distance bands around the reference:

- 0-0.5 %;
- 0.5-1.5 %;
- 1.5-3 %.

Each band is summarised by a representative price (the lowest ask or the
highest bid in the band) and its total notional, the sum of price ×
quantity. `main` drops the venues whose fetch failed. For each side and
each band it then adds up the notional every remaining venue reports for
that band, and it adds the three band totals into a side total.

This project models that core: the price levels, the banding aggregator,
the mid price, the summarising tail of the fetchers, and the cross-venue
merge loops. It proves what the aggregator and the merge promise.

Modules, one file each:

- `Wrappers` (`wrappers.dfy`): `Option`, which stands for Python's `None`.
- `Sums` (`sums.dfy`): a sum of real weights over a sequence. It splits
  over concatenation and does not depend on the order of its terms.
- `Bands` (`bands.dfy`):
  - the three bands, their text labels and bounds;
  - `get_price_levels` (`PriceLevels`);
  - the percentage distance;
  - the first-match classification;
  - the mid price.
- `Aggregation` (`aggregation.dfy`): the aggregator.
  - Its filing loop and its summary loop are imperative methods
    (`FileOrders`, `AggregateOrdersByLevels`).
  - They are proved equal to the functional definition `Aggregate`.
    `Aggregate` files the orders per band (`Band`), summarises each
    non-empty band (`Rep`, `Notional`) and sorts stably by price
    (`SortByPrice`).
  - The properties of the aggregated side are lemmas about `Aggregate`.
- `Venue` (`venue.dfy`): what a fetcher returns once the book has been
  parsed: the mid price and both aggregated sides, or `None`.
- `Merge` (`merge.dfy`): the filter on `None` and the nested merge loops
  of `main`. They are methods proved equal to the functions `BandTotal`
  and `SideTotal`, and the lemmas about the merge are stated on those
  functions.
- `Scenarios` (`scenarios.dfy`): two worked examples around a reference
  price of 100.

Numbers are exact `real`s. A band is a `Label` (`Band1`, `Band2`, `Band3`).
The source keys bands on the strings "0-0.5%", "0.5-1.5%" and "1.5-3%".
`Bands.Name` maps labels to those strings, and `Bands.NameInjective` shows
that comparing the strings is the same as comparing labels.

In these edge cases the model follows the code:

- The code demands only that the reference price is not zero, not that it
  is positive. For a negative reference no distance is positive, so
  every order falls into the first band; the model does the same.
- The code does not reject a crossed book (best bid above best ask). A
  fetcher with a crossed book still produces a result, and so does
  `Venue.Summarize`.
- With a zero mid price and a non-empty side, the code raises
  `ZeroDivisionError`, and the fetcher's `except` turns that into `None`.
  `Venue.Summarize` returns `None` in that case too.

## Model

| member | source | states |
|---|---|---|
| Bands.PriceLevels | OB_AAVE.py:5-10 | The three levels are 0.5 %, 1.5 % and 3 % of the price: each level × 100 equals its band's bound × price. The second level is three times the first and the third twice the second. For a positive price they increase strictly from a positive first level. |
| Bands.LevelsAgreeWithBounds | OB_AAVE.py:5-14 | For a positive reference, "distance percent ≤ band bound" holds exactly when "absolute price difference ≤ that band's price level". So the levels computed on line 14 and never read describe the same bands as the percentage test. |
| Bands.DistancePercent | OB_AAVE.py:26-27 | The distance × reference equals 100 × \|price − reference\|. It is 0 for a price equal to the reference and non-negative for a positive reference. |
| Bands.Classify | OB_AAVE.py:29-34 | First match with inclusive bounds: no band exactly when the distance exceeds 3 %. Otherwise the chosen band's bound is at least the distance, and every earlier band's bound is below it. |
| Bands.ReferenceInFirstBand | OB_AAVE.py:26-30 | A price equal to the reference always lands in the 0-0.5 % band. |
| Bands.NameInjective | OB_AAVE.py:16-20 | Two bands have the same text label exactly when they are the same band. |
| Bands.MidPrice | OB_AAVE.py:67-69 | The mid price is equidistant from best bid and best ask, and lies between them when bid ≤ ask. |
| Aggregation.Band | OB_AAVE.py:22-34 | The orders filed in a band are never more than the input, and each was classified into that band. |
| Aggregation.FileOrders | OB_AAVE.py:22-34 | The filing loop leaves in each of the three lists exactly that band's filed orders (price, price × quantity), in input order. |
| Aggregation.BandMembers | OB_AAVE.py:22-34 | A filed entry is in a band exactly when some input order classified into that band files as that entry. |
| Aggregation.ExactlyOneBand | OB_AAVE.py:29-34 | Every input order is filed in exactly the band `Classify` names, or in none when it is beyond 3 %. |
| Aggregation.BandNotional | OB_AAVE.py:25-45 | A band's total notional is the sum, over the whole input side, of price × quantity for the orders classified into that band. |
| Aggregation.Rep | OB_AAVE.py:39-46 | The representative price is the price of one of the band's orders, and no order of the band precedes it in the side's price order: none lower for asks (the minimum), none higher for bids (the maximum). |
| Aggregation.SortByPrice | OB_AAVE.py:48 | Sorting keeps exactly the same entries (a permutation). |
| Aggregation.SortOrdered | OB_AAVE.py:48 | The sorted result is ascending for asks and descending for bids. It is strictly so when the prices are distinct. |
| Aggregation.AggregateOrdersByLevels | OB_AAVE.py:12-48 | The imperative aggregator (filing loop, summary loop over the bands in order, sort) returns exactly `Aggregate` of its input. |
| Aggregation.AggregateContents | OB_AAVE.py:36-46 | The result has at most 3 entries. An entry is in it exactly when it describes its band: the band is non-empty, the price is that band's representative price and the notional its total. Every occupied band has its entry, and every entry's band is occupied. |
| Aggregation.AggregateOrdered | OB_AAVE.py:36-48 | The result is strictly ascending in price for asks and strictly descending for bids, and no band appears twice. |
| Aggregation.AggregateEmpty | OB_AAVE.py:36-48 | An empty side aggregates to an empty result. |
| Aggregation.OrderBoundsRep | OB_AAVE.py:22-46 | Every order within 3 % bounds its band's representative price, whatever its quantity, zero included: the band has an entry, and the order's price is not lower (asks) or higher (bids) than that entry's price. |
| Aggregation.AggregatePermutation | OB_AAVE.py:12-48 | Any permutation of the input orders gives the same aggregated side. |
| Aggregation.FarOrderIgnored | OB_AAVE.py:29-34 | Inserting an order farther than 3 % anywhere in the input does not change the result. |
| Scenarios.AskScenario | OB_AAVE.py:12-48 | Asks 100.4×2, 101.4×1 and 104×5 around 100 give [(100.4, 200.8, 0-0.5 %), (101.4, 101.4, 0.5-1.5 %)]; the ask 4 % away is dropped. |
| Scenarios.BidScenario | OB_AAVE.py:12-48 | Bids 99.6×3, 98.6×2 and 97.5×1 around 100 give three entries, one per band, in descending price order: (99.6, 298.8), (98.6, 197.2), (97.5, 97.5). |
| Venue.Summarize | OB_AAVE.py:67-81 | A result exists exactly when both sides are non-empty and the mid price of the first bid and first ask is not zero. It then carries the venue, that mid price, and two sides whose entries are exactly the summaries describing their bands, strictly ordered. |
| Merge.ValidResults | OB_AAVE.py:181 | The kept venues are exactly the successful results, each kept as often as it occurs. |
| Merge.FirstWithBand | OB_AAVE.py:193 | The linear search finds no entry exactly when no entry carries the band. Otherwise the entry it finds carries the band and is the first that does. |
| Merge.ContributionAbsent | OB_AAVE.py:193-195 | A venue whose side has no entry with the band adds 0 to it. |
| Merge.ContributionPresent | OB_AAVE.py:193-195 | When a venue's entries carry distinct bands, its entry for a band adds exactly that entry's notional. |
| Merge.AggregateContribution | OB_AAVE.py:193-195 | For an aggregated side, the amount added to a band is the band's total notional: 0 when the band is empty. |
| Merge.MergeBand | OB_AAVE.py:190-195 | The inner loop adds exactly `BandTotal`: the sum over the venues, in order, of each venue's contribution to the band. |
| Merge.MergeSide | OB_AAVE.py:188-198 | The outer loop produces one total per band, in band order, each equal to `BandTotal`. The side total equals `SideTotal` and is the sum of the three band totals. |
| Merge.MergeReport | OB_AAVE.py:180-211 | Both sides are merged over exactly the successful results, band by band, with their side totals. |
| Merge.BandTotalAppend | OB_AAVE.py:189-197 | The band total over two groups of venues is the sum of the totals over each group. |
| Merge.BandTotalPermutation | OB_AAVE.py:189-197 | The band total is the same for any order of the venues. |
| Merge.FailedVenueIgnored | OB_AAVE.py:181 | A failed fetch (`None`) anywhere among the results changes nothing. |
| Merge.MergeOrderInsensitive | OB_AAVE.py:180-211 | Any permutation of the fetch results gives the same band totals and side totals. |
| Merge.AllFailed | OB_AAVE.py:181-211 | When every fetch failed, no venue is kept, and every band total and both side totals are 0. |

## Left out

- HTTP requests, JSON decoding and the exchange-specific extraction of the
  order arrays (OB_AAVE.py:50-66, 86-110, 130-151) are left out. The OKX
  error-code check is part of that extraction. The model starts from
  numeric orders, so parsing price and quantity strings is left out as
  well. `Venue.Summarize` models only the common tail, lines 67-81,
  112-125 and 152-166.
- The exception handlers' logging (lines 82-84, 126-128, 167-169)
  does I/O; a failed fetch is modelled purely as `None`.
- Concurrency: the `asyncio` tasks and `gather` (lines 171-180) are left
  out. The results are a sequence in any order, and
  `Merge.MergeOrderInsensitive` shows that the order does not matter.
- Printing and number formatting of the report (lines 185-213) are left
  out. The printed figures are `Merge.SideReport`.
- Floating point: prices, quantities and sums are exact reals. IEEE-754
  rounding, which could make a sum depend on the order of its terms, is
  not modelled.
- Aggregation.AggregateOrdersByLevels: requires a non-zero reference
  price. The source raises `ZeroDivisionError` on the first order when the
  reference is zero, and it returns an empty list for an empty side. In
  the program the only caller is a fetcher, and its zero-mid-price failure
  is modelled in `Venue.Summarize`.
