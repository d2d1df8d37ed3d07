/** Worked examples of the aggregator around a reference price of 100. */
module Scenarios {
  import opened Wrappers
  import opened Sums
  import opened Bands
  import opened Aggregation

  /** A band holding a single filed order is summarised by that order alone. */
  lemma SingleSummary(orders: seq<Order>, reference: real, side: Side, l: Label, f: Filed)
    requires reference != 0.0 && Band(orders, reference, l) == [f]
    ensures BandSummary(orders, reference, side, l) == [Summary(f.price, f.usd, l)]
  {
    assert [f][..0] == [];
    assert Rep(side, [f]) == f.price;
    assert Sum([f], UsdOf) == Sum([f][..0], UsdOf) + UsdOf(f);
  }

  lemma BandOfThree(o1: Order, o2: Order, o3: Order, reference: real, l: Label)
    requires reference != 0.0
    ensures Band([o1, o2, o3], reference, l)
         == Filing(o1, reference, l) + Filing(o2, reference, l) + Filing(o3, reference, l)
  {
    var e: seq<Order> := [];
    assert e + [o1] == [o1];
    assert [o1] + [o2] == [o1, o2];
    assert [o1, o2] + [o3] == [o1, o2, o3];
    BandSnoc(e, o1, reference, l);
    BandSnoc([o1], o2, reference, l);
    BandSnoc([o1, o2], o3, reference, l);
  }

  lemma AskBands(orders: seq<Order>)
    requires orders == [Order(100.4, 2.0), Order(101.4, 1.0), Order(104.0, 5.0)]
    ensures Band(orders, 100.0, Band1) == [Filed(100.4, 200.8)]
    ensures Band(orders, 100.0, Band2) == [Filed(101.4, 101.4)]
    ensures Band(orders, 100.0, Band3) == []
  {
    assert Classify(100.4, 100.0) == Some(Band1);
    assert Classify(101.4, 100.0) == Some(Band2);
    assert Classify(104.0, 100.0) == None;
    BandOfThree(orders[0], orders[1], orders[2], 100.0, Band1);
    BandOfThree(orders[0], orders[1], orders[2], 100.0, Band2);
    BandOfThree(orders[0], orders[1], orders[2], 100.0, Band3);
  }

  lemma AskSorted(a: Summary, b: Summary)
    requires a.price < b.price
    ensures SortByPrice(Asks, [a, b]) == [a, b]
  {
  }

  /** Asks at 0.4 %, 1.4 % and 4 % above the reference: the first two form
      one band each, the last is dropped. */
  lemma AskScenario(orders: seq<Order>)
    requires orders == [Order(100.4, 2.0), Order(101.4, 1.0), Order(104.0, 5.0)]
    ensures Aggregate(orders, 100.0, Asks)
         == [Summary(100.4, 200.8, Band1), Summary(101.4, 101.4, Band2)]
  {
    AskBands(orders);
    EmittedParts(orders, 100.0, Asks);
    SingleSummary(orders, 100.0, Asks, Band1, Filed(100.4, 200.8));
    SingleSummary(orders, 100.0, Asks, Band2, Filed(101.4, 101.4));
    var s1, s2 := Summary(100.4, 200.8, Band1), Summary(101.4, 101.4, Band2);
    assert BandSummary(orders, 100.0, Asks, Band3) == [];
    assert Emitted(orders, 100.0, Asks, |Labels|) == [s1] + [s2] + [];
    assert [s1] + [s2] + [] == [s1, s2];
    AskSorted(s1, s2);
  }

  lemma BidBands(orders: seq<Order>)
    requires orders == [Order(99.6, 3.0), Order(98.6, 2.0), Order(97.5, 1.0)]
    ensures Band(orders, 100.0, Band1) == [Filed(99.6, 298.8)]
    ensures Band(orders, 100.0, Band2) == [Filed(98.6, 197.2)]
    ensures Band(orders, 100.0, Band3) == [Filed(97.5, 97.5)]
  {
    assert Classify(99.6, 100.0) == Some(Band1);
    assert Classify(98.6, 100.0) == Some(Band2);
    assert Classify(97.5, 100.0) == Some(Band3);
    BandOfThree(orders[0], orders[1], orders[2], 100.0, Band1);
    BandOfThree(orders[0], orders[1], orders[2], 100.0, Band2);
    BandOfThree(orders[0], orders[1], orders[2], 100.0, Band3);
  }

  lemma BidSorted(a: Summary, b: Summary, c: Summary)
    requires a.price > b.price > c.price
    ensures SortByPrice(Bids, [a, b, c]) == [a, b, c]
  {
    assert [a, b, c][..2] == [a, b];
    assert [a, b][..1] == [a];
    assert [a][..0] == [];
    assert SortByPrice(Bids, [a]) == [a];
    assert [a][1..] == [];
    assert Insert(Bids, b, [a]) == [a] + Insert(Bids, b, []);
    assert SortByPrice(Bids, [a, b]) == [a, b];
    assert [a, b][1..] == [b];
    assert [b][1..] == [];
    assert Insert(Bids, c, [b]) == [b] + Insert(Bids, c, []);
    assert Insert(Bids, c, [a, b]) == [a] + Insert(Bids, c, [b]);
  }

  /** Bids at 0.4 %, 1.4 % and 2.5 % below the reference: one band each,
      listed from the highest price down. */
  lemma BidScenario(orders: seq<Order>)
    requires orders == [Order(99.6, 3.0), Order(98.6, 2.0), Order(97.5, 1.0)]
    ensures Aggregate(orders, 100.0, Bids)
         == [Summary(99.6, 298.8, Band1), Summary(98.6, 197.2, Band2), Summary(97.5, 97.5, Band3)]
  {
    BidBands(orders);
    EmittedParts(orders, 100.0, Bids);
    SingleSummary(orders, 100.0, Bids, Band1, Filed(99.6, 298.8));
    SingleSummary(orders, 100.0, Bids, Band2, Filed(98.6, 197.2));
    SingleSummary(orders, 100.0, Bids, Band3, Filed(97.5, 97.5));
    var s1, s2, s3 := Summary(99.6, 298.8, Band1), Summary(98.6, 197.2, Band2), Summary(97.5, 97.5, Band3);
    assert Emitted(orders, 100.0, Bids, |Labels|) == [s1] + [s2] + [s3];
    assert [s1] + [s2] + [s3] == [s1, s2, s3];
    BidSorted(s1, s2, s3);
  }
}
