/** The per-side classifier and aggregator: files every order of one side of a
    book into its band, and summarises each non-empty band by a representative
    price and the total notional, sorted by price: ascending for asks,
    descending for bids. */
module Aggregation {
  import opened Wrappers
  import opened Sums
  import opened Bands

  /** Which side of the book is aggregated (the source's `is_asks` flag). */
  datatype Side = Asks | Bids

  /** One book level: a price and a quantity in base-asset units. */
  datatype Order = Order(price: real, quantity: real)

  /** An order as filed in its band: its price and its notional
      `price * quantity` in quote currency. */
  datatype Filed = Filed(price: real, usd: real)

  /** One emitted band: representative price, total notional, band. */
  datatype Summary = Summary(price: real, notional: real, band: Label)

  function File(o: Order): Filed
  {
    Filed(o.price, o.quantity * o.price)
  }

  function UsdOf(f: Filed): real
  {
    f.usd
  }

  /** The orders filed in band `l`, in input order. */
  function Band(orders: seq<Order>, reference: real, l: Label): (b: seq<Filed>)
    requires reference != 0.0
    ensures |b| <= |orders|
    ensures forall i :: 0 <= i < |b| ==> Classify(b[i].price, reference) == Some(l)
  {
    if orders == [] then []
    else
      var o := orders[|orders| - 1];
      Band(orders[..|orders| - 1], reference, l) + Filing(o, reference, l)
  }

  /** What one order adds to band `l`: its filed form, or nothing. */
  function Filing(o: Order, reference: real, l: Label): seq<Filed>
    requires reference != 0.0
  {
    if Classify(o.price, reference) == Some(l) then [File(o)] else []
  }

  lemma BandSnoc(orders: seq<Order>, o: Order, reference: real, l: Label)
    requires reference != 0.0
    ensures Band(orders + [o], reference, l) == Band(orders, reference, l) + Filing(o, reference, l)
  {
  }

  lemma BandPrefix(orders: seq<Order>, i: nat, reference: real, l: Label)
    requires reference != 0.0 && i < |orders|
    ensures Band(orders[..i + 1], reference, l) == Band(orders[..i], reference, l) + Filing(orders[i], reference, l)
  {
    assert orders[..i + 1][..i] == orders[..i];
  }

  /** `x` comes strictly before `y` in this side's price order: lower for
      asks, higher for bids. */
  predicate PrecedesOnSide(side: Side, x: real, y: real)
  {
    if side == Asks then x < y else x > y
  }

  /** The representative price of a band: its minimum price for asks, its
      maximum price for bids. */
  function Rep(side: Side, band: seq<Filed>): (p: real)
    requires band != []
    ensures exists i :: 0 <= i < |band| && band[i].price == p
    ensures forall i :: 0 <= i < |band| ==> !PrecedesOnSide(side, band[i].price, p)
  {
    if |band| == 1 then band[0].price
    else
      var best := Rep(side, band[..|band| - 1]);
      var last := band[|band| - 1].price;
      if PrecedesOnSide(side, last, best) then last else best
  }

  /** Total notional of a band. */
  function Notional(band: seq<Filed>): real
  {
    Sum(band, UsdOf)
  }

  /** The summary of band `l`: none when no order was filed there. */
  function BandSummary(orders: seq<Order>, reference: real, side: Side, l: Label): seq<Summary>
    requires reference != 0.0
  {
    var b := Band(orders, reference, l);
    if b == [] then [] else [Summary(Rep(side, b), Notional(b), l)]
  }

  /** The summaries of the first `k` bands of `Labels`, in band order. */
  function Emitted(orders: seq<Order>, reference: real, side: Side, k: nat): seq<Summary>
    requires reference != 0.0 && k <= |Labels|
  {
    if k == 0 then []
    else Emitted(orders, reference, side, k - 1) + BandSummary(orders, reference, side, Labels[k - 1])
  }

  lemma EmittedStep(orders: seq<Order>, reference: real, side: Side, k: nat, level: seq<Filed>)
    requires reference != 0.0 && k < |Labels|
    requires level == Band(orders, reference, Labels[k])
    ensures Emitted(orders, reference, side, k + 1)
         == Emitted(orders, reference, side, k)
          + (if level == [] then [] else [Summary(Rep(side, level), Notional(level), Labels[k])])
  {
  }

  /** Summaries in this side's price order, non-strictly: ascending for asks,
      descending for bids. */
  predicate Ordered(side: Side, s: seq<Summary>)
  {
    forall i, j :: 0 <= i < j < |s| ==> !PrecedesOnSide(side, s[j].price, s[i].price)
  }

  /** Summaries in this side's price order, no two prices equal. */
  predicate StrictlyOrdered(side: Side, s: seq<Summary>)
  {
    forall i, j :: 0 <= i < j < |s| ==> PrecedesOnSide(side, s[i].price, s[j].price)
  }

  predicate DistinctPrices(s: seq<Summary>)
  {
    forall i, j :: 0 <= i < j < |s| ==> s[i].price != s[j].price
  }

  /** Inserts `x` after every element that is not farther out than it. */
  function Insert(side: Side, x: Summary, s: seq<Summary>): (r: seq<Summary>)
    ensures multiset(r) == multiset(s) + multiset{x}
  {
    if s == [] then [x]
    else if PrecedesOnSide(side, x.price, s[0].price) then [x] + s
    else
      assert s == [s[0]] + s[1..];
      [s[0]] + Insert(side, x, s[1..])
  }

  /** Stable sort by price: ascending for asks, descending for bids. */
  function SortByPrice(side: Side, s: seq<Summary>): (r: seq<Summary>)
    ensures multiset(r) == multiset(s)
  {
    if s == [] then []
    else
      assert s == s[..|s| - 1] + [s[|s| - 1]];
      Insert(side, s[|s| - 1], SortByPrice(side, s[..|s| - 1]))
  }

  /** The aggregated side of one venue's book. */
  function Aggregate(orders: seq<Order>, reference: real, side: Side): seq<Summary>
    requires reference != 0.0
  {
    SortByPrice(side, Emitted(orders, reference, side, |Labels|))
  }

  /** How the bands grow when order `i` is filed, by its distance `d`. */
  lemma FileStep(orders: seq<Order>, i: nat, reference: real, d: real, f: Filed)
    requires reference != 0.0 && i < |orders|
    requires d == DistancePercent(orders[i].price, reference)
    requires f == Filed(orders[i].price, orders[i].quantity * orders[i].price)
    ensures Band(orders[..i + 1], reference, Band1)
         == Band(orders[..i], reference, Band1) + (if d <= 0.5 then [f] else [])
    ensures Band(orders[..i + 1], reference, Band2)
         == Band(orders[..i], reference, Band2) + (if 0.5 < d <= 1.5 then [f] else [])
    ensures Band(orders[..i + 1], reference, Band3)
         == Band(orders[..i], reference, Band3) + (if 1.5 < d <= 3.0 then [f] else [])
  {
    assert File(orders[i]) == f;
    BandPrefix(orders, i, reference, Band1);
    BandPrefix(orders, i, reference, Band2);
    BandPrefix(orders, i, reference, Band3);
  }

  /** The filing loop: every order, in input order, joins the first band
      whose bound its distance does not exceed; orders beyond the last
      bound are dropped. */
  method FileOrders(orders: seq<Order>, currentPrice: real)
    returns (level1: seq<Filed>, level2: seq<Filed>, level3: seq<Filed>)
    requires currentPrice != 0.0
    ensures level1 == Band(orders, currentPrice, Band1)
    ensures level2 == Band(orders, currentPrice, Band2)
    ensures level3 == Band(orders, currentPrice, Band3)
  {
    level1, level2, level3 := [], [], [];
    for i := 0 to |orders|
      invariant level1 == Band(orders[..i], currentPrice, Band1)
      invariant level2 == Band(orders[..i], currentPrice, Band2)
      invariant level3 == Band(orders[..i], currentPrice, Band3)
    {
      var price, quantity := orders[i].price, orders[i].quantity;
      var quantityUsd := quantity * price;
      var diffPercent := DistancePercent(price, currentPrice);
      FileStep(orders, i, currentPrice, diffPercent, Filed(price, quantityUsd));
      if diffPercent <= 0.5 {
        level1 := level1 + [Filed(price, quantityUsd)];
      } else if diffPercent <= 1.5 {
        level2 := level2 + [Filed(price, quantityUsd)];
      } else if diffPercent <= 3.0 {
        level3 := level3 + [Filed(price, quantityUsd)];
      }
    }
    assert orders[..|orders|] == orders;
  }

  /** `aggregate_orders_by_levels`: files the orders into three per-band lists
      in one pass, builds one summary per non-empty band in band order, then
      sorts the summaries by price. */
  method AggregateOrdersByLevels(orders: seq<Order>, currentPrice: real, side: Side)
    returns (result: seq<Summary>)
    requires currentPrice != 0.0
    ensures result == Aggregate(orders, currentPrice, side)
  {
    var level1, level2, level3 := FileOrders(orders, currentPrice);
    var levels := [level1, level2, level3];
    result := [];
    for k := 0 to |Labels|
      invariant result == Emitted(orders, currentPrice, side, k)
    {
      var level := levels[k];
      assert k == 0 || k == 1 || k == 2;
      EmittedStep(orders, currentPrice, side, k, level);
      if level != [] {
        result := result + [Summary(Rep(side, level), Notional(level), Labels[k])];
      }
    }
    result := SortByPrice(side, result);
  }

  // ---------------------------------------------------------------------
  // Sorting

  lemma {:induction false} InsertOrdered(side: Side, x: Summary, s: seq<Summary>)
    requires Ordered(side, s)
    ensures Ordered(side, Insert(side, x, s))
    decreases |s|
  {
    if s != [] && !PrecedesOnSide(side, x.price, s[0].price) {
      InsertOrdered(side, x, s[1..]);
      var r := Insert(side, x, s);
      var t := Insert(side, x, s[1..]);
      assert r == [s[0]] + t;
      forall j | 1 <= j < |r| ensures !PrecedesOnSide(side, r[j].price, r[0].price) {
        assert r[j] in multiset(t);
        assert r[j] == x || r[j] in s[1..];
      }
    }
  }

  lemma {:induction false} InsertStrictlyOrdered(side: Side, x: Summary, s: seq<Summary>)
    requires StrictlyOrdered(side, s)
    requires forall i :: 0 <= i < |s| ==> s[i].price != x.price
    ensures StrictlyOrdered(side, Insert(side, x, s))
    decreases |s|
  {
    if s != [] && !PrecedesOnSide(side, x.price, s[0].price) {
      InsertStrictlyOrdered(side, x, s[1..]);
      var r := Insert(side, x, s);
      var t := Insert(side, x, s[1..]);
      assert r == [s[0]] + t;
      forall j | 1 <= j < |r| ensures PrecedesOnSide(side, r[0].price, r[j].price) {
        assert r[j] in multiset(t);
        assert r[j] == x || r[j] in s[1..];
      }
    }
  }

  /** The sort yields an ordered permutation of its input; strictly ordered
      when no two input prices are equal. */
  lemma {:induction false} SortOrdered(side: Side, s: seq<Summary>)
    ensures Ordered(side, SortByPrice(side, s))
    ensures DistinctPrices(s) ==> StrictlyOrdered(side, SortByPrice(side, s))
    decreases |s|
  {
    if s != [] {
      var n := |s| - 1;
      var t := SortByPrice(side, s[..n]);
      SortOrdered(side, s[..n]);
      InsertOrdered(side, s[n], t);
      if DistinctPrices(s) {
        assert DistinctPrices(s[..n]);
        forall i | 0 <= i < |t| ensures t[i].price != s[n].price {
          assert t[i] in multiset(s[..n]);
          var j :| 0 <= j < n && s[..n][j] == t[i];
        }
        InsertStrictlyOrdered(side, s[n], t);
      }
    }
  }

  // ---------------------------------------------------------------------
  // Bands

  lemma {:induction false} BandAppend(a: seq<Order>, b: seq<Order>, reference: real, l: Label)
    requires reference != 0.0
    ensures Band(a + b, reference, l) == Band(a, reference, l) + Band(b, reference, l)
    decreases |b|
  {
    if b == [] {
      assert a + b == a;
    } else {
      var n := |b| - 1;
      assert a + b == (a + b[..n]) + [b[n]];
      assert b == b[..n] + [b[n]];
      BandSnoc(a + b[..n], b[n], reference, l);
      BandSnoc(b[..n], b[n], reference, l);
      BandAppend(a, b[..n], reference, l);
    }
  }

  /** A band holds exactly the filed forms of the orders classified into it. */
  lemma {:induction false} BandMembers(orders: seq<Order>, reference: real, l: Label, f: Filed)
    requires reference != 0.0
    ensures f in Band(orders, reference, l)
        <==> exists o :: o in orders && Classify(o.price, reference) == Some(l) && File(o) == f
    decreases |orders|
  {
    if orders != [] {
      var n := |orders| - 1;
      assert orders == orders[..n] + [orders[n]];
      BandMembers(orders[..n], reference, l, f);
      BandSnoc(orders[..n], orders[n], reference, l);
      if f in Band(orders, reference, l) && f !in Band(orders[..n], reference, l) {
        assert File(orders[n]) == f;
      }
    }
  }

  /** The notional an order adds to band `l`: price times quantity when it
      is classified there, nothing otherwise. */
  function UsdIn(reference: real, l: Label, o: Order): real
    requires reference != 0.0
  {
    if Classify(o.price, reference) == Some(l) then o.quantity * o.price else 0.0
  }

  /** A band's notional is price times quantity summed over the orders of
      the whole side that are classified into it (`w` is that weight). */
  lemma {:induction false} BandNotional(orders: seq<Order>, reference: real, l: Label, w: Order -> real)
    requires reference != 0.0
    requires forall o :: w(o) == UsdIn(reference, l, o)
    ensures Notional(Band(orders, reference, l)) == Sum(orders, w)
    decreases |orders|
  {
    if orders != [] {
      var n := |orders| - 1;
      var prefix, last := orders[..n], orders[n];
      BandNotional(prefix, reference, l, w);
      BandPrefix(orders, n, reference, l);
      assert orders[..n + 1] == orders;
      var f := Filing(last, reference, l);
      SumAppend(Band(prefix, reference, l), f, UsdOf);
      if f != [] {
        assert f[..0] == [];
        assert Sum(f, UsdOf) == UsdOf(f[0]);
      }
      assert Sum(f, UsdOf) == w(last);
    }
  }

  /** Every order lands in exactly one band, the one `Classify` names, or in
      none when it is farther than the last bound. */
  lemma ExactlyOneBand(orders: seq<Order>, reference: real, o: Order)
    requires reference != 0.0 && o in orders
    ensures forall l :: File(o) in Band(orders, reference, l) <==> Classify(o.price, reference) == Some(l)
  {
    forall l ensures File(o) in Band(orders, reference, l) <==> Classify(o.price, reference) == Some(l) {
      BandMembers(orders, reference, l, File(o));
    }
  }

  lemma BandWithout(b: seq<Order>, i: nat, reference: real, l: Label)
    requires reference != 0.0 && i < |b|
    ensures multiset(Band(b, reference, l))
         == multiset(Band(Without(b, i), reference, l)) + multiset(Filing(b[i], reference, l))
  {
    var left, right := b[..i], b[i + 1..];
    assert b == left + [b[i]] + right;
    assert Without(b, i) == left + right;
    BandAppend(left + [b[i]], right, reference, l);
    BandSnoc(left, b[i], reference, l);
    BandAppend(left, right, reference, l);
  }

  /** A band's multiset of filed orders depends only on the multiset of orders. */
  lemma {:induction false} BandPermutation(a: seq<Order>, b: seq<Order>, reference: real, l: Label)
    requires reference != 0.0 && multiset(a) == multiset(b)
    ensures multiset(Band(a, reference, l)) == multiset(Band(b, reference, l))
    decreases |a|
  {
    if a == [] {
      assert |multiset(b)| == 0;
    } else {
      var n := |a| - 1;
      assert a[n] in multiset(b);
      var i :| 0 <= i < |b| && b[i] == a[n];
      assert a == a[..n] + [a[n]];
      assert multiset(a[..n]) + multiset{a[n]} == multiset(Without(b, i)) + multiset{a[n]};
      MultisetCancel(multiset(a[..n]), multiset(Without(b, i)), a[n]);
      BandPermutation(a[..n], Without(b, i), reference, l);
      BandSnoc(a[..n], a[n], reference, l);
      BandWithout(b, i, reference, l);
    }
  }

  /** The representative price depends only on the multiset of a band. */
  lemma RepPermutation(side: Side, a: seq<Filed>, b: seq<Filed>)
    requires a != [] && multiset(a) == multiset(b)
    ensures b != [] && Rep(side, a) == Rep(side, b)
  {
    assert a[0] in multiset(b);
    var p, q := Rep(side, a), Rep(side, b);
    var i :| 0 <= i < |a| && a[i].price == p;
    var j :| 0 <= j < |b| && b[j].price == q;
    assert a[i] in multiset(b);
    assert b[j] in multiset(a);
  }

  // ---------------------------------------------------------------------
  // The aggregated side

  /** `e` truthfully summarises its band: the band is non-empty, `e.price` is
      its representative price and `e.notional` its total notional. */
  predicate Describes(orders: seq<Order>, reference: real, side: Side, e: Summary)
    requires reference != 0.0
  {
    var b := Band(orders, reference, e.band);
    b != [] && e.price == Rep(side, b) && e.notional == Notional(b)
  }

  /** Band `l` received at least one order. */
  predicate Occupied(orders: seq<Order>, reference: real, l: Label)
    requires reference != 0.0
  {
    Band(orders, reference, l) != []
  }

  /** The summary of band `l` holds exactly the summary describing band `l`. */
  lemma BandSummaryMembers(orders: seq<Order>, reference: real, side: Side, l: Label, x: Summary)
    requires reference != 0.0
    ensures |BandSummary(orders, reference, side, l)| <= 1
    ensures x in BandSummary(orders, reference, side, l) <==> x.band == l && Describes(orders, reference, side, x)
  {
  }

  /** The loop over the bands emits their summaries in band order. */
  lemma EmittedParts(orders: seq<Order>, reference: real, side: Side)
    requires reference != 0.0
    ensures Emitted(orders, reference, side, |Labels|)
         == BandSummary(orders, reference, side, Band1)
          + BandSummary(orders, reference, side, Band2)
          + BandSummary(orders, reference, side, Band3)
  {
    assert Emitted(orders, reference, side, 1) == BandSummary(orders, reference, side, Band1);
    assert Emitted(orders, reference, side, 2)
        == Emitted(orders, reference, side, 1) + BandSummary(orders, reference, side, Band2);
    assert Emitted(orders, reference, side, 3)
        == Emitted(orders, reference, side, 2) + BandSummary(orders, reference, side, Band3);
  }

  /** Three at-most-singleton sequences, each carrying only its own band,
      concatenate to a sequence with no band twice. */
  lemma ThreeParts(s1: seq<Summary>, s2: seq<Summary>, s3: seq<Summary>)
    requires |s1| <= 1 && |s2| <= 1 && |s3| <= 1
    requires s1 != [] ==> s1[0].band == Band1
    requires s2 != [] ==> s2[0].band == Band2
    requires s3 != [] ==> s3[0].band == Band3
    ensures var e := s1 + s2 + s3;
      |e| <= |Labels| && forall i, j :: 0 <= i < j < |e| ==> e[i].band != e[j].band
  {
  }

  /** Before sorting, the emitted summaries are exactly those describing
      their bands, and no band is emitted twice. */
  lemma EmittedShape(orders: seq<Order>, reference: real, side: Side)
    requires reference != 0.0
    ensures var e := Emitted(orders, reference, side, |Labels|);
      |e| <= |Labels|
      && (forall x :: x in e <==> Describes(orders, reference, side, x))
      && (forall i, j :: 0 <= i < j < |e| ==> e[i].band != e[j].band)
  {
    var s1 := BandSummary(orders, reference, side, Band1);
    var s2 := BandSummary(orders, reference, side, Band2);
    var s3 := BandSummary(orders, reference, side, Band3);
    EmittedParts(orders, reference, side);
    forall x ensures x in s1 + s2 + s3 <==> Describes(orders, reference, side, x) {
      BandSummaryMembers(orders, reference, side, Band1, x);
      BandSummaryMembers(orders, reference, side, Band2, x);
      BandSummaryMembers(orders, reference, side, Band3, x);
    }
    BandSummaryMembers(orders, reference, side, Band1, Summary(0.0, 0.0, Band1));
    BandSummaryMembers(orders, reference, side, Band2, Summary(0.0, 0.0, Band2));
    BandSummaryMembers(orders, reference, side, Band3, Summary(0.0, 0.0, Band3));
    assert s1 != [] ==> s1[0] in s1;
    assert s2 != [] ==> s2[0] in s2;
    assert s3 != [] ==> s3[0] in s3;
    ThreeParts(s1, s2, s3);
  }

  /** The representative price of a band is itself classified into that band. */
  lemma RepInBand(orders: seq<Order>, reference: real, side: Side, e: Summary)
    requires reference != 0.0 && Describes(orders, reference, side, e)
    ensures Classify(e.price, reference) == Some(e.band)
  {
  }

  /** The summary that describes band `l`, once the band is occupied. */
  function SummaryOf(orders: seq<Order>, reference: real, side: Side, l: Label): (e: Summary)
    requires reference != 0.0 && Occupied(orders, reference, l)
    ensures e.band == l && Describes(orders, reference, side, e)
  {
    var b := Band(orders, reference, l);
    Summary(Rep(side, b), Notional(b), l)
  }

  /** What the aggregated side holds: exactly the summaries that describe
      their bands (so one for every occupied band and none for an empty one),
      at most one per band. */
  lemma AggregateContents(orders: seq<Order>, reference: real, side: Side)
    requires reference != 0.0
    ensures var r := Aggregate(orders, reference, side);
      |r| <= |Labels|
      && (forall x :: x in r <==> Describes(orders, reference, side, x))
      && (forall l :: Occupied(orders, reference, l) ==> SummaryOf(orders, reference, side, l) in r)
      && (forall x :: x in r ==> Occupied(orders, reference, x.band))
  {
    var e := Emitted(orders, reference, side, |Labels|);
    var r := Aggregate(orders, reference, side);
    EmittedShape(orders, reference, side);
    assert multiset(r) == multiset(e);
    assert |r| == |multiset(r)| == |multiset(e)| == |e|;
    forall x ensures x in r <==> x in e {
      assert x in r <==> x in multiset(r);
      assert x in e <==> x in multiset(e);
    }
  }

  /** The aggregated side is strictly ordered by price (ascending for asks,
      descending for bids), and no band appears
      twice. */
  lemma AggregateOrdered(orders: seq<Order>, reference: real, side: Side)
    requires reference != 0.0
    ensures var r := Aggregate(orders, reference, side);
      StrictlyOrdered(side, r)
      && (forall i, j :: 0 <= i < j < |r| ==> r[i].band != r[j].band)
  {
    var e := Emitted(orders, reference, side, |Labels|);
    var r := Aggregate(orders, reference, side);
    EmittedShape(orders, reference, side);
    forall i, j | 0 <= i < j < |e| ensures e[i].price != e[j].price {
      assert e[i] in e && e[j] in e;
      RepInBand(orders, reference, side, e[i]);
      RepInBand(orders, reference, side, e[j]);
    }
    SortOrdered(side, e);
    AggregateContents(orders, reference, side);
    forall i, j | 0 <= i < j < |r| ensures r[i].band != r[j].band {
      assert r[i] in r && r[j] in r;
    }
  }

  /** An empty side yields no summaries. */
  lemma AggregateEmpty(reference: real, side: Side)
    requires reference != 0.0
    ensures Aggregate([], reference, side) == []
  {
    EmittedParts([], reference, side);
  }

  /** Every order of a band, whatever its quantity (zero included), bounds
      the band's representative price: it is not lower for asks, not higher
      for bids. */
  lemma OrderBoundsRep(orders: seq<Order>, reference: real, side: Side, o: Order)
    requires reference != 0.0 && o in orders && Classify(o.price, reference).Some?
    ensures var r := Aggregate(orders, reference, side);
      exists i :: 0 <= i < |r| && r[i].band == Classify(o.price, reference).value
        && !PrecedesOnSide(side, o.price, r[i].price)
  {
    var l := Classify(o.price, reference).value;
    var r := Aggregate(orders, reference, side);
    ExactlyOneBand(orders, reference, o);
    var b := Band(orders, reference, l);
    assert File(o) in b;
    AggregateContents(orders, reference, side);
    assert Occupied(orders, reference, l);
    var x := SummaryOf(orders, reference, side, l);
    var i :| 0 <= i < |r| && r[i] == x;
    var k :| 0 <= k < |b| && b[k] == File(o);
  }

  /** Permuting the orders does not change the aggregated side. */
  lemma AggregatePermutation(a: seq<Order>, b: seq<Order>, reference: real, side: Side)
    requires reference != 0.0 && multiset(a) == multiset(b)
    ensures Aggregate(a, reference, side) == Aggregate(b, reference, side)
  {
    forall l ensures BandSummary(a, reference, side, l) == BandSummary(b, reference, side, l) {
      BandPermutation(a, b, reference, l);
      var ba, bb := Band(a, reference, l), Band(b, reference, l);
      if ba != [] {
        RepPermutation(side, ba, bb);
        SumPermutation(ba, bb, UsdOf);
      } else {
        assert |multiset(bb)| == 0;
      }
    }
    SameSummariesSameAggregate(a, b, reference, side);
  }

  lemma SameSummariesSameAggregate(a: seq<Order>, b: seq<Order>, reference: real, side: Side)
    requires reference != 0.0
    requires forall l :: BandSummary(a, reference, side, l) == BandSummary(b, reference, side, l)
    ensures Aggregate(a, reference, side) == Aggregate(b, reference, side)
  {
    EmittedParts(a, reference, side);
    EmittedParts(b, reference, side);
  }

  /** An order farther than the last bound contributes nothing, wherever it
      stands in the input. */
  lemma FarOrderIgnored(a: seq<Order>, b: seq<Order>, o: Order, reference: real, side: Side)
    requires reference != 0.0 && DistancePercent(o.price, reference) > Bound(Band3)
    ensures Aggregate(a + [o] + b, reference, side) == Aggregate(a + b, reference, side)
  {
    forall l ensures BandSummary(a + [o] + b, reference, side, l) == BandSummary(a + b, reference, side, l) {
      BandAppend(a + [o], b, reference, l);
      BandSnoc(a, o, reference, l);
      BandAppend(a, b, reference, l);
      assert Filing(o, reference, l) == [];
      assert Band(a + [o] + b, reference, l) == Band(a + b, reference, l);
    }
    SameSummariesSameAggregate(a + [o] + b, a + b, reference, side);
  }
}
