/** The cross-venue merge: drop the venues whose fetch failed, then, for each
    band in band order and each side, add up the notional every remaining
    venue reports for that band, and the grand total of each side. */
module Merge {
  import opened Wrappers
  import opened Sums
  import opened Bands
  import opened Aggregation
  import opened Venue

  /** The successful results, in fetch order. */
  function ValidResults(results: seq<Option<VenueResult>>): (valid: seq<VenueResult>)
    ensures forall v :: multiset(valid)[v] == multiset(results)[Some(v)]
  {
    if results == [] then []
    else
      var n := |results| - 1;
      assert results == results[..n] + [results[n]];
      ValidResults(results[..n]) + (match results[n] case Some(v) => [v] case None => [])
  }

  /** One side of a venue's result. */
  function Entries(v: VenueResult, side: Side): seq<Summary>
  {
    if side == Asks then v.asks else v.bids
  }

  /** The first entry that carries band `l`, if any. */
  function FirstWithBand(entries: seq<Summary>, l: Label): (r: Option<Summary>)
    ensures r.None? <==> forall i :: 0 <= i < |entries| ==> entries[i].band != l
    ensures r.Some? ==> r.value.band == l
    ensures r.Some? ==>
      exists i :: 0 <= i < |entries| && entries[i] == r.value && forall j :: 0 <= j < i ==> entries[j].band != l
  {
    if entries == [] then None
    else if entries[0].band == l then Some(entries[0])
    else
      FirstWithBand(entries[1..], l)
  }

  /** What one venue adds to the total of band `l`: the notional of its entry
      for that band, nothing when it has none. */
  function Contribution(entries: seq<Summary>, l: Label): real
  {
    match FirstWithBand(entries, l)
    case Some(e) => e.notional
    case None => 0.0
  }

  /** The merged notional of band `l` on one side over the given venues. */
  function BandTotal(venues: seq<VenueResult>, side: Side, l: Label): real
  {
    if venues == [] then 0.0
    else BandTotal(venues[..|venues| - 1], side, l) + Contribution(Entries(venues[|venues| - 1], side), l)
  }

  /** The merged notional of the first `k` bands on one side. */
  function BandsTotal(venues: seq<VenueResult>, side: Side, k: nat): real
    requires k <= |Labels|
  {
    if k == 0 then 0.0 else BandsTotal(venues, side, k - 1) + BandTotal(venues, side, Labels[k - 1])
  }

  /** The grand total of one side over all bands. */
  function SideTotal(venues: seq<VenueResult>, side: Side): real
  {
    BandsTotal(venues, side, |Labels|)
  }

  /** The printed figures of one side: one total per band, in band order,
      and their sum. */
  datatype SideReport = SideReport(bandTotals: seq<real>, total: real)

  /** The inner loop of the merge: the total of band `l` over the venues,
      in venue order. */
  method MergeBand(valid: seq<VenueResult>, side: Side, l: Label) returns (rangeTotal: real)
    ensures rangeTotal == BandTotal(valid, side, l)
  {
    rangeTotal := 0.0;
    for v := 0 to |valid|
      invariant rangeTotal == BandTotal(valid[..v], side, l)
    {
      assert valid[..v + 1][..v] == valid[..v];
      var matching := FirstWithBand(Entries(valid[v], side), l);
      if matching.Some? {
        rangeTotal := rangeTotal + matching.value.notional;
      }
    }
    assert valid[..|valid|] == valid;
  }

  /** The outer loop of the merge for one side: one total per band, in band
      order, and their running sum. */
  method MergeSide(valid: seq<VenueResult>, side: Side) returns (report: SideReport)
    ensures |report.bandTotals| == |Labels|
    ensures forall k :: 0 <= k < |Labels| ==> report.bandTotals[k] == BandTotal(valid, side, Labels[k])
    ensures report.total == SideTotal(valid, side)
    ensures report.total == report.bandTotals[0] + report.bandTotals[1] + report.bandTotals[2]
  {
    var rangeTotals: seq<real> := [];
    var totalAll := 0.0;
    for k := 0 to |Labels|
      invariant |rangeTotals| == k
      invariant forall j :: 0 <= j < k ==> rangeTotals[j] == BandTotal(valid, side, Labels[j])
      invariant totalAll == BandsTotal(valid, side, k)
    {
      var rangeTotal := MergeBand(valid, side, Labels[k]);
      rangeTotals := rangeTotals + [rangeTotal];
      totalAll := totalAll + rangeTotal;
    }
    assert BandsTotal(valid, side, 1) == rangeTotals[0];
    assert BandsTotal(valid, side, 2) == rangeTotals[0] + rangeTotals[1];
    report := SideReport(rangeTotals, totalAll);
  }

  /** The merge as a whole: the successful results, merged on the ask side
      and on the bid side. */
  method MergeReport(results: seq<Option<VenueResult>>) returns (asks: SideReport, bids: SideReport)
    ensures |asks.bandTotals| == |Labels| && |bids.bandTotals| == |Labels|
    ensures forall k :: 0 <= k < |Labels| ==>
      asks.bandTotals[k] == BandTotal(ValidResults(results), Asks, Labels[k])
      && bids.bandTotals[k] == BandTotal(ValidResults(results), Bids, Labels[k])
    ensures asks.total == SideTotal(ValidResults(results), Asks)
    ensures bids.total == SideTotal(ValidResults(results), Bids)
  {
    var validResults := ValidResults(results);
    asks := MergeSide(validResults, Asks);
    bids := MergeSide(validResults, Bids);
  }

  // ---------------------------------------------------------------------
  // Properties of the merge

  lemma {:induction false} ValidResultsAppend(a: seq<Option<VenueResult>>, b: seq<Option<VenueResult>>)
    ensures ValidResults(a + b) == ValidResults(a) + ValidResults(b)
    decreases |b|
  {
    if b == [] {
      assert a + b == a;
    } else {
      var n := |b| - 1;
      assert (a + b)[..|a + b| - 1] == a + b[..n];
      ValidResultsAppend(a, b[..n]);
    }
  }

  /** A failed venue contributes nothing, wherever it stands. */
  lemma FailedVenueIgnored(a: seq<Option<VenueResult>>, b: seq<Option<VenueResult>>)
    ensures ValidResults(a + [None] + b) == ValidResults(a + b)
  {
    var none: seq<Option<VenueResult>> := [None];
    assert ValidResults(none) == [] by {
      assert none[..0] == [];
    }
    ValidResultsAppend(a + none, b);
    ValidResultsAppend(a, none);
    ValidResultsAppend(a, b);
    assert ValidResults(a + none) == ValidResults(a);
  }

  lemma {:induction false} BandTotalAppend(a: seq<VenueResult>, b: seq<VenueResult>, side: Side, l: Label)
    ensures BandTotal(a + b, side, l) == BandTotal(a, side, l) + BandTotal(b, side, l)
    decreases |b|
  {
    if b == [] {
      assert a + b == a;
    } else {
      var n := |b| - 1;
      assert (a + b)[..|a + b| - 1] == a + b[..n];
      BandTotalAppend(a, b[..n], side, l);
    }
  }

  lemma {:induction false} BandTotalIsSum(venues: seq<VenueResult>, side: Side, l: Label, f: VenueResult -> real)
    requires forall v :: f(v) == Contribution(Entries(v, side), l)
    ensures BandTotal(venues, side, l) == Sum(venues, f)
    decreases |venues|
  {
    if venues != [] {
      BandTotalIsSum(venues[..|venues| - 1], side, l, f);
    }
  }

  /** The merged band total does not depend on the order of the venues. */
  lemma BandTotalPermutation(a: seq<VenueResult>, b: seq<VenueResult>, side: Side, l: Label)
    requires multiset(a) == multiset(b)
    ensures BandTotal(a, side, l) == BandTotal(b, side, l)
  {
    var f := (v: VenueResult) => Contribution(Entries(v, side), l);
    BandTotalIsSum(a, side, l, f);
    BandTotalIsSum(b, side, l, f);
    SumPermutation(a, b, f);
  }

  /** Merging does not depend on the order in which the fetches complete:
      every band total and every side total is the same for any permutation
      of the results. */
  lemma MergeOrderInsensitive(rs: seq<Option<VenueResult>>, qs: seq<Option<VenueResult>>)
    requires multiset(rs) == multiset(qs)
    ensures forall side, l :: BandTotal(ValidResults(rs), side, l) == BandTotal(ValidResults(qs), side, l)
    ensures forall side :: SideTotal(ValidResults(rs), side) == SideTotal(ValidResults(qs), side)
  {
    var a, b := ValidResults(rs), ValidResults(qs);
    assert multiset(a) == multiset(b) by {
      forall v ensures multiset(a)[v] == multiset(b)[v] {
      }
    }
    forall side, l ensures BandTotal(a, side, l) == BandTotal(b, side, l) {
      BandTotalPermutation(a, b, side, l);
    }
    forall side ensures SideTotal(a, side) == SideTotal(b, side) {
      BandTotalPermutation(a, b, side, Band1);
      BandTotalPermutation(a, b, side, Band2);
      BandTotalPermutation(a, b, side, Band3);
      assert BandsTotal(a, side, 1) == BandsTotal(b, side, 1);
      assert BandsTotal(a, side, 2) == BandsTotal(b, side, 2);
    }
  }

  /** When every fetch failed, every band total and both side totals are 0. */
  lemma {:induction false} AllFailed(results: seq<Option<VenueResult>>)
    requires forall i :: 0 <= i < |results| ==> results[i].None?
    ensures ValidResults(results) == []
    ensures forall side, l :: BandTotal(ValidResults(results), side, l) == 0.0
    ensures forall side :: SideTotal(ValidResults(results), side) == 0.0
    decreases |results|
  {
    if results != [] {
      AllFailed(results[..|results| - 1]);
    }
    forall side ensures SideTotal([], side) == 0.0 {
      assert BandsTotal([], side, 1) == 0.0;
      assert BandsTotal([], side, 2) == 0.0;
    }
  }

  /** A venue whose side has no entry for band `l` adds nothing to it. */
  lemma ContributionAbsent(entries: seq<Summary>, l: Label)
    requires forall i :: 0 <= i < |entries| ==> entries[i].band != l
    ensures Contribution(entries, l) == 0.0
  {
  }

  /** A venue whose entries carry distinct bands adds the notional of its
      entry for band `l`. */
  lemma ContributionPresent(entries: seq<Summary>, i: nat)
    requires i < |entries|
    requires forall j :: 0 <= j < |entries| && j != i ==> entries[j].band != entries[i].band
    ensures Contribution(entries, entries[i].band) == entries[i].notional
  {
  }

  /** What an aggregated side contributes to band `l` is the total notional
      of the orders filed in that band — 0 when the band is empty. */
  lemma AggregateContribution(orders: seq<Order>, reference: real, side: Side, l: Label)
    requires reference != 0.0
    ensures Contribution(Aggregate(orders, reference, side), l) == Notional(Band(orders, reference, l))
  {
    var r := Aggregate(orders, reference, side);
    AggregateContents(orders, reference, side);
    if Occupied(orders, reference, l) {
      var x := SummaryOf(orders, reference, side, l);
      assert x in r;
      var e := FirstWithBand(r, l).value;
      assert e in r;
    } else {
      forall i | 0 <= i < |r| ensures r[i].band != l {
        assert r[i] in r;
      }
    }
  }
}
