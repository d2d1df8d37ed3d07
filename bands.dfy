/** The band model: the three fixed relative-distance bands around a reference
    price, the percentage distance of a price from that reference, and the
    first-match classification of a price into a band. */
module Bands {
  import opened Wrappers

  /** The three bands, keyed in the source by the labels "0-0.5%",
      "0.5-1.5%" and "1.5-3%". */
  datatype Label = Band1 | Band2 | Band3

  /** The bands in the order the classifier scans them and the merge reports
      them (the insertion order of the per-band dictionary). */
  const Labels: seq<Label> := [Band1, Band2, Band3]

  /** Position of a band in `Labels`. */
  function Index(l: Label): (i: nat)
    ensures i < |Labels| && Labels[i] == l
  {
    match l
    case Band1 => 0
    case Band2 => 1
    case Band3 => 2
  }

  /** The textual label the source stores and matches on. */
  function Name(l: Label): string
  {
    match l
    case Band1 => "0-0.5%"
    case Band2 => "0.5-1.5%"
    case Band3 => "1.5-3%"
  }

  /** The merge identifies a band by comparing its text label; distinct bands
      have distinct texts, so comparing texts is comparing bands. */
  lemma NameInjective(a: Label, b: Label)
    ensures Name(a) == Name(b) <==> a == b
  {
  }

  /** Inclusive upper bound of a band, in percent of the reference price. */
  function Bound(l: Label): real
  {
    match l
    case Band1 => 0.5
    case Band2 => 1.5
    case Band3 => 3.0
  }

  /** The absolute price offsets 0.5 %, 1.5 % and 3 % of `price`. */
  function PriceLevels(price: real): (levels: (real, real, real))
    ensures levels.1 == 3.0 * levels.0 && levels.2 == 2.0 * levels.1
    ensures price > 0.0 ==> 0.0 < levels.0 < levels.1 < levels.2
    ensures forall l :: Level(levels, l) * 100.0 == Bound(l) * price
  {
    (price * 0.005, price * 0.015, price * 0.03)
  }

  /** The entry of a `PriceLevels` triple that belongs to band `l`. */
  function Level(levels: (real, real, real), l: Label): real
  {
    match l
    case Band1 => levels.0
    case Band2 => levels.1
    case Band3 => levels.2
  }

  function Abs(x: real): (r: real)
    ensures r >= 0.0 && (r == x || r == -x)
  {
    if x < 0.0 then -x else x
  }

  /** Relative distance of `price` from `reference`, in percent. */
  function DistancePercent(price: real, reference: real): (d: real)
    requires reference != 0.0
    ensures price == reference ==> d == 0.0
    ensures reference > 0.0 ==> d >= 0.0
    ensures d * reference == Abs(price - reference) * 100.0
  {
    (Abs(price - reference) / reference) * 100.0
  }

  /** The band of `price`: the first band, in the order of `Labels`, whose
      inclusive bound is at least the distance; `None` beyond the last bound. */
  function Classify(price: real, reference: real): (r: Option<Label>)
    requires reference != 0.0
    ensures r.None? <==> DistancePercent(price, reference) > Bound(Band3)
    ensures r.Some? ==> DistancePercent(price, reference) <= Bound(r.value)
    ensures r.Some? ==> forall j :: 0 <= j < Index(r.value) ==> Bound(Labels[j]) < DistancePercent(price, reference)
  {
    var d := DistancePercent(price, reference);
    if d <= Bound(Band1) then Some(Band1)
    else if d <= Bound(Band2) then Some(Band2)
    else if d <= Bound(Band3) then Some(Band3)
    else None
  }

  /** A price equal to the reference is always in the nearest band. */
  lemma ReferenceInFirstBand(reference: real)
    requires reference != 0.0
    ensures Classify(reference, reference) == Some(Band1)
  {
  }

  /** For a positive reference, comparing the percentage distance with a
      band's bound is the same as comparing the absolute price difference with
      that band's entry of `PriceLevels`. */
  lemma LevelsAgreeWithBounds(price: real, reference: real, l: Label)
    requires reference > 0.0
    ensures DistancePercent(price, reference) <= Bound(l)
        <==> Abs(price - reference) <= Level(PriceLevels(reference), l)
  {
    var lv := Level(PriceLevels(reference), l);
    assert lv * 100.0 == Bound(l) * reference;
    ScaledComparison(DistancePercent(price, reference), Bound(l), reference, Abs(price - reference), lv);
  }

  /** `d <= b` and `a <= lv` agree when `d * r == a * 100` and `lv * 100 == b * r`. */
  lemma ScaledComparison(d: real, b: real, r: real, a: real, lv: real)
    requires r > 0.0
    requires lv * 100.0 == b * r
    requires d * r == a * 100.0
    ensures d <= b <==> a <= lv
  {
  }

  /** The mid price of a book: the mean of best bid and best ask. */
  function MidPrice(bestBid: real, bestAsk: real): (m: real)
    ensures m - bestBid == bestAsk - m
    ensures bestBid <= bestAsk ==> bestBid <= m <= bestAsk
  {
    (bestBid + bestAsk) / 2.0
  }
}
