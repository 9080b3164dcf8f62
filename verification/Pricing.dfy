/** The pricing compiler: Offer rates become plan rates, then an Amberflo price machine, then
    the plan's price generator. Quantities and prices are reals. */
module Pricing {
  import opened Ordering
  import opened Results

  // ---- an Offer's usage pricing -------------------------------------------

  /** A decimal string: empty, unparsable, or a number. */
  datatype Decimal = Absent | Malformed | Number(v: real)

  datatype Filter = Filter(dimension: string, value: string)

  /** One band of a graduated rate; the last band has no upper bound. */
  datatype Band = Band(upTo: Decimal, rate: Decimal)

  datatype PricingRate = PricingRate(filter: Option<Filter>, flat: Decimal, tiered: seq<Band>)

  // ---- plan rates ---------------------------------------------------------

  datatype PriceTier = PriceTier(startAfterUnit: int, batchSize: int, pricePerBatch: real)

  datatype PlanRate = PlanRate(filter: Option<Filter>, flat: Option<real>, tiers: seq<PriceTier>)

  /** int64(f): truncation toward zero. */
  function Truncate(f: real): int {
    if f >= 0.0 then f.Floor else -((-f).Floor)
  }

  function Prepend<T>(front: seq<T>, rest: Option<seq<T>>): (r: Option<seq<T>>)
    ensures front == [] ==> r == rest
    ensures rest == Some([]) ==> r == Some(front)
    ensures r.Some? <==> rest.Some?
  {
    if rest.None? then None
    else
      assert [] + rest.value == rest.value && front + [] == front;
      Some(front + rest.value)
  }

  lemma PrependMore<T>(front: seq<T>, x: T, rest: Option<seq<T>>)
    ensures Prepend(front, Prepend([x], rest)) == Prepend(front + [x], rest)
  {
    assert rest.Some? ==> front + ([x] + rest.value) == (front + [x]) + rest.value;
  }

  /** Where the band after one with this upper bound starts. */
  function NextStart(upTo: Decimal, startAfter: int): int {
    if upTo.Number? then Truncate(upTo.v) else startAfter
  }

  /** The tiers of a list of bands, the first of which starts after `startAfter` units. */
  function TiersOf(bands: seq<Band>, startAfter: int): Option<seq<PriceTier>> {
    if bands == [] then Some([])
    else if !bands[0].rate.Number? || bands[0].upTo.Malformed? then None
    else Prepend([PriceTier(startAfter, 1, bands[0].rate.v)],
                 TiersOf(bands[1..], NextStart(bands[0].upTo, startAfter)))
  }

  /** A flat price wins over tiers; one of the two must be present. */
  function PlanRateOf(rate: PricingRate): Option<PlanRate> {
    if !rate.flat.Absent? then
      if rate.flat.Malformed? then None else Some(PlanRate(rate.filter, Some(rate.flat.v), []))
    else if rate.tiered != [] then
      var tiers := TiersOf(rate.tiered, 0);
      if tiers.None? then None else Some(PlanRate(rate.filter, None, tiers.value))
    else None
  }

  function PlanRatesOf(rates: seq<PricingRate>): Option<seq<PlanRate>> {
    if rates == [] then Some([])
    else
      var first := PlanRateOf(rates[0]);
      if first.None? then None else Prepend([first.value], PlanRatesOf(rates[1..]))
  }

  method DesiredTiers(bands: seq<Band>) returns (r: Option<seq<PriceTier>>)
    ensures r == TiersOf(bands, 0)
  {
    var startAfter := 0;
    var tiers: seq<PriceTier> := [];
    var j := 0;
    assert bands[0..] == bands;
    while j < |bands|
      invariant 0 <= j <= |bands|
      invariant TiersOf(bands, 0) == Prepend(tiers, TiersOf(bands[j..], startAfter))
    {
      var band := bands[j];
      assert bands[j..][1..] == bands[j + 1..];
      if !band.rate.Number? {
        return None;
      }
      var tier := PriceTier(startAfter, 1, band.rate.v);
      PrependMore(tiers, tier, TiersOf(bands[j + 1..], NextStart(band.upTo, startAfter)));
      tiers := tiers + [tier];
      j := j + 1;
      if band.upTo.Absent? {
        continue;
      }
      if band.upTo.Malformed? {
        return None;
      }
      startAfter := Truncate(band.upTo.v);
    }
    return Some(tiers);
  }

  method DesiredRatesFromPricing(rates: seq<PricingRate>) returns (r: Option<seq<PlanRate>>)
    ensures r == PlanRatesOf(rates)
  {
    var out: seq<PlanRate> := [];
    var i := 0;
    assert rates[0..] == rates;
    while i < |rates|
      invariant 0 <= i <= |rates|
      invariant PlanRatesOf(rates) == Prepend(out, PlanRatesOf(rates[i..]))
    {
      var rate := rates[i];
      assert rates[i..][1..] == rates[i + 1..];
      var dr := PlanRate(rate.filter, None, []);
      if !rate.flat.Absent? {
        if rate.flat.Malformed? {
          return None;
        }
        dr := dr.(flat := Some(rate.flat.v));
      } else if |rate.tiered| > 0 {
        var tiers := DesiredTiers(rate.tiered);
        if tiers.None? {
          return None;
        }
        dr := dr.(tiers := tiers.value);
      } else {
        return None;
      }
      PrependMore(out, dr, PlanRatesOf(rates[i + 1..]));
      out := out + [dr];
      i := i + 1;
    }
    return Some(out);
  }

  // ---- price machines -----------------------------------------------------

  datatype WireTier = WireTier(startAfterUnit: int, batchSize: int, pricePerBatch: real)

  datatype LeafNode = LeafNode(allowPartialBatch: bool, tiers: seq<WireTier>)

  datatype DimensionPrice = DimensionPrice(value: string, leaf: LeafNode)

  datatype Machine =
    | Leaf(leaf: LeafNode)
    | DimensionMatrix(key: string, prices: seq<DimensionPrice>)

  function WireTierOf(t: PriceTier): WireTier {
    WireTier(t.startAfterUnit, if t.batchSize <= 0 then 1 else t.batchSize, t.pricePerBatch)
  }

  function LeafOf(r: PlanRate): Option<LeafNode> {
    if r.flat.Some? == (|r.tiers| > 0) then None
    else if r.flat.Some? then Some(LeafNode(true, [WireTier(0, 1, r.flat.value)]))
    else Some(LeafNode(true, seq(|r.tiers|, i requires 0 <= i < |r.tiers| => WireTierOf(r.tiers[i]))))
  }

  method LeafFromRate(r: PlanRate) returns (leaf: Option<LeafNode>)
    ensures leaf == LeafOf(r)
  {
    var hasFlat, hasTiers := r.flat.Some?, |r.tiers| > 0;
    if hasFlat == hasTiers {
      return None;
    }
    if hasFlat {
      return Some(LeafNode(true, [WireTier(0, 1, r.flat.value)]));
    }
    var tiers: seq<WireTier> := [];
    for i := 0 to |r.tiers|
      invariant |tiers| == i
      invariant forall k | 0 <= k < i :: tiers[k] == WireTierOf(r.tiers[k])
    {
      var t := r.tiers[i];
      var batch := t.batchSize;
      if batch <= 0 {
        batch := 1;
      }
      tiers := tiers + [WireTier(t.startAfterUnit, batch, t.pricePerBatch)];
    }
    assert tiers == LeafOf(r).value.tiers;
    return Some(LeafNode(true, tiers));
  }

  /** The dimension key the filters settle on; "" while none of them names one. */
  function MatrixKey(rates: seq<PlanRate>, key: string): Option<string> {
    if rates == [] then Some(key)
    else if rates[0].filter.None? || (key != "" && key != rates[0].filter.value.dimension) then None
    else MatrixKey(rates[1..], rates[0].filter.value.dimension)
  }

  function DimensionPrices(rates: seq<PlanRate>): Option<seq<DimensionPrice>> {
    if rates == [] then Some([])
    else
      var leaf := LeafOf(rates[0]);
      if rates[0].filter.None? || leaf.None? then None
      else Prepend([DimensionPrice(rates[0].filter.value.value, leaf.value)], DimensionPrices(rates[1..]))
  }

  const ByValue: DimensionPrice -> string := (d: DimensionPrice) => d.value

  predicate AnyFilter(rates: seq<PlanRate>) {
    exists i | 0 <= i < |rates| :: rates[i].filter.Some?
  }

  function MachineOf(rates: seq<PlanRate>): Option<Machine> {
    if rates == [] then None
    else if !AnyFilter(rates) then
      var leaf := LeafOf(rates[0]);
      if |rates| != 1 || leaf.None? then None else Some(Leaf(leaf.value))
    else
      var key, prices := MatrixKey(rates, ""), DimensionPrices(rates);
      if key.None? || key.value == "" || prices.None? then None
      else Some(DimensionMatrix(key.value, SortStable(prices.value, ByValue)))
  }

  method BuildWirePrice(rates: seq<PlanRate>) returns (r: Option<Machine>)
    ensures r == MachineOf(rates)
  {
    if |rates| == 0 {
      return None;
    }
    var hasMatch, n := false, 0;
    while n < |rates| && !hasMatch
      invariant 0 <= n <= |rates|
      invariant !hasMatch ==> !AnyFilter(rates[..n])
      invariant hasMatch ==> AnyFilter(rates)
    {
      hasMatch := rates[n].filter.Some?;
      n := n + 1;
    }
    if !hasMatch {
      assert rates[..n] == rates;
      if |rates| != 1 {
        return None;
      }
      var leaf := LeafFromRate(rates[0]);
      return if leaf.None? then None else Some(Leaf(leaf.value));
    }
    var dimKey := "";
    var dims: seq<DimensionPrice> := [];
    var i := 0;
    assert rates[0..] == rates;
    while i < |rates|
      invariant 0 <= i <= |rates| && |dims| == i
      invariant MatrixKey(rates, "") == MatrixKey(rates[i..], dimKey)
      invariant DimensionPrices(rates) == Prepend(dims, DimensionPrices(rates[i..]))
    {
      var r := rates[i];
      assert rates[i..][1..] == rates[i + 1..];
      if r.filter.None? {
        return None;
      }
      var f := r.filter.value;
      if dimKey == "" {
        dimKey := f.dimension;
      } else if dimKey != f.dimension {
        return None;
      }
      var leaf := LeafFromRate(r);
      if leaf.None? {
        return None;
      }
      var price := DimensionPrice(f.value, leaf.value);
      PrependMore(dims, price, DimensionPrices(rates[i + 1..]));
      dims := dims + [price];
      i := i + 1;
    }
    if dimKey == "" || |dims| == 0 {
      return None;
    }
    return Some(DimensionMatrix(dimKey, SortStable(dims, ByValue)));
  }

  predicate Names(r: PlanRate, dimension: string) {
    r.filter.Some? && r.filter.value.dimension == dimension
  }

  lemma {:induction false} MatrixKeyFixed(rates: seq<PlanRate>, key: string)
    requires key != ""
    ensures MatrixKey(rates, key) == Some(key) <==> forall i | 0 <= i < |rates| :: Names(rates[i], key)
    ensures MatrixKey(rates, key).Some? ==> MatrixKey(rates, key) == Some(key)
  {
    if rates != [] {
      MatrixKeyFixed(rates[1..], key);
      assert rates == [rates[0]] + rates[1..];
    }
  }

  /** The dimension of the filters is `key`, apart from leading filters on the empty dimension. */
  predicate SettlesOn(rates: seq<PlanRate>, key: string) {
    exists n :: 0 <= n < |rates| && SettlesFrom(rates, n, key)
  }

  predicate SettlesFrom(rates: seq<PlanRate>, n: int, key: string) {
    forall i | 0 <= i < |rates| :: Names(rates[i], if i < n then "" else key)
  }

  lemma {:induction false} MatrixKeySettles(rates: seq<PlanRate>, key: string)
    requires key != ""
    ensures MatrixKey(rates, "") == Some(key) <==> SettlesOn(rates, key)
  {
    if rates != [] && rates[0].filter.Some? {
      var tail := rates[1..];
      if rates[0].filter.value.dimension == "" {
        MatrixKeySettles(tail, key);
        if SettlesOn(tail, key) {
          var n :| 0 <= n < |tail| && SettlesFrom(tail, n, key);
          assert SettlesFrom(rates, n + 1, key);
        }
        if SettlesOn(rates, key) {
          var n :| 0 <= n < |rates| && SettlesFrom(rates, n, key);
          assert Names(rates[0], if 0 < n then "" else key);
          forall i | 0 <= i < |tail| ensures Names(tail[i], if i < n - 1 then "" else key) {
            assert Names(rates[i + 1], if i + 1 < n then "" else key);
          }
          assert SettlesFrom(tail, n - 1, key);
        }
      } else {
        MatrixKeyFixed(tail, rates[0].filter.value.dimension);
        if MatrixKey(rates, "") == Some(key) { assert SettlesFrom(rates, 0, key); }
        if SettlesOn(rates, key) {
          var n :| 0 <= n < |rates| && SettlesFrom(rates, n, key);
          assert Names(rates[0], if 0 < n then "" else key);
          forall i | 0 <= i < |tail| ensures Names(tail[i], key) {
            assert Names(rates[i + 1], if i + 1 < n then "" else key);
          }
        }
      }
    }
  }

  lemma {:induction false} DimensionPricesAccepted(rates: seq<PlanRate>)
    ensures DimensionPrices(rates).Some? <==>
            forall i | 0 <= i < |rates| :: rates[i].filter.Some? && LeafOf(rates[i]).Some?
  {
    if rates != [] {
      DimensionPricesAccepted(rates[1..]);
      assert rates == [rates[0]] + rates[1..];
    }
  }

  /** Which rate lists compile: each rate has exactly one of a flat price and tiers, and either
      there is one unfiltered rate or every rate is filtered on one nonempty dimension. */
  lemma MachineAccepts(rates: seq<PlanRate>)
    ensures MachineOf(rates).Some? <==>
            && rates != []
            && (forall i | 0 <= i < |rates| :: LeafOf(rates[i]).Some?)
            && (if AnyFilter(rates) then exists key :: key != "" && SettlesOn(rates, key) else |rates| == 1)
  {
    DimensionPricesAccepted(rates);
    var key := MatrixKey(rates, "");
    if key.Some? && key.value != "" { MatrixKeySettles(rates, key.value); }
    if k :| k != "" && SettlesOn(rates, k) {
      MatrixKeySettles(rates, k);
      var n :| 0 <= n < |rates| && SettlesFrom(rates, n, k);
      assert forall i | 0 <= i < |rates| :: Names(rates[i], if i < n then "" else k);
    }
  }

  // ---- the plan generator -------------------------------------------------

  datatype Group = Group(value: string, tiers: seq<WireTier>)

  datatype Generator =
    | NoDimension(tiers: seq<WireTier>)
    | ByDimension(key: string, groups: seq<Group>)

  function GroupOf(d: DimensionPrice): Group { Group(d.value, d.leaf.tiers) }

  function GeneratorOf(m: Machine): Generator {
    match m
    case Leaf(leaf) => NoDimension(leaf.tiers)
    case DimensionMatrix(key, prices) =>
      ByDimension(key, seq(|prices|, i requires 0 <= i < |prices| => GroupOf(prices[i])))
  }

  method PriceGeneratorFromMachine(m: Machine) returns (g: Generator)
    ensures g == GeneratorOf(m)
  {
    match m
    case Leaf(leaf) =>
      g := NoDimension(leaf.tiers);
    case DimensionMatrix(key, prices) =>
      var groups: seq<Group> := [];
      for i := 0 to |prices|
        invariant |groups| == i
        invariant forall k | 0 <= k < i :: groups[k] == GroupOf(prices[k])
      {
        groups := groups + [Group(prices[i].value, prices[i].leaf.tiers)];
      }
      g := ByDimension(key, groups);
  }

  // ---- what the three forms charge ----------------------------------------

  function Pos(x: real): real { if x > 0.0 then x else 0.0 }

  function Abs(x: real): real { if x < 0.0 then -x else x }

  /** How much of the quantity q lies between lo and hi. */
  function Between(q: real, lo: real, hi: real): real {
    Pos((if q < hi then q else hi) - lo)
  }

  /** Graduated pricing as an Offer states it: each band prices the units above the previous
      bound and up to its own. */
  function BandsCharge(bands: seq<Band>, from: real, q: real): real
    requires Readable(bands)
  {
    if bands == [] then 0.0
    else if bands[0].upTo.Absent? then bands[0].rate.v * Pos(q - from)
    else bands[0].rate.v * Between(q, from, bands[0].upTo.v) + BandsCharge(bands[1..], bands[0].upTo.v, q)
  }

  /** Every rate parses, and every bound that is present. */
  predicate Readable(bands: seq<Band>) {
    forall i | 0 <= i < |bands| :: bands[i].rate.Number? && !bands[i].upTo.Malformed?
  }

  /** Only the last band is unbounded. */
  predicate OpenEnded(bands: seq<Band>) {
    && Readable(bands)
    && bands != []
    && forall i | 0 <= i < |bands| :: bands[i].upTo.Absent? <==> i == |bands| - 1
  }

  /** Bounds do not decrease and start at or above `from`. */
  predicate Rising(bands: seq<Band>, from: real) {
    bands != [] && bands[0].upTo.Number? ==>
      from <= bands[0].upTo.v && Rising(bands[1..], bands[0].upTo.v)
  }

  function UnitPrice(t: WireTier): real
    requires t.batchSize != 0
  {
    t.pricePerBatch / t.batchSize as real
  }

  predicate Batched(tiers: seq<WireTier>) {
    forall i | 0 <= i < |tiers| :: tiers[i].batchSize > 0
  }

  /** A LeafNode with partial batches: each tier prices the units after its start and before the
      next tier's start. */
  function TiersCharge(tiers: seq<WireTier>, q: real): real
    requires Batched(tiers)
  {
    if tiers == [] then 0.0
    else if |tiers| == 1 then UnitPrice(tiers[0]) * Pos(q - tiers[0].startAfterUnit as real)
    else UnitPrice(tiers[0]) * Between(q, tiers[0].startAfterUnit as real, tiers[1].startAfterUnit as real)
         + TiersCharge(tiers[1..], q)
  }

  // ---- compilation of one rate --------------------------------------------

  /** The same bands with every bound cut to a whole number of units. */
  function TruncatedBands(bands: seq<Band>): (r: seq<Band>)
    requires Readable(bands)
    ensures |r| == |bands| && Readable(r)
    ensures forall i | 0 <= i < |r| :: r[i].rate == bands[i].rate && r[i].upTo.Absent? == bands[i].upTo.Absent?
  {
    if bands == [] then []
    else
      var b := bands[0];
      [if b.upTo.Number? then b.(upTo := Number(Truncate(b.upTo.v) as real)) else b] + TruncatedBands(bands[1..])
  }

  function WireTiersOf(tiers: seq<PriceTier>): (r: seq<WireTier>)
    ensures Batched(r)
  {
    seq(|tiers|, i requires 0 <= i < |tiers| => WireTierOf(tiers[i]))
  }

  lemma TruncateBelow(f: real, g: real)
    requires 0.0 <= f <= g
    ensures 0 <= Truncate(f) <= Truncate(g)
    ensures 0.0 <= f - Truncate(f) as real < 1.0
  {
  }

  lemma {:induction false} OpenEndedCompiles(bands: seq<Band>, from: int)
    requires OpenEnded(bands)
    ensures TiersOf(bands, from).Some? && |TiersOf(bands, from).value| == |bands|
    ensures TiersOf(bands, from).value[0].startAfterUnit == from
  {
    if |bands| > 1 {
      OpenEndedCompiles(bands[1..], NextStart(bands[0].upTo, from));
    }
  }

  /** The compiled tiers charge exactly what the bands with truncated bounds charge. */
  lemma {:induction false} TiersChargeTruncated(bands: seq<Band>, from: int, q: real)
    requires OpenEnded(bands)
    ensures TiersOf(bands, from).Some?
    ensures TiersCharge(WireTiersOf(TiersOf(bands, from).value), q) ==
            BandsCharge(TruncatedBands(bands), from as real, q)
  {
    OpenEndedCompiles(bands, from);
    var tiers := WireTiersOf(TiersOf(bands, from).value);
    if |bands| > 1 {
      var next := NextStart(bands[0].upTo, from);
      OpenEndedCompiles(bands[1..], next);
      TiersChargeTruncated(bands[1..], next, q);
      assert tiers[1..] == WireTiersOf(TiersOf(bands[1..], next).value);
      assert TruncatedBands(bands)[1..] == TruncatedBands(bands[1..]);
    }
  }

  /** Starts never decrease, so no tier prices a negative stretch. */
  lemma {:induction false} StartsNondecreasing(bands: seq<Band>, from: real)
    requires OpenEnded(bands) && 0.0 <= from && Rising(bands, from)
    ensures var tiers := TiersOf(bands, Truncate(from));
      tiers.Some? && forall i, j | 0 <= i < j < |tiers.value| ::
        tiers.value[i].startAfterUnit <= tiers.value[j].startAfterUnit
  {
    OpenEndedCompiles(bands, Truncate(from));
    if |bands| > 1 {
      TruncateBelow(from, bands[0].upTo.v);
      StartsNondecreasing(bands[1..], bands[0].upTo.v);
      OpenEndedCompiles(bands[1..], Truncate(bands[0].upTo.v));
    }
  }

  predicate WholeBounds(bands: seq<Band>) {
    forall i | 0 <= i < |bands| :: bands[i].upTo.Number? ==> Truncate(bands[i].upTo.v) as real == bands[i].upTo.v
  }

  lemma {:induction false} WholeBoundsSurvive(bands: seq<Band>)
    requires Readable(bands) && WholeBounds(bands)
    ensures TruncatedBands(bands) == bands
  {
    if bands != [] {
      WholeBoundsSurvive(bands[1..]);
      assert bands == [bands[0]] + bands[1..];
    }
  }

  // ---- the truncation error -----------------------------------------------

  function SumOf(s: seq<real>): real {
    if s == [] then 0.0 else s[0] + SumOf(s[1..])
  }

  lemma {:induction false} SumsDiffer(a: seq<real>, b: seq<real>, e: seq<real>)
    requires |a| == |b| == |e|
    requires forall i | 0 <= i < |a| :: Abs(a[i] - b[i]) <= e[i]
    ensures Abs(SumOf(a) - SumOf(b)) <= SumOf(e)
  {
    if a != [] { SumsDiffer(a[1..], b[1..], e[1..]); }
  }

  function RateStep(bands: seq<Band>, i: nat): real
    requires Readable(bands) && i + 1 < |bands|
  {
    bands[i + 1].rate.v - bands[i].rate.v
  }

  function StepTerm(bands: seq<Band>, q: real, i: nat): real
    requires OpenEnded(bands) && i + 1 < |bands|
  {
    RateStep(bands, i) * Pos(q - bands[i].upTo.v)
  }

  /** What the first rate charges, as if it applied to everything above `from`. */
  function BaseTerm(rate: real, from: real, q: real): real { rate * Pos(q - from) }

  /** At each bound the rate steps: what the step adds to the charge for q. */
  function StepTerms(bands: seq<Band>, q: real): seq<real>
    requires OpenEnded(bands)
  {
    seq(|bands| - 1, i requires 0 <= i < |bands| - 1 => StepTerm(bands, q, i))
  }

  lemma Telescope(r0: real, r1: real, from: real, up: real, q: real)
    requires from <= up
    ensures r0 * Between(q, from, up) + BaseTerm(r1, up, q) == BaseTerm(r0, from, q) + (r1 - r0) * Pos(q - up)
  {
  }

  lemma StepTermsTail(bands: seq<Band>, q: real)
    requires OpenEnded(bands) && |bands| > 1
    ensures StepTerms(bands, q) == [StepTerm(bands, q, 0)] + StepTerms(bands[1..], q)
  {
    forall i | 0 <= i < |bands| - 2 ensures StepTerm(bands, q, i + 1) == StepTerm(bands[1..], q, i) {
      assert RateStep(bands, i + 1) == RateStep(bands[1..], i);
    }
  }

  lemma {:induction false} ChargeAsSteps(bands: seq<Band>, from: real, q: real)
    requires OpenEnded(bands) && Rising(bands, from)
    ensures BandsCharge(bands, from, q) == BaseTerm(bands[0].rate.v, from, q) + SumOf(StepTerms(bands, q))
  {
    if |bands| > 1 {
      ChargeAsSteps(bands[1..], bands[0].upTo.v, q);
      Telescope(bands[0].rate.v, bands[1].rate.v, from, bands[0].upTo.v, q);
      StepTermsTail(bands, q);
    }
  }

  /** The same bands with some bounds lowered. */
  predicate Lowered(cut: seq<Band>, bands: seq<Band>) {
    && OpenEnded(bands) && OpenEnded(cut) && |cut| == |bands|
    && (forall i | 0 <= i < |bands| :: cut[i].rate == bands[i].rate)
    && (forall i | 0 <= i < |bands| - 1 :: cut[i].upTo.v <= bands[i].upTo.v)
  }

  function LoweringTerm(cut: seq<Band>, bands: seq<Band>, i: nat): real
    requires Lowered(cut, bands) && i + 1 < |bands|
  {
    Abs(RateStep(bands, i)) * (bands[i].upTo.v - cut[i].upTo.v)
  }

  /** For each bound, |next rate - this rate| times how far the bound was lowered. */
  function LoweringTerms(cut: seq<Band>, bands: seq<Band>): seq<real>
    requires Lowered(cut, bands)
  {
    seq(|bands| - 1, i requires 0 <= i < |bands| - 1 => LoweringTerm(cut, bands, i))
  }

  lemma StepError(delta: real, q: real, u: real, v: real)
    requires v <= u
    ensures Abs(delta * Pos(q - u) - delta * Pos(q - v)) <= Abs(delta) * (u - v)
  {
    var d := Pos(q - v) - Pos(q - u);
    assert 0.0 <= d <= u - v;
    assert delta * Pos(q - u) - delta * Pos(q - v) == -(delta * d);
    assert Abs(delta * d) == Abs(delta) * d <= Abs(delta) * (u - v);
  }

  lemma StepTermError(cut: seq<Band>, bands: seq<Band>, q: real, i: nat)
    requires Lowered(cut, bands) && i + 1 < |bands|
    ensures Abs(StepTerm(bands, q, i) - StepTerm(cut, q, i)) <= LoweringTerm(cut, bands, i)
  {
    assert RateStep(cut, i) == RateStep(bands, i);
    StepError(RateStep(bands, i), q, bands[i].upTo.v, cut[i].upTo.v);
  }

  lemma StepsError(cut: seq<Band>, bands: seq<Band>, q: real)
    requires Lowered(cut, bands)
    ensures Abs(SumOf(StepTerms(bands, q)) - SumOf(StepTerms(cut, q))) <= SumOf(LoweringTerms(cut, bands))
  {
    var a, b, e := StepTerms(bands, q), StepTerms(cut, q), LoweringTerms(cut, bands);
    forall i | 0 <= i < |bands| - 1 ensures Abs(a[i] - b[i]) <= e[i] {
      StepTermError(cut, bands, q, i);
    }
    SumsDiffer(a, b, e);
  }

  lemma {:induction false} ChargeError(cut: seq<Band>, bands: seq<Band>, from: real, q: real)
    requires Lowered(cut, bands) && Rising(bands, from) && Rising(cut, from)
    ensures Abs(BandsCharge(bands, from, q) - BandsCharge(cut, from, q)) <= SumOf(LoweringTerms(cut, bands))
  {
    StepsError(cut, bands, q);
    ChargeAsSteps(bands, from, q);
    ChargeAsSteps(cut, from, q);
  }

  lemma {:induction false} TruncatedRising(bands: seq<Band>, from: real)
    requires Readable(bands) && 0.0 <= from && Rising(bands, from)
    ensures Rising(TruncatedBands(bands), Truncate(from) as real)
  {
    if bands != [] && bands[0].upTo.Number? {
      TruncateBelow(from, bands[0].upTo.v);
      TruncatedRising(bands[1..], bands[0].upTo.v);
      assert TruncatedBands(bands)[1..] == TruncatedBands(bands[1..]);
    }
  }

  lemma {:induction false} TruncationLowers(bands: seq<Band>, from: real)
    requires OpenEnded(bands) && 0.0 <= from && Rising(bands, from)
    ensures Lowered(TruncatedBands(bands), bands)
  {
    if |bands| > 1 {
      TruncateBelow(bands[0].upTo.v, bands[0].upTo.v);
      TruncationLowers(bands[1..], bands[0].upTo.v);
      var cut := TruncatedBands(bands);
      assert cut[1..] == TruncatedBands(bands[1..]);
      forall i | 0 <= i < |bands| - 1 ensures cut[i].upTo.v <= bands[i].upTo.v {
        if i > 0 { assert cut[1..][i - 1].upTo.v <= bands[1..][i - 1].upTo.v; }
      }
    }
  }

  /** Main result on one rate. With nonnegative rising bounds the compiled tiers charge any
      quantity the same as the Offer up to the truncation bound, and exactly the same when the
      bounds are whole. */
  lemma {:induction false} CompiledRateCharge(bands: seq<Band>, q: real)
    requires OpenEnded(bands) && Rising(bands, 0.0)
    ensures TiersOf(bands, 0).Some? && Lowered(TruncatedBands(bands), bands)
    ensures var c := TiersCharge(WireTiersOf(TiersOf(bands, 0).value), q);
      && Abs(BandsCharge(bands, 0.0, q) - c) <= SumOf(LoweringTerms(TruncatedBands(bands), bands))
      && (WholeBounds(bands) ==> c == BandsCharge(bands, 0.0, q))
  {
    TiersChargeTruncated(bands, 0, q);
    if WholeBounds(bands) { WholeBoundsSurvive(bands); }
    TruncationLowers(bands, 0.0);
    TruncatedRising(bands, 0.0);
    ChargeError(TruncatedBands(bands), bands, 0.0, q);
  }

  // ---- compilation of a whole Offer item ----------------------------------

  /** What the API server admits: a flat number, or an open-ended ladder of rising bounds. */
  predicate Admitted(rate: PricingRate) {
    rate.flat.Number? || (rate.flat.Absent? && OpenEnded(rate.tiered) && Rising(rate.tiered, 0.0))
  }

  function OfferRateCharge(rate: PricingRate, q: real): real
    requires Admitted(rate)
  {
    if rate.flat.Number? then rate.flat.v * Pos(q) else BandsCharge(rate.tiered, 0.0, q)
  }

  predicate Exact(rate: PricingRate) { rate.flat.Number? || WholeBounds(rate.tiered) }

  /** How far truncation may move the charge under this rate. */
  function RateTolerance(rate: PricingRate): real
    requires Admitted(rate)
  {
    if rate.flat.Number? || Exact(rate) then 0.0
    else
      TruncationLowers(rate.tiered, 0.0);
      SumOf(LoweringTerms(TruncatedBands(rate.tiered), rate.tiered))
  }

  predicate LeafPrices(leaf: LeafNode, rate: PricingRate, q: real) {
    && Admitted(rate) && Batched(leaf.tiers)
    && Abs(OfferRateCharge(rate, q) - TiersCharge(leaf.tiers, q)) <= RateTolerance(rate)
  }

  lemma CompiledLeaf(rate: PricingRate, q: real)
    requires Admitted(rate)
    ensures PlanRateOf(rate).Some? && PlanRateOf(rate).value.filter == rate.filter
    ensures LeafOf(PlanRateOf(rate).value).Some?
    ensures LeafPrices(LeafOf(PlanRateOf(rate).value).value, rate, q)
  {
    if rate.flat.Absent? {
      CompiledRateCharge(rate.tiered, q);
      OpenEndedCompiles(rate.tiered, 0);
      assert LeafOf(PlanRateOf(rate).value).value.tiers == WireTiersOf(TiersOf(rate.tiered, 0).value);
    } else {
      assert UnitPrice(WireTier(0, 1, rate.flat.v)) == rate.flat.v;
    }
  }

  type Dimensions = map<string, string>

  predicate Applies(filter: Option<Filter>, dims: Dimensions) {
    filter.Some? ==> filter.value.dimension in dims && dims[filter.value.dimension] == filter.value.value
  }

  /** The Offer prices an event by its first applicable rate. */
  function OfferPick(rates: seq<PricingRate>, dims: Dimensions): Option<PricingRate> {
    if rates == [] then None
    else if Applies(rates[0].filter, dims) then Some(rates[0])
    else OfferPick(rates[1..], dims)
  }

  /** A matrix has no default bucket: an event with no listed value is not priced. */
  function MachinePick(m: Machine, dims: Dimensions): Option<LeafNode> {
    match m
    case Leaf(leaf) => Some(leaf)
    case DimensionMatrix(key, prices) =>
      if key !in dims then None
      else
        var price := Lookup(prices, ByValue, dims[key]);
        if price.None? then None else Some(price.value.leaf)
  }

  predicate OneDimension(rates: seq<PricingRate>, key: string) {
    forall i | 0 <= i < |rates| :: rates[i].filter.Some? && rates[i].filter.value.dimension == key
  }

  lemma {:induction false} PlanRatesKeepFilters(rates: seq<PricingRate>)
    requires forall i | 0 <= i < |rates| :: Admitted(rates[i])
    ensures PlanRatesOf(rates).Some? && |PlanRatesOf(rates).value| == |rates|
    ensures forall i | 0 <= i < |rates| ::
      PlanRateOf(rates[i]).Some? && PlanRatesOf(rates).value[i] == PlanRateOf(rates[i]).value
      && PlanRatesOf(rates).value[i].filter == rates[i].filter
  {
    if rates != [] {
      CompiledLeaf(rates[0], 0.0);
      PlanRatesKeepFilters(rates[1..]);
    }
  }

  lemma {:induction false} PickAgrees(rates: seq<PricingRate>, key: string, dims: Dimensions, q: real)
    requires forall i | 0 <= i < |rates| :: Admitted(rates[i])
    requires OneDimension(rates, key) && key in dims
    ensures PlanRatesOf(rates).Some? && DimensionPrices(PlanRatesOf(rates).value).Some?
    ensures var picked := Lookup(DimensionPrices(PlanRatesOf(rates).value).value, ByValue, dims[key]);
      var offered := OfferPick(rates, dims);
      && (picked.Some? <==> offered.Some?)
      && (picked.Some? ==> LeafPrices(picked.value.leaf, offered.value, q))
  {
    if rates != [] {
      CompiledLeaf(rates[0], q);
      PickAgrees(rates[1..], key, dims, q);
      assert OneDimension(rates[1..], key);
      var planned, rest := PlanRatesOf(rates).value, PlanRatesOf(rates[1..]).value;
      assert planned[1..] == rest;
      var prices := DimensionPrices(planned).value;
      assert prices[1..] == DimensionPrices(rest).value;
    }
  }

  lemma {:induction false} NothingPicked(rates: seq<PricingRate>, key: string, dims: Dimensions)
    requires OneDimension(rates, key) && key !in dims
    ensures OfferPick(rates, dims).None?
  {
    if rates != [] {
      assert OneDimension(rates[1..], key);
      NothingPicked(rates[1..], key, dims);
    }
  }

  /** Main result. For every quantity and every event, an accepted item is priced by the machine
      exactly when the Offer prices it, and the charge is the Offer's up to the truncation
      tolerance of the rate that applies, which is zero for whole bounds. The provisos: rates as
      the API server admits them, and no filter on an unnamed dimension in first place. */
  lemma {:induction false} CompiledMachineCharge(rates: seq<PricingRate>, m: Machine, dims: Dimensions, q: real)
    requires forall i | 0 <= i < |rates| :: Admitted(rates[i])
    requires PlanRatesOf(rates).Some? && MachineOf(PlanRatesOf(rates).value) == Some(m)
    requires rates[0].filter.Some? ==> rates[0].filter.value.dimension != ""
    ensures MachinePick(m, dims).Some? <==> OfferPick(rates, dims).Some?
    ensures MachinePick(m, dims).Some? ==> LeafPrices(MachinePick(m, dims).value, OfferPick(rates, dims).value, q)
  {
    var planned := PlanRatesOf(rates).value;
    PlanRatesKeepFilters(rates);
    if m.Leaf? {
      CompiledLeaf(rates[0], q);
    } else {
      MatrixKeyFixed(planned[1..], planned[0].filter.value.dimension);
      assert OneDimension(rates, m.key) by {
        forall i | 0 <= i < |rates| ensures rates[i].filter.Some? && rates[i].filter.value.dimension == m.key {
          assert planned[i].filter == rates[i].filter;
          if i > 0 { assert Names(planned[1..][i - 1], m.key); }
        }
      }
      if m.key in dims {
        PickAgrees(rates, m.key, dims, q);
        LookupSort(DimensionPrices(planned).value, ByValue, dims[m.key]);
      } else {
        NothingPicked(rates, m.key, dims);
      }
    }
  }

  /** The machine prices the event as the Offer does: or neither prices it, or both charge alike. */
  predicate PricedAlike(rates: seq<PricingRate>, m: Machine, dims: Dimensions, q: real) {
    var picked, offered := MachinePick(m, dims), OfferPick(rates, dims);
    (picked.Some? <==> offered.Some?) && (picked.Some? ==> LeafPrices(picked.value, offered.value, q))
  }

  /** The proviso on the first filter is exact: meaning is preserved for all events and quantities if
      and only if the first rate does not filter on a dimension without a name. */
  lemma {:induction false} MeaningPreservedExactly(rates: seq<PricingRate>, m: Machine)
    requires forall i | 0 <= i < |rates| :: Admitted(rates[i])
    requires PlanRatesOf(rates).Some? && MachineOf(PlanRatesOf(rates).value) == Some(m)
    ensures (forall dims, q :: PricedAlike(rates, m, dims, q)) <==>
              (rates[0].filter.Some? ==> rates[0].filter.value.dimension != "")
  {
    hide Admitted, LeafPrices;
    if rates[0].filter.Some? && rates[0].filter.value.dimension == "" {
      var dims := map["" := rates[0].filter.value.value];
      PlanRatesKeepFilters(rates);
      assert Applies(rates[0].filter, dims);
      assert !PricedAlike(rates, m, dims, 0.0);
    } else {
      forall dims, q ensures PricedAlike(rates, m, dims, q) {
        CompiledMachineCharge(rates, m, dims, q);
      }
    }
  }

  /** Without the proviso a leading filter on no dimension is folded into the next dimension: the
      machine then prices events that no rate of the Offer applies to. */
  lemma BlankDimensionIsFoldedIn()
    ensures var flat := (d: string, v: string) => PricingRate(Some(Filter(d, v)), Number(1.0), []);
      var rates := [flat("", "a"), flat("zone", "b")];
      PlanRatesOf(rates).Some? && MachineOf(PlanRatesOf(rates).value).Some?
      && MachinePick(MachineOf(PlanRatesOf(rates).value).value, map["zone" := "a"]).Some?
      && OfferPick(rates, map["zone" := "a"]).None?
  {
    var r0 := PricingRate(Some(Filter("", "a")), Number(1.0), []);
    var r1 := PricingRate(Some(Filter("zone", "b")), Number(1.0), []);
    var dims: Dimensions := map["zone" := "a"];
    var p0, p1 := PlanRate(r0.filter, Some(1.0), []), PlanRate(r1.filter, Some(1.0), []);
    assert PlanRatesOf([r0, r1][1..]) == Some([p1]);
    assert [p0] + [p1] == [p0, p1];
    assert PlanRatesOf([r0, r1]) == Some([p0, p1]);
    var rates := [p0, p1];
    assert rates[1..] == [p1] && [p1][1..] == [];
    assert rates[0].filter.Some?;
    assert MatrixKey([p1], "") == Some("zone");
    assert MatrixKey(rates, "") == Some("zone");
    var leaf := LeafNode(true, [WireTier(0, 1, 1.0)]);
    assert DimensionPrices([p1]) == Some([DimensionPrice("b", leaf)]);
    var prices := DimensionPrices(rates).value;
    assert prices == [DimensionPrice("a", leaf), DimensionPrice("b", leaf)];
    LookupSort(prices, ByValue, "a");
    assert [r0, r1][1..] == [r1] && [r1][1..] == [];
    assert OfferPick([r1], dims).None?;
  }

  /** The generator shown in the pricing UI buckets and prices events as the machine does. */
  function GeneratorPick(g: Generator, dims: Dimensions): Option<seq<WireTier>> {
    match g
    case NoDimension(tiers) => Some(tiers)
    case ByDimension(key, groups) =>
      if key !in dims then None
      else
        var group := Lookup(groups, (x: Group) => x.value, dims[key]);
        if group.None? then None else Some(group.value.tiers)
  }

  lemma {:induction false} GroupLookup(prices: seq<DimensionPrice>, k: string)
    ensures var groups := seq(|prices|, i requires 0 <= i < |prices| => GroupOf(prices[i]));
      var g, p := Lookup(groups, (x: Group) => x.value, k), Lookup(prices, ByValue, k);
      (g.Some? <==> p.Some?) && (g.Some? ==> g.value == GroupOf(p.value))
  {
    if prices != [] {
      GroupLookup(prices[1..], k);
      var groups := seq(|prices|, i requires 0 <= i < |prices| => GroupOf(prices[i]));
      assert groups[1..] == seq(|prices[1..]|, i requires 0 <= i < |prices[1..]| => GroupOf(prices[1..][i]));
    }
  }

  lemma GeneratorMatchesMachine(m: Machine, dims: Dimensions)
    ensures var g, p := GeneratorPick(GeneratorOf(m), dims), MachinePick(m, dims);
      (g.Some? <==> p.Some?) && (g.Some? ==> g.value == p.value.tiers)
  {
    if m.DimensionMatrix? && m.key in dims {
      GroupLookup(m.prices, dims[m.key]);
    }
  }
}
