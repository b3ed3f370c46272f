/**
 * The rate scenarios the pricers build around QuantLib. A curve is a list of node rates:
 * an anchor node at the evaluation date that repeats the first input rate, then one node
 * per tenor. Scenarios are copies of that list with a parallel shift (every node) or a
 * key-rate shift (one node). The pricer itself is opaque: a function from a node list to
 * an NPV. Sensitivities are finite differences of those NPVs.
 */
module CurveScenarios {
  import opened CodeTables

  /** One basis point: the delta bump of every pricer. */
  const BasisPoint: real := 0.0001

  /** The sensitivity scale of the key-rate and CSR loops: NPV change per unit rate move. */
  const PerUnit: real := 10000.0

  /** The GIRR delta vertices 0.25 .. 30 years of the Basel framework (MAR21.8), as QuantLib periods and as year fractions. */
  const GirrPeriods: seq<Period> := [Period(3, Months), Period(6, Months), Period(1, Years), Period(2, Years),
    Period(3, Years), Period(5, Years), Period(10, Years), Period(15, Years), Period(20, Years), Period(30, Years)]
  const GirrTenors: seq<real> := [0.25, 0.5, 1.0, 2.0, 3.0, 5.0, 10.0, 15.0, 20.0, 30.0]

  /** The CSR vertices of Bond: 6M, 1Y, 3Y, 5Y, 10Y. */
  const CsrPeriods: seq<Period> := [Period(6, Months), Period(1, Years), Period(3, Years), Period(5, Years), Period(10, Years)]
  const CsrTenors: seq<real> := [0.5, 1.0, 3.0, 5.0, 10.0]

  /** The year fraction a tenor label stands for: months over twelve. */
  function PeriodYears(p: Period): real {
    PeriodMonths(p) as real / 12.0
  }

  /** The tenor labels written to the result buffers are the year fractions of the curve periods. */
  lemma TenorLabelsMatchPeriods()
    ensures |GirrTenors| == |GirrPeriods| == 10 && |CsrTenors| == |CsrPeriods| == 5
    ensures forall i :: 0 <= i < 10 ==> GirrTenors[i] == PeriodYears(GirrPeriods[i])
    ensures forall i :: 0 <= i < 5 ==> CsrTenors[i] == PeriodYears(CsrPeriods[i])
  {
  }

  // ---- node lists ----

  /** Where a node sits: the evaluation date itself, or the evaluation date plus a period. */
  datatype Pillar = EvaluationDate | AfterPeriod(period: Period)

  function Pillars(periods: seq<Period>): (r: seq<Pillar>)
    ensures |r| == |periods| + 1
  {
    [EvaluationDate] + seq(|periods|, i requires 0 <= i < |periods| => AfterPeriod(periods[i]))
  }

  /** Every node moved by d. */
  function Shift(xs: seq<real>, d: real): (r: seq<real>)
    ensures |r| == |xs|
  {
    seq(|xs|, i requires 0 <= i < |xs| => xs[i] + d)
  }

  /**
   * The node loop of every pricer: the anchor (evaluation date, rates[0]) and then, for each
   * of the first n tenors, the node (evaluation date + periods[i], rates[i]). The first rate
   * therefore appears twice.
   */
  method BuildCurveNodes(periods: seq<Period>, rates: seq<real>, n: nat)
    returns (pillars: seq<Pillar>, nodes: seq<real>)
    requires 1 <= |rates| && n <= |rates| && n <= |periods|
    ensures pillars == Pillars(periods[..n])
    ensures nodes == [rates[0]] + rates[..n]
  {
    pillars := [EvaluationDate];
    nodes := [rates[0]];
    var i := 0;
    while i < n
      invariant 0 <= i <= n
      invariant pillars == Pillars(periods[..i])
      invariant nodes == [rates[0]] + rates[..i]
    {
      pillars := pillars + [AfterPeriod(periods[i])];
      nodes := nodes + [rates[i]];
      assert rates[..i + 1] == rates[..i] + [rates[i]];
      i := i + 1;
    }
  }

  /**
   * Bond's node loop: the same pillars, but every tenor node carries spreadOverYield while
   * the anchor keeps the bare first rate.
   */
  method BuildSpreadCurveNodes(periods: seq<Period>, rates: seq<real>, n: nat, spread: real)
    returns (pillars: seq<Pillar>, nodes: seq<real>)
    requires 1 <= |rates| && n <= |rates| && n <= |periods|
    ensures pillars == Pillars(periods[..n])
    ensures nodes == [rates[0]] + Shift(rates[..n], spread)
  {
    pillars := [EvaluationDate];
    nodes := [rates[0]];
    var i := 0;
    while i < n
      invariant 0 <= i <= n
      invariant pillars == Pillars(periods[..i])
      invariant nodes == [rates[0]] + Shift(rates[..i], spread)
    {
      pillars := pillars + [AfterPeriod(periods[i])];
      nodes := nodes + [rates[i] + spread];
      assert Shift(rates[..i + 1], spread) == Shift(rates[..i], spread) + [rates[i] + spread];
      i := i + 1;
    }
  }

  /** The spread curve is the plain curve with every tenor node, and not the anchor, moved by the spread. */
  lemma SpreadCurveFromPlainCurve(rates: seq<real>, n: nat, spread: real)
    requires 1 <= |rates| && n <= |rates|
    ensures [rates[0]] + Shift(rates[..n], spread) == [rates[0]] + Shift(([rates[0]] + rates[..n])[1..], spread)
    ensures spread != 0.0 && n >= 1 ==> ([rates[0]] + Shift(rates[..n], spread))[1] != ([rates[0]] + rates[..n])[1]
  {
    assert ([rates[0]] + rates[..n])[1..] == rates[..n];
  }

  // ---- parallel and key-rate scenarios ----

  /** A bumped copy: the copy is moved node by node, the original list is left as it was. */
  method ParallelBumped(nodes: seq<real>, shift: real) returns (bumped: seq<real>)
    ensures bumped == Shift(nodes, shift)
  {
    bumped := nodes;
    var i := 0;
    while i < |bumped|
      invariant 0 <= i <= |bumped| == |nodes|
      invariant forall j :: 0 <= j < i ==> bumped[j] == nodes[j] + shift
      invariant forall j :: i <= j < |nodes| ==> bumped[j] == nodes[j]
    {
      bumped := bumped[i := bumped[i] + shift];
      i := i + 1;
    }
  }

  /** Shifting back undoes a shift. */
  lemma ShiftInverse(xs: seq<real>, d: real)
    ensures Shift(Shift(xs, d), -d) == xs
  {
    assert forall i :: 0 <= i < |xs| ==> Shift(Shift(xs, d), -d)[i] == xs[i];
  }

  /** The up and down scenarios of a gearing pair sit symmetrically around the unbumped curve. */
  lemma ParallelPairSymmetric(xs: seq<real>, size: real)
    ensures forall i :: 0 <= i < |xs| ==> (Shift(xs, size)[i] + Shift(xs, -size)[i]) / 2.0 == xs[i]
    ensures forall i :: 0 <= i < |xs| ==> Shift(xs, size)[i] - Shift(xs, -size)[i] == 2.0 * size
  {
  }

  /** A copy with node i moved by d and every other node as it was. */
  function BumpAt(xs: seq<real>, i: nat, d: real): (r: seq<real>)
    requires i < |xs|
    ensures |r| == |xs| && r[i] == xs[i] + d
    ensures forall j :: 0 <= j < |xs| && j != i ==> r[j] == xs[j]
  {
    xs[i := xs[i] + d]
  }

  /** Moving node i back undoes the key-rate bump. */
  lemma BumpAtInverse(xs: seq<real>, i: nat, d: real)
    requires i < |xs|
    ensures BumpAt(BumpAt(xs, i, d), i, -d) == xs
  {
  }

  /** The sensitivity one scenario contributes: NPV change per unit rate move of a one-basis-point bump. */
  function Sensitivity(bumpedNpv: real, npv: real): real {
    (bumpedNpv - npv) * PerUnit
  }

  /**
   * The key-rate deltas: one per non-anchor node b = 1 .. |nodes|-1, each from the scenario
   * that moves node b alone by one basis point. The anchor is never bumped on its own.
   */
  function KeyRateDeltas(price: seq<real> -> real, nodes: seq<real>, npv: real): (r: seq<real>)
    requires |nodes| >= 1
    ensures |r| == |nodes| - 1
  {
    seq(|nodes| - 1, j requires 0 <= j < |nodes| - 1 => Sensitivity(price(BumpAt(nodes, j + 1, BasisPoint)), npv))
  }

  /** The key-rate loop: for bumpNum = 1 .. |nodes|-1, copy the nodes, bump node bumpNum, price, push back. */
  method KeyRateLoop(price: seq<real> -> real, nodes: seq<real>, npv: real) returns (girr: seq<real>)
    requires |nodes| >= 1
    ensures girr == KeyRateDeltas(price, nodes, npv)
  {
    girr := [];
    var bumpNum := 1;
    while bumpNum < |nodes|
      invariant 1 <= bumpNum <= |nodes|
      invariant |girr| == bumpNum - 1
      invariant forall j :: 0 <= j < bumpNum - 1 ==> girr[j] == Sensitivity(price(BumpAt(nodes, j + 1, BasisPoint)), npv)
    {
      var bumpGirrRates := nodes;
      bumpGirrRates := bumpGirrRates[bumpNum := bumpGirrRates[bumpNum] + BasisPoint];
      girr := girr + [Sensitivity(price(bumpGirrRates), npv)];
      bumpNum := bumpNum + 1;
    }
  }

  /** The gearings of the parallel scenario pair: up, then down. */
  const Gearings: seq<real> := [1.0, -1.0]

  /** The bumpGearings loop: the NPV under the curve moved up by size, then under the curve moved down by size. */
  method GearingScenarios(price: seq<real> -> real, nodes: seq<real>, size: real) returns (bumpedNpv: seq<real>)
    ensures bumpedNpv == [price(Shift(nodes, size)), price(Shift(nodes, -size))]
  {
    bumpedNpv := [0.0, 0.0];
    var bumpNo := 0;
    while bumpNo < |Gearings|
      invariant 0 <= bumpNo <= 2 && |bumpedNpv| == 2
      invariant bumpNo > 0 ==> bumpedNpv[0] == price(Shift(nodes, size))
      invariant bumpNo > 1 ==> bumpedNpv[1] == price(Shift(nodes, -size))
    {
      var bumped := ParallelBumped(nodes, Gearings[bumpNo] * size);
      bumpedNpv := bumpedNpv[bumpNo := price(bumped)];
      bumpNo := bumpNo + 1;
    }
  }

  /** The FRTB curvature pair: the NPV moves under the whole curve shifted up, then down, by the risk weight. */
  function CurvaturePair(price: seq<real> -> real, nodes: seq<real>, npv: real, riskWeight: real): (r: seq<real>)
    ensures |r| == 2
  {
    [price(Shift(nodes, riskWeight)) - npv, price(Shift(nodes, -riskWeight)) - npv]
  }

  // ---- finite differences ----

  /** Delta: NPV change per unit rate move, from the up scenario. */
  function Delta(up: real, npv: real): real {
    (up - npv) / BasisPoint
  }

  /** Gamma: the central second difference of the up/down pair. */
  function Gamma(up: real, npv: real, down: real): real {
    (up - 2.0 * npv + down) / (BasisPoint * BasisPoint)
  }

  /** PV01: delta times the bump size. */
  function PV01(delta: real): real {
    delta * BasisPoint
  }

  /** The Basel 2 record [delta, gamma, duration, convexity, PV01]. */
  function Basel2Record(up: real, npv: real, down: real, duration: real, convexity: real): (r: seq<real>)
    ensures |r| == 5 && r[2] == duration && r[3] == convexity
    ensures r[4] == up - npv
    ensures r[0] * BasisPoint == up - npv
  {
    [Delta(up, npv), Gamma(up, npv, down), duration, convexity, PV01(Delta(up, npv))]
  }

  /** PV01 is exactly the NPV move of the up scenario. */
  lemma PV01IsUpMove(up: real, npv: real)
    ensures PV01(Delta(up, npv)) == up - npv
  {
  }

  /**
   * For an NPV that is quadratic in the parallel shift, a + b s + c s^2, delta is the slope
   * b plus the forward-difference error c h, and gamma is the exact second derivative 2c.
   */
  lemma QuadraticProfile(a: real, b: real, c: real)
    ensures Delta(a + b * BasisPoint + c * BasisPoint * BasisPoint, a) == b + c * BasisPoint
    ensures Gamma(a + b * BasisPoint + c * BasisPoint * BasisPoint, a, a - b * BasisPoint + c * BasisPoint * BasisPoint) == 2.0 * c
  {
  }

  /** The floating leg's effective duration (down - up) / (2 h npv); the NPV is not zero. */
  function EffectiveDuration(up: real, npv: real, down: real): real
    requires npv != 0.0
  {
    (down - up) / (BasisPoint * npv * 2.0)
  }

  /** The floating leg's convexity: gamma over NPV. */
  function EffectiveConvexity(up: real, npv: real, down: real): real
    requires npv != 0.0
  {
    Gamma(up, npv, down) / npv
  }

  /** For a quadratic profile a + b s + c s^2 with a != 0, the effective measures are -b/a and 2c/a. */
  lemma EffectiveMeasuresOfQuadratic(a: real, b: real, c: real)
    requires a != 0.0
    ensures EffectiveDuration(a + b * BasisPoint + c * BasisPoint * BasisPoint, a, a - b * BasisPoint + c * BasisPoint * BasisPoint) == -b / a
    ensures EffectiveConvexity(a + b * BasisPoint + c * BasisPoint * BasisPoint, a, a - b * BasisPoint + c * BasisPoint * BasisPoint) == 2.0 * c / a
  {
    var up := a + b * BasisPoint + c * BasisPoint * BasisPoint;
    var down := a - b * BasisPoint + c * BasisPoint * BasisPoint;
    var d := EffectiveDuration(up, a, down);
    assert d * (BasisPoint * a * 2.0) == down - up;
    assert (d * a) * (BasisPoint * 2.0) == -b * (BasisPoint * 2.0);
    assert d * a == -b;
    QuadraticProfile(a, b, c);
  }

  // ---- linear pricers ----

  function Sum(xs: seq<real>): real
    decreases |xs|
  {
    if |xs| == 0 then 0.0 else xs[0] + Sum(xs[1..])
  }

  /** The NPV of a pricer that is linear in the node rates, with weights w. */
  function Dot(w: seq<real>, x: seq<real>): real
    requires |w| == |x|
    decreases |w|
  {
    if |w| == 0 then 0.0 else w[0] * x[0] + Dot(w[1..], x[1..])
  }

  /** Moving node i by d moves a linear NPV by its weight times d. */
  lemma {:induction false} DotBumpAt(w: seq<real>, x: seq<real>, i: nat, d: real)
    requires |w| == |x| && i < |x|
    ensures Dot(w, BumpAt(x, i, d)) == Dot(w, x) + w[i] * d
    decreases |w|
  {
    var y := BumpAt(x, i, d);
    if i == 0 {
      assert y[1..] == x[1..];
      assert w[0] * y[0] == w[0] * x[0] + w[0] * d;
    } else {
      assert y[1..] == BumpAt(x[1..], i - 1, d);
      DotBumpAt(w[1..], x[1..], i - 1, d);
    }
  }

  /** Moving every node by d moves a linear NPV by d times the sum of the weights. */
  lemma {:induction false} DotShift(w: seq<real>, x: seq<real>, d: real)
    requires |w| == |x|
    ensures Dot(w, Shift(x, d)) == Dot(w, x) + d * Sum(w)
    decreases |w|
  {
    if |w| > 0 {
      var y := Shift(x, d);
      assert y[1..] == Shift(x[1..], d);
      DotShift(w[1..], x[1..], d);
      assert w[0] * y[0] == w[0] * x[0] + d * w[0];
    }
  }

  ghost predicate LinearPricer(price: seq<real> -> real, w: seq<real>, c: real) {
    forall x :: |x| == |w| ==> price(x) == Dot(w, x) + c
  }

  /**
   * Against a linear pricer, key-rate delta b is exactly the weight of node b, and the
   * deltas add up to the parallel delta less the anchor's weight: the anchor node, which
   * repeats the first rate, is moved by the parallel scenarios but by no key-rate scenario.
   */
  lemma KeyRateDeltasOfLinearPricer(price: seq<real> -> real, w: seq<real>, c: real, nodes: seq<real>)
    requires |w| == |nodes| >= 1 && LinearPricer(price, w, c)
    ensures KeyRateDeltas(price, nodes, price(nodes)) == w[1..]
    ensures Sum(KeyRateDeltas(price, nodes, price(nodes))) == Delta(price(Shift(nodes, BasisPoint)), price(nodes)) - w[0]
  {
    var npv := price(nodes);
    var k := KeyRateDeltas(price, nodes, npv);
    forall j | 0 <= j < |nodes| - 1
      ensures k[j] == w[1..][j]
    {
      DotBumpAt(w, nodes, j + 1, BasisPoint);
    }
    DotShift(w, nodes, BasisPoint);
  }

  /** Against a linear pricer the parallel delta is the sum of the weights, gamma vanishes, and the curvature pair is antisymmetric. */
  lemma ParallelMeasuresOfLinearPricer(price: seq<real> -> real, w: seq<real>, c: real, nodes: seq<real>, rw: real)
    requires |w| == |nodes| && LinearPricer(price, w, c)
    ensures Delta(price(Shift(nodes, BasisPoint)), price(nodes)) == Sum(w)
    ensures Gamma(price(Shift(nodes, BasisPoint)), price(nodes), price(Shift(nodes, -BasisPoint))) == 0.0
    ensures price(Shift(nodes, rw)) - price(nodes) == -(price(Shift(nodes, -rw)) - price(nodes))
  {
    LinearShift(price, w, c, nodes, BasisPoint);
    OppositeShifts(price, w, c, nodes, BasisPoint);
    OppositeShifts(price, w, c, nodes, rw);
  }

  /** Moving every node up by d changes a linear pricer's value by minus what moving them down does. */
  lemma OppositeShifts(price: seq<real> -> real, w: seq<real>, c: real, nodes: seq<real>, d: real)
    requires |w| == |nodes| && LinearPricer(price, w, c)
    ensures price(Shift(nodes, d)) - price(nodes) == -(price(Shift(nodes, -d)) - price(nodes))
  {
    LinearShift(price, w, c, nodes, d);
    LinearShift(price, w, c, nodes, -d);
    NegatedFactor(d, Sum(w));
  }

  lemma NegatedFactor(d: real, s: real)
    ensures (-d) * s == -(d * s)
  {
  }

  /** A linear pricer moves by d times the weight sum when every node moves by d. */
  lemma LinearShift(price: seq<real> -> real, w: seq<real>, c: real, nodes: seq<real>, d: real)
    requires |w| == |nodes| && LinearPricer(price, w, c)
    ensures price(Shift(nodes, d)) - price(nodes) == d * Sum(w)
  {
    assert price(nodes) == Dot(w, nodes) + c;
    assert price(Shift(nodes, d)) == Dot(w, Shift(nodes, d)) + c;
    DotShift(w, nodes, d);
  }

  // ---- Bond's credit-spread scenarios ----

  /**
   * CSR scenario b (1 <= b < |spreads|): spread 0 is bumped exactly when b == 1, and spread
   * i >= 1 exactly when i == b. The first scenario thus moves two spreads, the others one.
   */
  function CsrScenario(spreads: seq<real>, b: nat): (r: seq<real>)
    requires 1 <= b < |spreads|
    ensures |r| == |spreads|
  {
    if b == 1 then BumpAt(BumpAt(spreads, 0, BasisPoint), 1, BasisPoint) else BumpAt(spreads, b, BasisPoint)
  }

  /** Builds scenario bumpNum the way Bond does: spread 0 first, then spreads 1.. with their own bump. */
  method CsrBumpedSpreads(spreads: seq<real>, bumpNum: nat) returns (bumped: seq<real>)
    requires 1 <= bumpNum < |spreads|
    ensures bumped == CsrScenario(spreads, bumpNum)
  {
    if bumpNum == 1 {
      bumped := [spreads[0] + BasisPoint];
    } else {
      bumped := [spreads[0]];
    }
    var i := 1;
    while i < |spreads|
      invariant 1 <= i <= |spreads| && |bumped| == i
      invariant bumped[0] == if bumpNum == 1 then spreads[0] + BasisPoint else spreads[0]
      invariant forall j :: 1 <= j < i ==> bumped[j] == spreads[j] + if j == bumpNum then BasisPoint else 0.0
    {
      var bump := if i == bumpNum then BasisPoint else 0.0;
      bumped := bumped + [spreads[i] + bump];
      i := i + 1;
    }
    var spec := CsrScenario(spreads, bumpNum);
    assert forall j :: 0 <= j < |spreads| ==> bumped[j] == spec[j];
  }

  /** One CSR delta per scenario b = 1 .. |spreads|-1. */
  function CsrDeltas(price: seq<real> -> real, spreads: seq<real>, npv: real): (r: seq<real>)
    requires |spreads| >= 1
    ensures |r| == |spreads| - 1
  {
    seq(|spreads| - 1, j requires 0 <= j < |spreads| - 1 => Sensitivity(price(CsrScenario(spreads, j + 1)), npv))
  }

  /** The CSR loop: for bumpNum = 1 .. |spreads|-1, build the scenario, price it, push back the sensitivity. */
  method CsrLoop(price: seq<real> -> real, spreads: seq<real>, npv: real) returns (csr: seq<real>)
    requires |spreads| >= 1
    ensures csr == CsrDeltas(price, spreads, npv)
  {
    csr := [];
    var bumpNum := 1;
    while bumpNum < |spreads|
      invariant 1 <= bumpNum <= |spreads| && |csr| == bumpNum - 1
      invariant forall j :: 0 <= j < bumpNum - 1 ==> csr[j] == Sensitivity(price(CsrScenario(spreads, j + 1)), npv)
    {
      var bumped := CsrBumpedSpreads(spreads, bumpNum);
      csr := csr + [Sensitivity(price(bumped), npv)];
      bumpNum := bumpNum + 1;
    }
  }

  /**
   * Against a pricer linear in the spreads, the first CSR delta carries the anchor's weight
   * together with the first vertex's, each later delta its own vertex's weight, and the CSR
   * deltas add up to the parallel spread delta: no spread is left out and none counted twice.
   */
  lemma CsrDeltasOfLinearPricer(price: seq<real> -> real, w: seq<real>, c: real, spreads: seq<real>)
    requires |w| == |spreads| >= 2 && LinearPricer(price, w, c)
    ensures CsrDeltas(price, spreads, price(spreads))[0] == w[0] + w[1]
    ensures forall j :: 1 <= j < |spreads| - 1 ==> CsrDeltas(price, spreads, price(spreads))[j] == w[j + 1]
    ensures Sum(CsrDeltas(price, spreads, price(spreads))) == Delta(price(Shift(spreads, BasisPoint)), price(spreads))
  {
    var npv := price(spreads);
    var k := CsrDeltas(price, spreads, npv);
    var first := BumpAt(spreads, 0, BasisPoint);
    DotBumpAt(w, spreads, 0, BasisPoint);
    DotBumpAt(w, first, 1, BasisPoint);
    assert k[0] == w[0] + w[1];
    forall j | 1 <= j < |spreads| - 1
      ensures k[j] == w[j + 1]
    {
      DotBumpAt(w, spreads, j + 1, BasisPoint);
    }
    assert k[1..] == w[2..];
    assert w[1..][1..] == w[2..];
    DotShift(w, spreads, BasisPoint);
  }
}
