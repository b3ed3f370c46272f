/**
 * FxForward's `pricingFFW`: an FX forward as two far legs, each a notional paid on its own
 * date and discounted on its own GIRR zero curve (the fixed 3M..30Y pillars, Actual/365
 * Fixed, continuous, annual). Both spot rates are 1. calType 1 writes the two leg NPVs;
 * calType 2 adds the Basel 2 record of each leg; calType 3 adds each leg's GIRR deltas,
 * with a currency-basis delta in front for a currency other than USD, and each leg's
 * curvature pair. Any other calType leaves every buffer as it was.
 *
 * QuantLib is the oracle `ql`: the discount factor of a curve at a date, and the yield,
 * modified duration and convexity of a zero-coupon flow.
 */
module FxForward {
  import opened CodeTables
  import opened CurveScenarios
  import opened PricingTerms
  import opened ResultBuffer
  import LegPricing

  /** Discount factors as a ZeroCurve gives them: exactly 1 at the curve's own reference date. */
  type Discounting = f: (Curve, int) -> real | forall c: Curve :: f(c, c.evaluationDate) == 1.0
    witness (c: Curve, d: int) => 1.0

  /** A zero-coupon flow as QuantLib's ZeroCouponBond holds it: face amount, maturity, settlement. */
  datatype ZeroCoupon = ZeroCoupon(faceAmount: real, maturityDate: int, settlementDate: int)

  /**
   * What pricingFFW asks of QuantLib: discount factors, CashFlows::yield of a zero-coupon
   * flow at a given NPV (Actual/365 Fixed, continuous), and the modified duration and
   * convexity at that yield.
   */
  datatype FxQuantLib = FxQuantLib(
    discount: Discounting,
    yieldOf: (ZeroCoupon, real) -> real,
    modifiedDuration: (ZeroCoupon, real) -> real,
    convexity: (ZeroCoupon, real) -> real)

  /** One leg: its currency code, its notional, its payment date and its GIRR curve. */
  datatype Side = Side(currency: string, notional: real, payDate: int, curve: Curve)

  /** Both legs are valued at a spot rate of 1; the 1288 constant of the source is never used. */
  const SpotFxRate: real := 1.0

  /** The curvature risk weight of calType 3; the GIRR risk-weight arguments are not read. */
  const CurvatureRiskWeight: real := 0.017

  /** A leg's GIRR curve: the first rate at the evaluation date, then one node per tenor. */
  function FxCurve(evaluationDate: int, n: nat, rates: seq<real>): (c: Curve)
    requires n <= |GirrPeriods| && 1 <= |rates| && n <= |rates|
    ensures c.evaluationDate == evaluationDate && |c.nodes| == n + 1 && c.nodes[0] == rates[0]
    ensures forall i :: 0 <= i < n ==> c.nodes[i + 1] == rates[i]
  {
    Curve(evaluationDate, StandardCurve(n), [rates[0]] + rates[..n])
  }

  /** The curve loop of one leg. */
  method MakeFxCurve(evaluationDate: int, n: nat, rates: seq<real>) returns (c: Curve)
    requires n <= |GirrPeriods| && 1 <= |rates| && n <= |rates|
    ensures c == FxCurve(evaluationDate, n, rates)
  {
    var pillars, nodes := BuildCurveNodes(GirrPeriods, rates, n);
    c := Curve(evaluationDate, CurveSpec(pillars, Actual365Fixed, Continuous, Annual), nodes);
  }

  /**
   * The forward discount factor DF(payment) / DF(settlement). Settlement is the evaluation
   * date (no settlement days, null calendar), where the curve's discount factor is 1, so the
   * forward factor is the plain discount factor at payment.
   */
  function ForwardDiscount(discount: Discounting, curve: Curve, date: int): (df: real)
    ensures df == discount(curve, date)
  {
    discount(curve, date) / discount(curve, curve.evaluationDate)
  }

  /** A leg's NPV: spot rate times notional times the forward discount factor at its payment date. */
  function LegNpv(discount: Discounting, side: Side): (npv: real)
    ensures npv == side.notional * discount(side.curve, side.payDate)
  {
    SpotFxRate * side.notional * ForwardDiscount(discount, side.curve, side.payDate)
  }

  /** The leg's notional, discounted to payDate on its curve with the nodes replaced. */
  function Repriced(discount: Discounting, side: Side, payDate: int): seq<real> -> real {
    nodes => SpotFxRate * side.notional * ForwardDiscount(discount, side.curve.(nodes := nodes), payDate)
  }

  /** Repricing on the unmoved nodes at the leg's own date gives the leg's NPV. */
  lemma UnmovedNodesGiveLegNpv(discount: Discounting, side: Side)
    ensures Repriced(discount, side, side.payDate)(side.curve.nodes) == LegNpv(discount, side)
  {
    assert side.curve.(nodes := side.curve.nodes) == side.curve;
  }

  // ---- calType 2 ----

  /** A leg's Basel 2 record: delta and gamma of the ±1bp parallel pair, modified duration and convexity at the leg's yield. */
  function SideBasel2(ql: FxQuantLib, side: Side): (r: seq<real>)
    ensures |r| == 5
  {
    var price := Repriced(ql.discount, side, side.payDate);
    var npv := LegNpv(ql.discount, side);
    var flow := ZeroCoupon(side.notional, side.payDate, side.curve.evaluationDate);
    var ytm := ql.yieldOf(flow, npv);
    Basel2Record(price(Shift(side.curve.nodes, BasisPoint)), npv, price(Shift(side.curve.nodes, -BasisPoint)),
      ql.modifiedDuration(flow, ytm), ql.convexity(flow, ytm))
  }

  /** The calType 2 block for one leg. */
  method WriteSideBasel2(ql: FxQuantLib, side: Side, result: array<real>)
    requires result.Length >= 5
    modifies result
    ensures result[..] == Overwrite(old(result[..]), SideBasel2(ql, side))
  {
    var price := Repriced(ql.discount, side, side.payDate);
    var npv := LegNpv(ql.discount, side);
    var bumpedNpv := GearingScenarios(price, side.curve.nodes, BasisPoint);
    var flow := ZeroCoupon(side.notional, side.payDate, side.curve.evaluationDate);
    var ytm := ql.yieldOf(flow, npv);
    WriteValues(result, Basel2Record(bumpedNpv[0], npv, bumpedNpv[1], ql.modifiedDuration(flow, ytm), ql.convexity(flow, ytm)));
  }

  // ---- calType 3 ----

  /** A leg carries currency-basis risk unless its currency code is exactly "USD". */
  predicate HasBasisRisk(side: Side) {
    side.currency != "USD"
  }

  /**
   * The basis delta: the leg's notional discounted to payDate on its curve moved up by one
   * basis point, less the leg's NPV, per unit rate move. The evident intent is payDate ==
   * the leg's own payment date.
   */
  function BasisDelta(discount: Discounting, side: Side, payDate: int): real {
    Sensitivity(Repriced(discount, side, payDate)(Shift(side.curve.nodes, BasisPoint)), LegNpv(discount, side))
  }

  /** The tenors of a leg's GIRR output: 0.0 in front for the basis delta, then the ten GIRR tenors. */
  function SideTenors(side: Side): (r: seq<real>)
    ensures |r| == |GirrTenors| + (if HasBasisRisk(side) then 1 else 0)
    ensures HasBasisRisk(side) ==> r[0] == 0.0 && r[1..] == GirrTenors
    ensures !HasBasisRisk(side) ==> r == GirrTenors
  {
    (if HasBasisRisk(side) then [0.0] else []) + GirrTenors
  }

  /** A leg's GIRR sensitivities: the basis delta (taken at basisPayDate) in front when it has basis risk, then its key-rate deltas. */
  function SideGirr(discount: Discounting, side: Side, basisPayDate: int): (r: seq<real>)
    requires |side.curve.nodes| >= 1
    ensures |r| == |side.curve.nodes| - 1 + (if HasBasisRisk(side) then 1 else 0)
    ensures HasBasisRisk(side) ==>
              r[0] == BasisDelta(discount, side, basisPayDate) &&
              r[1..] == KeyRateDeltas(Repriced(discount, side, side.payDate), side.curve.nodes, LegNpv(discount, side))
    ensures !HasBasisRisk(side) ==>
              r == KeyRateDeltas(Repriced(discount, side, side.payDate), side.curve.nodes, LegNpv(discount, side))
  {
    (if HasBasisRisk(side) then [BasisDelta(discount, side, basisPayDate)] else [])
      + KeyRateDeltas(Repriced(discount, side, side.payDate), side.curve.nodes, LegNpv(discount, side))
  }

  /** What processResultArray writes for a leg: every tenor of SideTenors whose sensitivity is not zero. */
  function SideGirrLayout(discount: Discounting, side: Side, basisPayDate: int): (r: seq<real>)
    requires |side.curve.nodes| == |GirrTenors| + 1
    ensures |r| <= 2 * |GirrTenors| + 3
  {
    FilteredLayout(SideTenors(side), SideGirr(discount, side, basisPayDate), |SideTenors(side)|)
  }

  /** The GIRR delta block of one leg: the key-rate loop, the basis scenario, then processResultArray. */
  method WriteSideGirrDelta(discount: Discounting, side: Side, basisPayDate: int, result: array<real>)
    requires |side.curve.nodes| == |GirrTenors| + 1 && result.Length >= 2 * |GirrTenors| + 3
    modifies result
    ensures result[..] == Overwrite(old(result[..]), SideGirrLayout(discount, side, basisPayDate))
  {
    var price := Repriced(discount, side, side.payDate);
    var npv := LegNpv(discount, side);
    var girr := KeyRateLoop(price, side.curve.nodes, npv);
    var tenors := GirrTenors;
    if side.currency != "USD" {
      var bumped := ParallelBumped(side.curve.nodes, BasisPoint);
      var basis := Sensitivity(Repriced(discount, side, basisPayDate)(bumped), npv);
      tenors := [0.0] + tenors;
      girr := [basis] + girr;
    }
    assert tenors == SideTenors(side) && girr == SideGirr(discount, side, basisPayDate);
    ProcessResultArray(tenors, girr, |tenors|, result);
  }

  /**
   * The calType 3 block: each leg's GIRR deltas, then each leg's curvature pair. The sell
   * basis delta is taken at sellBasisPayDate: the sell leg's own date in the corrected
   * model, the buy leg's date as written.
   */
  method WriteFxGirr(discount: Discounting, buy: Side, sell: Side, sellBasisPayDate: int,
                     resultBuySideGirrDelta: array<real>, resultSellSideGirrDelta: array<real>,
                     resultBuySideGirrCvr: array<real>, resultSellSideGirrCvr: array<real>)
    requires |buy.curve.nodes| == |GirrTenors| + 1 && |sell.curve.nodes| == |GirrTenors| + 1
    requires resultBuySideGirrDelta != resultSellSideGirrDelta && resultBuySideGirrDelta != resultBuySideGirrCvr &&
      resultBuySideGirrDelta != resultSellSideGirrCvr
    requires resultSellSideGirrDelta != resultBuySideGirrCvr && resultSellSideGirrDelta != resultSellSideGirrCvr &&
      resultBuySideGirrCvr != resultSellSideGirrCvr
    requires resultBuySideGirrDelta.Length >= 50 && resultSellSideGirrDelta.Length >= 50
    requires resultBuySideGirrCvr.Length >= 2 && resultSellSideGirrCvr.Length >= 2
    modifies resultBuySideGirrDelta, resultSellSideGirrDelta, resultBuySideGirrCvr, resultSellSideGirrCvr
    ensures resultBuySideGirrDelta[..] == Overwrite(old(resultBuySideGirrDelta[..]), SideGirrLayout(discount, buy, buy.payDate))
    ensures resultSellSideGirrDelta[..] == Overwrite(old(resultSellSideGirrDelta[..]), SideGirrLayout(discount, sell, sellBasisPayDate))
    ensures resultBuySideGirrCvr[..] == Overwrite(old(resultBuySideGirrCvr[..]),
      CurvaturePair(Repriced(discount, buy, buy.payDate), buy.curve.nodes, LegNpv(discount, buy), CurvatureRiskWeight))
    ensures resultSellSideGirrCvr[..] == Overwrite(old(resultSellSideGirrCvr[..]),
      CurvaturePair(Repriced(discount, sell, sell.payDate), sell.curve.nodes, LegNpv(discount, sell), CurvatureRiskWeight))
  {
    WriteSideGirrDelta(discount, buy, buy.payDate, resultBuySideGirrDelta);
    WriteSideGirrDelta(discount, sell, sellBasisPayDate, resultSellSideGirrDelta);
    LegPricing.WriteCurvature(Repriced(discount, buy, buy.payDate), buy.curve.nodes, LegNpv(discount, buy),
      CurvatureRiskWeight, resultBuySideGirrCvr);
    LegPricing.WriteCurvature(Repriced(discount, sell, sell.payDate), sell.curve.nodes, LegNpv(discount, sell),
      CurvatureRiskWeight, resultSellSideGirrCvr);
  }

  // ---- pricingFFW ----

  /** The initResult calls at the top of pricingFFW: two NPV slots and fifty slots of every other array are zeroed. */
  method InitFxResults(resultNetPv: array<real>, resultBuySideBasel2: array<real>, resultSellSideBasel2: array<real>,
                       resultBuySideGirrDelta: array<real>, resultSellSideGirrDelta: array<real>,
                       resultBuySideGirrCvr: array<real>, resultSellSideGirrCvr: array<real>)
    requires resultNetPv != resultBuySideBasel2 && resultNetPv != resultSellSideBasel2 &&
      resultNetPv != resultBuySideGirrDelta && resultNetPv != resultSellSideGirrDelta &&
      resultNetPv != resultBuySideGirrCvr && resultNetPv != resultSellSideGirrCvr
    requires resultBuySideBasel2 != resultSellSideBasel2 && resultBuySideBasel2 != resultBuySideGirrDelta &&
      resultBuySideBasel2 != resultSellSideGirrDelta && resultBuySideBasel2 != resultBuySideGirrCvr &&
      resultBuySideBasel2 != resultSellSideGirrCvr
    requires resultSellSideBasel2 != resultBuySideGirrDelta && resultSellSideBasel2 != resultSellSideGirrDelta &&
      resultSellSideBasel2 != resultBuySideGirrCvr && resultSellSideBasel2 != resultSellSideGirrCvr
    requires resultBuySideGirrDelta != resultSellSideGirrDelta && resultBuySideGirrDelta != resultBuySideGirrCvr &&
      resultBuySideGirrDelta != resultSellSideGirrCvr
    requires resultSellSideGirrDelta != resultBuySideGirrCvr && resultSellSideGirrDelta != resultSellSideGirrCvr &&
      resultBuySideGirrCvr != resultSellSideGirrCvr
    requires resultNetPv.Length >= 2 && resultBuySideBasel2.Length >= 50 && resultSellSideBasel2.Length >= 50 &&
      resultBuySideGirrDelta.Length >= 50 && resultSellSideGirrDelta.Length >= 50 &&
      resultBuySideGirrCvr.Length >= 50 && resultSellSideGirrCvr.Length >= 50
    modifies resultNetPv, resultBuySideBasel2, resultSellSideBasel2, resultBuySideGirrDelta, resultSellSideGirrDelta,
      resultBuySideGirrCvr, resultSellSideGirrCvr
    ensures resultNetPv[..] == Cleared(old(resultNetPv[..]), 2)
    ensures resultBuySideBasel2[..] == Cleared(old(resultBuySideBasel2[..]), 50)
    ensures resultSellSideBasel2[..] == Cleared(old(resultSellSideBasel2[..]), 50)
    ensures resultBuySideGirrDelta[..] == Cleared(old(resultBuySideGirrDelta[..]), 50)
    ensures resultSellSideGirrDelta[..] == Cleared(old(resultSellSideGirrDelta[..]), 50)
    ensures resultBuySideGirrCvr[..] == Cleared(old(resultBuySideGirrCvr[..]), 50)
    ensures resultSellSideGirrCvr[..] == Cleared(old(resultSellSideGirrCvr[..]), 50)
  {
    InitResult(resultNetPv, 2);
    InitResult(resultBuySideBasel2, 50);
    InitResult(resultSellSideBasel2, 50);
    InitResult(resultBuySideGirrDelta, 50);
    InitResult(resultSellSideGirrDelta, 50);
    InitResult(resultBuySideGirrCvr, 50);
    InitResult(resultSellSideGirrCvr, 50);
  }

  /**
   * pricingFFW. calType 3 needs ten tenors on each curve: the GIRR output is filtered over
   * all ten GIRR tenors. The day-count bases and the GIRR risk weights are not read. As
   * written, the sell leg's basis delta discounts to the buy leg's payment date
   * (SellGirrLayoutAsWritten); every other sell output uses the sell leg's own date.
   */
  method PricingFFW(ql: FxQuantLib, evaluationDate: int,
                    buySideCurrency: string, buySideNotional: real, buySidePayDate: int, buySideDcb: int,
                    buyCurveDataSize: int, buyCurveRates: seq<real>,
                    sellSideCurrency: string, sellSideNotional: real, sellSidePayDate: int, sellSideDcb: int,
                    sellCurveDataSize: int, sellCurveRates: seq<real>,
                    buyGirrRiskWeight: real, sellGirrRiskWeight: real, calType: int,
                    resultNetPv: array<real>, resultBuySideBasel2: array<real>, resultSellSideBasel2: array<real>,
                    resultBuySideGirrDelta: array<real>, resultSellSideGirrDelta: array<real>,
                    resultBuySideGirrCvr: array<real>, resultSellSideGirrCvr: array<real>)
    requires resultNetPv != resultBuySideBasel2 && resultNetPv != resultSellSideBasel2 &&
      resultNetPv != resultBuySideGirrDelta && resultNetPv != resultSellSideGirrDelta &&
      resultNetPv != resultBuySideGirrCvr && resultNetPv != resultSellSideGirrCvr
    requires resultBuySideBasel2 != resultSellSideBasel2 && resultBuySideBasel2 != resultBuySideGirrDelta &&
      resultBuySideBasel2 != resultSellSideGirrDelta && resultBuySideBasel2 != resultBuySideGirrCvr &&
      resultBuySideBasel2 != resultSellSideGirrCvr
    requires resultSellSideBasel2 != resultBuySideGirrDelta && resultSellSideBasel2 != resultSellSideGirrDelta &&
      resultSellSideBasel2 != resultBuySideGirrCvr && resultSellSideBasel2 != resultSellSideGirrCvr
    requires resultBuySideGirrDelta != resultSellSideGirrDelta && resultBuySideGirrDelta != resultBuySideGirrCvr &&
      resultBuySideGirrDelta != resultSellSideGirrCvr
    requires resultSellSideGirrDelta != resultBuySideGirrCvr && resultSellSideGirrDelta != resultSellSideGirrCvr &&
      resultBuySideGirrCvr != resultSellSideGirrCvr
    requires 1 <= calType <= 3 ==>
      0 <= buyCurveDataSize <= |GirrPeriods| && 1 <= |buyCurveRates| && buyCurveDataSize <= |buyCurveRates| &&
      0 <= sellCurveDataSize <= |GirrPeriods| && 1 <= |sellCurveRates| && sellCurveDataSize <= |sellCurveRates| &&
      resultNetPv.Length >= 2 && resultBuySideBasel2.Length >= 50 && resultSellSideBasel2.Length >= 50 &&
      resultBuySideGirrDelta.Length >= 50 && resultSellSideGirrDelta.Length >= 50 &&
      resultBuySideGirrCvr.Length >= 50 && resultSellSideGirrCvr.Length >= 50
    requires calType == 3 ==> buyCurveDataSize == |GirrTenors| && sellCurveDataSize == |GirrTenors|
    modifies resultNetPv, resultBuySideBasel2, resultSellSideBasel2, resultBuySideGirrDelta, resultSellSideGirrDelta,
      resultBuySideGirrCvr, resultSellSideGirrCvr
    ensures !(1 <= calType <= 3) ==>
      unchanged(resultNetPv, resultBuySideBasel2, resultSellSideBasel2, resultBuySideGirrDelta, resultSellSideGirrDelta,
        resultBuySideGirrCvr, resultSellSideGirrCvr)
    ensures 1 <= calType <= 3 ==>
      var buy := Side(buySideCurrency, buySideNotional, buySidePayDate, FxCurve(evaluationDate, buyCurveDataSize, buyCurveRates));
      var sell := Side(sellSideCurrency, sellSideNotional, sellSidePayDate, FxCurve(evaluationDate, sellCurveDataSize, sellCurveRates));
      var buyNpv, sellNpv := LegNpv(ql.discount, buy), LegNpv(ql.discount, sell);
      && resultNetPv[..] == Overwrite(old(resultNetPv[..]), [buyNpv, sellNpv])
      && resultBuySideBasel2[..] == Overwrite(Cleared(old(resultBuySideBasel2[..]), 50),
           if calType == 2 then SideBasel2(ql, buy) else [])
      && resultSellSideBasel2[..] == Overwrite(Cleared(old(resultSellSideBasel2[..]), 50),
           if calType == 2 then SideBasel2(ql, sell) else [])
      && resultBuySideGirrDelta[..] == Overwrite(Cleared(old(resultBuySideGirrDelta[..]), 50),
           if calType == 3 then SideGirrLayout(ql.discount, buy, buy.payDate) else [])
      && resultSellSideGirrDelta[..] == Overwrite(Cleared(old(resultSellSideGirrDelta[..]), 50),
           if calType == 3 then SellGirrLayoutAsWritten(ql.discount, buy, sell) else [])
      && resultBuySideGirrCvr[..] == Overwrite(Cleared(old(resultBuySideGirrCvr[..]), 50),
           if calType == 3 then CurvaturePair(Repriced(ql.discount, buy, buy.payDate), buy.curve.nodes, buyNpv, CurvatureRiskWeight) else [])
      && resultSellSideGirrCvr[..] == Overwrite(Cleared(old(resultSellSideGirrCvr[..]), 50),
           if calType == 3 then CurvaturePair(Repriced(ql.discount, sell, sell.payDate), sell.curve.nodes, sellNpv, CurvatureRiskWeight) else [])
  {
    if !(1 <= calType <= 3) {
      return;
    }
    InitFxResults(resultNetPv, resultBuySideBasel2, resultSellSideBasel2, resultBuySideGirrDelta, resultSellSideGirrDelta,
      resultBuySideGirrCvr, resultSellSideGirrCvr);
    var buyCurve := MakeFxCurve(evaluationDate, buyCurveDataSize, buyCurveRates);
    var sellCurve := MakeFxCurve(evaluationDate, sellCurveDataSize, sellCurveRates);
    var buy := Side(buySideCurrency, buySideNotional, buySidePayDate, buyCurve);
    var sell := Side(sellSideCurrency, sellSideNotional, sellSidePayDate, sellCurve);
    WriteValues(resultNetPv, [LegNpv(ql.discount, buy), LegNpv(ql.discount, sell)]);
    if calType == 2 {
      WriteSideBasel2(ql, buy, resultBuySideBasel2);
      WriteSideBasel2(ql, sell, resultSellSideBasel2);
    } else if calType == 3 {
      WriteFxGirr(ql.discount, buy, sell, buy.payDate,
        resultBuySideGirrDelta, resultSellSideGirrDelta, resultBuySideGirrCvr, resultSellSideGirrCvr);
    }
  }

  // ---- the sell-side basis scenario ----

  /**
   * The sell leg's GIRR output as written: its basis scenario discounts the sell notional
   * to the buy leg's payment date.
   */
  function SellGirrLayoutAsWritten(discount: Discounting, buy: Side, sell: Side): (r: seq<real>)
    requires |sell.curve.nodes| == |GirrTenors| + 1
    ensures |r| <= 2 * |GirrTenors| + 3
  {
    SideGirrLayout(discount, sell, buy.payDate)
  }

  /** Simple-interest discounting on the anchor rate over an Actual/365 year fraction. */
  function SimpleDiscount(): Discounting {
    (c: Curve, d: int) => if |c.nodes| == 0 then 1.0 else 1.0 - c.nodes[0] * (d - c.evaluationDate) as real / 365.0
  }

  /**
   * The discrepancy: a non-USD sell leg of notional 1 paid after one year on a flat zero
   * curve, in a forward whose buy leg pays after two years. The sell leg's NPV moves by -1
   * per unit rate under the parallel basis bump; as written the reported basis delta is -2,
   * the move of a flow paid on the buy date.
   */
  lemma SellBasisUsesBuyPayDate()
    ensures var sell := Side("KRW", 1.0, 365, FxCurve(0, 10, seq(10, _ => 0.0)));
            BasisDelta(SimpleDiscount(), sell, 730) == -2.0 &&
            BasisDelta(SimpleDiscount(), sell, sell.payDate) == -1.0
  {
    var sell := Side("KRW", 1.0, 365, FxCurve(0, 10, seq(10, _ => 0.0)));
    var nodes := sell.curve.nodes;
    assert nodes[0] == 0.0;
    var bumped := Shift(nodes, BasisPoint);
    assert bumped[0] == BasisPoint;
    assert LegNpv(SimpleDiscount(), sell) == 1.0;
    assert SimpleDiscount()(sell.curve.(nodes := bumped), 730) == 1.0 - BasisPoint * 2.0;
    assert SimpleDiscount()(sell.curve.(nodes := bumped), 365) == 1.0 - BasisPoint;
  }

  /**
   * The corrected basis delta is the parallel delta of the leg itself: against a leg NPV
   * linear in the node rates it is the anchor's weight plus the sum of the key-rate deltas,
   * so the GIRR output of a non-USD leg splits the leg's whole rate risk between the basis
   * line and the tenors.
   */
  lemma BasisDeltaOfLinearLeg(discount: Discounting, side: Side, w: seq<real>, c: real)
    requires |w| == |side.curve.nodes| >= 1 && LinearPricer(Repriced(discount, side, side.payDate), w, c)
    ensures BasisDelta(discount, side, side.payDate) ==
      w[0] + Sum(KeyRateDeltas(Repriced(discount, side, side.payDate), side.curve.nodes, LegNpv(discount, side)))
  {
    var price := Repriced(discount, side, side.payDate);
    var nodes := side.curve.nodes;
    UnmovedNodesGiveLegNpv(discount, side);
    KeyRateDeltasOfLinearPricer(price, w, c, nodes);
    var up := price(Shift(nodes, BasisPoint));
    assert Sensitivity(up, price(nodes)) == Delta(up, price(nodes));
  }
}
