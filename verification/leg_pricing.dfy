/**
 * The three Leg pricers: pricingZCL (zero-coupon leg), pricingFDL (fixed-rate leg) and
 * pricingFLL (floating-rate leg). Each checks calType, clears its result buffers with
 * initResult, builds its curves and its bond, prices it, and for calType 2 writes the
 * Basel 2 record, for calType 3 the packed GIRR deltas and the curvature pair, and for
 * calType 4 the cash-flow table. The return value is the NPV, or -1 for an unsupported
 * calType or a cash flow of an unexpected kind.
 *
 * QuantLib is the oracle `ql`: the NPV of a bond under a discounting engine on a curve, the
 * bond's cash flows, the curve's discount factors, and the yield, Macaulay duration and
 * convexity of a cash-flow list.
 */
module LegPricing {
  import opened CodeTables
  import opened CurveScenarios
  import opened PricingTerms
  import opened ResultBuffer
  import opened CashFlows

  /** A fixing added to the index for the coupon period that starts on accrualStart. */
  datatype Fixing = Fixing(accrualStart: int, rate: real)

  /** The IborIndex of pricingFLL (family name "CD"); it forecasts on the curve its handle is linked to. */
  datatype IborIndex = IborIndex(tenor: Period, fixingDays: int, currency: Currency, calendar: Calendar,
                                 convention: BusinessDayConvention, endOfMonth: bool, dayCounter: DayCounter,
                                 forecastCurve: Curve)

  /**
   * The instruments. The zero-coupon bond has no settlement days, the null calendar, Modified
   * Following and redemption 100; the custom fixed and floating bonds carry one redemption
   * of the given ratio. The floating bond is built without an issue date.
   */
  datatype Bond =
    | ZeroCouponBond(notional: real, maturityDate: int, issueDate: int)
    | FixedRateBond(notional: real, schedule: Schedule, couponRate: real, dayCounter: DayCounter,
                    paymentConvention: BusinessDayConvention, paymentLag: int, redemption: real,
                    issueDate: int, paymentCalendar: Calendar)
    | FloatingRateBond(notional: real, schedule: Schedule, index: IborIndex, dayCounter: DayCounter,
                       paymentConvention: BusinessDayConvention, fixingDays: int, paymentLag: int,
                       gearing: real, spread: real, redemption: real, fixings: seq<Fixing>)

  /**
   * What the pricers ask of QuantLib. `yieldOf` is CashFlows::yield of a cash-flow list at
   * a given NPV (Actual/365 Fixed, compounded semiannually); `macaulayDuration` and
   * `convexity` are taken at that yield.
   */
  datatype QuantLib = QuantLib(
    npv: (Bond, Curve) -> real,
    cashFlows: Bond -> seq<CashFlow>,
    discount: Curve -> (int -> real),
    yieldOf: (seq<CashFlow>, real) -> real,
    macaulayDuration: (seq<CashFlow>, real) -> real,
    convexity: (seq<CashFlow>, real) -> real)

  // ---- curves and bonds from the arguments ----

  /** What the curve arguments must provide: n tenors, at least one rate, n rates, four conventions. */
  predicate CurveArguments(n: int, tenorDayCount: int, rates: seq<real>, convention: seq<int>) {
    0 <= n <= tenorDayCount && 1 <= |rates| && n <= |rates| && |convention| >= 4
  }

  /** The curve a Leg pricer builds from a tenor-days array, a rate array and a convention array. */
  function LegCurve(evaluationDate: int, tenorDays: seq<int>, n: nat, rates: seq<real>, convention: seq<int>): (c: Curve)
    requires n <= |tenorDays| && 1 <= |rates| && n <= |rates| && |convention| >= 4
    ensures |c.nodes| == n + 1 && c.nodes[0] == rates[0]
    ensures forall i :: 0 <= i < n ==> c.nodes[i + 1] == rates[i]
  {
    Curve(evaluationDate, ConventionCurve(tenorDays, n, convention), [rates[0]] + rates[..n])
  }

  method MakeLegCurve(evaluationDate: int, tenorDays: array<int>, n: int, rates: seq<real>, convention: seq<int>)
    returns (curve: Curve)
    requires CurveArguments(n, tenorDays.Length, rates, convention)
    ensures curve == LegCurve(evaluationDate, tenorDays[..], n, rates, convention)
  {
    var spec, nodes := BuildLegCurve(tenorDays, n, rates, convention);
    curve := Curve(evaluationDate, spec, nodes);
  }

  /**
   * The discrepancy in pricingFLL's index curve: when there are fewer discount tenors than
   * index tenors, the curve it builds (LegCurve at numberOfGirrTenors) is a proper prefix of
   * the intended one (LegCurve at numberOfIndexGirrTenors). The anchor, the pillars and the
   * rates agree up to numberOfGirrTenors; the remaining index tenors are missing, and the
   * longest node holds a different rate whenever the two rates differ.
   */
  lemma IndexCurveLosesTenors(evaluationDate: int, indexTenorDays: seq<int>, numberOfIndexGirrTenors: nat,
                              numberOfGirrTenors: nat, indexRates: seq<real>, convention: seq<int>)
    requires numberOfGirrTenors < numberOfIndexGirrTenors <= |indexTenorDays|
    requires numberOfIndexGirrTenors <= |indexRates| && |convention| >= 4
    ensures var asWritten := LegCurve(evaluationDate, indexTenorDays, numberOfGirrTenors, indexRates, convention);
            var intended := LegCurve(evaluationDate, indexTenorDays, numberOfIndexGirrTenors, indexRates, convention);
            |asWritten.nodes| < |intended.nodes| && |asWritten.spec.pillars| < |intended.spec.pillars| &&
            asWritten.nodes == intended.nodes[..numberOfGirrTenors + 1] &&
            asWritten.spec.pillars == intended.spec.pillars[..numberOfGirrTenors + 1] &&
            (numberOfGirrTenors >= 1 && indexRates[numberOfGirrTenors - 1] != indexRates[numberOfIndexGirrTenors - 1] ==>
              asWritten.nodes[|asWritten.nodes| - 1] != intended.nodes[|intended.nodes| - 1])
  {
    var g, n := numberOfGirrTenors, numberOfIndexGirrTenors;
    var short := TenorPeriods(indexTenorDays, g);
    var full := TenorPeriods(indexTenorDays, n);
    assert short == full[..g];
    assert Pillars(short) == Pillars(full)[..g + 1];
    assert [indexRates[0]] + indexRates[..g] == ([indexRates[0]] + indexRates[..n])[..g + 1];
  }

  /** The FixedRateBondCustom of pricingFDL. */
  function FixedLegBond(notional: real, couponRate: real, couponDayCounter: int, couponCalendar: int, couponFrequency: int,
                        scheduleGenRule: int, paymentBdc: int, paymentLag: int, isNotionalExchange: int,
                        numberOfCoupons: int, realStartDates: seq<int>, realEndDates: seq<int>,
                        issueDate: int, maturityDate: int): Bond
    requires numberOfCoupons > 0 ==> 1 <= |realStartDates| && numberOfCoupons <= |realEndDates|
  {
    FixedRateBond(notional,
      CouponSchedule(numberOfCoupons, realStartDates, realEndDates, issueDate, maturityDate,
        couponFrequency, couponCalendar, paymentBdc, scheduleGenRule),
      couponRate, MakeDayCounterFromInt(couponDayCounter), MakeBdcFromInt(paymentBdc), paymentLag,
      RedemptionRatio(isNotionalExchange), issueDate, MakeCalendarFromInt(couponCalendar))
  }

  /** The IborIndex of pricingFLL on its index curve. */
  function LegIndex(indexTenor: int, indexFixingDays: int, indexCurrency: int, indexCalendar: int, indexBdc: int,
                    indexEom: int, indexDayCounter: int, indexCurve: Curve): IborIndex
  {
    IborIndex(MakePeriodFromDays(indexTenor), indexFixingDays, MakeCurrencyFromInt(indexCurrency),
      MakeCalendarFromInt(indexCalendar), MakeBdcFromInt(indexBdc), MakeBoolFromInt(indexEom),
      MakeDayCounterFromInt(indexDayCounter), indexCurve)
  }

  /** The FloatingRateBondCustom of pricingFLL, with the last and next reset rates as fixings of the first two periods. */
  function FloatingLegBond(notional: real, couponDayCounter: int, couponCalendar: int, couponFrequency: int,
                           scheduleGenRule: int, paymentBdc: int, paymentLag: int, isNotionalExchange: int,
                           fixingDays: int, gearing: real, spread: real, lastResetRate: real, nextResetRate: real,
                           numberOfCoupons: int, realStartDates: seq<int>, realEndDates: seq<int>,
                           issueDate: int, maturityDate: int, index: IborIndex): (b: Bond)
    requires 2 <= |realStartDates| && (numberOfCoupons > 0 ==> numberOfCoupons <= |realEndDates|)
    ensures b.FloatingRateBond? && b.index == index
    ensures b.fixings == [Fixing(realStartDates[0], lastResetRate), Fixing(realStartDates[1], nextResetRate)]
  {
    FloatingRateBond(notional,
      CouponSchedule(numberOfCoupons, realStartDates, realEndDates, issueDate, maturityDate,
        couponFrequency, couponCalendar, paymentBdc, scheduleGenRule),
      index, MakeDayCounterFromInt(couponDayCounter), MakeBdcFromInt(paymentBdc), fixingDays, paymentLag,
      gearing, spread, RedemptionRatio(isNotionalExchange),
      [Fixing(realStartDates[0], lastResetRate), Fixing(realStartDates[1], nextResetRate)])
  }

  // ---- the NPV as a function of node rates ----

  /** The NPV with the discount curve's nodes replaced, everything else as built. */
  function OnDiscountNodes(ql: QuantLib, bond: Bond, curve: Curve): seq<real> -> real {
    nodes => ql.npv(bond, curve.(nodes := nodes))
  }

  /** The bond with its index relinked to another forecasting curve. */
  function Relinked(bond: Bond, forecast: Curve): (b: Bond)
    requires bond.FloatingRateBond?
    ensures b.FloatingRateBond? && b.index.forecastCurve == forecast
  {
    bond.(index := bond.index.(forecastCurve := forecast))
  }

  /** pricingFLL's shared-curve scenarios: the moved discount curve also becomes the index's forecasting curve. */
  function OnSharedNodes(ql: QuantLib, bond: Bond, curve: Curve): seq<real> -> real
    requires bond.FloatingRateBond?
  {
    nodes => ql.npv(Relinked(bond, curve.(nodes := nodes)), curve.(nodes := nodes))
  }

  /** pricingFLL's index-curve scenarios: the index curve's nodes move, discounting stays on the base curve. */
  function OnIndexNodes(ql: QuantLib, bond: Bond, discountCurve: Curve): seq<real> -> real
    requires bond.FloatingRateBond?
  {
    nodes => ql.npv(Relinked(bond, bond.index.forecastCurve.(nodes := nodes)), discountCurve)
  }

  /** Unmoved nodes price the bond as built; for the index view, when the bond forecasts on its own index curve. */
  lemma UnmovedNodesGiveNpv(ql: QuantLib, bond: Bond, curve: Curve)
    ensures OnDiscountNodes(ql, bond, curve)(curve.nodes) == ql.npv(bond, curve)
    ensures bond.FloatingRateBond? ==> OnIndexNodes(ql, bond, curve)(bond.index.forecastCurve.nodes) == ql.npv(bond, curve)
    ensures bond.FloatingRateBond? && bond.index.forecastCurve == curve ==> OnSharedNodes(ql, bond, curve)(curve.nodes) == ql.npv(bond, curve)
  {
    assert curve.(nodes := curve.nodes) == curve;
    if bond.FloatingRateBond? {
      var f := bond.index.forecastCurve;
      assert f.(nodes := f.nodes) == f;
      assert Relinked(bond, f) == bond;
    }
  }

  // ---- what the calTypes write ----

  /** calType 2 of ZCL and FDL: delta and gamma of the ±1bp parallel pair, Macaulay duration and convexity at the bond's yield. */
  function FixedBasel2(ql: QuantLib, bond: Bond, curve: Curve): (r: seq<real>)
    ensures |r| == 5
  {
    var price := OnDiscountNodes(ql, bond, curve);
    var npv := ql.npv(bond, curve);
    var flows := ql.cashFlows(bond);
    var ytm := ql.yieldOf(flows, npv);
    Basel2Record(price(Shift(curve.nodes, BasisPoint)), npv, price(Shift(curve.nodes, -BasisPoint)),
      ql.macaulayDuration(flows, ytm), ql.convexity(flows, ytm))
  }

  /** calType 2 of FLL: delta and gamma of the ±1bp pair, with the effective duration and convexity of that pair. */
  function FloatingBasel2(price: seq<real> -> real, nodes: seq<real>, npv: real): (r: seq<real>)
    requires npv != 0.0
    ensures |r| == 5
  {
    var up, down := price(Shift(nodes, BasisPoint)), price(Shift(nodes, -BasisPoint));
    Basel2Record(up, npv, down, EffectiveDuration(up, npv, down), EffectiveConvexity(up, npv, down))
  }

  /** calType 3: the key-rate deltas of the ten GIRR tenors, packed by processResultArray. */
  function GirrDeltaLayout(price: seq<real> -> real, nodes: seq<real>, npv: real): (r: seq<real>)
    requires |nodes| >= |GirrTenors| + 1
    ensures |r| <= 2 * |GirrTenors| + 1
  {
    FilteredLayout(GirrTenors, KeyRateDeltas(price, nodes, npv), |GirrTenors|)
  }

  /** The calType 2 block of ZCL and FDL. */
  method WriteFixedBasel2(ql: QuantLib, bond: Bond, curve: Curve, resultBasel2: array<real>)
    requires resultBasel2.Length >= 5
    modifies resultBasel2
    ensures resultBasel2[..] == Overwrite(old(resultBasel2[..]), FixedBasel2(ql, bond, curve))
  {
    var price := OnDiscountNodes(ql, bond, curve);
    var npv := ql.npv(bond, curve);
    var bumpedNpv := GearingScenarios(price, curve.nodes, BasisPoint);
    var flows := ql.cashFlows(bond);
    var ytm := ql.yieldOf(flows, npv);
    WriteValues(resultBasel2, Basel2Record(bumpedNpv[0], npv, bumpedNpv[1], ql.macaulayDuration(flows, ytm), ql.convexity(flows, ytm)));
  }

  /** The calType 2 block of FLL, for one way of moving the nodes. */
  method WriteFloatingBasel2(price: seq<real> -> real, nodes: seq<real>, npv: real, resultBasel2: array<real>)
    requires npv != 0.0 && resultBasel2.Length >= 5
    modifies resultBasel2
    ensures resultBasel2[..] == Overwrite(old(resultBasel2[..]), FloatingBasel2(price, nodes, npv))
  {
    var bumpedNpv := GearingScenarios(price, nodes, BasisPoint);
    var up, down := bumpedNpv[0], bumpedNpv[1];
    WriteValues(resultBasel2, Basel2Record(up, npv, down, EffectiveDuration(up, npv, down), EffectiveConvexity(up, npv, down)));
  }

  /** The key-rate loop of calType 3 followed by processResultArray over the ten GIRR tenors. */
  method WriteGirrDelta(price: seq<real> -> real, nodes: seq<real>, npv: real, resultGirrDelta: array<real>)
    requires |nodes| >= |GirrTenors| + 1 && resultGirrDelta.Length >= 2 * |GirrTenors| + 3
    modifies resultGirrDelta
    ensures resultGirrDelta[..] == Overwrite(old(resultGirrDelta[..]), GirrDeltaLayout(price, nodes, npv))
  {
    var girr := KeyRateLoop(price, nodes, npv);
    ProcessResultArray(GirrTenors, girr, |GirrTenors|, resultGirrDelta);
  }

  /** The curvature loop of calType 3: the ±riskWeight pair, less the NPV. */
  method WriteCurvature(price: seq<real> -> real, nodes: seq<real>, npv: real, riskWeight: real, resultGirrCvr: array<real>)
    requires resultGirrCvr.Length >= 2
    modifies resultGirrCvr
    ensures resultGirrCvr[..] == Overwrite(old(resultGirrCvr[..]), CurvaturePair(price, nodes, npv, riskWeight))
  {
    var bumpedNpv := GearingScenarios(price, nodes, riskWeight);
    WriteValues(resultGirrCvr, [bumpedNpv[0] - npv, bumpedNpv[1] - npv]);
  }

  /** The calType 4 block: the cash-flow table; the NPV, or -1 once a flow of an unexpected kind is met. */
  method WriteCashFlowTable(ql: QuantLib, leg: LegKind, bond: Bond, curve: Curve, npv: real, resultCashFlow: array<real>)
    returns (npvOrError: real)
    requires Slot(AcceptedPrefix(leg, ql.cashFlows(bond)), 0) <= resultCashFlow.Length
    modifies resultCashFlow
    ensures resultCashFlow[..] == Overwrite(old(resultCashFlow[..]), Report(leg, ql.cashFlows(bond), ql.discount(curve)))
    ensures npvOrError == if AcceptedPrefix(leg, ql.cashFlows(bond)) == |ql.cashFlows(bond)| then npv else -1.0
  {
    var ok := WriteCashFlows(leg, ql.cashFlows(bond), ql.discount(curve), resultCashFlow);
    npvOrError := if ok then npv else -1.0;
  }

  /** The return value of calType 4. */
  function CashFlowReturn(leg: LegKind, flows: seq<CashFlow>, npv: real): real {
    if AcceptedPrefix(leg, flows) == |flows| then npv else -1.0
  }

  // ---- pricingZCL ----

  /** pricingZCL: a zero-coupon bond on the GIRR curve. */
  method PricingZCL(ql: QuantLib, evaluationDate: int, issueDate: int, maturityDate: int, notional: real,
                    numberOfGirrTenors: int, girrTenorDays: array<int>, girrRates: seq<real>, girrConvention: seq<int>,
                    girrRiskWeight: real, calType: int,
                    resultBasel2: array<real>, resultGirrDelta: array<real>, resultGirrCvr: array<real>,
                    resultCashFlow: array<real>)
    returns (npvOrError: real)
    requires resultBasel2 != resultGirrDelta && resultBasel2 != resultGirrCvr && resultBasel2 != resultCashFlow
    requires resultGirrDelta != resultGirrCvr && resultGirrDelta != resultCashFlow && resultGirrCvr != resultCashFlow
    requires 1 <= calType <= 4 ==>
      CurveArguments(numberOfGirrTenors, girrTenorDays.Length, girrRates, girrConvention) &&
      resultBasel2.Length >= 5 && resultGirrDelta.Length >= 23 && resultGirrCvr.Length >= 2 && resultCashFlow.Length >= 1000
    requires calType == 3 ==> numberOfGirrTenors >= |GirrTenors|
    requires calType == 4 ==>
      Slot(AcceptedPrefix(ZeroCouponLeg, ql.cashFlows(ZeroCouponBond(notional, maturityDate, issueDate))), 0) <= resultCashFlow.Length
    modifies resultBasel2, resultGirrDelta, resultGirrCvr, resultCashFlow
    ensures !(1 <= calType <= 4) ==>
      npvOrError == -1.0 && unchanged(resultBasel2, resultGirrDelta, resultGirrCvr, resultCashFlow)
    ensures 1 <= calType <= 4 ==>
      var bond := ZeroCouponBond(notional, maturityDate, issueDate);
      var curve := LegCurve(evaluationDate, old(girrTenorDays[..]), numberOfGirrTenors, girrRates, girrConvention);
      var npv := ql.npv(bond, curve);
      var price := OnDiscountNodes(ql, bond, curve);
      && resultBasel2[..] == Overwrite(Cleared(old(resultBasel2[..]), 5),
           if calType == 2 then FixedBasel2(ql, bond, curve) else [])
      && resultGirrDelta[..] == Overwrite(Cleared(old(resultGirrDelta[..]), 23),
           if calType == 3 then GirrDeltaLayout(price, curve.nodes, npv) else [])
      && resultGirrCvr[..] == Overwrite(Cleared(old(resultGirrCvr[..]), 2),
           if calType == 3 then CurvaturePair(price, curve.nodes, npv, girrRiskWeight) else [])
      && resultCashFlow[..] == Overwrite(Cleared(old(resultCashFlow[..]), 1000),
           if calType == 4 then Report(ZeroCouponLeg, ql.cashFlows(bond), ql.discount(curve)) else [])
      && npvOrError == if calType == 4 then CashFlowReturn(ZeroCouponLeg, ql.cashFlows(bond), npv) else npv
  {
    if !(1 <= calType <= 4) {
      return -1.0;
    }
    InitResult(resultBasel2, 5);
    InitResult(resultGirrDelta, 23);
    InitResult(resultGirrCvr, 2);
    InitResult(resultCashFlow, 1000);
    var curve := MakeLegCurve(evaluationDate, girrTenorDays, numberOfGirrTenors, girrRates, girrConvention);
    var bond := ZeroCouponBond(notional, maturityDate, issueDate);
    var npv := ql.npv(bond, curve);
    npvOrError := npv;
    if calType == 2 {
      WriteFixedBasel2(ql, bond, curve, resultBasel2);
    } else if calType == 3 {
      var price := OnDiscountNodes(ql, bond, curve);
      WriteGirrDelta(price, curve.nodes, npv, resultGirrDelta);
      WriteCurvature(price, curve.nodes, npv, girrRiskWeight, resultGirrCvr);
    } else if calType == 4 {
      npvOrError := WriteCashFlowTable(ql, ZeroCouponLeg, bond, curve, npv, resultCashFlow);
    }
  }

  // ---- pricingFDL ----

  /** The calTypes pricingFDL accepts; 9 (SOY) only prices. */
  predicate FdlCalType(calType: int) {
    calType == 1 || calType == 2 || calType == 3 || calType == 4 || calType == 9
  }

  /** pricingFDL: a fixed-rate bond on the GIRR curve, with an explicit or a generated coupon schedule. */
  method PricingFDL(ql: QuantLib, evaluationDate: int, issueDate: int, maturityDate: int, notional: real,
                    couponRate: real, couponDayCounter: int, couponCalendar: int, couponFrequency: int,
                    scheduleGenRule: int, paymentBdc: int, paymentLag: int, isNotionalExchange: int,
                    numberOfCoupons: int, realStartDates: seq<int>, realEndDates: seq<int>,
                    numberOfGirrTenors: int, girrTenorDays: array<int>, girrRates: seq<real>, girrConvention: seq<int>,
                    girrRiskWeight: real, calType: int,
                    resultBasel2: array<real>, resultGirrDelta: array<real>, resultGirrCvr: array<real>,
                    resultCashFlow: array<real>)
    returns (npvOrError: real)
    requires resultBasel2 != resultGirrDelta && resultBasel2 != resultGirrCvr && resultBasel2 != resultCashFlow
    requires resultGirrDelta != resultGirrCvr && resultGirrDelta != resultCashFlow && resultGirrCvr != resultCashFlow
    requires FdlCalType(calType) ==>
      CurveArguments(numberOfGirrTenors, girrTenorDays.Length, girrRates, girrConvention) &&
      (numberOfCoupons > 0 ==> 1 <= |realStartDates| && numberOfCoupons <= |realEndDates|) &&
      resultBasel2.Length >= 5 && resultGirrDelta.Length >= 23 && resultGirrCvr.Length >= 2 && resultCashFlow.Length >= 1000
    requires calType == 3 ==> numberOfGirrTenors >= |GirrTenors|
    requires calType == 4 ==>
      Slot(AcceptedPrefix(FixedLeg, ql.cashFlows(FixedLegBond(notional, couponRate, couponDayCounter, couponCalendar,
        couponFrequency, scheduleGenRule, paymentBdc, paymentLag, isNotionalExchange, numberOfCoupons, realStartDates,
        realEndDates, issueDate, maturityDate))), 0) <= resultCashFlow.Length
    modifies resultBasel2, resultGirrDelta, resultGirrCvr, resultCashFlow
    ensures !FdlCalType(calType) ==>
      npvOrError == -1.0 && unchanged(resultBasel2, resultGirrDelta, resultGirrCvr, resultCashFlow)
    ensures FdlCalType(calType) ==>
      var bond := FixedLegBond(notional, couponRate, couponDayCounter, couponCalendar, couponFrequency, scheduleGenRule,
        paymentBdc, paymentLag, isNotionalExchange, numberOfCoupons, realStartDates, realEndDates, issueDate, maturityDate);
      var curve := LegCurve(evaluationDate, old(girrTenorDays[..]), numberOfGirrTenors, girrRates, girrConvention);
      var npv := ql.npv(bond, curve);
      var price := OnDiscountNodes(ql, bond, curve);
      && resultBasel2[..] == Overwrite(Cleared(old(resultBasel2[..]), 5),
           if calType == 2 then FixedBasel2(ql, bond, curve) else [])
      && resultGirrDelta[..] == Overwrite(Cleared(old(resultGirrDelta[..]), 23),
           if calType == 3 then GirrDeltaLayout(price, curve.nodes, npv) else [])
      && resultGirrCvr[..] == Overwrite(Cleared(old(resultGirrCvr[..]), 2),
           if calType == 3 then CurvaturePair(price, curve.nodes, npv, girrRiskWeight) else [])
      && resultCashFlow[..] == Overwrite(Cleared(old(resultCashFlow[..]), 1000),
           if calType == 4 then Report(FixedLeg, ql.cashFlows(bond), ql.discount(curve)) else [])
      && npvOrError == if calType == 4 then CashFlowReturn(FixedLeg, ql.cashFlows(bond), npv) else npv
  {
    if !FdlCalType(calType) {
      return -1.0;
    }
    InitResult(resultBasel2, 5);
    InitResult(resultGirrDelta, 23);
    InitResult(resultGirrCvr, 2);
    InitResult(resultCashFlow, 1000);
    var curve := MakeLegCurve(evaluationDate, girrTenorDays, numberOfGirrTenors, girrRates, girrConvention);
    var schedule := LegSchedule(numberOfCoupons, realStartDates, realEndDates, issueDate, maturityDate,
      couponFrequency, couponCalendar, paymentBdc, scheduleGenRule);
    var bond := FixedRateBond(notional, schedule, couponRate, MakeDayCounterFromInt(couponDayCounter),
      MakeBdcFromInt(paymentBdc), paymentLag, RedemptionRatio(isNotionalExchange), issueDate,
      MakeCalendarFromInt(couponCalendar));
    var npv := ql.npv(bond, curve);
    npvOrError := npv;
    if calType == 2 {
      WriteFixedBasel2(ql, bond, curve, resultBasel2);
    } else if calType == 3 {
      var price := OnDiscountNodes(ql, bond, curve);
      WriteGirrDelta(price, curve.nodes, npv, resultGirrDelta);
      WriteCurvature(price, curve.nodes, npv, girrRiskWeight, resultGirrCvr);
    } else if calType == 4 {
      npvOrError := WriteCashFlowTable(ql, FixedLeg, bond, curve, npv, resultCashFlow);
    }
  }

  // ---- pricingFLL ----

  /**
   * pricingFLL: a floating-rate bond discounted on the GIRR curve and forecast on the index
   * curve. calType 2 always moves both curves together (its isSameCurve test is switched
   * off), so the index Basel 2 buffer is only cleared; calType 3 moves them together when
   * isSameCurve is not 0 and otherwise reports the index curve's deltas and curvature
   * separately. As written, the index curve takes its pillars from the index tenor days but
   * its node loop runs over numberOfGirrTenors (PricingTerms.BuildIndexCurveAsWritten), so
   * the index curve below has numberOfGirrTenors + 1 nodes; a discount count above the index
   * count reads past the index periods, hence the precondition.
   */
  method PricingFLL(ql: QuantLib, evaluationDate: int, issueDate: int, maturityDate: int, notional: real,
                    couponDayCounter: int, couponCalendar: int, couponFrequency: int, scheduleGenRule: int,
                    paymentBdc: int, paymentLag: int, isNotionalExchange: int,
                    fixingDays: int, gearing: real, spread: real, lastResetRate: real, nextResetRate: real,
                    numberOfCoupons: int, realStartDates: seq<int>, realEndDates: seq<int>,
                    numberOfGirrTenors: int, girrTenorDays: array<int>, girrRates: seq<real>, girrConvention: seq<int>,
                    numberOfIndexGirrTenors: int, indexGirrTenorDays: array<int>, indexGirrRates: seq<real>,
                    indexGirrConvention: seq<int>, isSameCurve: int,
                    indexTenor: int, indexFixingDays: int, indexCurrency: int, indexCalendar: int, indexBdc: int,
                    indexEom: int, indexDayCounter: int,
                    girrRiskWeight: real, calType: int,
                    resultGirrBasel2: array<real>, resultIndexGirrBasel2: array<real>,
                    resultGirrDelta: array<real>, resultIndexGirrDelta: array<real>,
                    resultGirrCvr: array<real>, resultIndexGirrCvr: array<real>, resultCashFlow: array<real>)
    returns (npvOrError: real)
    requires resultGirrBasel2 != resultIndexGirrBasel2 && resultGirrBasel2 != resultGirrDelta &&
      resultGirrBasel2 != resultIndexGirrDelta && resultGirrBasel2 != resultGirrCvr &&
      resultGirrBasel2 != resultIndexGirrCvr && resultGirrBasel2 != resultCashFlow
    requires resultIndexGirrBasel2 != resultGirrDelta && resultIndexGirrBasel2 != resultIndexGirrDelta &&
      resultIndexGirrBasel2 != resultGirrCvr && resultIndexGirrBasel2 != resultIndexGirrCvr &&
      resultIndexGirrBasel2 != resultCashFlow
    requires resultGirrDelta != resultIndexGirrDelta && resultGirrDelta != resultGirrCvr &&
      resultGirrDelta != resultIndexGirrCvr && resultGirrDelta != resultCashFlow
    requires resultIndexGirrDelta != resultGirrCvr && resultIndexGirrDelta != resultIndexGirrCvr &&
      resultIndexGirrDelta != resultCashFlow
    requires resultGirrCvr != resultIndexGirrCvr && resultGirrCvr != resultCashFlow && resultIndexGirrCvr != resultCashFlow
    requires 1 <= calType <= 4 ==>
      CurveArguments(numberOfGirrTenors, girrTenorDays.Length, girrRates, girrConvention) &&
      CurveArguments(numberOfIndexGirrTenors, indexGirrTenorDays.Length, indexGirrRates, indexGirrConvention) &&
      numberOfGirrTenors <= numberOfIndexGirrTenors &&
      2 <= |realStartDates| && (numberOfCoupons > 0 ==> numberOfCoupons <= |realEndDates|) &&
      resultGirrBasel2.Length >= 5 && resultIndexGirrBasel2.Length >= 5 &&
      resultGirrDelta.Length >= 23 && resultIndexGirrDelta.Length >= 23 &&
      resultGirrCvr.Length >= 2 && resultIndexGirrCvr.Length >= 2 && resultCashFlow.Length >= 1000
    requires calType == 3 ==> numberOfGirrTenors >= |GirrTenors|
    requires calType == 2 || calType == 4 ==>
      var bond := FloatingLegBond(notional, couponDayCounter, couponCalendar, couponFrequency, scheduleGenRule, paymentBdc,
        paymentLag, isNotionalExchange, fixingDays, gearing, spread, lastResetRate, nextResetRate, numberOfCoupons,
        realStartDates, realEndDates, issueDate, maturityDate,
        LegIndex(indexTenor, indexFixingDays, indexCurrency, indexCalendar, indexBdc, indexEom, indexDayCounter,
          LegCurve(evaluationDate, indexGirrTenorDays[..], numberOfGirrTenors, indexGirrRates, indexGirrConvention)));
      (calType == 2 ==> ql.npv(bond, LegCurve(evaluationDate, girrTenorDays[..], numberOfGirrTenors, girrRates, girrConvention)) != 0.0) &&
      (calType == 4 ==> Slot(AcceptedPrefix(FloatingLeg, ql.cashFlows(bond)), 0) <= resultCashFlow.Length)
    modifies resultGirrBasel2, resultIndexGirrBasel2, resultGirrDelta, resultIndexGirrDelta, resultGirrCvr,
      resultIndexGirrCvr, resultCashFlow
    ensures !(1 <= calType <= 4) ==>
      npvOrError == -1.0 &&
      unchanged(resultGirrBasel2, resultIndexGirrBasel2, resultGirrDelta, resultIndexGirrDelta, resultGirrCvr,
        resultIndexGirrCvr, resultCashFlow)
    ensures 1 <= calType <= 4 ==>
      var indexCurve := LegCurve(evaluationDate, old(indexGirrTenorDays[..]), numberOfGirrTenors, indexGirrRates, indexGirrConvention);
      var curve := LegCurve(evaluationDate, old(girrTenorDays[..]), numberOfGirrTenors, girrRates, girrConvention);
      var bond := FloatingLegBond(notional, couponDayCounter, couponCalendar, couponFrequency, scheduleGenRule, paymentBdc,
        paymentLag, isNotionalExchange, fixingDays, gearing, spread, lastResetRate, nextResetRate, numberOfCoupons,
        realStartDates, realEndDates, issueDate, maturityDate,
        LegIndex(indexTenor, indexFixingDays, indexCurrency, indexCalendar, indexBdc, indexEom, indexDayCounter, indexCurve));
      var npv := ql.npv(bond, curve);
      var separate := isSameCurve == 0;
      var price := if separate then OnDiscountNodes(ql, bond, curve) else OnSharedNodes(ql, bond, curve);
      var indexPrice := OnIndexNodes(ql, bond, curve);
      && resultGirrBasel2[..] == Overwrite(Cleared(old(resultGirrBasel2[..]), 5),
           if calType == 2 then FloatingBasel2(OnSharedNodes(ql, bond, curve), curve.nodes, npv) else [])
      && resultIndexGirrBasel2[..] == Cleared(old(resultIndexGirrBasel2[..]), 5)
      && resultGirrDelta[..] == Overwrite(Cleared(old(resultGirrDelta[..]), 23),
           if calType == 3 then GirrDeltaLayout(price, curve.nodes, npv) else [])
      && resultIndexGirrDelta[..] == Overwrite(Cleared(old(resultIndexGirrDelta[..]), 23),
           if calType == 3 && separate then GirrDeltaLayout(indexPrice, indexCurve.nodes, npv) else [])
      && resultGirrCvr[..] == Overwrite(Cleared(old(resultGirrCvr[..]), 2),
           if calType == 3 then CurvaturePair(price, curve.nodes, npv, girrRiskWeight) else [])
      && resultIndexGirrCvr[..] == Overwrite(Cleared(old(resultIndexGirrCvr[..]), 2),
           if calType == 3 && separate then CurvaturePair(indexPrice, indexCurve.nodes, npv, girrRiskWeight) else [])
      && resultCashFlow[..] == Overwrite(Cleared(old(resultCashFlow[..]), 1000),
           if calType == 4 then Report(FloatingLeg, ql.cashFlows(bond), ql.discount(curve)) else [])
      && npvOrError == if calType == 4 then CashFlowReturn(FloatingLeg, ql.cashFlows(bond), npv) else npv
  {
    if !(1 <= calType <= 4) {
      return -1.0;
    }
    InitResult(resultGirrBasel2, 5);
    InitResult(resultIndexGirrBasel2, 5);
    InitResult(resultGirrDelta, 23);
    InitResult(resultIndexGirrDelta, 23);
    InitResult(resultGirrCvr, 2);
    InitResult(resultIndexGirrCvr, 2);
    InitResult(resultCashFlow, 1000);
    var indexSpec, indexNodes := BuildIndexCurveAsWritten(indexGirrTenorDays, numberOfIndexGirrTenors, numberOfGirrTenors,
      indexGirrRates, indexGirrConvention);
    var indexCurve := Curve(evaluationDate, indexSpec, indexNodes);
    assert indexCurve == LegCurve(evaluationDate, indexGirrTenorDays[..], numberOfGirrTenors, indexGirrRates, indexGirrConvention);
    var index := LegIndex(indexTenor, indexFixingDays, indexCurrency, indexCalendar, indexBdc, indexEom, indexDayCounter, indexCurve);
    var curve := MakeLegCurve(evaluationDate, girrTenorDays, numberOfGirrTenors, girrRates, girrConvention);
    var schedule := LegSchedule(numberOfCoupons, realStartDates, realEndDates, issueDate, maturityDate,
      couponFrequency, couponCalendar, paymentBdc, scheduleGenRule);
    var bond := FloatingRateBond(notional, schedule, index, MakeDayCounterFromInt(couponDayCounter),
      MakeBdcFromInt(paymentBdc), fixingDays, paymentLag, gearing, spread, RedemptionRatio(isNotionalExchange),
      [Fixing(realStartDates[0], lastResetRate), Fixing(realStartDates[1], nextResetRate)]);
    var npv := ql.npv(bond, curve);
    npvOrError := npv;
    if calType == 2 {
      WriteFloatingBasel2(OnSharedNodes(ql, bond, curve), curve.nodes, npv, resultGirrBasel2);
    } else if calType == 3 {
      WriteFloatingGirr(ql, bond, curve, npv, isSameCurve == 0, girrRiskWeight,
        resultGirrDelta, resultIndexGirrDelta, resultGirrCvr, resultIndexGirrCvr);
    } else if calType == 4 {
      npvOrError := WriteCashFlowTable(ql, FloatingLeg, bond, curve, npv, resultCashFlow);
    }
  }

  /**
   * The calType 3 block of pricingFLL: the discount-curve deltas and curvature, moving the
   * index curve along unless the curves are separate, then, for separate curves, the
   * index-curve deltas and curvature with discounting on the base curve.
   */
  method WriteFloatingGirr(ql: QuantLib, bond: Bond, curve: Curve, npv: real, separate: bool, riskWeight: real,
                           resultGirrDelta: array<real>, resultIndexGirrDelta: array<real>,
                           resultGirrCvr: array<real>, resultIndexGirrCvr: array<real>)
    requires bond.FloatingRateBond?
    requires |curve.nodes| >= |GirrTenors| + 1 && (separate ==> |bond.index.forecastCurve.nodes| >= |GirrTenors| + 1)
    requires resultGirrDelta != resultIndexGirrDelta && resultGirrDelta != resultGirrCvr && resultGirrDelta != resultIndexGirrCvr
    requires resultIndexGirrDelta != resultGirrCvr && resultIndexGirrDelta != resultIndexGirrCvr && resultGirrCvr != resultIndexGirrCvr
    requires resultGirrDelta.Length >= 23 && resultIndexGirrDelta.Length >= 23
    requires resultGirrCvr.Length >= 2 && resultIndexGirrCvr.Length >= 2
    modifies resultGirrDelta, resultIndexGirrDelta, resultGirrCvr, resultIndexGirrCvr
    ensures var price := if separate then OnDiscountNodes(ql, bond, curve) else OnSharedNodes(ql, bond, curve);
      && resultGirrDelta[..] == Overwrite(old(resultGirrDelta[..]), GirrDeltaLayout(price, curve.nodes, npv))
      && resultGirrCvr[..] == Overwrite(old(resultGirrCvr[..]), CurvaturePair(price, curve.nodes, npv, riskWeight))
    ensures resultIndexGirrDelta[..] == Overwrite(old(resultIndexGirrDelta[..]),
      if separate then GirrDeltaLayout(OnIndexNodes(ql, bond, curve), bond.index.forecastCurve.nodes, npv) else [])
    ensures resultIndexGirrCvr[..] == Overwrite(old(resultIndexGirrCvr[..]),
      if separate then CurvaturePair(OnIndexNodes(ql, bond, curve), bond.index.forecastCurve.nodes, npv, riskWeight) else [])
  {
    var price := if separate then OnDiscountNodes(ql, bond, curve) else OnSharedNodes(ql, bond, curve);
    var indexNodes := bond.index.forecastCurve.nodes;
    WriteGirrDelta(price, curve.nodes, npv, resultGirrDelta);
    if separate {
      WriteGirrDelta(OnIndexNodes(ql, bond, curve), indexNodes, npv, resultIndexGirrDelta);
    }
    WriteCurvature(price, curve.nodes, npv, riskWeight, resultGirrCvr);
    if separate {
      WriteCurvature(OnIndexNodes(ql, bond, curve), indexNodes, npv, riskWeight, resultIndexGirrCvr);
    }
  }
}
