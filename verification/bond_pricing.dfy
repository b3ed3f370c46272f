/**
 * Bond's `pricing`: a fixed-rate bond discounted on the GIRR zero curve (every tenor node
 * carrying spreadOverYield) with a piecewise zero spread through the CSR pillars on top.
 * calType 1 prices; calType 3 also writes the GIRR key-rate deltas and the CSR deltas,
 * unfiltered, as [10, tenors, deltas] and [5, tenors, deltas]. Any other calType returns -1.
 *
 * QuantLib's NPV is the oracle `npvOf` of the bond and the spreaded curve.
 */
module BondPricing {
  import opened CodeTables
  import opened CurveScenarios
  import opened PricingTerms
  import opened ResultBuffer

  /** PiecewiseZeroSpreadedTermStructure: a base zero curve plus spreads interpolated between the spread pillars. */
  datatype SpreadedCurve = SpreadedCurve(base: Curve, spreadPillars: seq<Pillar>, spreads: seq<real>)

  /** Bond's FixedRateBond: one coupon rate, Actual/Actual (ISDA) accrual, Modified Following, redemption 100. */
  datatype FixedBond = FixedBond(settlementDays: int, notional: real, schedule: Schedule, couponRate: real)

  /**
   * Bond's schedule: the explicit list when numberOfCoupons > 0, otherwise semiannual dates
   * on the South Korean calendar, Following, generated backward from the first start date
   * to maturity.
   */
  function BondSchedule(numberOfCoupons: int, realStartDates: seq<int>, realEndDates: seq<int>, maturityDate: int): (s: Schedule)
    requires 1 <= |realStartDates| && (numberOfCoupons > 0 ==> numberOfCoupons <= |realEndDates|)
    ensures s.GeneratedSchedule? <==> numberOfCoupons <= 0
    ensures s.GeneratedSchedule? ==> s.effectiveDate == realStartDates[0] && s.terminationDate == maturityDate
  {
    if numberOfCoupons > 0 then ExplicitSchedule([realStartDates[0]] + realEndDates[..numberOfCoupons])
    else GeneratedSchedule(realStartDates[0], maturityDate, Semiannual, SouthKorea, Following, Backward)
  }

  /** The GIRR curve of Bond: the fixed 3M..30Y pillars, the anchor at the first rate, the tenor nodes moved by spreadOverYield. */
  function GirrCurve(evaluationDate: int, numberOfGirrTenors: nat, girrRates: seq<real>, spreadOverYield: real): (c: Curve)
    requires numberOfGirrTenors <= |GirrPeriods| && 1 <= |girrRates| && numberOfGirrTenors <= |girrRates|
    ensures |c.nodes| == numberOfGirrTenors + 1 && c.nodes[0] == girrRates[0]
    ensures forall i :: 0 <= i < numberOfGirrTenors ==> c.nodes[i + 1] == girrRates[i] + spreadOverYield
  {
    Curve(evaluationDate, StandardCurve(numberOfGirrTenors), [girrRates[0]] + Shift(girrRates[..numberOfGirrTenors], spreadOverYield))
  }

  /** The discounting curve: the GIRR curve with the CSR spreads (the first spread twice, at the evaluation date and 6M). */
  function DiscountingCurve(evaluationDate: int, numberOfGirrTenors: nat, girrRates: seq<real>, spreadOverYield: real,
                            numberOfCsrTenors: nat, csrRates: seq<real>): (c: SpreadedCurve)
    requires numberOfGirrTenors <= |GirrPeriods| && 1 <= |girrRates| && numberOfGirrTenors <= |girrRates|
    requires numberOfCsrTenors <= |CsrPeriods| && 1 <= |csrRates| && numberOfCsrTenors <= |csrRates|
    ensures |c.spreadPillars| == |c.spreads| == numberOfCsrTenors + 1
  {
    SpreadedCurve(GirrCurve(evaluationDate, numberOfGirrTenors, girrRates, spreadOverYield),
      Pillars(CsrPeriods[..numberOfCsrTenors]), [csrRates[0]] + csrRates[..numberOfCsrTenors])
  }

  /** The NPV with the GIRR nodes replaced and the spreads kept. */
  function OnGirrNodes(npvOf: (FixedBond, SpreadedCurve) -> real, bond: FixedBond, curve: SpreadedCurve): seq<real> -> real {
    nodes => npvOf(bond, curve.(base := curve.base.(nodes := nodes)))
  }

  /** The NPV with the spreads replaced over the unmoved GIRR curve. */
  function OnSpreads(npvOf: (FixedBond, SpreadedCurve) -> real, bond: FixedBond, curve: SpreadedCurve): seq<real> -> real {
    spreads => npvOf(bond, curve.(spreads := spreads))
  }

  /** Bond's schedule set-up, with the explicit loop of PricingTerms. */
  method MakeBondSchedule(numberOfCoupons: int, realStartDates: seq<int>, realEndDates: seq<int>, maturityDate: int)
    returns (s: Schedule)
    requires 1 <= |realStartDates| && (numberOfCoupons > 0 ==> numberOfCoupons <= |realEndDates|)
    ensures s == BondSchedule(numberOfCoupons, realStartDates, realEndDates, maturityDate)
  {
    if numberOfCoupons > 0 {
      var dates := ExplicitScheduleDates(realStartDates, realEndDates, numberOfCoupons);
      s := ExplicitSchedule(dates);
    } else {
      s := GeneratedSchedule(realStartDates[0], maturityDate, Semiannual, SouthKorea, Following, Backward);
    }
  }

  /** Builds the discounting curve the way Bond does: the spread GIRR node loop, then the CSR node loop. */
  method MakeDiscountingCurve(evaluationDate: int, numberOfGirrTenors: nat, girrRates: seq<real>, spreadOverYield: real,
                              numberOfCsrTenors: nat, csrRates: seq<real>)
    returns (curve: SpreadedCurve)
    requires numberOfGirrTenors <= |GirrPeriods| && 1 <= |girrRates| && numberOfGirrTenors <= |girrRates|
    requires numberOfCsrTenors <= |CsrPeriods| && 1 <= |csrRates| && numberOfCsrTenors <= |csrRates|
    ensures curve == DiscountingCurve(evaluationDate, numberOfGirrTenors, girrRates, spreadOverYield, numberOfCsrTenors, csrRates)
  {
    var girrPillars, girrNodes := BuildSpreadCurveNodes(GirrPeriods, girrRates, numberOfGirrTenors, spreadOverYield);
    var base := Curve(evaluationDate, CurveSpec(girrPillars, Actual365Fixed, Continuous, Annual), girrNodes);
    var csrPillars, spreads := BuildCurveNodes(CsrPeriods, csrRates, numberOfCsrTenors);
    curve := SpreadedCurve(base, csrPillars, spreads);
  }

  /**
   * `pricing` of the Bond library. For calType 3 it needs all ten GIRR tenors and all five
   * CSR tenors: both outputs are written for the full tenor lists.
   */
  method Pricing(npvOf: (FixedBond, SpreadedCurve) -> real, evaluationDate: int, settlementDays: int, maturityDate: int,
                 notional: real, couponRate: real,
                 numberOfCoupons: int, realStartDates: seq<int>, realEndDates: seq<int>,
                 numberOfGirrTenors: int, girrRates: seq<real>, spreadOverYield: real,
                 numberOfCsrTenors: int, csrRates: seq<real>, calType: int,
                 resultGirrDelta: array<real>, resultCsrDelta: array<real>)
    returns (npvOrError: real)
    requires resultGirrDelta != resultCsrDelta
    requires calType == 1 || calType == 3 ==>
      0 <= numberOfGirrTenors <= |GirrPeriods| && 1 <= |girrRates| && numberOfGirrTenors <= |girrRates| &&
      0 <= numberOfCsrTenors <= |CsrPeriods| && 1 <= |csrRates| && numberOfCsrTenors <= |csrRates| &&
      1 <= |realStartDates| && (numberOfCoupons > 0 ==> numberOfCoupons <= |realEndDates|) &&
      resultGirrDelta.Length >= 50 && resultCsrDelta.Length >= 50
    requires calType == 3 ==> numberOfGirrTenors == |GirrTenors| && numberOfCsrTenors == |CsrTenors|
    modifies resultGirrDelta, resultCsrDelta
    ensures calType != 1 && calType != 3 ==> npvOrError == -1.0 && unchanged(resultGirrDelta, resultCsrDelta)
    ensures calType == 1 || calType == 3 ==>
      var bond := FixedBond(settlementDays, notional, BondSchedule(numberOfCoupons, realStartDates, realEndDates, maturityDate), couponRate);
      var curve := DiscountingCurve(evaluationDate, numberOfGirrTenors, girrRates, spreadOverYield, numberOfCsrTenors, csrRates);
      var npv := npvOf(bond, curve);
      && npvOrError == npv
      && resultGirrDelta[..] == Overwrite(Cleared(old(resultGirrDelta[..]), 50),
           if calType == 3 then Layout(GirrTenors, KeyRateDeltas(OnGirrNodes(npvOf, bond, curve), curve.base.nodes, npv)) else [])
      && resultCsrDelta[..] == Overwrite(Cleared(old(resultCsrDelta[..]), 50),
           if calType == 3 then Layout(CsrTenors, CsrDeltas(OnSpreads(npvOf, bond, curve), curve.spreads, npv)) else [])
  {
    if calType != 1 && calType != 3 {
      return -1.0;
    }
    InitResult(resultGirrDelta, 50);
    InitResult(resultCsrDelta, 50);
    var curve := MakeDiscountingCurve(evaluationDate, numberOfGirrTenors, girrRates, spreadOverYield, numberOfCsrTenors, csrRates);
    var schedule := MakeBondSchedule(numberOfCoupons, realStartDates, realEndDates, maturityDate);
    var bond := FixedBond(settlementDays, notional, schedule, couponRate);
    var npv := npvOf(bond, curve);
    npvOrError := npv;
    if calType == 3 {
      var girr := KeyRateLoop(OnGirrNodes(npvOf, bond, curve), curve.base.nodes, npv);
      WriteLayout(GirrTenors, girr, resultGirrDelta);
      var csr := CsrLoop(OnSpreads(npvOf, bond, curve), curve.spreads, npv);
      WriteLayout(CsrTenors, csr, resultCsrDelta);
    }
  }
}
