/**
 * What the pricers hand to QuantLib besides the node rates: the curve description (pillars
 * and conventions), the coupon schedule and the redemption ratio. QuantLib itself is not
 * modelled; these values are the arguments of the opaque pricing functions.
 */
module PricingTerms {
  import opened CodeTables
  import opened CurveScenarios

  /** A zero curve as QuantLib is asked to build it; interpolation is always linear. */
  datatype CurveSpec = CurveSpec(pillars: seq<Pillar>, dayCounter: DayCounter, compounding: Compounding, frequency: Frequency)

  /** A zero curve on the evaluation date: its description and its node rates, the anchor first. */
  datatype Curve = Curve(evaluationDate: int, spec: CurveSpec, nodes: seq<real>)

  /** The periods of the first n tenors, each from its day count by makePeriodFromDays. */
  function TenorPeriods(tenorDays: seq<int>, n: nat): (r: seq<Period>)
    requires n <= |tenorDays|
    ensures |r| == n
  {
    seq(n, i requires 0 <= i < n => MakePeriodFromDays(tenorDays[i]))
  }

  /** A Leg curve: pillars from the tenor days, conventions from slots 0, 2 and 3 of the convention array. */
  function ConventionCurve(tenorDays: seq<int>, n: nat, convention: seq<int>): CurveSpec
    requires n <= |tenorDays| && |convention| >= 4
  {
    CurveSpec(Pillars(TenorPeriods(tenorDays, n)), MakeDayCounterFromInt(convention[0]),
      MakeCompoundingFromInt(convention[2]), MakeFrequencyFromInt(convention[3]))
  }

  /** The curve of FxForward and Bond: the fixed 3M..30Y pillars, Actual/365 (Fixed), continuous, annual. */
  function StandardCurve(n: nat): CurveSpec
    requires n <= |GirrPeriods|
  {
    CurveSpec(Pillars(GirrPeriods[..n]), Actual365Fixed, Continuous, Annual)
  }

  /**
   * The curve set-up of the Leg pricers: makePeriodArrayFromTenorDaysArray, then the node
   * loop over the first n tenors, then the conventions. The list has one node per tenor
   * plus the anchor.
   */
  method BuildLegCurve(tenorDays: array<int>, n: int, rates: seq<real>, convention: seq<int>)
    returns (spec: CurveSpec, nodes: seq<real>)
    requires 0 <= n <= tenorDays.Length && 1 <= |rates| && n <= |rates| && |convention| >= 4
    ensures spec == ConventionCurve(tenorDays[..], n, convention)
    ensures nodes == [rates[0]] + rates[..n]
    ensures |spec.pillars| == |nodes| == n + 1
  {
    var periods := MakePeriodArrayFromTenorDaysArray(tenorDays, n);
    assert periods == TenorPeriods(tenorDays[..], n);
    var pillars;
    pillars, nodes := BuildCurveNodes(periods, rates, n);
    assert periods[..n] == periods;
    spec := CurveSpec(pillars, MakeDayCounterFromInt(convention[0]),
      MakeCompoundingFromInt(convention[2]), MakeFrequencyFromInt(convention[3]));
  }

  /**
   * pricingFLL's index-curve set-up as written: the periods come from the index tenor days
   * (numberOfIndexGirrTenors of them) but the node loop runs numberOfGirrTenors times, the
   * bound of the discount curve. Reading past the index periods is undefined, hence the
   * precondition; below it, the index curve silently loses its last tenors.
   */
  method BuildIndexCurveAsWritten(indexTenorDays: array<int>, numberOfIndexGirrTenors: int, numberOfGirrTenors: int,
                                  indexRates: seq<real>, convention: seq<int>)
    returns (spec: CurveSpec, nodes: seq<real>)
    requires 0 <= numberOfGirrTenors <= numberOfIndexGirrTenors <= indexTenorDays.Length
    requires 1 <= |indexRates| && numberOfGirrTenors <= |indexRates| && |convention| >= 4
    ensures spec == ConventionCurve(indexTenorDays[..], numberOfGirrTenors, convention)
    ensures nodes == [indexRates[0]] + indexRates[..numberOfGirrTenors]
  {
    var periods := MakePeriodArrayFromTenorDaysArray(indexTenorDays, numberOfIndexGirrTenors);
    var pillars;
    pillars, nodes := BuildCurveNodes(periods, indexRates, numberOfGirrTenors);
    assert periods[..numberOfGirrTenors] == TenorPeriods(indexTenorDays[..], numberOfGirrTenors);
    spec := CurveSpec(pillars, MakeDayCounterFromInt(convention[0]),
      MakeCompoundingFromInt(convention[2]), MakeFrequencyFromInt(convention[3]));
  }

  /** The corrected index curve: one node per index tenor, in order, and the anchor; the discount tenor count plays no part. */
  lemma IndexCurveCorrected(indexTenorDays: seq<int>, numberOfIndexGirrTenors: nat, indexRates: seq<real>, convention: seq<int>)
    requires numberOfIndexGirrTenors <= |indexTenorDays| && 1 <= |indexRates| && numberOfIndexGirrTenors <= |indexRates|
    requires |convention| >= 4
    ensures |ConventionCurve(indexTenorDays, numberOfIndexGirrTenors, convention).pillars| == numberOfIndexGirrTenors + 1
    ensures forall i :: 0 <= i < numberOfIndexGirrTenors ==>
      ConventionCurve(indexTenorDays, numberOfIndexGirrTenors, convention).pillars[i + 1] == AfterPeriod(MakePeriodFromDays(indexTenorDays[i])) &&
      ([indexRates[0]] + indexRates[..numberOfIndexGirrTenors])[i + 1] == indexRates[i]
  {
  }

  // ---- coupon schedules ----

  /**
   * A coupon schedule: either the explicit date list, or one QuantLib's MakeSchedule
   * generates from an effective date to a termination date with the given conventions.
   */
  datatype Schedule =
    | ExplicitSchedule(dates: seq<int>)
    | GeneratedSchedule(effectiveDate: int, terminationDate: int, frequency: Frequency, calendar: Calendar,
                        convention: BusinessDayConvention, rule: DateGenerationRule)

  /** The explicit schedule loop: realStartDates[0], then realEndDates[0..numberOfCoupons). */
  method ExplicitScheduleDates(realStartDates: seq<int>, realEndDates: seq<int>, numberOfCoupons: nat)
    returns (dates: seq<int>)
    requires 1 <= |realStartDates| && numberOfCoupons <= |realEndDates|
    ensures dates == [realStartDates[0]] + realEndDates[..numberOfCoupons]
  {
    dates := [realStartDates[0]];
    var schNum := 0;
    while schNum < numberOfCoupons
      invariant 0 <= schNum <= numberOfCoupons
      invariant dates == [realStartDates[0]] + realEndDates[..schNum]
    {
      dates := dates + [realEndDates[schNum]];
      assert realEndDates[..schNum + 1] == realEndDates[..schNum] + [realEndDates[schNum]];
      schNum := schNum + 1;
    }
  }

  /**
   * The explicit schedule has one date more than coupons: coupon i runs from date i to
   * date i+1, so coupon 0 starts at realStartDates[0] and every coupon ends at its own
   * realEndDates entry, the later realStartDates entries being unused.
   */
  lemma ExplicitSchedulePeriods(realStartDates: seq<int>, realEndDates: seq<int>, numberOfCoupons: nat)
    requires 1 <= |realStartDates| && numberOfCoupons <= |realEndDates|
    ensures var dates := [realStartDates[0]] + realEndDates[..numberOfCoupons];
            |dates| == numberOfCoupons + 1 && dates[0] == realStartDates[0] &&
            forall i :: 0 <= i < numberOfCoupons ==> dates[i + 1] == realEndDates[i]
  {
  }

  /** redemptionRatio: 100.0 unless isNotionalExchange is 0, when the notional is not paid back. */
  function RedemptionRatio(isNotionalExchange: int): (r: real)
    ensures r == 0.0 <==> isNotionalExchange == 0
    ensures r == 0.0 || r == 100.0
  {
    if isNotionalExchange == 0 then 0.0 else 100.0
  }

  /** The schedule FDL and FLL build from their arguments (see LegSchedule). */
  function CouponSchedule(numberOfCoupons: int, realStartDates: seq<int>, realEndDates: seq<int>,
                          issueDate: int, maturityDate: int, couponFrequency: int, couponCalendar: int,
                          paymentBdc: int, scheduleGenRule: int): Schedule
    requires numberOfCoupons > 0 ==> 1 <= |realStartDates| && numberOfCoupons <= |realEndDates|
  {
    if numberOfCoupons > 0 then ExplicitSchedule([realStartDates[0]] + realEndDates[..numberOfCoupons])
    else GeneratedSchedule(issueDate, maturityDate, MakeFrequencyFromInt(couponFrequency),
      MakeCalendarFromInt(couponCalendar), MakeBdcFromInt(paymentBdc), MakeScheduleGenRuleFromInt(scheduleGenRule))
  }

  /**
   * The Leg pricers' schedule: the explicit list when numberOfCoupons > 0, otherwise one
   * generated from the issue date to maturity with the coupon conventions.
   */
  method LegSchedule(numberOfCoupons: int, realStartDates: seq<int>, realEndDates: seq<int>,
                     issueDate: int, maturityDate: int, couponFrequency: int, couponCalendar: int,
                     paymentBdc: int, scheduleGenRule: int)
    returns (s: Schedule)
    requires numberOfCoupons > 0 ==> 1 <= |realStartDates| && numberOfCoupons <= |realEndDates|
    ensures numberOfCoupons > 0 ==> s == ExplicitSchedule([realStartDates[0]] + realEndDates[..numberOfCoupons])
    ensures numberOfCoupons <= 0 ==> s == GeneratedSchedule(issueDate, maturityDate, MakeFrequencyFromInt(couponFrequency),
      MakeCalendarFromInt(couponCalendar), MakeBdcFromInt(paymentBdc), MakeScheduleGenRuleFromInt(scheduleGenRule))
  {
    if numberOfCoupons > 0 {
      var dates := ExplicitScheduleDates(realStartDates, realEndDates, numberOfCoupons);
      s := ExplicitSchedule(dates);
    } else {
      s := GeneratedSchedule(issueDate, maturityDate, MakeFrequencyFromInt(couponFrequency),
        MakeCalendarFromInt(couponCalendar), MakeBdcFromInt(paymentBdc), MakeScheduleGenRuleFromInt(scheduleGenRule));
    }
  }
}
