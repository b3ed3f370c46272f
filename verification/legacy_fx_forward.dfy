/**
 * The earlier FX forward library (`pricing` of FxForward_lsj): its own simple-interest
 * bootstrap on the raw curve points of each side, the domestic net PV, the FX sensitivity
 * under a 10% spot bump, and GIRR deltas over a fixed list of risk factors per side.
 *
 * The curve points of both sides live in one list tagged by sideFlag (0 buy, 1 sell); the
 * risk factors likewise. The bootstrap, the interpolation and the exponential discounting
 * are the oracle `valuate`, which sees one side's points only; day-count year fractions and
 * the decimal rounding are oracles too.
 */
module LegacyFxForward {
  import opened CurveScenarios
  import opened ResultBuffer

  // ---- day counters ----

  /** The day counters of initDayCounters, slot by slot; the last is QuantLib's empty DayCounter. */
  datatype LegacyDayCounter = Dcb30U360 | DcbActActIsda | DcbAct360 | DcbAct365Fixed | Dcb30E360 | NoDayCounter

  /** What initDayCounters builds: 30U/360, Act/Act (ISDA), Act/360, Act/365 (Fixed), 30E/360, then the empty counter. */
  const DayCounterSlots: seq<LegacyDayCounter> :=
    [Dcb30U360, DcbActActIsda, DcbAct360, DcbAct365Fixed, Dcb30E360, NoDayCounter]

  /** initDayCounters: the list is cleared and refilled with the six slots. */
  method InitDayCounters() returns (dayCounters: seq<LegacyDayCounter>)
    ensures dayCounters == DayCounterSlots && |dayCounters| == 6
  {
    dayCounters := [];
    dayCounters := dayCounters + [Dcb30U360];
    dayCounters := dayCounters + [DcbActActIsda];
    dayCounters := dayCounters + [DcbAct360];
    dayCounters := dayCounters + [DcbAct365Fixed];
    dayCounters := dayCounters + [Dcb30E360];
    dayCounters := dayCounters + [NoDayCounter];
  }

  /** getDayCounterByCode: slot `code` for the codes 0..4, slot 5 for any other code. */
  function GetDayCounterByCode(code: int, dayCounters: seq<LegacyDayCounter>): (dc: LegacyDayCounter)
    requires |dayCounters| >= 6
    ensures 0 <= code <= 4 ==> dc == dayCounters[code]
    ensures !(0 <= code <= 4) ==> dc == dayCounters[5]
  {
    if 0 <= code <= 4 then dayCounters[code] else dayCounters[5]
  }

  /**
   * On the slots initDayCounters builds, the five documented codes give five different day
   * counters and every other code the empty one.
   */
  lemma DayCounterLookup(code: int)
    ensures GetDayCounterByCode(code, DayCounterSlots) == NoDayCounter <==> !(0 <= code <= 4)
    ensures forall c1, c2 :: 0 <= c1 <= 4 && 0 <= c2 <= 4 && c1 != c2 ==>
      GetDayCounterByCode(c1, DayCounterSlots) != GetDayCounterByCode(c2, DayCounterSlots)
  {
  }

  // ---- trade and cash flows ----

  datatype TradeInformation = TradeInformation(maturityDate: int, evaluationDate: int, exchangeRate: real, isBuySideDomestic: int)

  /** One side's cash flow: its currency, principal, payment date, day-count code and year fraction to payment. */
  datatype ValuationCashFlow = ValuationCashFlow(currency: string, principalAmount: real, cashFlowDate: int, dcb: int, yearFrac: real)

  /**
   * What pricing asks of numerics it does not show: the year fraction of a day counter between
   * two dates, the PV of a principal at a year fraction on one side's curve points (bootstrap,
   * linear interpolation of the zero rates, continuous discounting; 0 when the side has fewer
   * than two points), and rounding to 2 and to 10 decimals.
   */
  datatype LegacyQuantLib = LegacyQuantLib(
    yearFraction: (LegacyDayCounter, int, int) -> real,
    valuate: (real, real, seq<real>, seq<real>) -> real,
    round2: real -> real,
    round10: real -> real)

  /** inputBuySideValuationCashFlow / inputSellSideValuationCashFlow: the flow at maturity and its year fraction. */
  function ValuationCashFlowOf(ql: LegacyQuantLib, currency: string, principalAmount: real, evaluationDate: int,
                               cashFlowDate: int, dcb: int, dayCounters: seq<LegacyDayCounter>): (cf: ValuationCashFlow)
    requires |dayCounters| >= 6
    ensures cf.yearFrac == ql.yearFraction(GetDayCounterByCode(dcb, dayCounters), evaluationDate, cashFlowDate)
  {
    ValuationCashFlow(currency, principalAmount, cashFlowDate, dcb,
      ql.yearFraction(GetDayCounterByCode(dcb, dayCounters), evaluationDate, cashFlowDate))
  }

  // ---- GIRR risk factors ----

  /** A risk factor: its side, its vertex in years (0 for the currency basis) and its sensitivity. */
  datatype Girr = Girr(sideFlag: int, yearFrac: real, sensitivity: real)

  /** The vertices setGirrDeltaCurve walks: the basis vertex 0, then the ten GIRR tenors. */
  const LegacyYearFracs: seq<real> := [0.0, 0.25, 0.5, 1.0, 2.0, 3.0, 5.0, 10.0, 15.0, 20.0, 30.0]

  function YearFracsOf(girrs: seq<Girr>): (r: seq<real>)
    ensures |r| == |girrs| && forall i :: 0 <= i < |girrs| ==> r[i] == girrs[i].yearFrac
  {
    seq(|girrs|, i requires 0 <= i < |girrs| => girrs[i].yearFrac)
  }

  function SensitivitiesOf(girrs: seq<Girr>): (r: seq<real>)
    ensures |r| == |girrs| && forall i :: 0 <= i < |girrs| ==> r[i] == girrs[i].sensitivity
  {
    seq(|girrs|, i requires 0 <= i < |girrs| => girrs[i].sensitivity)
  }

  /** The basis factor of a side: present only for a currency other than "USD". */
  function BasisFactor(currency: string, sideFlag: int): seq<Girr> {
    if currency != "USD" then [Girr(sideFlag, 0.0, 0.0)] else []
  }

  /**
   * One side's risk factors: 11 for a currency other than "USD", whose first is the basis
   * vertex 0, and 10 for "USD", which has no basis vertex; all on that side, in vertex order,
   * with sensitivity 0 until computed.
   */
  function SideFactors(currency: string, sideFlag: int): (r: seq<Girr>)
    ensures |r| == if currency != "USD" then 11 else 10
    ensures forall i :: 0 <= i < |r| ==> r[i].sideFlag == sideFlag && r[i].sensitivity == 0.0
    ensures YearFracsOf(r) == if currency != "USD" then LegacyYearFracs else GirrTenors
    ensures (exists i :: 0 <= i < |r| && r[i].yearFrac == 0.0) <==> currency != "USD"
  {
    var r := BasisFactor(currency, sideFlag) + seq(10, i requires 0 <= i < 10 => Girr(sideFlag, GirrTenors[i], 0.0));
    assert currency != "USD" ==> r[0].yearFrac == 0.0;
    assert forall i :: 0 <= i < 10 ==> GirrTenors[i] != 0.0;
    r
  }

  /** The factors the processCurve walk has appended after visiting the given vertices. */
  function VertexFactors(currency: string, sideFlag: int, vertices: seq<real>): seq<Girr> {
    if |vertices| == 0 then []
    else
      var last := vertices[|vertices| - 1];
      VertexFactors(currency, sideFlag, vertices[..|vertices| - 1])
        + (if currency == "USD" && last == 0.0 then [] else [Girr(sideFlag, last, 0.0)])
  }

  /** After the first k vertices, the walk holds the basis factor (if any) and the first k - 1 tenors. */
  lemma {:induction false} VertexFactorsPrefix(currency: string, sideFlag: int, k: nat)
    requires 1 <= k <= |LegacyYearFracs|
    ensures VertexFactors(currency, sideFlag, LegacyYearFracs[..k]) ==
      BasisFactor(currency, sideFlag) + seq(k - 1, i requires 0 <= i < k - 1 => Girr(sideFlag, GirrTenors[i], 0.0))
    decreases k
  {
    var v := LegacyYearFracs[..k];
    assert v[..k - 1] == LegacyYearFracs[..k - 1];
    if k == 1 {
      assert VertexFactors(currency, sideFlag, v[..0]) == [];
    } else {
      VertexFactorsPrefix(currency, sideFlag, k - 1);
      assert v[k - 1] == GirrTenors[k - 2] != 0.0;
      assert seq(k - 1, i requires 0 <= i < k - 1 => Girr(sideFlag, GirrTenors[i], 0.0)) ==
        seq(k - 2, i requires 0 <= i < k - 2 => Girr(sideFlag, GirrTenors[i], 0.0)) + [Girr(sideFlag, GirrTenors[k - 2], 0.0)];
    }
  }

  /** The processCurve lambda: walks the vertices, skipping the basis vertex of a "USD" side. */
  method ProcessCurve(currency: string, sideFlag: int, girrs: seq<Girr>) returns (out: seq<Girr>)
    ensures out == girrs + SideFactors(currency, sideFlag)
  {
    out := girrs;
    var k := 0;
    while k < |LegacyYearFracs|
      invariant 0 <= k <= |LegacyYearFracs|
      invariant out == girrs + VertexFactors(currency, sideFlag, LegacyYearFracs[..k])
    {
      var yearFrac := LegacyYearFracs[k];
      if currency != "USD" && yearFrac == 0.0 {
        out := out + [Girr(sideFlag, yearFrac, 0.0)];
      } else if yearFrac == 0.0 {
      } else {
        out := out + [Girr(sideFlag, yearFrac, 0.0)];
      }
      assert LegacyYearFracs[..k + 1][..k] == LegacyYearFracs[..k];
      k := k + 1;
    }
    VertexFactorsPrefix(currency, sideFlag, k);
    assert LegacyYearFracs[..k] == LegacyYearFracs;
  }

  /** setGirrDeltaCurve: every buy factor (sideFlag 0), then every sell factor (sideFlag 1). */
  method SetGirrDeltaCurve(buyCurrency: string, sellCurrency: string) returns (girrs: seq<Girr>)
    ensures girrs == SideFactors(buyCurrency, 0) + SideFactors(sellCurrency, 1)
  {
    girrs := [];
    girrs := ProcessCurve(buyCurrency, 0, girrs);
    girrs := ProcessCurve(sellCurrency, 1, girrs);
  }

  /** The factors of one side, in their order in the list. */
  function GirrsOnSide(girrs: seq<Girr>, sideFlag: int): (r: seq<Girr>)
    ensures |r| <= |girrs|
    ensures forall i :: 0 <= i < |r| ==> r[i].sideFlag == sideFlag
  {
    if |girrs| == 0 then []
    else (if girrs[0].sideFlag == sideFlag then [girrs[0]] else []) + GirrsOnSide(girrs[1..], sideFlag)
  }

  lemma {:induction false} GirrsOnSideAppend(a: seq<Girr>, b: seq<Girr>, sideFlag: int)
    ensures GirrsOnSide(a + b, sideFlag) == GirrsOnSide(a, sideFlag) + GirrsOnSide(b, sideFlag)
    decreases |a|
  {
    if |a| > 0 {
      assert (a + b)[0] == a[0];
      assert (a + b)[1..] == a[1..] + b;
      GirrsOnSideAppend(a[1..], b, sideFlag);
      calc {
        GirrsOnSide(a + b, sideFlag);
        (if a[0].sideFlag == sideFlag then [a[0]] else []) + GirrsOnSide(a[1..] + b, sideFlag);
        (if a[0].sideFlag == sideFlag then [a[0]] else []) + GirrsOnSide(a[1..], sideFlag) + GirrsOnSide(b, sideFlag);
      }
    } else {
      assert a + b == b;
    }
  }

  /** A list entirely on one side passes that side's filter whole and the other side's filter not at all. */
  lemma {:induction false} GirrsOnSideAll(girrs: seq<Girr>, sideFlag: int, other: int)
    requires sideFlag != other && forall i :: 0 <= i < |girrs| ==> girrs[i].sideFlag == sideFlag
    ensures GirrsOnSide(girrs, sideFlag) == girrs && GirrsOnSide(girrs, other) == []
    decreases |girrs|
  {
    if |girrs| > 0 {
      GirrsOnSideAll(girrs[1..], sideFlag, other);
    }
  }

  /** Splitting the factor list by side gives back each side's own factors, in order. */
  lemma SplitRecoversSides(buyCurrency: string, sellCurrency: string)
    ensures GirrsOnSide(SideFactors(buyCurrency, 0) + SideFactors(sellCurrency, 1), 0) == SideFactors(buyCurrency, 0)
    ensures GirrsOnSide(SideFactors(buyCurrency, 0) + SideFactors(sellCurrency, 1), 1) == SideFactors(sellCurrency, 1)
  {
    var b, s := SideFactors(buyCurrency, 0), SideFactors(sellCurrency, 1);
    GirrsOnSideAppend(b, s, 0);
    GirrsOnSideAppend(b, s, 1);
    GirrsOnSideAll(b, 0, 1);
    GirrsOnSideAll(s, 1, 0);
  }

  /**
   * The side-split loop of pricing: factors with sideFlag 0 go to the buy lists, those with
   * sideFlag 1 to the sell lists, tenor and sensitivity together.
   */
  method SplitBySide(girrs: seq<Girr>)
    returns (buyTenor: seq<real>, buySensitivity: seq<real>, sellTenor: seq<real>, sellSensitivity: seq<real>)
    ensures buyTenor == YearFracsOf(GirrsOnSide(girrs, 0)) && buySensitivity == SensitivitiesOf(GirrsOnSide(girrs, 0))
    ensures sellTenor == YearFracsOf(GirrsOnSide(girrs, 1)) && sellSensitivity == SensitivitiesOf(GirrsOnSide(girrs, 1))
  {
    buyTenor, buySensitivity, sellTenor, sellSensitivity := [], [], [], [];
    var i := 0;
    while i < |girrs|
      invariant 0 <= i <= |girrs|
      invariant buyTenor == YearFracsOf(GirrsOnSide(girrs[..i], 0)) && buySensitivity == SensitivitiesOf(GirrsOnSide(girrs[..i], 0))
      invariant sellTenor == YearFracsOf(GirrsOnSide(girrs[..i], 1)) && sellSensitivity == SensitivitiesOf(GirrsOnSide(girrs[..i], 1))
    {
      var girr := girrs[i];
      assert girrs[..i + 1] == girrs[..i] + [girr];
      GirrsOnSideAppend(girrs[..i], [girr], 0);
      GirrsOnSideAppend(girrs[..i], [girr], 1);
      assert [girr][1..] == [];
      if girr.sideFlag == 0 {
        buyTenor := buyTenor + [girr.yearFrac];
        buySensitivity := buySensitivity + [girr.sensitivity];
      }
      if girr.sideFlag == 1 {
        sellTenor := sellTenor + [girr.yearFrac];
        sellSensitivity := sellSensitivity + [girr.sensitivity];
      }
      i := i + 1;
    }
    assert girrs[..i] == girrs;
  }

  // ---- curve points ----

  /** A curve point: its side, its year fraction and its market rate; the bootstrap's outputs start at 0. */
  datatype LegacyCurve = LegacyCurve(sideFlag: int, yearFrac: real, rate: real, dcFactor: real, zeroRate: real)

  /** One side's curve arguments: the point count, the tenor days, the rates and the day-count code. */
  datatype CurveInput = CurveInput(size: int, tenorDays: seq<int>, rates: seq<real>, dcb: int)

  predicate ValidCurveInput(input: CurveInput) {
    input.size <= |input.tenorDays| && input.size <= |input.rates|
  }

  /** The points of one side: point i sits at the year fraction from the evaluation date to tenorDays[i] days later. */
  function SideCurves(yearFraction: (LegacyDayCounter, int, int) -> real, evaluationDate: int, input: CurveInput,
                      sideFlag: int, dayCounters: seq<LegacyDayCounter>): (r: seq<LegacyCurve>)
    requires ValidCurveInput(input) && |dayCounters| >= 6
    ensures |r| == if input.size < 0 then 0 else input.size
    ensures forall i :: 0 <= i < |r| ==>
      r[i].sideFlag == sideFlag && r[i].rate == input.rates[i] &&
      r[i].yearFrac == yearFraction(GetDayCounterByCode(input.dcb, dayCounters), evaluationDate, evaluationDate + input.tenorDays[i])
  {
    var n := if input.size < 0 then 0 else input.size;
    seq(n, i requires 0 <= i < n =>
      LegacyCurve(sideFlag, yearFraction(GetDayCounterByCode(input.dcb, dayCounters), evaluationDate, evaluationDate + input.tenorDays[i]),
        input.rates[i], 0.0, 0.0))
  }

  /** The curve list inputCurveData builds: the buy points, then the sell points. */
  function CurveData(yearFraction: (LegacyDayCounter, int, int) -> real, evaluationDate: int, buy: CurveInput, sell: CurveInput,
                     dayCounters: seq<LegacyDayCounter>): seq<LegacyCurve>
    requires ValidCurveInput(buy) && ValidCurveInput(sell) && |dayCounters| >= 6
  {
    SideCurves(yearFraction, evaluationDate, buy, 0, dayCounters) + SideCurves(yearFraction, evaluationDate, sell, 1, dayCounters)
  }

  /**
   * inputCurveData: clears the list, reserves room for both sides (a negative total is refused
   * by the vector), then pushes the buy points and the sell points in order.
   */
  method InputCurveData(yearFraction: (LegacyDayCounter, int, int) -> real, evaluationDate: int, buy: CurveInput, sell: CurveInput,
                        dayCounters: seq<LegacyDayCounter>) returns (curves: seq<LegacyCurve>)
    requires ValidCurveInput(buy) && ValidCurveInput(sell) && |dayCounters| >= 6
    requires buy.size + sell.size >= 0
    ensures curves == CurveData(yearFraction, evaluationDate, buy, sell, dayCounters)
  {
    curves := [];
    curves := PushSideCurves(curves, yearFraction, evaluationDate, buy, 0, dayCounters);
    curves := PushSideCurves(curves, yearFraction, evaluationDate, sell, 1, dayCounters);
  }

  /** One of inputCurveData's loops: a point per tenor of the side, pushed onto the list in order. */
  method PushSideCurves(curves: seq<LegacyCurve>, yearFraction: (LegacyDayCounter, int, int) -> real, evaluationDate: int,
                        input: CurveInput, sideFlag: int, dayCounters: seq<LegacyDayCounter>) returns (r: seq<LegacyCurve>)
    requires ValidCurveInput(input) && |dayCounters| >= 6
    ensures r == curves + SideCurves(yearFraction, evaluationDate, input, sideFlag, dayCounters)
  {
    ghost var side := SideCurves(yearFraction, evaluationDate, input, sideFlag, dayCounters);
    var dc := GetDayCounterByCode(input.dcb, dayCounters);
    r := curves;
    var i := 0;
    while i < input.size
      invariant 0 <= i <= |side|
      invariant r == curves + side[..i]
    {
      assert side[..i + 1] == side[..i] + [side[i]];
      r := r + [LegacyCurve(sideFlag, yearFraction(dc, evaluationDate, evaluationDate + input.tenorDays[i]), input.rates[i], 0.0, 0.0)];
      i := i + 1;
    }
    assert side[..i] == side;
  }

  /** The points of one side, in their order in the list. */
  function CurvesOnSide(curves: seq<LegacyCurve>, sideFlag: int): (r: seq<LegacyCurve>)
    ensures |r| <= |curves|
    ensures forall i :: 0 <= i < |r| ==> r[i].sideFlag == sideFlag
  {
    if |curves| == 0 then []
    else (if curves[0].sideFlag == sideFlag then [curves[0]] else []) + CurvesOnSide(curves[1..], sideFlag)
  }

  function RatesOf(curves: seq<LegacyCurve>): (r: seq<real>)
    ensures |r| == |curves| && forall i :: 0 <= i < |curves| ==> r[i] == curves[i].rate
  {
    seq(|curves|, i requires 0 <= i < |curves| => curves[i].rate)
  }

  function CurveYearFracsOf(curves: seq<LegacyCurve>): (r: seq<real>)
    ensures |r| == |curves| && forall i :: 0 <= i < |curves| ==> r[i] == curves[i].yearFrac
  {
    seq(|curves|, i requires 0 <= i < |curves| => curves[i].yearFrac)
  }

  /** getCurveYearFrac: the year fractions of the points with the given sideFlag, in list order. */
  function GetCurveYearFrac(sideFlag: int, curves: seq<LegacyCurve>): seq<real> {
    if |curves| == 0 then []
    else (if curves[0].sideFlag == sideFlag then [curves[0].yearFrac] else []) + GetCurveYearFrac(sideFlag, curves[1..])
  }

  /** getCurveZeroRate: the zero rates of the points with the given sideFlag, in list order. */
  function GetCurveZeroRate(sideFlag: int, curves: seq<LegacyCurve>): seq<real> {
    if |curves| == 0 then []
    else (if curves[0].sideFlag == sideFlag then [curves[0].zeroRate] else []) + GetCurveZeroRate(sideFlag, curves[1..])
  }

  /**
   * The two filters that feed the interpolation agree: for one side they have the same
   * length, the number of that side's points, and entry i of each belongs to the side's
   * point i.
   */
  lemma {:induction false} CurveFiltersAgree(sideFlag: int, curves: seq<LegacyCurve>)
    ensures |GetCurveYearFrac(sideFlag, curves)| == |GetCurveZeroRate(sideFlag, curves)| == |CurvesOnSide(curves, sideFlag)|
    ensures forall i :: 0 <= i < |CurvesOnSide(curves, sideFlag)| ==>
      GetCurveYearFrac(sideFlag, curves)[i] == CurvesOnSide(curves, sideFlag)[i].yearFrac &&
      GetCurveZeroRate(sideFlag, curves)[i] == CurvesOnSide(curves, sideFlag)[i].zeroRate
    decreases |curves|
  {
    if |curves| > 0 {
      CurveFiltersAgree(sideFlag, curves[1..]);
    }
  }

  lemma {:induction false} CurvesOnSideAppend(a: seq<LegacyCurve>, b: seq<LegacyCurve>, sideFlag: int)
    ensures CurvesOnSide(a + b, sideFlag) == CurvesOnSide(a, sideFlag) + CurvesOnSide(b, sideFlag)
    decreases |a|
  {
    if |a| > 0 {
      assert (a + b)[0] == a[0];
      assert (a + b)[1..] == a[1..] + b;
      CurvesOnSideAppend(a[1..], b, sideFlag);
      calc {
        CurvesOnSide(a + b, sideFlag);
        (if a[0].sideFlag == sideFlag then [a[0]] else []) + CurvesOnSide(a[1..] + b, sideFlag);
        (if a[0].sideFlag == sideFlag then [a[0]] else []) + CurvesOnSide(a[1..], sideFlag) + CurvesOnSide(b, sideFlag);
      }
    } else {
      assert a + b == b;
    }
  }

  lemma {:induction false} CurvesOnSideAll(curves: seq<LegacyCurve>, sideFlag: int, other: int)
    requires sideFlag != other && forall i :: 0 <= i < |curves| ==> curves[i].sideFlag == sideFlag
    ensures CurvesOnSide(curves, sideFlag) == curves && CurvesOnSide(curves, other) == []
    decreases |curves|
  {
    if |curves| > 0 {
      CurvesOnSideAll(curves[1..], sideFlag, other);
    }
  }

  /** Each side of the curve list holds exactly that side's arguments, in order. */
  lemma CurveDataSides(yearFraction: (LegacyDayCounter, int, int) -> real, evaluationDate: int, buy: CurveInput, sell: CurveInput,
                       dayCounters: seq<LegacyDayCounter>)
    requires ValidCurveInput(buy) && ValidCurveInput(sell) && |dayCounters| >= 6
    ensures CurvesOnSide(CurveData(yearFraction, evaluationDate, buy, sell, dayCounters), 0) == SideCurves(yearFraction, evaluationDate, buy, 0, dayCounters)
    ensures CurvesOnSide(CurveData(yearFraction, evaluationDate, buy, sell, dayCounters), 1) == SideCurves(yearFraction, evaluationDate, sell, 1, dayCounters)
  {
    var b, s := SideCurves(yearFraction, evaluationDate, buy, 0, dayCounters), SideCurves(yearFraction, evaluationDate, sell, 1, dayCounters);
    CurvesOnSideAppend(b, s, 0);
    CurvesOnSideAppend(b, s, 1);
    CurvesOnSideAll(b, 0, 1);
    CurvesOnSideAll(s, 1, 0);
  }

  // ---- the GIRR scenario ----

  /**
   * Whether a risk factor bumps a curve point: only points of its own side, all of them for
   * the basis factor (vertex 0), otherwise those whose year fraction rounded to 2 decimals
   * is the factor's vertex.
   */
  predicate BumpedBy(round2: real -> real, girr: Girr, curve: LegacyCurve) {
    girr.sideFlag == curve.sideFlag && (girr.yearFrac == 0.0 || girr.yearFrac == round2(curve.yearFrac))
  }

  /** The curve list under a risk factor's scenario: bumped points gain one basis point, nothing else changes. */
  function DcRated(round2: real -> real, girr: Girr, curves: seq<LegacyCurve>): (r: seq<LegacyCurve>)
    ensures |r| == |curves|
  {
    seq(|curves|, i requires 0 <= i < |curves| =>
      curves[i].(rate := curves[i].rate + if BumpedBy(round2, girr, curves[i]) then BasisPoint else 0.0))
  }

  /** setDcRate: adds one basis point to the rate of every point the factor bumps, in place. */
  method SetDcRate(round2: real -> real, girr: Girr, curves: seq<LegacyCurve>) returns (bumped: seq<LegacyCurve>)
    ensures bumped == DcRated(round2, girr, curves)
    ensures |bumped| == |curves|
    ensures forall i :: 0 <= i < |curves| ==>
      bumped[i].sideFlag == curves[i].sideFlag && bumped[i].yearFrac == curves[i].yearFrac &&
      bumped[i].rate == curves[i].rate + (if BumpedBy(round2, girr, curves[i]) then BasisPoint else 0.0)
  {
    bumped := curves;
    var i := 0;
    while i < |bumped|
      invariant 0 <= i <= |bumped| == |curves|
      invariant forall j :: 0 <= j < i ==> bumped[j] == DcRated(round2, girr, curves)[j]
      invariant forall j :: i <= j < |curves| ==> bumped[j] == curves[j]
    {
      var curve := bumped[i];
      if girr.yearFrac == 0.0 && girr.sideFlag == curve.sideFlag {
        bumped := bumped[i := curve.(rate := curve.rate + BasisPoint)];
      } else if girr.yearFrac == round2(curve.yearFrac) && girr.sideFlag == curve.sideFlag {
        bumped := bumped[i := curve.(rate := curve.rate + BasisPoint)];
      }
      i := i + 1;
    }
  }

  /** A scenario leaves every point of the other side exactly as it was. */
  lemma {:induction false} DcRatedOtherSide(round2: real -> real, girr: Girr, curves: seq<LegacyCurve>, sideFlag: int)
    requires sideFlag != girr.sideFlag
    ensures CurvesOnSide(DcRated(round2, girr, curves), sideFlag) == CurvesOnSide(curves, sideFlag)
    decreases |curves|
  {
    if |curves| > 0 {
      var r := DcRated(round2, girr, curves);
      assert r[1..] == DcRated(round2, girr, curves[1..]);
      DcRatedOtherSide(round2, girr, curves[1..], sideFlag);
    }
  }

  lemma RatesOfCons(c: LegacyCurve, tail: seq<LegacyCurve>, d: real)
    ensures RatesOf([c] + tail) == [c.rate] + RatesOf(tail)
    ensures CurveYearFracsOf([c] + tail) == [c.yearFrac] + CurveYearFracsOf(tail)
    ensures Shift([c.rate] + RatesOf(tail), d) == [c.rate + d] + Shift(RatesOf(tail), d)
  {
    assert RatesOf([c] + tail) == [c.rate] + RatesOf(tail);
    assert CurveYearFracsOf([c] + tail) == [c.yearFrac] + CurveYearFracsOf(tail);
    assert Shift([c.rate] + RatesOf(tail), d) == [c.rate + d] + Shift(RatesOf(tail), d);
  }

  /** The basis factor moves every point of its own side up by one basis point and keeps their year fractions. */
  lemma {:induction false} BasisScenarioShiftsSide(round2: real -> real, girr: Girr, curves: seq<LegacyCurve>)
    requires girr.yearFrac == 0.0
    ensures RatesOf(CurvesOnSide(DcRated(round2, girr, curves), girr.sideFlag)) == Shift(RatesOf(CurvesOnSide(curves, girr.sideFlag)), BasisPoint)
    ensures CurveYearFracsOf(CurvesOnSide(DcRated(round2, girr, curves), girr.sideFlag)) == CurveYearFracsOf(CurvesOnSide(curves, girr.sideFlag))
    decreases |curves|
  {
    if |curves| > 0 {
      var r := DcRated(round2, girr, curves);
      assert r[1..] == DcRated(round2, girr, curves[1..]);
      BasisScenarioShiftsSide(round2, girr, curves[1..]);
      var tail, rtail := CurvesOnSide(curves[1..], girr.sideFlag), CurvesOnSide(r[1..], girr.sideFlag);
      if curves[0].sideFlag == girr.sideFlag {
        assert CurvesOnSide(curves, girr.sideFlag) == [curves[0]] + tail;
        assert CurvesOnSide(r, girr.sideFlag) == [r[0]] + rtail;
        RatesOfCons(r[0], rtail, BasisPoint);
        RatesOfCons(curves[0], tail, BasisPoint);
      } else {
        assert CurvesOnSide(curves, girr.sideFlag) == tail;
        assert CurvesOnSide(r, girr.sideFlag) == rtail;
      }
    }
  }

  // ---- PVs and sensitivities ----

  /** A side's PV: valuateFxForward on that side's points only. */
  function SidePv(ql: LegacyQuantLib, cf: ValuationCashFlow, curves: seq<LegacyCurve>, sideFlag: int): real {
    ql.valuate(cf.principalAmount, cf.yearFrac, CurveYearFracsOf(CurvesOnSide(curves, sideFlag)), RatesOf(CurvesOnSide(curves, sideFlag)))
  }

  /**
   * calDomesticNetPV: with a domestic buy side (flag 1) the buy PV less the sell PV in
   * domestic terms, with a foreign buy side (flag 0) the buy PV in domestic terms less the
   * sell PV, and 0 for any other flag.
   */
  function CalDomesticNetPV(buySidePV: real, sellSidePV: real, exchangeRate: real, isBuySideDomestic: int): (r: real)
    ensures isBuySideDomestic != 0 && isBuySideDomestic != 1 ==> r == 0.0
  {
    if isBuySideDomestic == 1 then buySidePV - sellSidePV * exchangeRate
    else if isBuySideDomestic == 0 then buySidePV * exchangeRate - sellSidePV
    else 0.0
  }

  /** The spot bump of the FX sensitivity: +10%. */
  const FxBumpRate: real := 1.1

  /** calFxSensitivity: the net PV with the spot rate scaled by fxBumpRate, less the given net PV. */
  function CalFxSensitivity(buySidePV: real, sellSidePV: real, exchangeRate: real, fxBumpRate: real, isBuySideDomestic: int,
                            domesticNetPV: real): real {
    CalDomesticNetPV(buySidePV, sellSidePV, exchangeRate * fxBumpRate, isBuySideDomestic) - domesticNetPV
  }

  /** calGirrSensitivity: the net PV change per unit rate move of a one-basis-point bump. */
  function CalGirrSensitivity(domesticNetPV: real, originalNetPV: real): real {
    (domesticNetPV - originalNetPV) / BasisPoint
  }

  /**
   * Against the unbumped net PV, the FX sensitivity is the foreign leg's domestic value times
   * the bump: it is linear in the spot rate, with the sign of the leg held in foreign currency.
   */
  lemma FxSensitivityOfForeignLeg(buySidePV: real, sellSidePV: real, exchangeRate: real, fxBumpRate: real, isBuySideDomestic: int)
    ensures CalFxSensitivity(buySidePV, sellSidePV, exchangeRate, fxBumpRate, isBuySideDomestic,
              CalDomesticNetPV(buySidePV, sellSidePV, exchangeRate, isBuySideDomestic)) ==
            (fxBumpRate - 1.0) * exchangeRate * (if isBuySideDomestic == 1 then -sellSidePV else if isBuySideDomestic == 0 then buySidePV else 0.0)
  {
  }

  /** Swapping the legs and the domestic flag negates the net PV: the two conventions are mirror images. */
  lemma NetPvMirror(buySidePV: real, sellSidePV: real, exchangeRate: real)
    ensures CalDomesticNetPV(buySidePV, sellSidePV, exchangeRate, 1) == -CalDomesticNetPV(sellSidePV, buySidePV, exchangeRate, 0)
  {
  }

  /** The GIRR sensitivity recovers the slope of a net PV that moved by d per unit rate over one basis point. */
  lemma GirrSensitivityOfSlope(originalNetPV: real, d: real)
    ensures CalGirrSensitivity(originalNetPV + d * BasisPoint, originalNetPV) == d
  {
  }

  /** processNetPV: bootstrap and valuate both sides, then the domestic net PV. */
  function NetPv(ql: LegacyQuantLib, trade: TradeInformation, buyCf: ValuationCashFlow, sellCf: ValuationCashFlow,
                 curves: seq<LegacyCurve>): real {
    CalDomesticNetPV(SidePv(ql, buyCf, curves, 0), SidePv(ql, sellCf, curves, 1), trade.exchangeRate, trade.isBuySideDomestic)
  }

  /** A risk factor with its sensitivity: the net PV under its scenario against the reported net PV. */
  function Sensitize(ql: LegacyQuantLib, trade: TradeInformation, buyCf: ValuationCashFlow, sellCf: ValuationCashFlow,
                     curves: seq<LegacyCurve>, girr: Girr, reportedNetPv: real): (g: Girr)
    ensures g.sideFlag == girr.sideFlag && g.yearFrac == girr.yearFrac
  {
    girr.(sensitivity := CalGirrSensitivity(NetPv(ql, trade, buyCf, sellCf, DcRated(ql.round2, girr, curves)), reportedNetPv))
  }

  function Sensitized(ql: LegacyQuantLib, trade: TradeInformation, buyCf: ValuationCashFlow, sellCf: ValuationCashFlow,
                      curves: seq<LegacyCurve>, girrs: seq<Girr>, reportedNetPv: real): (r: seq<Girr>)
    ensures |r| == |girrs|
  {
    seq(|girrs|, i requires 0 <= i < |girrs| => Sensitize(ql, trade, buyCf, sellCf, curves, girrs[i], reportedNetPv))
  }

  /** A list of factors with f applied to each. */
  function MapGirrs(f: Girr -> Girr, girrs: seq<Girr>): (r: seq<Girr>)
    ensures |r| == |girrs| && forall i :: 0 <= i < |girrs| ==> r[i] == f(girrs[i])
  {
    seq(|girrs|, i requires 0 <= i < |girrs| => f(girrs[i]))
  }

  /** A map that keeps every factor on its side commutes with the split by side. */
  lemma {:induction false} MapKeepsSides(f: Girr -> Girr, girrs: seq<Girr>, sideFlag: int)
    requires forall g :: f(g).sideFlag == g.sideFlag
    ensures GirrsOnSide(MapGirrs(f, girrs), sideFlag) == MapGirrs(f, GirrsOnSide(girrs, sideFlag))
    decreases |girrs|
  {
    if |girrs| > 0 {
      var m := MapGirrs(f, girrs);
      assert m[1..] == MapGirrs(f, girrs[1..]);
      MapKeepsSides(f, girrs[1..], sideFlag);
      var head := if girrs[0].sideFlag == sideFlag then [girrs[0]] else [];
      var rest := GirrsOnSide(girrs[1..], sideFlag);
      assert GirrsOnSide(girrs, sideFlag) == head + rest;
      assert MapGirrs(f, head + rest) == MapGirrs(f, head) + MapGirrs(f, rest);
    }
  }

  /** Filling in the sensitivities keeps every factor on its side, so splitting before or after gives the same lists. */
  lemma SensitizedKeepsSides(ql: LegacyQuantLib, trade: TradeInformation, buyCf: ValuationCashFlow,
                             sellCf: ValuationCashFlow, curves: seq<LegacyCurve>, girrs: seq<Girr>,
                             reportedNetPv: real, sideFlag: int)
    ensures GirrsOnSide(Sensitized(ql, trade, buyCf, sellCf, curves, girrs, reportedNetPv), sideFlag) ==
            Sensitized(ql, trade, buyCf, sellCf, curves, GirrsOnSide(girrs, sideFlag), reportedNetPv)
  {
    var f := (g: Girr) => Sensitize(ql, trade, buyCf, sellCf, curves, g, reportedNetPv);
    MapKeepsSides(f, girrs, sideFlag);
    assert Sensitized(ql, trade, buyCf, sellCf, curves, girrs, reportedNetPv) == MapGirrs(f, girrs);
    var onSide := GirrsOnSide(girrs, sideFlag);
    assert Sensitized(ql, trade, buyCf, sellCf, curves, onSide, reportedNetPv) == MapGirrs(f, onSide);
  }

  /** A factor's scenario reprices only its own leg: the other leg's PV is the unbumped one. */
  lemma ScenarioMovesOwnLegOnly(ql: LegacyQuantLib, buyCf: ValuationCashFlow, sellCf: ValuationCashFlow,
                                curves: seq<LegacyCurve>, girr: Girr)
    ensures girr.sideFlag != 1 ==> SidePv(ql, sellCf, DcRated(ql.round2, girr, curves), 1) == SidePv(ql, sellCf, curves, 1)
    ensures girr.sideFlag != 0 ==> SidePv(ql, buyCf, DcRated(ql.round2, girr, curves), 0) == SidePv(ql, buyCf, curves, 0)
  {
    if girr.sideFlag != 1 {
      DcRatedOtherSide(ql.round2, girr, curves, 1);
    }
    if girr.sideFlag != 0 {
      DcRatedOtherSide(ql.round2, girr, curves, 0);
    }
  }

  /**
   * The GIRR loop of pricing: for each factor, rebuild the curve list from the arguments,
   * apply the factor's scenario, revalue, and store the sensitivity against the reported
   * (rounded) net PV.
   */
  method GirrLoop(ql: LegacyQuantLib, trade: TradeInformation, buyCf: ValuationCashFlow, sellCf: ValuationCashFlow,
                  evaluationDate: int, buy: CurveInput, sell: CurveInput, dayCounters: seq<LegacyDayCounter>,
                  girrs: seq<Girr>, reportedNetPv: real) returns (out: seq<Girr>)
    requires ValidCurveInput(buy) && ValidCurveInput(sell) && |dayCounters| >= 6 && buy.size + sell.size >= 0
    ensures out == Sensitized(ql, trade, buyCf, sellCf, CurveData(ql.yearFraction, evaluationDate, buy, sell, dayCounters), girrs, reportedNetPv)
  {
    var base := CurveData(ql.yearFraction, evaluationDate, buy, sell, dayCounters);
    out := girrs;
    var i := 0;
    while i < |out|
      invariant 0 <= i <= |out| == |girrs|
      invariant forall j :: 0 <= j < i ==> out[j] == Sensitize(ql, trade, buyCf, sellCf, base, girrs[j], reportedNetPv)
      invariant forall j :: i <= j < |girrs| ==> out[j] == girrs[j]
    {
      var curves := InputCurveData(ql.yearFraction, evaluationDate, buy, sell, dayCounters);
      var girr := out[i];
      var bumped := SetDcRate(ql.round2, girr, curves);
      var netPv := CalDomesticNetPV(SidePv(ql, buyCf, bumped, 0), SidePv(ql, sellCf, bumped, 1), trade.exchangeRate, trade.isBuySideDomestic);
      out := out[i := girr.(sensitivity := CalGirrSensitivity(netPv, reportedNetPv))];
      i := i + 1;
    }
  }

  /** What processResultArray writes for one side: its factors with a non-zero sensitivity. */
  function SideLayout(girrs: seq<Girr>, sideFlag: int): (r: seq<real>)
    ensures |r| <= 2 * |girrs| + 1
  {
    var side := GirrsOnSide(girrs, sideFlag);
    FilteredLayout(YearFracsOf(side), SensitivitiesOf(side), |side|)
  }

  /**
   * The calType 3 part of pricing: the GIRR loop against the reported net PV, the split by
   * side, and processResultArray on each side's full list.
   */
  method WriteGirrDeltas(ql: LegacyQuantLib, trade: TradeInformation, buyCf: ValuationCashFlow, sellCf: ValuationCashFlow,
                         evaluationDate: int, buy: CurveInput, sell: CurveInput, dayCounters: seq<LegacyDayCounter>,
                         girrs: seq<Girr>, reportedNetPv: real, resultBuy: array<real>, resultSell: array<real>)
    requires ValidCurveInput(buy) && ValidCurveInput(sell) && |dayCounters| >= 6 && buy.size + sell.size >= 0
    requires resultBuy != resultSell && 2 * |girrs| + 1 <= resultBuy.Length && 2 * |girrs| + 1 <= resultSell.Length
    modifies resultBuy, resultSell
    ensures var sensitized := Sensitized(ql, trade, buyCf, sellCf, CurveData(ql.yearFraction, evaluationDate, buy, sell, dayCounters),
              girrs, reportedNetPv);
      && resultBuy[..] == Overwrite(old(resultBuy[..]), SideLayout(sensitized, 0))
      && resultSell[..] == Overwrite(old(resultSell[..]), SideLayout(sensitized, 1))
  {
    var sensitized := GirrLoop(ql, trade, buyCf, sellCf, evaluationDate, buy, sell, dayCounters, girrs, reportedNetPv);
    var buyTenor, buySensitivity, sellTenor, sellSensitivity := SplitBySide(sensitized);
    ProcessResultArray(buyTenor, buySensitivity, |buySensitivity|, resultBuy);
    ProcessResultArray(sellTenor, sellSensitivity, |sellSensitivity|, resultSell);
  }

  // ---- pricing ----

  /** The first result buffer: the net PV rounded to 10 decimals, then for calType 2 and 3 the rounded FX sensitivity. */
  function NetPvRecord(ql: LegacyQuantLib, trade: TradeInformation, buyCf: ValuationCashFlow, sellCf: ValuationCashFlow,
                       curves: seq<LegacyCurve>, calType: int): (r: seq<real>)
    ensures |r| == if calType >= 2 then 2 else 1
    ensures r[0] == ql.round10(NetPv(ql, trade, buyCf, sellCf, curves))
  {
    var netPv := NetPv(ql, trade, buyCf, sellCf, curves);
    [ql.round10(netPv)] +
      if calType >= 2 then
        [ql.round10(CalFxSensitivity(SidePv(ql, buyCf, curves, 0), SidePv(ql, sellCf, curves, 1),
          trade.exchangeRate, FxBumpRate, trade.isBuySideDomestic, netPv))]
      else []
  }

  /** Every risk factor of both sides with its sensitivity against the reported (rounded) net PV. */
  function LegacyGirrs(ql: LegacyQuantLib, trade: TradeInformation, buyCf: ValuationCashFlow, sellCf: ValuationCashFlow,
                       curves: seq<LegacyCurve>, buyCurrency: string, sellCurrency: string): (r: seq<Girr>)
    ensures |r| <= 22
  {
    Sensitized(ql, trade, buyCf, sellCf, curves, SideFactors(buyCurrency, 0) + SideFactors(sellCurrency, 1),
      ql.round10(NetPv(ql, trade, buyCf, sellCf, curves)))
  }

  /** Everything pricing does after clearing the buffers, for a valid calType. */
  method PriceValid(ql: LegacyQuantLib, trade: TradeInformation, buyCf: ValuationCashFlow, sellCf: ValuationCashFlow,
                    buy: CurveInput, sell: CurveInput, calType: int,
                    resultNetPvFxSensitivity: array<real>, resultBuySideGirrDelta: array<real>, resultSellSideGirrDelta: array<real>)
    requires 1 <= calType <= 3
    requires resultNetPvFxSensitivity != resultBuySideGirrDelta && resultNetPvFxSensitivity != resultSellSideGirrDelta &&
      resultBuySideGirrDelta != resultSellSideGirrDelta
    requires resultNetPvFxSensitivity.Length >= 2 && resultBuySideGirrDelta.Length >= 50 && resultSellSideGirrDelta.Length >= 50
    requires ValidCurveInput(buy) && ValidCurveInput(sell) && buy.size + sell.size >= 0
    modifies resultNetPvFxSensitivity, resultBuySideGirrDelta, resultSellSideGirrDelta
    ensures var curves := CurveData(ql.yearFraction, trade.evaluationDate, buy, sell, DayCounterSlots);
      var girrs := LegacyGirrs(ql, trade, buyCf, sellCf, curves, buyCf.currency, sellCf.currency);
      && resultNetPvFxSensitivity[..] == Overwrite(old(resultNetPvFxSensitivity[..]), NetPvRecord(ql, trade, buyCf, sellCf, curves, calType))
      && resultBuySideGirrDelta[..] == Overwrite(old(resultBuySideGirrDelta[..]), if calType == 3 then SideLayout(girrs, 0) else [])
      && resultSellSideGirrDelta[..] == Overwrite(old(resultSellSideGirrDelta[..]), if calType == 3 then SideLayout(girrs, 1) else [])
  {
    var dayCounters := InitDayCounters();
    var girrs := SetGirrDeltaCurve(buyCf.currency, sellCf.currency);
    var curves := InputCurveData(ql.yearFraction, trade.evaluationDate, buy, sell, dayCounters);
    var record := NetPvRecord(ql, trade, buyCf, sellCf, curves, calType);
    WriteValues(resultNetPvFxSensitivity, record);
    if calType == 3 {
      WriteGirrDeltas(ql, trade, buyCf, sellCf, trade.evaluationDate, buy, sell, dayCounters, girrs, record[0],
        resultBuySideGirrDelta, resultSellSideGirrDelta);
    }
  }

  /**
   * `pricing` of the earlier FX forward library. calType 1 writes the rounded net PV,
   * calType 2 also the rounded FX sensitivity, calType 3 also each side's GIRR deltas; any
   * other calType returns before the buffers are cleared. The logger set-up and the input
   * logging are not modelled.
   */
  method Pricing(ql: LegacyQuantLib, maturityDateSerial: int, evaluationDateSerial: int, exchangeRate: real, isBuySideDomestic: int,
                 buySideCurrency: string, buySideNotional: real, buySideDcb: int,
                 buyCurveDataSize: int, buyCurveTenorDays: seq<int>, buyCurveRates: seq<real>,
                 sellSideCurrency: string, sellSideNotional: real, sellSideDcb: int,
                 sellCurveDataSize: int, sellCurveTenorDays: seq<int>, sellCurveRates: seq<real>,
                 calType: int,
                 resultNetPvFxSensitivity: array<real>, resultBuySideGirrDelta: array<real>, resultSellSideGirrDelta: array<real>)
    requires resultNetPvFxSensitivity != resultBuySideGirrDelta && resultNetPvFxSensitivity != resultSellSideGirrDelta &&
      resultBuySideGirrDelta != resultSellSideGirrDelta
    requires 1 <= calType <= 3 ==>
      resultNetPvFxSensitivity.Length >= 2 && resultBuySideGirrDelta.Length >= 50 && resultSellSideGirrDelta.Length >= 50 &&
      buyCurveDataSize <= |buyCurveTenorDays| && buyCurveDataSize <= |buyCurveRates| &&
      sellCurveDataSize <= |sellCurveTenorDays| && sellCurveDataSize <= |sellCurveRates| &&
      buyCurveDataSize + sellCurveDataSize >= 0
    modifies resultNetPvFxSensitivity, resultBuySideGirrDelta, resultSellSideGirrDelta
    ensures !(1 <= calType <= 3) ==> unchanged(resultNetPvFxSensitivity, resultBuySideGirrDelta, resultSellSideGirrDelta)
    ensures 1 <= calType <= 3 ==>
      var trade := TradeInformation(maturityDateSerial, evaluationDateSerial, exchangeRate, isBuySideDomestic);
      var buyCf := ValuationCashFlowOf(ql, buySideCurrency, buySideNotional, evaluationDateSerial, maturityDateSerial, buySideDcb, DayCounterSlots);
      var sellCf := ValuationCashFlowOf(ql, sellSideCurrency, sellSideNotional, evaluationDateSerial, maturityDateSerial, sellSideDcb, DayCounterSlots);
      var curves := CurveData(ql.yearFraction, evaluationDateSerial, CurveInput(buyCurveDataSize, buyCurveTenorDays, buyCurveRates, buySideDcb),
        CurveInput(sellCurveDataSize, sellCurveTenorDays, sellCurveRates, sellSideDcb), DayCounterSlots);
      var girrs := LegacyGirrs(ql, trade, buyCf, sellCf, curves, buySideCurrency, sellSideCurrency);
      && resultNetPvFxSensitivity[..] == Overwrite(Cleared(old(resultNetPvFxSensitivity[..]), 2),
           NetPvRecord(ql, trade, buyCf, sellCf, curves, calType))
      && resultBuySideGirrDelta[..] == Overwrite(Cleared(old(resultBuySideGirrDelta[..]), 50),
           if calType == 3 then SideLayout(girrs, 0) else [])
      && resultSellSideGirrDelta[..] == Overwrite(Cleared(old(resultSellSideGirrDelta[..]), 50),
           if calType == 3 then SideLayout(girrs, 1) else [])
  {
    if calType != 1 && calType != 2 && calType != 3 {
      return;
    }
    InitResult(resultNetPvFxSensitivity, 2);
    InitResult(resultBuySideGirrDelta, 50);
    InitResult(resultSellSideGirrDelta, 50);
    var dayCounters := InitDayCounters();
    var trade := TradeInformation(maturityDateSerial, evaluationDateSerial, exchangeRate, isBuySideDomestic);
    var buyCf := ValuationCashFlowOf(ql, buySideCurrency, buySideNotional, evaluationDateSerial, maturityDateSerial, buySideDcb, dayCounters);
    var sellCf := ValuationCashFlowOf(ql, sellSideCurrency, sellSideNotional, evaluationDateSerial, maturityDateSerial, sellSideDcb, dayCounters);
    PriceValid(ql, trade, buyCf, sellCf, CurveInput(buyCurveDataSize, buyCurveTenorDays, buyCurveRates, buySideDcb),
      CurveInput(sellCurveDataSize, sellCurveTenorDays, sellCurveRates, sellSideDcb), calType,
      resultNetPvFxSensitivity, resultBuySideGirrDelta, resultSellSideGirrDelta);
  }

  /**
   * What each side's GIRR output is built from: that side's own factors, in vertex order,
   * each carrying the sensitivity of its own scenario.
   */
  lemma SideOutputsUseOwnFactors(ql: LegacyQuantLib, trade: TradeInformation, buyCf: ValuationCashFlow, sellCf: ValuationCashFlow,
                                 curves: seq<LegacyCurve>, buyCurrency: string, sellCurrency: string)
    ensures var girrs := LegacyGirrs(ql, trade, buyCf, sellCf, curves, buyCurrency, sellCurrency);
      var reported := ql.round10(NetPv(ql, trade, buyCf, sellCf, curves));
      && GirrsOnSide(girrs, 0) == Sensitized(ql, trade, buyCf, sellCf, curves, SideFactors(buyCurrency, 0), reported)
      && GirrsOnSide(girrs, 1) == Sensitized(ql, trade, buyCf, sellCf, curves, SideFactors(sellCurrency, 1), reported)
  {
    var all := SideFactors(buyCurrency, 0) + SideFactors(sellCurrency, 1);
    var reported := ql.round10(NetPv(ql, trade, buyCf, sellCf, curves));
    SensitizedKeepsSides(ql, trade, buyCf, sellCf, curves, all, reported, 0);
    SensitizedKeepsSides(ql, trade, buyCf, sellCf, curves, all, reported, 1);
    SplitRecoversSides(buyCurrency, sellCurrency);
  }
}
