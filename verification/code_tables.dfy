/**
 * The integer code tables of the common utilities (common.cpp): each `make*FromInt`
 * turns a code passed across the C interface into a QuantLib convention, with a fixed
 * fallback for codes outside the table; YYYYMMDD integers become dates; day counts
 * become periods.
 *
 * QuantLib's own objects are represented by enumerations naming them. C's `/` and `%`
 * truncate toward zero; they are written out as CDiv and CMod.
 */
module CodeTables {
  import opened Wrappers
  import opened Text

  // ---- C integer division ----

  /** C's `a / b` for b > 0: the quotient truncated toward zero. */
  function CDiv(a: int, b: int): (q: int)
    requires b > 0
    ensures a >= 0 ==> q == a / b
    ensures a < 0 ==> q == -((-a) / b)
  {
    if a >= 0 then a / b else -((-a) / b)
  }

  /** C's `a % b` for b > 0: its sign follows the dividend, and b * (a / b) + a % b == a. */
  function CMod(a: int, b: int): (m: int)
    requires b > 0
    ensures a == b * CDiv(a, b) + m
    ensures a >= 0 ==> 0 <= m < b
    ensures a < 0 ==> -b < m <= 0
  {
    a - b * CDiv(a, b)
  }

  /** Dropping two decimal digits twice drops four, also when truncating. */
  lemma CDivHundredTwice(a: int)
    ensures CDiv(CDiv(a, 100), 100) == CDiv(a, 10000)
  {
  }

  // ---- dates ----

  /** The three integers handed to QuantLib's `Date(day, month, year)`. */
  datatype DateParts = DateParts(year: int, month: int, day: int)

  /** makeDateFromInt: YYYYMMDD split with C's truncating division. */
  function MakeDateFromInt(intDate: int): (d: DateParts)
    ensures intDate == d.year * 10000 + d.month * 100 + d.day
    ensures intDate >= 0 ==> d.year >= 0 && 0 <= d.month < 100 && 0 <= d.day < 100
    ensures intDate < 0 ==> d.year <= 0 && -100 < d.month <= 0 && -100 < d.day <= 0
  {
    CDivHundredTwice(intDate);
    DateParts(CDiv(intDate, 10000), CMod(CDiv(intDate, 100), 100), CMod(intDate, 100))
  }

  /** The YYYYMMDD integer of a date: the inverse of MakeDateFromInt. */
  function DateToInt(d: DateParts): int {
    d.year * 10000 + d.month * 100 + d.day
  }

  /** Every non-negative year with a two-digit month and day comes back from its YYYYMMDD integer. */
  lemma DateRoundTrip(d: DateParts)
    requires d.year >= 0 && 0 <= d.month < 100 && 0 <= d.day < 100
    ensures MakeDateFromInt(DateToInt(d)) == d
  {
    var n := DateToInt(d);
    var r := MakeDateFromInt(n);
    assert n == (d.year * 100 + d.month) * 100 + d.day;
    assert CDiv(n, 100) == d.year * 100 + d.month;
    assert CDiv(n, 10000) == d.year by {
      CDivHundredTwice(n);
    }
  }

  /** A negative code does not fail: every part comes out negative or zero (20240115 negated gives -2024, -1, -15). */
  lemma NegativeDateParts()
    ensures MakeDateFromInt(-20240115) == DateParts(-2024, -1, -15)
  {
    assert CDiv(-20240115, 100) == -202401;
  }

  /** makeDatesVectorFromIntArray: one date per code, in order. */
  method MakeDatesVectorFromIntArray(arrSize: int, intDates: array<int>) returns (dates: seq<DateParts>)
    requires 0 <= arrSize <= intDates.Length
    ensures |dates| == arrSize
    ensures forall i :: 0 <= i < arrSize ==> dates[i] == MakeDateFromInt(intDates[i])
  {
    dates := [];
    var i := 0;
    while i < arrSize
      invariant 0 <= i <= arrSize
      invariant |dates| == i
      invariant forall j :: 0 <= j < i ==> dates[j] == MakeDateFromInt(intDates[j])
    {
      dates := dates + [MakeDateFromInt(intDates[i])];
      i := i + 1;
    }
  }

  /** makeRatesVectorFromDoubleArray: the first arrSize rates, in order. */
  method MakeRatesVectorFromDoubleArray(arrSize: int, doubleRates: array<real>) returns (rates: seq<real>)
    requires 0 <= arrSize <= doubleRates.Length
    ensures rates == doubleRates[..arrSize]
  {
    rates := [];
    var i := 0;
    while i < arrSize
      invariant 0 <= i <= arrSize
      invariant rates == doubleRates[..i]
    {
      rates := rates + [doubleRates[i]];
      i := i + 1;
    }
  }

  // ---- calendars ----

  datatype Calendar =
    | SouthKorea | UsSettlement | UsNyse | UsGovernmentBond | UsNerc | UsLiborImpact
    | UsFederalReserve | UsSofr | Target | UnitedKingdom | Japan | Canada | Switzerland
    | Australia | NewZealand | Singapore | HongKong | China | India | Thailand | Turkey
    | Taiwan | Norway | Denmark | Sweden | Russia | Brazil | Hungary | Indonesia | Mexico
    | Poland | Austria | Chile | CzechRepublic | Germany | Finland | France | Israel
    | Italy | SaudiArabia | SouthAfrica | NullCalendar

  /** The codes the calendar table lists; 33 to 37, 41, 42, 44 and 48 to 61 among others are not. */
  predicate IsCalendarCode(code: int) {
    0 <= code <= 32 || code in {38, 39, 40, 43, 45, 46, 47, 62, 66}
  }

  /** makeCalendarFromInt: every unlisted code gives NullCalendar, and 16 and 18 both give HongKong. */
  function MakeCalendarFromInt(intCalendar: int): (r: Calendar)
    ensures r == NullCalendar <==> !IsCalendarCode(intCalendar)
    ensures (intCalendar == 16 || intCalendar == 18) ==> r == HongKong
  {
    match intCalendar
    case 0 => SouthKorea
    case 1 => UsSettlement
    case 2 => UsNyse
    case 3 => UsGovernmentBond
    case 4 => UsNerc
    case 5 => UsLiborImpact
    case 6 => UsFederalReserve
    case 7 => UsSofr
    case 8 => Target
    case 9 => UnitedKingdom
    case 10 => Japan
    case 11 => Canada
    case 12 => Switzerland
    case 13 => Australia
    case 14 => NewZealand
    case 15 => Singapore
    case 16 => HongKong
    case 17 => China
    case 18 => HongKong
    case 19 => India
    case 20 => Thailand
    case 21 => Turkey
    case 22 => Taiwan
    case 23 => Norway
    case 24 => Denmark
    case 25 => Sweden
    case 26 => Russia
    case 27 => Brazil
    case 28 => Hungary
    case 29 => Indonesia
    case 30 => Mexico
    case 31 => Poland
    case 32 => Austria
    case 38 => Chile
    case 39 => CzechRepublic
    case 40 => Germany
    case 43 => Finland
    case 45 => France
    case 46 => Israel
    case 47 => Italy
    case 62 => SaudiArabia
    case 66 => SouthAfrica
    case _ => NullCalendar
  }

  /** The code a caller passes for a calendar (16 for HongKong); NullCalendar has none of its own. */
  function CalendarCode(c: Calendar): int
    requires c != NullCalendar
  {
    match c
    case SouthKorea => 0
    case UsSettlement => 1
    case UsNyse => 2
    case UsGovernmentBond => 3
    case UsNerc => 4
    case UsLiborImpact => 5
    case UsFederalReserve => 6
    case UsSofr => 7
    case Target => 8
    case UnitedKingdom => 9
    case Japan => 10
    case Canada => 11
    case Switzerland => 12
    case Australia => 13
    case NewZealand => 14
    case Singapore => 15
    case HongKong => 16
    case China => 17
    case India => 19
    case Thailand => 20
    case Turkey => 21
    case Taiwan => 22
    case Norway => 23
    case Denmark => 24
    case Sweden => 25
    case Russia => 26
    case Brazil => 27
    case Hungary => 28
    case Indonesia => 29
    case Mexico => 30
    case Poland => 31
    case Austria => 32
    case Chile => 38
    case CzechRepublic => 39
    case Germany => 40
    case Finland => 43
    case France => 45
    case Israel => 46
    case Italy => 47
    case SaudiArabia => 62
    case SouthAfrica => 66
  }

  /**
   * Every calendar other than NullCalendar has a code, and the table is one-to-one
   * except that 18 is a second code for HongKong.
   */
  lemma CalendarCodeTable(c: Calendar, code: int)
    ensures c != NullCalendar ==> MakeCalendarFromInt(CalendarCode(c)) == c
    ensures MakeCalendarFromInt(code) != NullCalendar && code != 18 ==>
      CalendarCode(MakeCalendarFromInt(code)) == code
  {
    CodeOfCalendar(c);
    CalendarOfCode(code);
  }

  lemma CodeOfCalendar(c: Calendar)
    ensures c != NullCalendar ==> MakeCalendarFromInt(CalendarCode(c)) == c
  {
    if c in {SouthKorea, UsSettlement, UsNyse, UsGovernmentBond, UsNerc, UsLiborImpact, UsFederalReserve,
      UsSofr, Target, UnitedKingdom, Japan, Canada, Switzerland} {
      CodeOfFirstCalendars(c);
    } else if c in {Australia, NewZealand, Singapore, HongKong, China, India, Thailand, Turkey, Taiwan,
      Norway, Denmark, Sweden, Russia} {
      CodeOfMiddleCalendars(c);
    } else if c in {Brazil, Hungary, Indonesia, Mexico, Poland, Austria, Chile} {
      CodeOfLaterCalendars(c);
    } else if c in {CzechRepublic, Germany, Finland, France, Israel, Italy, SaudiArabia, SouthAfrica} {
      CodeOfLastCalendars(c);
    }
  }

  lemma CodeOfFirstCalendars(c: Calendar)
    requires c in {SouthKorea, UsSettlement, UsNyse, UsGovernmentBond, UsNerc, UsLiborImpact,
      UsFederalReserve, UsSofr, Target, UnitedKingdom, Japan, Canada, Switzerland}
    ensures MakeCalendarFromInt(CalendarCode(c)) == c
  {
    match c
    case SouthKorea =>
    case UsSettlement =>
    case UsNyse =>
    case UsGovernmentBond =>
    case UsNerc =>
    case UsLiborImpact =>
    case UsFederalReserve =>
    case UsSofr =>
    case Target =>
    case UnitedKingdom =>
    case Japan =>
    case Canada =>
    case Switzerland =>
    case _ =>
  }

  lemma CodeOfMiddleCalendars(c: Calendar)
    requires c in {Australia, NewZealand, Singapore, HongKong, China, India, Thailand, Turkey, Taiwan, Norway,
      Denmark, Sweden, Russia}
    ensures MakeCalendarFromInt(CalendarCode(c)) == c
  {
    match c
    case Australia =>
    case NewZealand =>
    case Singapore =>
    case HongKong =>
    case China =>
    case India =>
    case Thailand =>
    case Turkey =>
    case Taiwan =>
    case Norway =>
    case Denmark =>
    case Sweden =>
    case Russia =>
    case _ =>
  }

  lemma CodeOfLaterCalendars(c: Calendar)
    requires c in {Brazil, Hungary, Indonesia, Mexico, Poland, Austria, Chile}
    ensures MakeCalendarFromInt(CalendarCode(c)) == c
  {
    match c
    case Brazil =>
    case Hungary =>
    case Indonesia =>
    case Mexico =>
    case Poland =>
    case Austria =>
    case Chile =>
    case _ =>
  }

  lemma CodeOfLastCalendars(c: Calendar)
    requires c in {CzechRepublic, Germany, Finland, France, Israel, Italy, SaudiArabia, SouthAfrica}
    ensures MakeCalendarFromInt(CalendarCode(c)) == c
  {
    match c
    case CzechRepublic =>
    case Germany =>
    case Finland =>
    case France =>
    case Israel =>
    case Italy =>
    case SaudiArabia =>
    case SouthAfrica =>
    case _ =>
  }

  lemma CalendarOfCode(code: int)
    ensures MakeCalendarFromInt(code) != NullCalendar && code != 18 ==>
      CalendarCode(MakeCalendarFromInt(code)) == code
  {
    if !IsCalendarCode(code) || code == 18 {
    } else if code < 8 {
      CalendarOfCodeFrom0(code);
    } else if code < 16 {
      CalendarOfCodeFrom8(code);
    } else if code < 25 {
      CalendarOfCodeFrom16(code);
    } else if code < 33 {
      CalendarOfCodeFrom25(code);
    } else if code < 46 {
      CalendarOfCodeFrom38(code);
    } else {
      CalendarOfCodeFrom46(code);
    }
  }

  lemma CalendarOfCodeFrom0(code: int)
    requires 0 <= code < 8
    ensures CalendarCode(MakeCalendarFromInt(code)) == code
  {
    match code
    case 0 =>
    case 1 =>
    case 2 =>
    case 3 =>
    case 4 =>
    case 5 =>
    case 6 =>
    case 7 =>
  }

  lemma CalendarOfCodeFrom8(code: int)
    requires 8 <= code < 16
    ensures CalendarCode(MakeCalendarFromInt(code)) == code
  {
    match code
    case 8 =>
    case 9 =>
    case 10 =>
    case 11 =>
    case 12 =>
    case 13 =>
    case 14 =>
    case 15 =>
  }

  lemma CalendarOfCodeFrom16(code: int)
    requires 16 <= code < 25 && code != 18
    ensures CalendarCode(MakeCalendarFromInt(code)) == code
  {
    match code
    case 16 =>
    case 17 =>
    case 19 =>
    case 20 =>
    case 21 =>
    case 22 =>
    case 23 =>
    case 24 =>
  }

  lemma CalendarOfCodeFrom25(code: int)
    requires 25 <= code < 33
    ensures CalendarCode(MakeCalendarFromInt(code)) == code
  {
    match code
    case 25 =>
    case 26 =>
    case 27 =>
    case 28 =>
    case 29 =>
    case 30 =>
    case 31 =>
    case 32 =>
  }

  lemma CalendarOfCodeFrom38(code: int)
    requires code in {38, 39, 40, 43, 45}
    ensures CalendarCode(MakeCalendarFromInt(code)) == code
  {
    match code
    case 38 =>
    case 39 =>
    case 40 =>
    case 43 =>
    case 45 =>
  }

  lemma CalendarOfCodeFrom46(code: int)
    requires code in {46, 47, 62, 66}
    ensures CalendarCode(MakeCalendarFromInt(code)) == code
  {
    match code
    case 46 =>
    case 47 =>
    case 62 =>
    case 66 =>
  }

  // ---- day counters ----

  datatype DayCounter =
    | Actual365Fixed | Actual360 | Actual364 | Actual36525 | Actual366 | ActualActual365
    | Business252 | OneDayCounter | SimpleDayCounter | Thirty360Usa | Thirty360BondBasis
    | Thirty360European | Thirty360EurobondBasis | Thirty360Italian | Thirty360German
    | Thirty360Isma | Thirty360Isda | Thirty360Nasd | Thirty365

  /** makeDayCounterFromInt: codes 0 to 18, anything else Actual/365 (Fixed), the same as 0. */
  function MakeDayCounterFromInt(dayCounterCode: int): (r: DayCounter)
    ensures !(0 <= dayCounterCode <= 18) ==> r == Actual365Fixed
  {
    match dayCounterCode
    case 0 => Actual365Fixed
    case 1 => Actual360
    case 2 => Actual364
    case 3 => Actual36525
    case 4 => Actual366
    case 5 => ActualActual365
    case 6 => Business252
    case 7 => OneDayCounter
    case 8 => SimpleDayCounter
    case 9 => Thirty360Usa
    case 10 => Thirty360BondBasis
    case 11 => Thirty360European
    case 12 => Thirty360EurobondBasis
    case 13 => Thirty360Italian
    case 14 => Thirty360German
    case 15 => Thirty360Isma
    case 16 => Thirty360Isda
    case 17 => Thirty360Nasd
    case 18 => Thirty365
    case _ => Actual365Fixed
  }

  function DayCounterCode(d: DayCounter): (code: int)
    ensures 0 <= code <= 18
  {
    match d
    case Actual365Fixed => 0
    case Actual360 => 1
    case Actual364 => 2
    case Actual36525 => 3
    case Actual366 => 4
    case ActualActual365 => 5
    case Business252 => 6
    case OneDayCounter => 7
    case SimpleDayCounter => 8
    case Thirty360Usa => 9
    case Thirty360BondBasis => 10
    case Thirty360European => 11
    case Thirty360EurobondBasis => 12
    case Thirty360Italian => 13
    case Thirty360German => 14
    case Thirty360Isma => 15
    case Thirty360Isda => 16
    case Thirty360Nasd => 17
    case Thirty365 => 18
  }

  /** Each day counter has exactly one code in 0..18. */
  lemma DayCounterCodes(d: DayCounter, code: int)
    ensures MakeDayCounterFromInt(DayCounterCode(d)) == d
    ensures 0 <= code <= 18 ==> DayCounterCode(MakeDayCounterFromInt(code)) == code
  {
  }

  // ---- compounding, frequency, business-day convention, schedule rule ----

  datatype Compounding = Continuous | Simple | Compounded | SimpleThenCompounded | CompoundedThenSimple

  /** makeCompoundingFromInt: codes 0 to 4, anything else Continuous, the same as 0. */
  function MakeCompoundingFromInt(compoundingCode: int): (r: Compounding)
    ensures !(0 <= compoundingCode <= 4) ==> r == Continuous
  {
    match compoundingCode
    case 1 => Simple
    case 2 => Compounded
    case 3 => SimpleThenCompounded
    case 4 => CompoundedThenSimple
    case _ => Continuous
  }

  function CompoundingCode(c: Compounding): int {
    match c
    case Continuous => 0
    case Simple => 1
    case Compounded => 2
    case SimpleThenCompounded => 3
    case CompoundedThenSimple => 4
  }

  lemma CompoundingCodes(c: Compounding, code: int)
    ensures MakeCompoundingFromInt(CompoundingCode(c)) == c
    ensures 0 <= code <= 4 ==> CompoundingCode(MakeCompoundingFromInt(code)) == code
  {
  }

  datatype Frequency =
    | Annual | Semiannual | Quarterly | Monthly | Bimonthly | Weekly | Biweekly | Daily
    | NoFrequency | Once | EveryFourthMonth | EveryFourthWeek

  /** makeFrequencyFromInt: codes 0 to 11, anything else Annual, the same as 0. */
  function MakeFrequencyFromInt(frequencyCode: int): (r: Frequency)
    ensures !(0 <= frequencyCode <= 11) ==> r == Annual
  {
    match frequencyCode
    case 1 => Semiannual
    case 2 => Quarterly
    case 3 => Monthly
    case 4 => Bimonthly
    case 5 => Weekly
    case 6 => Biweekly
    case 7 => Daily
    case 8 => NoFrequency
    case 9 => Once
    case 10 => EveryFourthMonth
    case 11 => EveryFourthWeek
    case _ => Annual
  }

  function FrequencyCode(f: Frequency): int {
    match f
    case Annual => 0
    case Semiannual => 1
    case Quarterly => 2
    case Monthly => 3
    case Bimonthly => 4
    case Weekly => 5
    case Biweekly => 6
    case Daily => 7
    case NoFrequency => 8
    case Once => 9
    case EveryFourthMonth => 10
    case EveryFourthWeek => 11
  }

  lemma FrequencyCodes(f: Frequency, code: int)
    ensures MakeFrequencyFromInt(FrequencyCode(f)) == f
    ensures 0 <= code <= 11 ==> FrequencyCode(MakeFrequencyFromInt(code)) == code
  {
  }

  datatype BusinessDayConvention =
    | ModifiedFollowing | Following | Preceding | ModifiedPreceding | Unadjusted
    | HalfMonthModifiedFollowing | Nearest

  /** makeBDCFromInt: 0 is ModifiedFollowing, but an unknown code gives Following, the same as 1. */
  function MakeBdcFromInt(bdcCode: int): (r: BusinessDayConvention)
    ensures !(0 <= bdcCode <= 6) ==> r == Following
    ensures r == ModifiedFollowing <==> bdcCode == 0
  {
    match bdcCode
    case 0 => ModifiedFollowing
    case 2 => Preceding
    case 3 => ModifiedPreceding
    case 4 => Unadjusted
    case 5 => HalfMonthModifiedFollowing
    case 6 => Nearest
    case _ => Following
  }

  function BdcCode(b: BusinessDayConvention): int {
    match b
    case ModifiedFollowing => 0
    case Following => 1
    case Preceding => 2
    case ModifiedPreceding => 3
    case Unadjusted => 4
    case HalfMonthModifiedFollowing => 5
    case Nearest => 6
  }

  lemma BdcCodes(b: BusinessDayConvention, code: int)
    ensures MakeBdcFromInt(BdcCode(b)) == b
    ensures 0 <= code <= 6 ==> BdcCode(MakeBdcFromInt(code)) == code
  {
  }

  datatype DateGenerationRule =
    | Backward | Forward | Zero | ThirdWednesday | Twentieth | TwentiethImm | OldCds | Cds | Cds2015

  /** makeScheduleGenRuleFromInt: codes 0 to 8, anything else Backward, the same as 0. */
  function MakeScheduleGenRuleFromInt(code: int): (r: DateGenerationRule)
    ensures !(0 <= code <= 8) ==> r == Backward
  {
    match code
    case 1 => Forward
    case 2 => Zero
    case 3 => ThirdWednesday
    case 4 => Twentieth
    case 5 => TwentiethImm
    case 6 => OldCds
    case 7 => Cds
    case 8 => Cds2015
    case _ => Backward
  }

  function ScheduleGenRuleCode(r: DateGenerationRule): int {
    match r
    case Backward => 0
    case Forward => 1
    case Zero => 2
    case ThirdWednesday => 3
    case Twentieth => 4
    case TwentiethImm => 5
    case OldCds => 6
    case Cds => 7
    case Cds2015 => 8
  }

  lemma ScheduleGenRuleCodes(r: DateGenerationRule, code: int)
    ensures MakeScheduleGenRuleFromInt(ScheduleGenRuleCode(r)) == r
    ensures 0 <= code <= 8 ==> ScheduleGenRuleCode(MakeScheduleGenRuleFromInt(code)) == code
  {
  }

  // ---- two-valued tables ----

  datatype VolatilityType = ShiftedLognormal | Normal
  datatype SwapType = Payer | Receiver
  datatype OptionType = Call | Put
  datatype AverageType = Arithmetic | Geometric
  datatype RateAveraging = SimpleAveraging | CompoundAveraging
  datatype BarrierType = DownIn | UpIn | DownOut | UpOut
  datatype Currency = KrwCurrency

  /** makeVolatilityTypeFromInt: only 0 gives ShiftedLognormal; every other code gives Normal. */
  function MakeVolatilityTypeFromInt(volTypeCode: int): (r: VolatilityType)
    ensures r == ShiftedLognormal <==> volTypeCode == 0
  {
    if volTypeCode == 0 then ShiftedLognormal else Normal
  }

  /** makeSwapTypeFromInt: only 1 gives Receiver; every other code gives Payer. */
  function MakeSwapTypeFromInt(swapTypeCode: int): (r: SwapType)
    ensures r == Receiver <==> swapTypeCode == 1
  {
    if swapTypeCode == 1 then Receiver else Payer
  }

  /** makeOptionTypeFromInt: only 1 gives Put; every other code gives Call. */
  function MakeOptionTypeFromInt(code: int): (r: OptionType)
    ensures r == Put <==> code == 1
  {
    if code == 1 then Put else Call
  }

  /** makeAverageTypeFromInt: only 1 gives Geometric; every other code gives Arithmetic. */
  function MakeAverageTypeFromInt(code: int): (r: AverageType)
    ensures r == Geometric <==> code == 1
  {
    if code == 1 then Geometric else Arithmetic
  }

  /** makeRateAveragingFromInt: 0 and 1 give an averaging type; any other code gives no value at all. */
  function MakeRateAveragingFromInt(rateTypeCode: int): (r: Option<RateAveraging>)
    ensures r.Some? <==> 0 <= rateTypeCode <= 1
    ensures r == Some(CompoundAveraging) <==> rateTypeCode == 1
  {
    if rateTypeCode == 0 then Some(SimpleAveraging)
    else if rateTypeCode == 1 then Some(CompoundAveraging)
    else None
  }

  /** makeBarrierTypeFromInt: codes 0 to 3, anything else UpIn, the same as 1. */
  function MakeBarrierTypeFromInt(code: int): (r: BarrierType)
    ensures !(0 <= code <= 3) ==> r == UpIn
  {
    match code
    case 0 => DownIn
    case 2 => DownOut
    case 3 => UpOut
    case _ => UpIn
  }

  function BarrierTypeCode(b: BarrierType): int {
    match b
    case DownIn => 0
    case UpIn => 1
    case DownOut => 2
    case UpOut => 3
  }

  lemma BarrierTypeCodes(b: BarrierType, code: int)
    ensures MakeBarrierTypeFromInt(BarrierTypeCode(b)) == b
    ensures 0 <= code <= 3 ==> BarrierTypeCode(MakeBarrierTypeFromInt(code)) == code
  {
  }

  /** makeOptionOwnerFromInt: 1 (them) is kept, every other code becomes 0 (us). */
  function MakeOptionOwnerFromInt(ownerCode: int): (r: int)
    ensures r == 0 || r == 1
    ensures r == 1 <==> ownerCode == 1
  {
    if ownerCode == 1 then 1 else 0
  }

  /** makeCurrencyFromInt: the table has a single entry, so every code gives the won. */
  function MakeCurrencyFromInt(currencyCode: int): Currency {
    KrwCurrency
  }

  /** makeBoolFromInt: true exactly for 1. */
  function MakeBoolFromInt(boolCode: int): bool {
    boolCode == 1
  }

  /** The two-valued tables all treat 1 as their only distinguished code, except the volatility type, which keys on 0. */
  lemma BinaryTablesAgree(code: int)
    ensures MakeBoolFromInt(code) <==> MakeSwapTypeFromInt(code) == Receiver
    ensures MakeBoolFromInt(code) <==> MakeOptionTypeFromInt(code) == Put
    ensures MakeBoolFromInt(code) <==> MakeAverageTypeFromInt(code) == Geometric
    ensures MakeBoolFromInt(code) <==> MakeOptionOwnerFromInt(code) == 1
    ensures MakeCurrencyFromInt(code) == MakeCurrencyFromInt(0)
  {
  }

  // ---- periods ----

  datatype TimeUnit = Days | Months | Years
  datatype Period = Period(length: int, units: TimeUnit)

  function TimeUnitCode(u: TimeUnit): int {
    match u
    case Days => 0
    case Months => 1
    case Years => 2
  }

  /** makePeriodFromIntParts: letter 0, 1, 2 selects days, months, years; any other letter gives 0 days. */
  function MakePeriodFromIntParts(numberPart: int, letterPart: int): (p: Period)
    ensures 0 <= letterPart <= 2 ==> p.length == numberPart && TimeUnitCode(p.units) == letterPart
    ensures !(0 <= letterPart <= 2) ==> p == Period(0, Days)
  {
    match letterPart
    case 0 => Period(numberPart, Days)
    case 1 => Period(numberPart, Months)
    case 2 => Period(numberPart, Years)
    case _ => Period(0, Days)
  }

  /** Every period is what its own length and unit code build. */
  lemma PeriodPartsRoundTrip(p: Period)
    ensures MakePeriodFromIntParts(p.length, TimeUnitCode(p.units)) == p
  {
  }

  /**
   * `std::round(days / 30.44)` for days >= 30, in exact integers: days / 30.44 is
   * 100 * days / 3044, and it is never exactly halfway between two integers
   * (that would need 200 * days to be an odd multiple of 3044), so rounding to nearest
   * is floor(100 * days / 3044 + 1/2).
   */
  function RoundedMonths(days: int): (m: int)
    requires days >= 30
    ensures m >= 1
    ensures -1522 <= 100 * days - 3044 * m < 1522
  {
    (100 * days + 1522) / 3044
  }

  /** No day count lies halfway between two month counts, so the nearest month count is unique. */
  lemma RoundedMonthsNearest(days: int, m: int)
    requires days >= 30
    requires -1522 <= 100 * days - 3044 * m <= 1522
    ensures m == RoundedMonths(days)
  {
    var t := 25 * days - 761 * m;
    assert 100 * days - 3044 * m == 4 * t;
    assert 4 * t != 1522;
  }

  /** The number of months a period of months or years stands for. */
  function PeriodMonths(p: Period): int {
    match p.units
    case Days => 0
    case Months => p.length
    case Years => 12 * p.length
  }

  /**
   * makePeriodFromDays: under 30 days the count is kept in days (negative counts
   * included); otherwise the nearest whole number of months, written in years when it
   * is a multiple of twelve.
   */
  function MakePeriodFromDays(days: int): (p: Period)
    ensures days < 30 ==> p == Period(days, Days)
    ensures days >= 30 ==> p.units != Days && p.length >= 1 && PeriodMonths(p) == RoundedMonths(days)
    ensures days >= 30 ==> (p.units == Years <==> RoundedMonths(days) % 12 == 0)
  {
    if days < 30 then Period(days, Days)
    else
      var roundedMonths := RoundedMonths(days);
      if roundedMonths % 12 == 0 then Period(roundedMonths / 12, Years)
      else Period(roundedMonths, Months)
  }

  /** Example: 365 days round to 12 months, written as one year; 91 days round to 3 months. */
  lemma PeriodFromDaysSamples()
    ensures MakePeriodFromDays(365) == Period(1, Years)
    ensures MakePeriodFromDays(91) == Period(3, Months)
    ensures MakePeriodFromDays(7) == Period(7, Days)
  {
  }

  /** makePeriodArrayFromTenorDaysArray: one period per tenor day count, in order; a negative count gives none. */
  method MakePeriodArrayFromTenorDaysArray(girrTenorDays: array<int>, numberOfGirrTenors: int)
    returns (result: seq<Period>)
    requires numberOfGirrTenors <= girrTenorDays.Length
    ensures |result| == if numberOfGirrTenors < 0 then 0 else numberOfGirrTenors
    ensures forall i :: 0 <= i < |result| ==> result[i] == MakePeriodFromDays(girrTenorDays[i])
  {
    result := [];
    var i := 0;
    while i < numberOfGirrTenors
      invariant 0 <= i && (numberOfGirrTenors >= 0 ==> i <= numberOfGirrTenors)
      invariant numberOfGirrTenors < 0 ==> i == 0
      invariant |result| == i
      invariant forall j :: 0 <= j < i ==> result[j] == MakePeriodFromDays(girrTenorDays[j])
    {
      result := result + [MakePeriodFromDays(girrTenorDays[i])];
      i := i + 1;
    }
  }

  // ---- striked payoffs ----

  datatype Payoff =
    | PlainVanilla(optionType: OptionType, strike: real)
    | PercentageStrike(optionType: OptionType, strike: real)
    | AssetOrNothing(optionType: OptionType, strike: real)
    | CashOrNothing(optionType: OptionType, strike: real, cashPayoff: real)
    | Gap(optionType: OptionType, strike: real, secondStrike: real)
    | SuperFund(strike: real, secondStrike: real)
    | SuperShare(strike: real, secondStrike: real, cashPayoff: real)

  /**
   * makeStrikeTypePayoff: the payoff for strike types 0 to 6. A type that needs a second
   * strike or a cash payoff the caller did not give, or an unknown type, raises QL_FAIL
   * with the message returned here as Failure.
   */
  function MakeStrikeTypePayoff(strikeType: int, optionType: int, strike: real,
                                secondStrike: Option<real>, cashPayoff: Option<real>): (r: Result<Payoff, string>)
    ensures r.Failure? <==>
      !(0 <= strikeType <= 6) ||
      ((strikeType == 3 || strikeType == 6) && cashPayoff.None?) ||
      (4 <= strikeType <= 6 && secondStrike.None?)
    ensures r.Success? && 0 <= strikeType <= 4 ==>
      !r.value.SuperFund? && !r.value.SuperShare? && r.value.optionType == MakeOptionTypeFromInt(optionType)
    ensures r.Success? ==> r.value.strike == strike
  {
    var t := MakeOptionTypeFromInt(optionType);
    match strikeType
    case 0 => Success(PlainVanilla(t, strike))
    case 1 => Success(PercentageStrike(t, strike))
    case 2 => Success(AssetOrNothing(t, strike))
    case 3 =>
      if cashPayoff.None? then Failure("CashOrNothingPayoff requires a valid cashPayoff")
      else Success(CashOrNothing(t, strike, cashPayoff.value))
    case 4 =>
      if secondStrike.None? then Failure("GapPayoff requires a valid secondStrike")
      else Success(Gap(t, strike, secondStrike.value))
    case 5 =>
      if secondStrike.None? then Failure("SuperFundPayoff requires a valid secondStrike")
      else Success(SuperFund(strike, secondStrike.value))
    case 6 =>
      if secondStrike.None? then Failure("SuperSharePayoff requires a valid secondStrike")
      else if cashPayoff.None? then Failure("SuperSharePayoff requires a valid cashPayoff")
      else Success(SuperShare(strike, secondStrike.value, cashPayoff.value))
    case _ => Failure("Unknown StrikedTypePayoff: " + IntToDecimal(strikeType))
  }

  /** SuperShare checks the second strike before the cash payoff: with both missing, the message names the strike. */
  lemma SuperShareCheckOrder(optionType: int, strike: real)
    ensures MakeStrikeTypePayoff(6, optionType, strike, None, None) ==
      Failure("SuperSharePayoff requires a valid secondStrike")
  {
  }
}
