/**
 * The coupon-schedule log: each schedule period's start, end and payment date written as
 * YYYYMMDD text, then one array line per list. The calendar's business-day adjustment is
 * the oracle `adjust`.
 */
module LoggerData {
  import opened Text
  import opened CodeTables
  import opened Logger

  /** A QuantLib date's year, month and day, none of which is ever negative. */
  type CalendarDate = d: DateParts | d.year >= 0 && d.month >= 0 && d.day >= 0 witness DateParts(0, 0, 0)

  /** toYYYYMMDD: the year zero-padded to four digits, then the month and the day to two each. */
  function ToYyyymmdd(d: CalendarDate): (r: string)
    ensures AllChars(r, IsDigit)
    ensures |r| == 8 <==> d.year < 10000 && d.month < 100 && d.day < 100
  {
    DecimalWidth(d.year, 4);
    DecimalWidth(d.month, 2);
    DecimalWidth(d.day, 2);
    var y := ZeroPad(d.year, 4);
    var m := ZeroPad(d.month, 2);
    var dd := ZeroPad(d.day, 2);
    DecimalValueAppend(y, m);
    DecimalValueAppend(y + m, dd);
    y + m + dd
  }

  /**
   * The formatter inverts makeDateFromInt: the number the text spells out decodes to the
   * same year, month and day.
   */
  lemma YyyymmddRoundTrip(d: CalendarDate)
    requires d.month < 100 && d.day < 100
    ensures MakeDateFromInt(DecimalValue(ToYyyymmdd(d))) == d
  {
    var y := ZeroPad(d.year, 4);
    var m := ZeroPad(d.month, 2);
    var dd := ZeroPad(d.day, 2);
    DecimalWidth(d.month, 2);
    DecimalWidth(d.day, 2);
    assert |m| == 2 && |dd| == 2;
    ZeroPadValue(d.year, 4);
    ZeroPadValue(d.month, 2);
    ZeroPadValue(d.day, 2);
    DecimalValueAppend(y, m);
    DecimalValueAppend(y + m, dd);
    assert Pow10(2) == 100;
    assert DecimalValue(y + m + dd) == DateToInt(d);
    DateRoundTrip(d);
  }

  /** The YYYYMMDD texts of a list of dates, in order. */
  function DateTexts(dates: seq<CalendarDate>): (r: seq<string>)
    ensures |r| == |dates|
    decreases |dates|
  {
    if |dates| == 0 then [] else DateTexts(dates[..|dates| - 1]) + [ToYyyymmdd(dates[|dates| - 1])]
  }

  lemma {:induction false} DateTextsAt(dates: seq<CalendarDate>, j: nat)
    requires j < |dates|
    ensures DateTexts(dates)[j] == ToYyyymmdd(dates[j])
    decreases |dates|
  {
    if j < |dates| - 1 {
      DateTextsAt(dates[..|dates| - 1], j);
    }
  }

  lemma DateTextsSnoc(dates: seq<CalendarDate>, i: nat)
    requires i < |dates|
    ensures DateTexts(dates[..i + 1]) == DateTexts(dates[..i]) + [ToYyyymmdd(dates[i])]
  {
    assert dates[..i + 1][..i] == dates[..i];
  }

  /** Every date after the first: the end date of each schedule period. */
  function Successors(dates: seq<CalendarDate>): (r: seq<CalendarDate>)
    ensures |r| == if |dates| == 0 then 0 else |dates| - 1
    ensures forall j :: 0 <= j < |r| ==> r[j] == dates[j + 1]
  {
    if |dates| == 0 then [] else dates[1..]
  }

  /** Each date moved by the calendar's business-day adjustment. */
  function Adjusted(dates: seq<CalendarDate>, adjust: CalendarDate -> CalendarDate): (r: seq<CalendarDate>)
    ensures |r| == |dates|
    ensures forall j :: 0 <= j < |dates| ==> r[j] == adjust(dates[j])
  {
    seq(|dates|, j requires 0 <= j < |dates| => adjust(dates[j]))
  }

  const Rule := "---------------------------------------------"

  /**
   * logCouponSchedule: the period lists the index loop builds (period i runs from date i to
   * date i + 1 and pays on the adjusted end date) and the log lines written around them.
   */
  method LogCouponSchedule(dates: seq<CalendarDate>, adjust: CalendarDate -> CalendarDate)
    returns (starts: seq<string>, ends: seq<string>, payments: seq<string>, log: seq<string>)
    ensures var periods := |Successors(dates)|;
      starts == DateTexts(dates[..periods]) &&
      ends == DateTexts(Successors(dates)) &&
      payments == DateTexts(Adjusted(Successors(dates), adjust))
    ensures log == ["", "| Coupon Schedule |", Rule,
      PlainArrayLine(ArrayHeader(StdString, "Start Dates"), starts),
      PlainArrayLine(ArrayHeader(StdString, "End Dates"), ends),
      PlainArrayLine(ArrayHeader(StdString, "Payment Dates"), payments),
      Rule, ""]
  {
    ghost var nexts := Successors(dates);
    ghost var pays := Adjusted(nexts, adjust);
    starts, ends, payments := [], [], [];
    var i := 0;
    while i + 1 < |dates|
      invariant i <= |nexts| == |pays|
      invariant starts == DateTexts(dates[..i])
      invariant ends == DateTexts(nexts[..i])
      invariant payments == DateTexts(pays[..i])
    {
      DateTextsSnoc(dates, i);
      DateTextsSnoc(nexts, i);
      DateTextsSnoc(pays, i);
      starts := starts + [ToYyyymmdd(dates[i])];
      ends := ends + [ToYyyymmdd(dates[i + 1])];
      payments := payments + [ToYyyymmdd(adjust(dates[i + 1]))];
      i := i + 1;
    }
    assert nexts[..i] == nexts;
    assert pays[..i] == pays;
    log := ["", "| Coupon Schedule |", Rule,
      PlainArrayLine(ArrayHeader(StdString, "Start Dates"), starts),
      PlainArrayLine(ArrayHeader(StdString, "End Dates"), ends),
      PlainArrayLine(ArrayHeader(StdString, "Payment Dates"), payments),
      Rule, ""];
  }

  /**
   * A schedule of n dates gives n - 1 periods: period i starts on date i, ends on date
   * i + 1 and pays on the adjusted date i + 1.
   */
  lemma SchedulePeriods(dates: seq<CalendarDate>, adjust: CalendarDate -> CalendarDate, i: nat)
    requires i + 1 < |dates|
    ensures var n := |Successors(dates)|;
      var starts := DateTexts(dates[..n]);
      var ends := DateTexts(Successors(dates));
      var payments := DateTexts(Adjusted(Successors(dates), adjust));
      |starts| == |ends| == |payments| == |dates| - 1 &&
      starts[i] == ToYyyymmdd(dates[i]) && ends[i] == ToYyyymmdd(dates[i + 1]) &&
      payments[i] == ToYyyymmdd(adjust(dates[i + 1]))
  {
    var n := |dates| - 1;
    DateTextsAt(dates[..n], i);
    DateTextsAt(Successors(dates), i);
    DateTextsAt(Adjusted(Successors(dates), adjust), i);
  }

  /** Each period ends on the date the next one starts. */
  lemma PeriodsChain(dates: seq<CalendarDate>, i: nat)
    requires i + 2 < |dates|
    ensures var n := |Successors(dates)|;
      DateTexts(Successors(dates))[i] == DateTexts(dates[..n])[i + 1]
  {
    var n := |dates| - 1;
    DateTextsAt(dates[..n], i + 1);
    DateTextsAt(Successors(dates), i);
    assert dates[..n][i + 1] == Successors(dates)[i];
  }

  /** Empty and one-date schedules log empty lists. */
  lemma ShortSchedules(dates: seq<CalendarDate>, adjust: CalendarDate -> CalendarDate)
    requires |dates| <= 1
    ensures |Successors(dates)| == 0
    ensures DateTexts(dates[..|Successors(dates)|]) == [] && DateTexts(Successors(dates)) == []
    ensures DateTexts(Adjusted(Successors(dates), adjust)) == []
  {
  }
}
