/**
 * The calType 4 output of the Leg pricers: resultCashFlow[0] holds the number of cash
 * flows and flow k occupies the seven slots 7k+1 .. 7k+7 (start, end, notional, rate,
 * payment date, amount, discount factor). A redemption has no accrual period or rate and
 * writes -1.0 in those three slots. A flow of a kind the pricer does not expect raises
 * QL_FAIL, which the pricer's catch turns into the return value -1.
 */
module CashFlows {
  import opened ResultBuffer

  datatype CouponKind = FixedRate | FloatingRate

  /** A QuantLib cash flow as the pricers see it after their dynamic casts; dates are serial numbers. */
  datatype CashFlow =
    | Coupon(kind: CouponKind, accrualStart: int, accrualEnd: int, nominal: real, rate: real, payDate: int, amount: real)
    | Redemption(amount: real, payDate: int)
    | OtherFlow(payDate: int)

  /** The three Leg pricers: zero-coupon (pricingZCL), fixed (pricingFDL) and floating (pricingFLL). */
  datatype LegKind = ZeroCouponLeg | FixedLeg | FloatingLeg

  /** Which flows a pricer can report: a redemption always, and a coupon of the leg's own kind. */
  predicate Accepts(leg: LegKind, cf: CashFlow) {
    match cf
    case Redemption(_, _) => true
    case Coupon(kind, _, _, _, _, _, _) =>
      (leg == FixedLeg && kind == FixedRate) || (leg == FloatingLeg && kind == FloatingRate)
    case OtherFlow(_) => false
  }

  const FieldsPerFlow: nat := 7
  const NoValue: real := -1.0

  /** The seven fields of an accepted flow, given its discount factor. */
  function Record(cf: CashFlow, df: real): (r: seq<real>)
    requires !cf.OtherFlow?
    ensures |r| == FieldsPerFlow
    ensures r[4] == cf.payDate as real && r[5] == cf.amount && r[6] == df
    ensures cf.Redemption? ==> r[0] == NoValue && r[1] == NoValue && r[3] == NoValue && r[2] == cf.amount
    ensures cf.Coupon? ==> r[0] == cf.accrualStart as real && r[1] == cf.accrualEnd as real && r[2] == cf.nominal && r[3] == cf.rate
  {
    match cf
    case Coupon(_, s, e, n, rate, p, a) => [s as real, e as real, n, rate, p as real, a, df]
    case Redemption(a, p) => [NoValue, NoValue, a, NoValue, p as real, a, df]
  }

  /** Reads a record back. The coupon kind is the one the leg accepts. */
  function FlowFromRecord(leg: LegKind, r: seq<real>): CashFlow
    requires |r| == FieldsPerFlow
  {
    if r[0] == NoValue then Redemption(r[5], r[4].Floor)
    else Coupon(if leg == FloatingLeg then FloatingRate else FixedRate, r[0].Floor, r[1].Floor, r[2], r[3], r[4].Floor, r[5])
  }

  /** Accrual dates are positive serial numbers, so the -1.0 sentinel never collides with a coupon. */
  predicate PositiveDates(cf: CashFlow) {
    cf.Coupon? ==> cf.accrualStart >= 1
  }

  /** The record determines the flow: reading back what the pricer wrote gives the flow itself. */
  lemma RecordRoundTrip(leg: LegKind, cf: CashFlow, df: real)
    requires Accepts(leg, cf) && PositiveDates(cf)
    ensures FlowFromRecord(leg, Record(cf, df)) == cf
  {
  }

  /** How many flows, from the first, the pricer accepts before it meets one it does not. */
  function AcceptedPrefix(leg: LegKind, flows: seq<CashFlow>): (p: nat)
    ensures p <= |flows|
    ensures forall k :: 0 <= k < p ==> Accepts(leg, flows[k])
    ensures p < |flows| ==> !Accepts(leg, flows[p])
    decreases |flows|
  {
    if |flows| == 0 || !Accepts(leg, flows[0]) then 0 else 1 + AcceptedPrefix(leg, flows[1..])
  }

  /** Slot of field f (0-based) of flow k. */
  function Slot(k: nat, f: nat): nat { 7 * k + 1 + f }

  predicate Reportable(flows: seq<CashFlow>) {
    forall i :: 0 <= i < |flows| ==> !flows[i].OtherFlow?
  }

  /** The flows before the first rejected one can all be reported. */
  lemma AcceptedReportable(leg: LegKind, flows: seq<CashFlow>, k: nat)
    requires k <= AcceptedPrefix(leg, flows)
    ensures Reportable(flows[..k])
  {
    forall i | 0 <= i < k ensures !flows[..k][i].OtherFlow? {
      assert flows[..k][i] == flows[i];
    }
  }

  /** A flow the pricer accepts at or before the first rejected one is before it. */
  lemma AcceptedNext(leg: LegKind, flows: seq<CashFlow>, k: nat)
    requires k <= AcceptedPrefix(leg, flows) && k < |flows| && Accepts(leg, flows[k])
    ensures k + 1 <= AcceptedPrefix(leg, flows)
  {
  }

  /** The records of flows that can all be reported, one after the other. */
  function Records(flows: seq<CashFlow>, discount: int -> real): (r: seq<real>)
    requires Reportable(flows)
    ensures |r| == FieldsPerFlow * |flows|
    decreases |flows|
  {
    if |flows| == 0 then []
    else
      var last := flows[|flows| - 1];
      Records(flows[..|flows| - 1], discount) + Record(last, discount(last.payDate))
  }

  /** The record of flow k is the seven values at offset 7k of the records. */
  lemma {:induction false} RecordsSlice(flows: seq<CashFlow>, discount: int -> real, k: nat)
    requires Reportable(flows) && k < |flows|
    ensures Records(flows, discount)[7 * k..7 * k + FieldsPerFlow] == Record(flows[k], discount(flows[k].payDate))
    decreases |flows|
  {
    var init := flows[..|flows| - 1];
    var last := flows[|flows| - 1];
    assert Reportable(init) by {
      forall i | 0 <= i < |init| ensures !init[i].OtherFlow? {
        assert init[i] == flows[i];
      }
    }
    var front := Records(init, discount);
    assert Records(flows, discount) == front + Record(last, discount(last.payDate));
    if k < |flows| - 1 {
      RecordsSlice(init, discount, k);
      assert init[k] == flows[k];
      SliceOfAppend(front, Record(last, discount(last.payDate)), 7 * k, 7 * k + FieldsPerFlow);
    } else {
      assert |front| == 7 * k;
    }
  }

  lemma SliceOfAppend(p: seq<real>, q: seq<real>, lo: nat, hi: nat)
    requires lo <= hi <= |p|
    ensures (p + q)[lo..hi] == p[lo..hi]
  {
  }

  lemma RecordsSnoc(flows: seq<CashFlow>, discount: int -> real, k: nat)
    requires k < |flows| && Reportable(flows[..k + 1])
    ensures Records(flows[..k + 1], discount) == Records(flows[..k], discount) + Record(flows[k], discount(flows[k].payDate))
  {
    assert flows[..k + 1][..k] == flows[..k];
  }

  /** Copies one record into result[base .. base+7); nothing else changes. */
  method WriteRecord(result: array<real>, base: nat, rec: seq<real>)
    requires |rec| == FieldsPerFlow && base + FieldsPerFlow <= result.Length
    modifies result
    ensures result[..] == old(result[..])[..base] + rec + old(result[..])[base + FieldsPerFlow..]
  {
    var f := 0;
    while f < FieldsPerFlow
      invariant 0 <= f <= FieldsPerFlow
      invariant forall j :: 0 <= j < result.Length ==> result[j] == if base <= j < base + f then rec[j - base] else old(result[j])
    {
      result[base + f] := rec[f];
      f := f + 1;
    }
    ghost var expected := old(result[..])[..base] + rec + old(result[..])[base + FieldsPerFlow..];
    assert forall j :: 0 <= j < result.Length ==> result[..][j] == expected[j];
  }

  /** One more record written after the first k: the buffer is the original overwritten by one record more. */
  lemma WriteStep(orig: seq<real>, before: seq<real>, after: seq<real>, count: real, flows: seq<CashFlow>,
                  discount: int -> real, k: nat)
    requires k < |flows| && Reportable(flows[..k]) && Reportable(flows[..k + 1]) && !flows[k].OtherFlow?
    requires Slot(k + 1, 0) <= |orig|
    requires before == Overwrite(orig, [count] + Records(flows[..k], discount))
    requires after == before[..Slot(k, 0)] + Record(flows[k], discount(flows[k].payDate)) + before[Slot(k + 1, 0)..]
    ensures after == Overwrite(orig, [count] + Records(flows[..k + 1], discount))
  {
    var prefix := [count] + Records(flows[..k], discount);
    var rec := Record(flows[k], discount(flows[k].payDate));
    RecordsSnoc(flows, discount, k);
    assert before[..Slot(k, 0)] == prefix;
    assert before[Slot(k + 1, 0)..] == orig[Slot(k + 1, 0)..];
    assert [count] + Records(flows[..k + 1], discount) == prefix + rec;
  }

  /** What the calType 4 loop leaves at the front of the buffer: the count of all flows, then the records of the accepted ones. */
  function Report(leg: LegKind, flows: seq<CashFlow>, discount: int -> real): (r: seq<real>)
    ensures |r| == Slot(AcceptedPrefix(leg, flows), 0)
    ensures r[0] == |flows| as real
  {
    var p := AcceptedPrefix(leg, flows);
    AcceptedReportable(leg, flows, p);
    [|flows| as real] + Records(flows[..p], discount)
  }

  /**
   * The calType 4 loop. It writes the count, then the records in order; at the first flow
   * it cannot report it stops (QL_FAIL) and returns false, leaving the records already written.
   */
  method WriteCashFlows(leg: LegKind, flows: seq<CashFlow>, discount: int -> real, result: array<real>)
    returns (ok: bool)
    requires Slot(AcceptedPrefix(leg, flows), 0) <= result.Length
    modifies result
    ensures ok <==> AcceptedPrefix(leg, flows) == |flows|
    ensures result[..] == Overwrite(old(result[..]), Report(leg, flows, discount))
  {
    ghost var p := AcceptedPrefix(leg, flows);
    ghost var orig := result[..];
    result[0] := |flows| as real;
    assert result[..] == Overwrite(orig, [|flows| as real] + Records(flows[..0], discount));
    var k := 0;
    while k < |flows| && Accepts(leg, flows[k])
      invariant 0 <= k <= p
      invariant Reportable(flows[..k])
      invariant result[..] == Overwrite(orig, [|flows| as real] + Records(flows[..k], discount))
    {
      WriteNextRecord(leg, flows, discount, result, orig, k);
      k := k + 1;
    }
    assert k == p;
    ReportWritten(leg, flows, discount, k);
    ok := k == |flows|;
  }

  /** One pass of the loop: the record of the next accepted flow goes into its seven slots. */
  method WriteNextRecord(leg: LegKind, flows: seq<CashFlow>, discount: int -> real, result: array<real>,
                         ghost orig: seq<real>, k: nat)
    requires k < |flows| && k <= AcceptedPrefix(leg, flows) && Accepts(leg, flows[k])
    requires Slot(AcceptedPrefix(leg, flows), 0) <= result.Length == |orig|
    requires Reportable(flows[..k])
    requires result[..] == Overwrite(orig, [|flows| as real] + Records(flows[..k], discount))
    modifies result
    ensures k + 1 <= AcceptedPrefix(leg, flows) && Reportable(flows[..k + 1])
    ensures result[..] == Overwrite(orig, [|flows| as real] + Records(flows[..k + 1], discount))
  {
    ghost var before := result[..];
    AcceptedNext(leg, flows, k);
    AcceptedReportable(leg, flows, k + 1);
    WriteRecord(result, Slot(k, 0), Record(flows[k], discount(flows[k].payDate)));
    WriteStep(orig, before, result[..], |flows| as real, flows, discount, k);
  }

  /** The report is the count followed by the records of the accepted prefix. */
  lemma ReportWritten(leg: LegKind, flows: seq<CashFlow>, discount: int -> real, k: nat)
    requires k == AcceptedPrefix(leg, flows) && Reportable(flows[..k])
    ensures Report(leg, flows, discount) == [|flows| as real] + Records(flows[..k], discount)
  {
  }

  /** What a reader of the buffer recovers: each seven-slot record after the count, read back as a flow. */
  function DecodeCashFlows(leg: LegKind, buf: seq<real>, n: nat): (flows: seq<CashFlow>)
    requires Slot(n, 0) <= |buf|
    ensures |flows| == n
  {
    seq(n, k requires 0 <= k < n => FlowFromRecord(leg, buf[Slot(k, 0)..Slot(k, 0) + FieldsPerFlow]))
  }

  lemma DecodeAt(leg: LegKind, buf: seq<real>, n: nat, k: nat)
    requires Slot(n, 0) <= |buf| && k < n
    ensures DecodeCashFlows(leg, buf, n)[k] == FlowFromRecord(leg, buf[Slot(k, 0)..Slot(k, 0) + FieldsPerFlow])
  {
  }

  /** In a buffer that starts with the count and the records, flow k's record sits at its seven slots. */
  lemma RecordSlice(flows: seq<CashFlow>, discount: int -> real, buf: seq<real>, k: nat)
    requires Reportable(flows) && k < |flows|
    requires Slot(|flows|, 0) <= |buf|
    requires buf[..Slot(|flows|, 0)] == [|flows| as real] + Records(flows, discount)
    ensures buf[Slot(k, 0)..Slot(k, 0) + FieldsPerFlow] == Record(flows[k], discount(flows[k].payDate))
  {
    var records := Records(flows, discount);
    var lo := 7 * k;
    RecordsSlice(flows, discount, k);
    HeadedSlice(buf, Slot(|flows|, 0), |flows| as real, records, lo, lo + FieldsPerFlow);
  }

  /** A slice of a buffer that starts with one value and then the records is the same slice of the records, one further on. */
  lemma HeadedSlice(buf: seq<real>, m: nat, head: real, records: seq<real>, lo: nat, hi: nat)
    requires m <= |buf| && buf[..m] == [head] + records && lo <= hi <= |records|
    ensures buf[lo + 1..hi + 1] == records[lo..hi]
  {
    assert buf[lo + 1..hi + 1] == buf[..m][lo + 1..hi + 1];
  }

  /** After a successful write, the buffer holds the count, and decoding it gives back every flow. */
  lemma CashFlowRoundTrip(leg: LegKind, flows: seq<CashFlow>, discount: int -> real, buf: seq<real>)
    requires AcceptedPrefix(leg, flows) == |flows|
    requires forall k :: 0 <= k < |flows| ==> PositiveDates(flows[k])
    requires Slot(|flows|, 0) <= |buf|
    requires buf[..Slot(|flows|, 0)] == [|flows| as real] + Records(flows, discount)
    ensures buf[0] == |flows| as real
    ensures DecodeCashFlows(leg, buf, |flows|) == flows
  {
    assert buf[0] == buf[..Slot(|flows|, 0)][0];
    var d := DecodeCashFlows(leg, buf, |flows|);
    forall k | 0 <= k < |flows|
      ensures d[k] == flows[k]
    {
      DecodedFlowAt(leg, flows, discount, buf, k);
    }
  }

  lemma DecodedFlowAt(leg: LegKind, flows: seq<CashFlow>, discount: int -> real, buf: seq<real>, k: nat)
    requires AcceptedPrefix(leg, flows) == |flows| && k < |flows|
    requires PositiveDates(flows[k])
    requires Slot(|flows|, 0) <= |buf|
    requires buf[..Slot(|flows|, 0)] == [|flows| as real] + Records(flows, discount)
    ensures DecodeCashFlows(leg, buf, |flows|)[k] == flows[k]
  {
    var rec := Record(flows[k], discount(flows[k].payDate));
    RecordSlice(flows, discount, buf, k);
    DecodeAt(leg, buf, |flows|, k);
    RecordRoundTrip(leg, flows[k], discount(flows[k].payDate));
  }
}
