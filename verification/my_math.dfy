/**
 * The sample native library MyMath: four arithmetic entry points, an in-place array
 * update, a routine that increments a double through a pointer, and a struct printer.
 * Doubles are reals (no IEEE rounding); the console text of printType and updateDoubleArr
 * is not modelled.
 */
module MyMath {
  import opened Text

  function MathSum(a: real, b: real): (r: real)
    ensures r - b == a && r - a == b
  {
    a + b
  }

  function MathSub(a: real, b: real): (r: real)
    ensures r + b == a
  {
    a - b
  }

  function MathMul(a: real, b: real): (r: real)
    ensures a == 0.0 || b == 0.0 <==> r == 0.0
  {
    a * b
  }

  /** mathDiv: the quotient for a non-zero divisor, 0 in place of a division by zero. */
  function MathDiv(a: real, b: real): (r: real)
    ensures b != 0.0 ==> r * b == a
    ensures b == 0.0 ==> r == 0.0
  {
    if b != 0.0 then a / b else 0.0
  }

  /** Subtraction undoes addition and division undoes multiplication by a non-zero factor. */
  lemma ArithmeticInverses(a: real, b: real)
    ensures MathSub(MathSum(a, b), b) == a
    ensures b != 0.0 ==> MathDiv(MathMul(a, b), b) == a
    ensures b != 0.0 ==> MathMul(MathDiv(a, b), b) == a
    ensures MathDiv(a, 0.0) == 0.0
  {
  }

  /** The array updateDoubleArr leaves behind: the first n elements ten times larger, the rest as they were. */
  function TimesTen(s: seq<real>, n: nat): (r: seq<real>)
    requires n <= |s|
    ensures |r| == |s|
  {
    seq(|s|, i requires 0 <= i < |s| => if i < n then s[i] * 10.0 else s[i])
  }

  /** Dividing the updated prefix by ten gives the original array back. */
  lemma TimesTenInverse(s: seq<real>, n: nat)
    requires n <= |s|
    ensures seq(|s|, i requires 0 <= i < |s| => if i < n then TimesTen(s, n)[i] / 10.0 else TimesTen(s, n)[i]) == s
  {
    var t := TimesTen(s, n);
    var u := seq(|s|, i requires 0 <= i < |s| => if i < n then t[i] / 10.0 else t[i]);
    forall i | 0 <= i < |s|
      ensures u[i] == s[i]
    {
      if i < n {
        assert t[i] == s[i] * 10.0;
      }
    }
  }

  /** updateDoubleArr: multiplies a[0..aSize) by ten in place. */
  method UpdateDoubleArr(a: array<real>, aSize: nat)
    requires aSize <= a.Length
    modifies a
    ensures a[..] == TimesTen(old(a[..]), aSize)
    ensures forall i :: 0 <= i < aSize ==> a[i] == 10.0 * old(a[i])
    ensures forall i :: aSize <= i < a.Length ==> a[i] == old(a[i])
  {
    var i := 0;
    while i < aSize
      invariant 0 <= i <= aSize
      invariant forall j :: 0 <= j < i ==> a[j] == old(a[j]) * 10.0
      invariant forall j :: i <= j < a.Length ==> a[j] == old(a[j])
    {
      a[i] := a[i] * 10.0;
      i := i + 1;
    }
  }

  /** The double printType receives by pointer. */
  class DoubleCell {
    var value: real

    constructor (value: real)
      ensures this.value == value
    {
      this.value := value;
    }
  }

  /**
   * printType: reads the first a_size, b_size, c_size and d_size elements of its four const
   * arrays (only printed, so they stay as they are) and increments the pointed-to double by
   * one.
   */
  method PrintType(a: array<string>, b: array<int>, c: array<real>, d: array<int>, e: DoubleCell,
                   aSize: nat, bSize: nat, cSize: nat, dSize: nat)
    requires aSize <= a.Length && bSize <= b.Length && cSize <= c.Length && dSize <= d.Length
    modifies e
    ensures e.value == old(e.value) + 1.0
  {
    e.value := e.value + 1.0;
  }

  /** The native MyStruct as printStruct reads it. */
  datatype NativeStruct = NativeStruct(positionNm: string, bucket: seq<string>, bucketSize: int, bsdt: string, tenor: int, value: real)

  /**
   * printStruct: one line for the position name, a "Buckets:" header, one "  - " line per
   * bucket among the first bucketSize, then the BSDT, tenor and value lines. `formatDouble`
   * stands for printf's %f. Reading past the bucket array is undefined, hence the
   * precondition; nothing is written.
   */
  method PrintStruct(s: NativeStruct, formatDouble: real -> string) returns (lines: seq<string>)
    requires s.bucketSize <= |s.bucket|
    ensures |lines| == 5 + (if s.bucketSize < 0 then 0 else s.bucketSize)
    ensures lines[0] == "Position Name: " + s.positionNm && lines[1] == "Buckets:"
    ensures forall i :: 0 <= i < s.bucketSize ==> lines[2 + i] == "  - " + s.bucket[i]
    ensures lines[|lines| - 3] == "BSDT: " + s.bsdt
    ensures lines[|lines| - 2] == "Tenor: " + IntToDecimal(s.tenor)
    ensures lines[|lines| - 1] == "Value: " + formatDouble(s.value)
  {
    lines := ["Position Name: " + s.positionNm, "Buckets:"];
    var i := 0;
    while i < s.bucketSize
      invariant 0 <= i && (s.bucketSize >= 0 ==> i <= s.bucketSize) && (s.bucketSize < 0 ==> i == 0)
      invariant |lines| == 2 + i
      invariant lines[0] == "Position Name: " + s.positionNm && lines[1] == "Buckets:"
      invariant forall j :: 0 <= j < i ==> lines[2 + j] == "  - " + s.bucket[j]
    {
      lines := lines + ["  - " + s.bucket[i]];
      i := i + 1;
    }
    lines := lines + ["BSDT: " + s.bsdt, "Tenor: " + IntToDecimal(s.tenor), "Value: " + formatDouble(s.value)];
  }
}
