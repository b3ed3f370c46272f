/**
 * The length-prefixed result buffers the pricing libraries fill for their Java callers:
 * `initResult` clears a prefix, `processResultArray` drops zero sensitivities and packs
 * [k, tenors..., sensitivities...], Bond writes the same layout unfiltered, and the Java
 * runner decodes it with size = (int) buf[0].
 */
module ResultBuffer {
  import opened Wrappers

  // ---- initResult ----

  /** `std::fill_n(result, size, 0.0)`: the first size slots become 0.0 (none for size <= 0), the rest stay. */
  method InitResult(result: array<real>, size: int)
    requires size <= result.Length
    modifies result
    ensures forall i :: 0 <= i < result.Length ==> result[i] == if i < size then 0.0 else old(result[i])
    ensures size >= 0 ==> result[..] == Cleared(old(result[..]), size)
  {
    var i := 0;
    while i < size
      invariant 0 <= i <= result.Length && (size >= 0 ==> i <= size) && (size < 0 ==> i == 0)
      invariant forall j :: 0 <= j < result.Length ==> result[j] == if j < i then 0.0 else old(result[j])
    {
      result[i] := 0.0;
      i := i + 1;
    }
    if size >= 0 {
      assert forall j :: 0 <= j < result.Length ==> result[..][j] == Cleared(old(result[..]), size)[j];
    }
  }

  /** The buffer after initResult(buf, n): n zeros, then what was there before. */
  function Cleared(buf: seq<real>, n: nat): (r: seq<real>)
    requires n <= |buf|
    ensures |r| == |buf|
  {
    seq(n, _ => 0.0) + buf[n..]
  }

  /** The buffer with its first |prefix| slots overwritten and the rest as before. */
  function Overwrite(buf: seq<real>, prefix: seq<real>): (r: seq<real>)
    requires |prefix| <= |buf|
    ensures |r| == |buf|
  {
    prefix + buf[|prefix|..]
  }

  /** A prefix write leaves a prefix that initResult had cleared no longer than the write as the write alone. */
  lemma OverwriteCleared(buf: seq<real>, n: nat, prefix: seq<real>)
    requires n <= |prefix| <= |buf|
    ensures Overwrite(Cleared(buf, n), prefix) == Overwrite(buf, prefix)
  {
  }

  // ---- the packed layout ----

  /** [n, tenors..., values[0..n)...] with n = |tenors|: the layout every writer and the Java decoder agree on. */
  function Layout(tenors: seq<real>, values: seq<real>): (r: seq<real>)
    requires |tenors| <= |values|
    ensures |r| == 2 * |tenors| + 1
    ensures r[0] == |tenors| as real
    ensures forall i :: 0 <= i < |tenors| ==> r[1 + i] == tenors[i] && r[1 + |tenors| + i] == values[i]
  {
    [|tenors| as real] + tenors + values[..|tenors|]
  }

  /** A buffer whose first 2n+1 slots hold the count, the tenors and the values starts with Layout(tenors, values). */
  lemma LayoutFromSlots(buf: seq<real>, tenors: seq<real>, values: seq<real>)
    requires |tenors| <= |values| && 2 * |tenors| + 1 <= |buf|
    requires buf[0] == |tenors| as real
    requires forall i :: 0 <= i < |tenors| ==> buf[1 + i] == tenors[i]
    requires forall i :: 0 <= i < |tenors| ==> buf[1 + |tenors| + i] == values[i]
    ensures buf[..2 * |tenors| + 1] == Layout(tenors, values)
  {
    var n := |tenors|;
    assert buf[1..n + 1] == tenors;
    assert buf[n + 1..2 * n + 1] == values[..n];
    assert buf[..2 * n + 1] == [buf[0]] + buf[1..n + 1] + buf[n + 1..2 * n + 1];
  }

  /**
   * Writes Layout(tenors, values) at the start of result: the count, then one loop for the
   * tenors and one for the values. Slots from 2n+1 on are not touched.
   */
  method WriteLayout(tenors: seq<real>, values: seq<real>, result: array<real>)
    requires |tenors| <= |values|
    requires 2 * |tenors| + 1 <= result.Length
    modifies result
    ensures result[..2 * |tenors| + 1] == Layout(tenors, values)
    ensures forall j :: 2 * |tenors| + 1 <= j < result.Length ==> result[j] == old(result[j])
    ensures result[..] == Overwrite(old(result[..]), Layout(tenors, values))
  {
    var n := |tenors|;
    result[0] := n as real;
    var i := 0;
    while i < n
      invariant 0 <= i <= n
      invariant result[0] == n as real
      invariant forall j :: 0 <= j < i ==> result[1 + j] == tenors[j]
      invariant forall j :: 1 + n <= j < result.Length ==> result[j] == old(result[j])
    {
      result[i + 1] := tenors[i];
      i := i + 1;
    }
    i := 0;
    while i < n
      invariant 0 <= i <= n
      invariant result[0] == n as real
      invariant forall j :: 0 <= j < n ==> result[1 + j] == tenors[j]
      invariant forall j :: 0 <= j < i ==> result[1 + n + j] == values[j]
      invariant forall j :: 2 * n + 1 <= j < result.Length ==> result[j] == old(result[j])
    {
      result[i + 1 + n] := values[i];
      i := i + 1;
    }
    LayoutFromSlots(result[..], tenors, values);
    OverwrittenPrefix(result[..], old(result[..]), Layout(tenors, values));
  }

  /** A buffer that holds prefix at the front and the old contents after it is the old buffer overwritten by prefix. */
  lemma OverwrittenPrefix(now: seq<real>, orig: seq<real>, prefix: seq<real>)
    requires |now| == |orig| && |prefix| <= |now|
    requires now[..|prefix|] == prefix
    requires forall j :: |prefix| <= j < |now| ==> now[j] == orig[j]
    ensures now == Overwrite(orig, prefix)
  {
    assert now == now[..|prefix|] + now[|prefix|..];
  }

  /** Writes values into result[0 .. |values|), slot by slot; the rest of the buffer stays. */
  method WriteValues(result: array<real>, values: seq<real>)
    requires |values| <= result.Length
    modifies result
    ensures result[..] == Overwrite(old(result[..]), values)
  {
    var i := 0;
    while i < |values|
      invariant 0 <= i <= |values|
      invariant forall j :: 0 <= j < result.Length ==> result[j] == if j < i then values[j] else old(result[j])
    {
      result[i] := values[i];
      i := i + 1;
    }
    assert forall j :: 0 <= j < result.Length ==> result[..][j] == Overwrite(old(result[..]), values)[j];
  }

  // ---- processResultArray ----

  /** The positions i < n whose sensitivity is not zero, in increasing order. */
  function KeptIndices(sensitivities: seq<real>, n: nat): (idx: seq<nat>)
    requires n <= |sensitivities|
    ensures |idx| <= n
    ensures forall j :: 0 <= j < |idx| ==> idx[j] < n && sensitivities[idx[j]] != 0.0
    ensures forall j, k :: 0 <= j < k < |idx| ==> idx[j] < idx[k]
    ensures forall i :: 0 <= i < n && sensitivities[i] != 0.0 ==> i in idx
    decreases n
  {
    if n == 0 then []
    else KeptIndices(sensitivities, n - 1) + (if sensitivities[n - 1] != 0.0 then [n - 1] else [])
  }

  function Select(xs: seq<real>, idx: seq<nat>): (r: seq<real>)
    requires forall j :: 0 <= j < |idx| ==> idx[j] < |xs|
    ensures |r| == |idx| && forall j :: 0 <= j < |idx| ==> r[j] == xs[idx[j]]
  {
    seq(|idx|, j requires 0 <= j < |idx| => xs[idx[j]])
  }

  /** The tenors processResultArray keeps: those whose own sensitivity is not zero, in their original order. */
  function FilteredTenors(tenors: seq<real>, sensitivities: seq<real>, n: nat): seq<real>
    requires n <= |tenors| && n <= |sensitivities|
  {
    Select(tenors, KeptIndices(sensitivities, n))
  }

  function FilteredSensitivities(sensitivities: seq<real>, n: nat): seq<real>
    requires n <= |sensitivities|
  {
    Select(sensitivities, KeptIndices(sensitivities, n))
  }

  /** What processResultArray writes for the first n pairs: [k, kept tenors, kept sensitivities]. */
  function FilteredLayout(tenors: seq<real>, sensitivities: seq<real>, n: nat): (r: seq<real>)
    requires n <= |tenors| && n <= |sensitivities|
    ensures |r| == 2 * |KeptIndices(sensitivities, n)| + 1 <= 2 * n + 1
  {
    Layout(FilteredTenors(tenors, sensitivities, n), FilteredSensitivities(sensitivities, n))
  }

  /** Filtering one more position appends that pair when its sensitivity is not zero. */
  lemma FilteredStep(tenors: seq<real>, sensitivities: seq<real>, i: nat)
    requires i < |tenors| && i < |sensitivities|
    ensures FilteredTenors(tenors, sensitivities, i + 1) ==
      FilteredTenors(tenors, sensitivities, i) + (if sensitivities[i] != 0.0 then [tenors[i]] else [])
    ensures FilteredSensitivities(sensitivities, i + 1) ==
      FilteredSensitivities(sensitivities, i) + (if sensitivities[i] != 0.0 then [sensitivities[i]] else [])
  {
    var idx := KeptIndices(sensitivities, i);
    var extra: seq<nat> := if sensitivities[i] != 0.0 then [i] else [];
    assert KeptIndices(sensitivities, i + 1) == idx + extra;
    SelectAppend(tenors, idx, extra);
    SelectAppend(sensitivities, idx, extra);
  }

  lemma SelectAppend(xs: seq<real>, idx: seq<nat>, extra: seq<nat>)
    requires forall j :: 0 <= j < |idx| ==> idx[j] < |xs|
    requires forall j :: 0 <= j < |extra| ==> extra[j] < |xs|
    ensures Select(xs, idx + extra) == Select(xs, idx) + Select(xs, extra)
  {
    assert forall j :: 0 <= j < |idx + extra| ==> (idx + extra)[j] < |xs|;
  }

  /** No kept sensitivity is zero, and every non-zero one among the first n is kept, so the count is exact. */
  lemma FilteredSensitivitiesExact(sensitivities: seq<real>, n: nat)
    requires n <= |sensitivities|
    ensures forall x :: x in FilteredSensitivities(sensitivities, n) ==> x != 0.0
    ensures forall i :: 0 <= i < n && sensitivities[i] != 0.0 ==> sensitivities[i] in FilteredSensitivities(sensitivities, n)
  {
    var idx := KeptIndices(sensitivities, n);
    var f := FilteredSensitivities(sensitivities, n);
    forall i | 0 <= i < n && sensitivities[i] != 0.0
      ensures sensitivities[i] in f
    {
      var j :| 0 <= j < |idx| && idx[j] == i;
      assert f[j] == sensitivities[i];
    }
  }

  /** Only zero sensitivities are dropped: the number kept is n minus the number of zeros among the first n. */
  lemma {:induction false} KeptCount(sensitivities: seq<real>, n: nat)
    requires n <= |sensitivities|
    ensures |KeptIndices(sensitivities, n)| == n - ZeroCount(sensitivities, n)
    decreases n
  {
    if n > 0 {
      KeptCount(sensitivities, n - 1);
    }
  }

  function ZeroCount(sensitivities: seq<real>, n: nat): (c: nat)
    requires n <= |sensitivities|
    ensures c <= n
  {
    if n == 0 then 0 else ZeroCount(sensitivities, n - 1) + (if sensitivities[n - 1] == 0.0 then 1 else 0)
  }

  /**
   * processResultArray(tenors, sensitivities, originalSize, resultArray): filters the first
   * originalSize pairs on a non-zero sensitivity, then writes [k, kept tenors, kept
   * sensitivities]; the vectors are copies, and slots from 2k+1 on are not written.
   */
  method ProcessResultArray(tenors: seq<real>, sensitivities: seq<real>, originalSize: nat, result: array<real>)
    requires originalSize <= |tenors| && originalSize <= |sensitivities|
    requires 2 * |KeptIndices(sensitivities, originalSize)| + 1 <= result.Length
    modifies result
    ensures result[..2 * |KeptIndices(sensitivities, originalSize)| + 1] ==
      Layout(FilteredTenors(tenors, sensitivities, originalSize), FilteredSensitivities(sensitivities, originalSize))
    ensures forall j :: 2 * |KeptIndices(sensitivities, originalSize)| + 1 <= j < result.Length ==> result[j] == old(result[j])
    ensures result[..] == Overwrite(old(result[..]),
      Layout(FilteredTenors(tenors, sensitivities, originalSize), FilteredSensitivities(sensitivities, originalSize)))
  {
    var filteredTenor, filteredSensitivity := FilterNonZero(tenors, sensitivities, originalSize);
    WriteLayout(filteredTenor, filteredSensitivity, result);
  }

  /** Step 1 of processResultArray: the pairs among the first n whose sensitivity is not 0.0, pushed back in order. */
  method FilterNonZero(tenors: seq<real>, sensitivities: seq<real>, n: nat)
    returns (filteredTenor: seq<real>, filteredSensitivity: seq<real>)
    requires n <= |tenors| && n <= |sensitivities|
    ensures filteredTenor == FilteredTenors(tenors, sensitivities, n)
    ensures filteredSensitivity == FilteredSensitivities(sensitivities, n)
  {
    filteredTenor := [];
    filteredSensitivity := [];
    var i := 0;
    while i < n
      invariant 0 <= i <= n
      invariant filteredTenor == FilteredTenors(tenors, sensitivities, i)
      invariant filteredSensitivity == FilteredSensitivities(sensitivities, i)
    {
      FilteredStep(tenors, sensitivities, i);
      if sensitivities[i] != 0.0 {
        filteredTenor := filteredTenor + [tenors[i]];
        filteredSensitivity := filteredSensitivity + [sensitivities[i]];
      }
      i := i + 1;
    }
  }

  // ---- the Java-side decoder ----

  const IntMin: int := -0x8000_0000
  const IntMax: int := 0x7FFF_FFFF

  /** Java's `(int) x` for a finite double: truncation toward zero, saturating at the int range. */
  function JavaDoubleToInt(x: real): (r: int)
    ensures IntMin <= r <= IntMax
    ensures 0.0 <= x && x < (IntMax + 1) as real ==> r == x.Floor
  {
    var t := if x >= 0.0 then x.Floor else -((-x).Floor);
    if t < IntMin then IntMin else if t > IntMax then IntMax else t
  }

  /** Whole numbers within the int range convert exactly. */
  lemma JavaDoubleToIntExact(n: int)
    requires IntMin <= n <= IntMax
    ensures JavaDoubleToInt(n as real) == n
  {
    if n < 0 {
      assert (-(n as real)).Floor == -n;
    }
  }

  /** 32-bit two's-complement wrap-around of an int expression. */
  function Wrap32(x: int): (r: int)
    ensures IntMin <= r <= IntMax
    ensures IntMin <= x <= IntMax ==> r == x
  {
    (x - IntMin) % 0x1_0000_0000 + IntMin
  }

  datatype Groups = Groups(tenors: seq<real>, sensitivities: seq<real>)

  const OutOfBounds: string := "ArrayIndexOutOfBoundsException"

  /**
   * The runner's decode: size = (int) buf[0]; the first loop reads buf[1..size], the second
   * buf[size+1 .. size*2], with size*2 evaluated in 32-bit arithmetic. Reading outside the
   * array throws.
   */
  function Decode(buf: seq<real>): (r: Result<Groups, string>)
    ensures r.Success? ==> |buf| >= 1
  {
    if |buf| == 0 then Failure(OutOfBounds)
    else
      var size := JavaDoubleToInt(buf[0]);
      if size >= 1 && size >= |buf| then Failure(OutOfBounds)
      else
        var tenors := if size >= 1 then buf[1..size + 1] else [];
        var last := Wrap32(size * 2);
        if size + 1 > last then Success(Groups(tenors, []))
        else if size + 1 < 0 || last >= |buf| then Failure(OutOfBounds)
        else Success(Groups(tenors, buf[size + 1..last + 1]))
  }

  /** Decoding a buffer that starts with a layout gives back the two groups, whatever follows it. */
  lemma DecodeLayout(tenors: seq<real>, values: seq<real>, rest: seq<real>)
    requires |tenors| <= |values| && |tenors| < 0x4000_0000
    ensures Decode(Layout(tenors, values) + rest) == Success(Groups(tenors, values[..|tenors|]))
  {
    var n := |tenors|;
    var buf := Layout(tenors, values) + rest;
    JavaDoubleToIntExact(n);
    assert buf[0] == n as real;
    if n >= 1 {
      assert buf[1..n + 1] == tenors;
      assert buf[n + 1..2 * n + 1] == values[..n];
    }
  }

  /** The round trip the library and the runner rely on: decode(processResultArray(...)) is the filtered pairs. */
  lemma ProcessedBufferRoundTrip(tenors: seq<real>, sensitivities: seq<real>, n: nat, buf: seq<real>)
    requires n <= |tenors| && n <= |sensitivities| && n < 0x4000_0000
    requires 2 * |KeptIndices(sensitivities, n)| + 1 <= |buf|
    requires buf[..2 * |KeptIndices(sensitivities, n)| + 1] ==
      Layout(FilteredTenors(tenors, sensitivities, n), FilteredSensitivities(sensitivities, n))
    ensures Decode(buf) == Success(Groups(FilteredTenors(tenors, sensitivities, n), FilteredSensitivities(sensitivities, n)))
  {
    var ft := FilteredTenors(tenors, sensitivities, n);
    var fs := FilteredSensitivities(sensitivities, n);
    assert |ft| == |fs|;
    PrefixSplit(buf, Layout(ft, fs));
    DecodeLayout(ft, fs, buf[|Layout(ft, fs)|..]);
    assert fs[..|ft|] == fs;
  }

  lemma PrefixSplit(buf: seq<real>, prefix: seq<real>)
    requires |prefix| <= |buf| && buf[..|prefix|] == prefix
    ensures buf == prefix + buf[|prefix|..]
  {
  }

  /** A count of -2^31 (e.g. buf[0] = -1e10) makes size*2 wrap to 0, and the second loop then reads a negative index. */
  lemma DecodeWrapAround(buf: seq<real>)
    requires |buf| >= 1 && buf[0] == -10000000000.0
    ensures Decode(buf) == Failure(OutOfBounds)
  {
    assert JavaDoubleToInt(buf[0]) == IntMin;
    assert Wrap32(IntMin * 2) == 0;
  }

  /** The decode loops over an array: they read, in order, exactly what Decode describes. */
  method DecodeResultBuffer(buf: array<real>) returns (r: Result<Groups, string>)
    ensures r == Decode(buf[..])
  {
    if buf.Length == 0 {
      return Failure(OutOfBounds);
    }
    var size := JavaDoubleToInt(buf[0]);
    var tenors: seq<real> := [];
    var i := 1;
    while i <= size
      invariant 1 <= i <= buf.Length && (i == 1 || i <= size + 1)
      invariant tenors == buf[1..i]
    {
      if i >= buf.Length {
        return Failure(OutOfBounds);
      }
      tenors := tenors + [buf[i]];
      i := i + 1;
    }
    assert size >= 1 ==> i == size + 1;
    var last := Wrap32(size * 2);
    var sensitivities: seq<real> := [];
    i := size + 1;
    while i <= last
      invariant i == size + 1 || (0 <= size + 1 < i <= buf.Length && i <= last + 1)
      invariant sensitivities == if i == size + 1 then [] else buf[size + 1..i]
    {
      if i < 0 || i >= buf.Length {
        return Failure(OutOfBounds);
      }
      sensitivities := sensitivities + [buf[i]];
      i := i + 1;
    }
    return Success(Groups(tenors, sensitivities));
  }
}
