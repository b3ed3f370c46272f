/**
 * The Bond library's own logger header: one log line "label: a, b, c" per array or vector.
 * Elements are rendered by the ostream oracle `show` under the stream format the
 * precision argument selects.
 */
module BondLogger {
  import opened Text
  import opened Logger

  /** The line Bond's logArrayLine writes for the rendered elements. */
  function ArrayLine(labelText: string, items: seq<string>): (line: string)
  {
    labelText + ": " + Join(items, ", ")
  }

  /** logArrayLine(label, data, size, precision): the elements up to size, each followed by ", " except the last. */
  method LogArrayLine<T>(labelText: string, data: array<T>, size: nat, precision: int, show: (T, StreamFormat) -> string)
    returns (line: string)
    requires size <= data.Length
    ensures line == ArrayLine(labelText, Shown(data[..size], FormatOf(precision), show))
  {
    var fmt := FormatOf(precision);
    line := labelText + ": ";
    ghost var header := line;
    ghost var items := Shown(data[..size], fmt, show);
    var i := 0;
    while i < size
      invariant 0 <= i <= size
      invariant line == header + JoinedPrefix(items, i, size, ", ")
    {
      ghost var before := JoinedPrefix(items, i, size, ", ");
      JoinedPrefixStep(items, i, size, ", ");
      AppendAssociative(header, before, items[i]);
      line := line + show(data[i], fmt);
      if i != size - 1 {
        AppendAssociative(header, before + items[i], ", ");
        line := line + ", ";
      }
      i := i + 1;
    }
    assert items[..size] == items;
  }

  /** The vector overload: the same line for the vector's data, size and precision. */
  method LogVectorLine<T>(labelText: string, data: seq<T>, precision: int, show: (T, StreamFormat) -> string)
    returns (line: string)
    ensures line == ArrayLine(labelText, Shown(data, FormatOf(precision), show))
  {
    var buffer := new T[|data|](i requires 0 <= i < |data| => data[i]);
    assert buffer[..|data|] == data;
    line := LogArrayLine(labelText, buffer, |data|, precision, show);
  }

  /**
   * The layout of a line: an empty array gives just "label: "; otherwise the line ends with
   * the last element (no trailing separator) and holds exactly size - 1 separators.
   */
  lemma ArrayLineLayout(labelText: string, items: seq<string>)
    ensures |items| == 0 ==> ArrayLine(labelText, items) == labelText + ": "
    ensures |ArrayLine(labelText, items)| ==
      |labelText| + 2 + SumLengths(items) + (if |items| == 0 then 0 else 2 * (|items| - 1))
    ensures |items| > 0 ==> EndsWith(ArrayLine(labelText, items), items[|items| - 1])
  {
    JoinLength(items, ", ");
    if |items| > 0 {
      var last := items[|items| - 1];
      if |items| > 1 {
        var init := items[..|items| - 1];
        assert items == init + [last];
        JoinSnoc(init, last, ", ");
        EndsWithExtend(Join(init, ", ") + ", ", last, last);
      } else {
        assert EndsWith(last, last);
      }
      EndsWithExtend(labelText + ": ", Join(items, ", "), last);
    }
  }
}
