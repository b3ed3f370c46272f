/**
 * The shared logger's line formatting: type names, single-variable lines, array lines
 * (with the zero-run compression of floating arrays) and the file:line message shapes.
 * Only the text of one log line is modelled; spdlog sinks, levels and timestamps are not.
 * Numbers are rendered by oracles: `fmt`'s fixed and shortest forms for the floating branch,
 * and the ostream insertion of an element for the others.
 */
module Logger {
  import opened Wrappers
  import opened Text

  // ---- C++ types and type_name ----

  /** The element and variable types the logger is instantiated with, with cv and reference wrappers. */
  datatype CType =
    | IntType | LongType | LongLongType | ShortType | BoolType | CharType
    | FloatType | DoubleType | LongDoubleType
    | StdString
    | PointerTo(pointee: CType)
    | Const(of: CType)
    | Volatile(of: CType)
    | Reference(to: CType)
    | OtherType

  /** std::remove_cv_t<std::remove_reference_t<T>>: one reference, then the top-level qualifiers. */
  function Strip(t: CType): (u: CType)
    ensures !u.Const? && !u.Volatile?
  {
    RemoveCv(if t.Reference? then t.to else t)
  }

  function RemoveCv(t: CType): (u: CType)
    ensures !u.Const? && !u.Volatile?
  {
    match t
    case Const(inner) => RemoveCv(inner)
    case Volatile(inner) => RemoveCv(inner)
    case _ => t
  }

  const TypeNames: set<string> := {"int", "long", "long long", "float", "double", "const char*", "unknown_type"}

  /** type_name<T>(): the spelling of six known types; std::string and everything else are unknown. */
  function TypeName(t: CType): (r: string)
    ensures r in TypeNames
    ensures r == "unknown_type" <==>
      Strip(t) !in {IntType, LongType, LongLongType, FloatType, DoubleType, PointerTo(Const(CharType))}
  {
    match Strip(t)
    case IntType => "int"
    case LongType => "long"
    case LongLongType => "long long"
    case FloatType => "float"
    case DoubleType => "double"
    case PointerTo(Const(CharType)) => "const char*"
    case _ => "unknown_type"
  }

  /**
   * Qualifiers and references do not change the name, but a pointer's own pointee
   * qualifier does: `char*` is unknown while `const char* const&` is "const char*".
   */
  lemma TypeNameQualifiers(b: CType)
    requires !b.Const? && !b.Volatile? && !b.Reference?
    ensures TypeName(Const(b)) == TypeName(b)
    ensures TypeName(Volatile(Const(b))) == TypeName(b)
    ensures TypeName(Reference(Const(Volatile(b)))) == TypeName(b)
    ensures TypeName(PointerTo(CharType)) == "unknown_type"
    ensures TypeName(Reference(Const(PointerTo(Const(CharType))))) == "const char*"
    ensures TypeName(Reference(Const(StdString))) == "unknown_type"
  {
    assert RemoveCv(b) == b;
    assert RemoveCv(Volatile(b)) == b && RemoveCv(Const(Volatile(b))) == b;
    assert Strip(Const(b)) == b && Strip(Volatile(Const(b))) == b && Strip(Reference(Const(Volatile(b)))) == b;
  }

  // ---- Loggable::log ----

  /** Loggable<T>::log: "<type> <name> = <value>;", with the value as fmt renders it. */
  function VarLine(t: CType, name: string, valueText: string): (line: string)
  {
    TypeName(t) + " " + name + " = " + valueText + ";"
  }

  /** The variable's name and value can be read back from a variable line of a known type. */
  lemma VarLineParts(t: CType, name: string, valueText: string)
    ensures var line := VarLine(t, name, valueText);
      var k := |TypeName(t)| + |name| + 4;
      k < |line| && line[|line| - 1] == ';' &&
      line[|TypeName(t)| + 1..|TypeName(t)| + 1 + |name|] == name &&
      line[k..|line| - 1] == valueText
  {
    var line := VarLine(t, name, valueText);
    var tn := TypeName(t);
    assert line == tn + " " + name + " = " + valueText + ";";
    assert line == (tn + " ") + name + (" = " + valueText + ";");
    assert line == (tn + " " + name + " = ") + valueText + ";";
  }

  // ---- stream formats ----

  /** The ostream state logArrayLine sets up: std::fixed with the given precision, or the default. */
  datatype StreamFormat = DefaultFormat | Fixed(digits: nat)

  function FormatOf(precision: int): (fmt: StreamFormat)
    ensures fmt.Fixed? <==> precision >= 0
    ensures fmt.Fixed? ==> fmt.digits == precision
  {
    if precision >= 0 then Fixed(precision) else DefaultFormat
  }

  /** fmt's "{:.{p}f}" and "{}" renderings of a floating value. */
  datatype RealFormat = RealFormat(fixed: (real, nat) -> string, shortest: real -> string)

  /** The floating branch's value formatter: fixed digits for a non-negative precision, shortest otherwise. */
  function FormatVal(v: real, precision: int, f: RealFormat): (s: string)
    ensures precision >= 0 ==> s == f.fixed(v, precision)
    ensures precision < 0 ==> s == f.shortest(v)
  {
    if precision >= 0 then f.fixed(v, precision) else f.shortest(v)
  }

  function Formatted(values: seq<real>, precision: int, f: RealFormat): (r: seq<string>)
    ensures |r| == |values|
    ensures forall i :: 0 <= i < |values| ==> r[i] == FormatVal(values[i], precision, f)
  {
    seq(|values|, i requires 0 <= i < |values| => FormatVal(values[i], precision, f))
  }

  lemma FormattedTake(values: seq<real>, n: nat, precision: int, f: RealFormat)
    requires n <= |values|
    ensures Formatted(values[..n], precision, f) == Formatted(values, precision, f)[..n]
  {
  }

  // ---- find_last_nonzero ----

  /**
   * find_last_nonzero: the largest index of a non-zero element, or None (SIZE_MAX) when
   * every element is zero.
   */
  function LastNonzero(values: seq<real>): (r: Option<nat>)
    ensures r.Some? ==> r.value < |values| && values[r.value] != 0.0
    ensures r.Some? ==> forall j :: r.value < j < |values| ==> values[j] == 0.0
    ensures r.None? <==> forall j :: 0 <= j < |values| ==> values[j] == 0.0
    decreases |values|
  {
    if |values| == 0 then None
    else if values[|values| - 1] != 0.0 then Some(|values| - 1)
    else LastNonzero(values[..|values| - 1])
  }

  /** The last non-zero index is the only index with a non-zero element and zeros after it. */
  lemma LastNonzeroUnique(values: seq<real>, k: nat)
    requires k < |values| && values[k] != 0.0
    requires forall j :: k < j < |values| ==> values[j] == 0.0
    ensures LastNonzero(values) == Some(k)
  {
  }

  // ---- logArrayLine ----

  /** Which branch of logArrayLine an element type takes. */
  predicate IsFloating(u: CType) { u == FloatType || u == DoubleType || u == LongDoubleType }

  predicate IsTextual(u: CType) { u == StdString || u == PointerTo(Const(CharType)) || u == PointerTo(CharType) }

  /** The run of trailing zeros: nothing, one zero, or the first and last of the run around ", ... , ". */
  function TrailingZerosText(count: nat, zero: string): (r: string)
    ensures count == 0 <==> r == ""
  {
    if count == 0 then "" else if count == 1 then ", " + zero else ", " + zero + ", ... , " + zero
  }

  /**
   * The floating branch's line: N/A for an all-zero array, otherwise the elements up to the
   * last non-zero one in full, followed by the compressed run of trailing zeros.
   */
  function FloatArrayLine(typeName: string, labelText: string, values: seq<real>, precision: int, f: RealFormat): (line: string)
  {
    var found := LastNonzero(values);
    if found.None? then typeName + " " + labelText + " = N/A;"
    else ListedLine(typeName, labelText, values, found.value, precision, f)
  }

  /** The line of an array whose last non-zero element is at index last. */
  function ListedLine(typeName: string, labelText: string, values: seq<real>, last: nat, precision: int, f: RealFormat): string
    requires last < |values|
  {
    typeName + " " + labelText + " = {" + Join(Formatted(values[..last + 1], precision, f), ", ")
    + TrailingZerosText(|values| - last - 1, FormatVal(0.0, precision, f)) + "};"
  }

  /** The fallback branch's header: text element types omit the type name. */
  function ArrayHeader(t: CType, labelText: string): (h: string)
    ensures IsTextual(Strip(t)) ==> h == labelText
    ensures !IsTextual(Strip(t)) ==> h == TypeName(t) + " " + labelText
  {
    if IsTextual(Strip(t)) then labelText else TypeName(t) + " " + labelText
  }

  /** The fallback branch's line: every element, separated by ", ", inside "{...};". */
  function PlainArrayLine(header: string, items: seq<string>): (line: string)
  {
    header + " = {" + Join(items, ", ") + "};"
  }

  function Shown<T>(xs: seq<T>, fmt: StreamFormat, show: (T, StreamFormat) -> string): (r: seq<string>)
    ensures |r| == |xs|
    ensures forall i :: 0 <= i < |xs| ==> r[i] == show(xs[i], fmt)
  {
    seq(|xs|, i requires 0 <= i < |xs| => show(xs[i], fmt))
  }

  /** logArrayLine on a float or double array (the first `if constexpr` branch). */
  method LogFloatArrayLine(t: CType, labelText: string, data: array<real>, size: nat, precision: int, f: RealFormat)
    returns (line: string)
    requires IsFloating(Strip(t)) && size <= data.Length
    ensures line == FloatArrayLine(TypeName(t), labelText, data[..size], precision, f)
  {
    var found := LastNonzero(data[..size]);
    if found.None? {
      line := TypeName(t) + " " + labelText + " = N/A;";
      return;
    }
    var lastNonzero := found.value;
    var zeroStr := FormatVal(0.0, precision, f);
    line := TypeName(t) + " " + labelText + " = {";
    ghost var header := line;
    line := AppendListedElements(line, data, size, lastNonzero, precision, f);
    ghost var joined := line;
    line := AppendTrailingZeros(line, lastNonzero, size, zeroStr);
    line := line + "};";
    ListedLineAssembled(TypeName(t), labelText, data[..size], lastNonzero, precision, f, joined, line);
  }

  /** The floating branch's loop: the elements up to the last non-zero one, separated by ", ". */
  method AppendListedElements(header: string, data: array<real>, size: nat, lastNonzero: nat, precision: int, f: RealFormat)
    returns (line: string)
    requires lastNonzero < size <= data.Length
    ensures line == header + JoinedPrefix(Formatted(data[..size], precision, f), lastNonzero + 1, lastNonzero + 1, ", ")
  {
    ghost var items := Formatted(data[..size], precision, f);
    line := header;
    var i := 0;
    while i <= lastNonzero
      invariant 0 <= i <= lastNonzero + 1
      invariant line == header + JoinedPrefix(items, i, lastNonzero + 1, ", ")
    {
      ghost var before := line;
      assert items[i] == FormatVal(data[i], precision, f);
      line := line + FormatVal(data[i], precision, f);
      if i < lastNonzero {
        line := line + ", ";
      }
      HeaderJoinStep(header, items, i, lastNonzero + 1, ", ", before, line);
      i := i + 1;
    }
  }

  /** The compressed run of trailing zeros: one zero as itself, more as the first, an ellipsis and the last. */
  method AppendTrailingZeros(line: string, lastNonzero: nat, size: nat, zeroStr: string) returns (r: string)
    requires lastNonzero < size
    ensures r == line + TrailingZerosText(size - lastNonzero - 1, zeroStr)
  {
    r := line;
    var trailingStart := lastNonzero + 1;
    if trailingStart < size {
      var trailingCount := size - trailingStart;
      if lastNonzero < size {
        r := r + ", ";
      }
      if trailingCount == 1 {
        r := r + zeroStr;
        AppendAssociative(line, ", ", zeroStr);
      } else {
        r := r + zeroStr;
        AppendAssociative(line, ", ", zeroStr);
        r := r + ", ... , ";
        AppendAssociative(line, ", " + zeroStr, ", ... , ");
        r := r + zeroStr;
        AppendAssociative(line, ", " + zeroStr + ", ... , ", zeroStr);
      }
    }
  }

  /** The floating branch's line assembled from the loop's output, the trailing-zero text and the closing brace. */
  lemma ListedLineAssembled(typeName: string, labelText: string, values: seq<real>, last: nat, precision: int,
                            f: RealFormat, joined: string, line: string)
    requires last < |values|
    requires joined == typeName + " " + labelText + " = {" + JoinedPrefix(Formatted(values, precision, f), last + 1, last + 1, ", ")
    requires line == joined + TrailingZerosText(|values| - last - 1, FormatVal(0.0, precision, f)) + "};"
    ensures line == ListedLine(typeName, labelText, values, last, precision, f)
  {
    FormattedTake(values, last + 1, precision, f);
  }

  /** One pass of the floating branch's loop: the element, then a separator unless it was the last. */
  lemma HeaderJoinStep(header: string, items: seq<string>, i: nat, n: nat, sep: string, before: string, after: string)
    requires i < n <= |items|
    requires before == header + JoinedPrefix(items, i, n, sep)
    requires after == before + items[i] + (if i + 1 < n then sep else "")
    ensures after == header + JoinedPrefix(items, i + 1, n, sep)
  {
    var gap := if i + 1 < n then sep else "";
    JoinedPrefixStep(items, i, n, sep);
    AppendAssociative(header, JoinedPrefix(items, i, n, sep), items[i]);
    AppendAssociative(header, JoinedPrefix(items, i, n, sep) + items[i], gap);
  }

  /** logArrayLine on any other element type (the fallback loop). */
  method LogPlainArrayLine<T>(t: CType, labelText: string, data: array<T>, size: nat, precision: int,
                              show: (T, StreamFormat) -> string)
    returns (line: string)
    requires !IsFloating(Strip(t)) && size <= data.Length
    ensures line == PlainArrayLine(ArrayHeader(t, labelText), Shown(data[..size], FormatOf(precision), show))
  {
    var fmt := FormatOf(precision);
    if IsTextual(Strip(t)) {
      line := labelText + " = {";
    } else {
      line := TypeName(t) + " " + labelText + " = {";
    }
    ghost var header := line;
    line := AppendShownElements(line, data, size, fmt, show);
    ghost var items := Shown(data[..size], fmt, show);
    assert items[..size] == items;
    line := line + "};";
  }

  /** The fallback loop: every element as `<<` shows it, separated by ", ". */
  method AppendShownElements<T>(header: string, data: array<T>, size: nat, fmt: StreamFormat, show: (T, StreamFormat) -> string)
    returns (line: string)
    requires size <= data.Length
    ensures line == header + JoinedPrefix(Shown(data[..size], fmt, show), size, size, ", ")
  {
    ghost var items := Shown(data[..size], fmt, show);
    line := header;
    var i := 0;
    while i < size
      invariant 0 <= i <= size
      invariant line == header + JoinedPrefix(items, i, size, ", ")
    {
      ghost var before := line;
      assert items[i] == show(data[i], fmt);
      line := line + show(data[i], fmt);
      if i + 1 < size {
        line := line + ", ";
      }
      HeaderJoinStep(header, items, i, size, ", ", before, line);
      i := i + 1;
    }
  }

  /** An all-zero floating array, and only such an array, prints as N/A. */
  lemma AllZeroPrintsNotAvailable(typeName: string, labelText: string, values: seq<real>, precision: int, f: RealFormat)
    ensures FloatArrayLine(typeName, labelText, values, precision, f) == typeName + " " + labelText + " = N/A;"
      <==> forall j :: 0 <= j < |values| ==> values[j] == 0.0
  {
    var k := |typeName| + |labelText| + 4;
    var na := typeName + " " + labelText + " = N/A;";
    if LastNonzero(values).Some? {
      ListedLineOpensBrace(typeName, labelText, values, LastNonzero(values).value, precision, f);
      assert na[k] == 'N';
    }
  }

  /** A listed line has the opening brace where the N/A text has its N. */
  lemma ListedLineOpensBrace(typeName: string, labelText: string, values: seq<real>, last: nat, precision: int, f: RealFormat)
    requires last < |values|
    ensures var k := |typeName| + |labelText| + 4;
      k < |ListedLine(typeName, labelText, values, last, precision, f)| &&
      ListedLine(typeName, labelText, values, last, precision, f)[k] == '{'
  {
    BraceAfterHeader(typeName + " " + labelText, Join(Formatted(values[..last + 1], precision, f), ", "),
      TrailingZerosText(|values| - last - 1, FormatVal(0.0, precision, f)));
  }

  lemma BraceAfterHeader(header: string, joined: string, zeros: string)
    ensures |header| + 3 < |header + " = {" + joined + zeros + "};"|
    ensures (header + " = {" + joined + zeros + "};")[|header| + 3] == '{'
  {
    assert (header + " = {" + joined + zeros + "};")[|header| + 3] == (header + " = {")[|header| + 3];
  }

  /** When the last element is non-zero nothing is compressed: the line lists every element. */
  lemma NonzeroLastPrintsAll(typeName: string, labelText: string, values: seq<real>, precision: int, f: RealFormat)
    requires |values| > 0 && values[|values| - 1] != 0.0
    ensures FloatArrayLine(typeName, labelText, values, precision, f) ==
      PlainArrayLine(typeName + " " + labelText, Formatted(values, precision, f))
  {
    assert values[..|values|] == values;
  }

  /** A single trailing zero is printed as itself, so the line again lists every element. */
  lemma OneTrailingZeroPrintsAll(typeName: string, labelText: string, values: seq<real>, precision: int, f: RealFormat)
    requires |values| > 0 && values[|values| - 1] != 0.0
    ensures FloatArrayLine(typeName, labelText, values + [0.0], precision, f) ==
      PlainArrayLine(typeName + " " + labelText, Formatted(values + [0.0], precision, f))
  {
    var w := values + [0.0];
    var items := Formatted(values, precision, f);
    var z := FormatVal(0.0, precision, f);
    var header := typeName + " " + labelText;
    LastNonzeroUnique(w, |values| - 1);
    assert w[..|values|] == values;
    assert ListedLine(typeName, labelText, w, |values| - 1, precision, f) == header + " = {" + Join(items, ", ") + (", " + z) + "};";
    assert Formatted(w, precision, f) == items + [z];
    JoinSnoc(items, z, ", ");
    OneZeroAssembly(header, Join(items, ", "), z);
  }

  lemma OneZeroAssembly(header: string, joined: string, zero: string)
    ensures header + " = {" + joined + (", " + zero) + "};" == header + " = {" + (joined + ", " + zero) + "};"
  {
  }

  function Zeros(k: nat): (z: seq<real>)
    ensures |z| == k && forall j :: 0 <= j < k ==> z[j] == 0.0
  {
    seq(k, _ => 0.0)
  }

  /**
   * A run of two or more trailing zeros prints the same whatever its length: the
   * compressed line does not record how many zeros there were.
   */
  lemma LongZeroRunsCompress(typeName: string, labelText: string, values: seq<real>, k: nat, precision: int, f: RealFormat)
    requires |values| > 0 && values[|values| - 1] != 0.0 && k >= 2
    ensures FloatArrayLine(typeName, labelText, values + Zeros(k), precision, f) ==
      FloatArrayLine(typeName, labelText, values + Zeros(2), precision, f)
  {
    var n := |values|;
    var long := values + Zeros(k);
    var short := values + Zeros(2);
    LastNonzeroUnique(long, n - 1);
    LastNonzeroUnique(short, n - 1);
    assert long[..n] == values && short[..n] == values;
  }

  // ---- infoWithLine / errorWithLine ----

  /**
   * std::filesystem::path(file).filename(): the characters after the last separator
   * (empty when the path ends in one).
   */
  function FileName(file: string, separators: set<char>): (r: string)
    ensures |r| <= |file| && r == file[|file| - |r|..]
    ensures forall k :: 0 <= k < |r| ==> r[k] !in separators
    ensures |r| < |file| ==> file[|file| - |r| - 1] in separators
    decreases |file|
  {
    if |file| == 0 || file[|file| - 1] in separators then ""
    else FileName(file[..|file| - 1], separators) + [file[|file| - 1]]
  }

  /** A directory followed by a separator and a plain name has that name as its file name. */
  lemma {:induction false} FileNameOfPath(dir: string, sep: char, name: string, separators: set<char>)
    requires sep in separators
    requires forall k :: 0 <= k < |name| ==> name[k] !in separators
    ensures FileName(dir + [sep] + name, separators) == name
    decreases |name|
  {
    var path := dir + [sep] + name;
    if |name| > 0 {
      var init := name[..|name| - 1];
      assert path[..|path| - 1] == dir + [sep] + init;
      FileNameOfPath(dir, sep, init, separators);
      assert name == init + [name[|name| - 1]];
    }
  }

  /** "<file name>:<line>", the location both helpers attach. */
  function Location(file: string, line: int, separators: set<char>): string
  {
    FileName(file, separators) + ":" + IntToDecimal(line)
  }

  /** infoWithLine: "[<file name>:<line>] <body>". */
  function InfoWithLine(file: string, line: int, body: string, separators: set<char>): (msg: string)
  {
    "[" + Location(file, line, separators) + "] " + body
  }

  /** errorWithLine: "<body> (<file name>:<line>)". */
  function ErrorWithLine(file: string, line: int, body: string, separators: set<char>): (msg: string)
  {
    body + " (" + Location(file, line, separators) + ")"
  }

  /** The two halves of a concatenation, and a slice that lies inside the first. */
  lemma Halves(x: string, y: string, i: nat, j: nat)
    requires i <= j <= |x|
    ensures (x + y)[..|x|] == x && (x + y)[|x|..] == y && (x + y)[i..j] == x[i..j]
  {
  }

  /** infoWithLine's message: the location in brackets, then the body, which can be cut back out. */
  lemma InfoMessageShape(file: string, line: int, body: string, separators: set<char>)
    ensures var loc := Location(file, line, separators);
      var info := InfoWithLine(file, line, body, separators);
      |info| == |body| + |loc| + 3 && info[0] == '[' && info[1..|loc| + 1] == loc && info[|loc| + 3..] == body
  {
    Bracketed(Location(file, line, separators), body);
  }

  lemma Bracketed(loc: string, body: string)
    ensures var info := "[" + loc + "] " + body;
      |info| == |body| + |loc| + 3 && info[0] == '[' && info[1..|loc| + 1] == loc && info[|loc| + 3..] == body
  {
    var opening := "[" + loc;
    Halves("[", loc, 1, 1);
    Halves(opening, "] ", 1, |loc| + 1);
    Halves(opening + "] ", body, 1, |loc| + 1);
  }

  /** errorWithLine's message: the body, then the same location in parentheses. */
  lemma ErrorMessageShape(file: string, line: int, body: string, separators: set<char>)
    ensures var loc := Location(file, line, separators);
      var err := ErrorWithLine(file, line, body, separators);
      |err| == |body| + |loc| + 3 && err[..|body|] == body && err[|body| + 2..|body| + 2 + |loc|] == loc && err[|err| - 1] == ')'
  {
    Parenthesized(Location(file, line, separators), body);
  }

  lemma Parenthesized(loc: string, body: string)
    ensures var err := body + " (" + loc + ")";
      |err| == |body| + |loc| + 3 && err[..|body|] == body && err[|body| + 2..|body| + 2 + |loc|] == loc && err[|err| - 1] == ')'
  {
    var lead := body + " (";
    Halves(body, " (", 0, |body|);
    Halves(lead, loc, 0, |body|);
    Halves(lead + loc, ")", 0, |body|);
    Halves(lead + loc, ")", |lead|, |lead| + |loc|);
  }
}
