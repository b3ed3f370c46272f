/**
 * LibraryRunner: the console front end of the JNA harness. It builds the library's file
 * name and path from the configuration, opens a NativeLibraryLoader on it, and then reads
 * commands line by line until "-exit", dispatching each command to a native function only
 * when the loader lists that function.
 *
 * Two copies exist: the JNAexec runner and the earlier exec runner, which resolves a missing
 * directory differently and knows fewer commands. Console input is the sequence of lines
 * the session reads; the number parsers of the Java library are oracles that either give a
 * value or throw. What a native call then does is not part of this module: a session
 * records the calls it makes, with their arguments.
 */
module LibraryRunner {
  import opened Wrappers
  import opened Text
  import opened NativeLoader
  import MyStructMapping

  datatype RunnerVariant = JnaExecRunner | ExecRunner

  /** Each runner uses the loader of its own directory. */
  function LoaderOf(v: RunnerVariant): Variant {
    match v
    case JnaExecRunner => JnaExecLoader
    case ExecRunner => ExecLoader
  }

  // ---- locating the library ----

  /** The file name: ".dll" on Windows, ".so" on Linux; None where the runner returns without loading. */
  function LibraryFileName(execFileName: string, platform: Platform): (r: Option<string>)
    ensures r.None? <==> platform == OtherPlatform
    ensures r.Some? ==> StartsWith(r.value, execFileName)
    ensures platform == Windows ==> r.Some? && r.value[|execFileName|..] == ".dll"
    ensures platform == Linux ==> r.Some? && r.value[|execFileName|..] == ".so"
  {
    match platform
    case Windows => Some(execFileName + ".dll")
    case Linux => Some(execFileName + ".so")
    case OtherPlatform => None
  }

  /** Different configured names give different file names on the same platform. */
  lemma LibraryFileNameInjective(a: string, b: string, platform: Platform)
    requires platform != OtherPlatform
    requires LibraryFileName(a, platform) == LibraryFileName(b, platform)
    ensures a == b
  {
    var n := LibraryFileName(a, platform).value;
    var ext := if platform == Windows then ".dll" else ".so";
    assert n == a + ext && n == b + ext;
    assert |a| == |b|;
    assert a == n[..|a|] && b == n[..|b|];
  }

  /**
   * The path handed to the loader. `execFileDir` is the configured directory (None for a
   * missing property). With a directory both runners use "./" + dir + "/" + file; without
   * one the JNAexec runner uses the working directory and the platform separator, the exec
   * runner "./" + file.
   */
  function LibraryPath(v: RunnerVariant, execFileDir: Option<string>, userDir: string, separator: string,
                       fileName: string): (path: string)
    ensures |path| >= |fileName| && path[|path| - |fileName|..] == fileName
  {
    if execFileDir.None? || execFileDir.value == "" then
      match v
      case JnaExecRunner => userDir + separator + fileName
      case ExecRunner => "./" + fileName
    else "./" + execFileDir.value + "/" + fileName
  }

  /** The two runners disagree only when no directory is configured. */
  lemma LibraryPathVariants(execFileDir: Option<string>, userDir: string, separator: string, fileName: string)
    ensures execFileDir.Some? && execFileDir.value != "" ==>
      LibraryPath(JnaExecRunner, execFileDir, userDir, separator, fileName) ==
      LibraryPath(ExecRunner, execFileDir, userDir, separator, fileName)
    ensures execFileDir.None? || execFileDir.value == "" ==>
      StartsWith(LibraryPath(JnaExecRunner, execFileDir, userDir, separator, fileName), userDir) &&
      LibraryPath(ExecRunner, execFileDir, userDir, separator, fileName) == "./" + fileName
  {
  }

  /** A configured directory can be read back from the path between "./" and the last "/". */
  lemma LibraryPathDirectory(v: RunnerVariant, dir: string, userDir: string, separator: string, fileName: string)
    requires dir != ""
    ensures var path := LibraryPath(v, Some(dir), userDir, separator, fileName);
      |path| == |dir| + |fileName| + 3 && path[..2] == "./" && path[2..2 + |dir|] == dir && path[2 + |dir|] == '/'
  {
  }

  // ---- the command line ----

  /** String.replaceFirst("^-+", ""): the input without its leading '-' characters. */
  function StripLeadingDashes(s: string): (r: string)
    ensures |r| <= |s| && s[|s| - |r|..] == r
    ensures forall k :: 0 <= k < |s| - |r| ==> s[k] == '-'
    ensures r == [] || r[0] != '-'
    decreases |s|
  {
    if |s| > 0 && s[0] == '-' then StripLeadingDashes(s[1..]) else s
  }

  /** Stripping undoes prefixing a single dash to a name that does not start with one. */
  lemma StripDashPrefix(name: string)
    requires name == [] || name[0] != '-'
    ensures StripLeadingDashes("-" + name) == name
  {
    assert ("-" + name)[1..] == name;
  }

  /** What the loop does with one trimmed input line. */
  datatype Command =
    | Exit
    | ListFunctions
    | Help
    | PrintStructCmd
    | PrintTypeCmd
    | UpdateDoubleArrCmd
    | MathCmd(name: string)
    | StockPricingCmd
    | FxForwardPricingCmd
    | BondPricingCmd
    | HiFiveSwapCmd
    | Unknown

  const MathInputs: seq<string> := ["-Div", "-Sub", "-Mul", "-Sum"]

  /** Each arithmetic input is a dash and then the native function's name. */
  lemma MathInputName(input: string)
    requires input in MathInputs
    ensures StripLeadingDashes(input) in ["Div", "Sub", "Mul", "Sum"]
    ensures input == "-" + StripLeadingDashes(input)
  {
    var name := input[1..];
    assert input == "-" + name;
    if input == "-Div" {
      assert name == "Div";
    } else if input == "-Sub" {
      assert name == "Sub";
    } else if input == "-Mul" {
      assert name == "Mul";
    } else {
      assert name == "Sum";
    }
    StripDashPrefix(name);
  }

  /** The text that selects a command (none for the unknown-command warning). */
  function CommandText(c: Command): string {
    match c
    case Exit => "-exit"
    case ListFunctions => "-list"
    case Help => "-help"
    case PrintStructCmd => "-printStruct"
    case PrintTypeCmd => "-printType"
    case UpdateDoubleArrCmd => "-updateDoubleArr"
    case MathCmd(name) => "-" + name
    case StockPricingCmd => "-stockPricing"
    case FxForwardPricingCmd => "-pricing"
    case BondPricingCmd => "-pricing"
    case HiFiveSwapCmd => "-KISP_CalcHiFiveSwapMC"
    case Unknown => ""
  }

  /** The exported symbol whose presence a command checks; None for the commands that call nothing. */
  function RequiredExport(c: Command): Option<string> {
    match c
    case PrintStructCmd => Some("printStruct")
    case PrintTypeCmd => Some("printType")
    case UpdateDoubleArrCmd => Some("updateDoubleArr")
    case MathCmd(_) => Some("Div")
    case StockPricingCmd => Some("stockPricing")
    case FxForwardPricingCmd => Some("pricing")
    case BondPricingCmd => Some("pricing")
    case HiFiveSwapCmd => Some("KISP_CalcHiFiveSwapMC")
    case _ => None
  }

  /**
   * The if-chain of the loop. A command that calls native code fires only when its symbol is
   * listed (the four arithmetic commands all check "Div"), and the pricing commands also
   * need the configured file name; the exec runner has no bond or HiFive command.
   */
  function Route(v: RunnerVariant, input: string, functions: seq<string>, execFileName: string): (c: Command)
    ensures c == Exit <==> input == "-exit"
    ensures c != Unknown ==> input == CommandText(c)
    ensures RequiredExport(c).Some? ==> RequiredExport(c).value in functions
    ensures c.MathCmd? ==> c.name in ["Div", "Sub", "Mul", "Sum"]
    ensures c == StockPricingCmd ==> execFileName == "libOtStock" || execFileName == "OtStock"
    ensures c == FxForwardPricingCmd ==> execFileName == "fxForward"
    ensures c == BondPricingCmd ==> execFileName == "bond" && v == JnaExecRunner
    ensures c == HiFiveSwapCmd ==> execFileName == "KISPEQ_HiFiveSwapMC64" && v == JnaExecRunner
  {
    if input == "-exit" then Exit
    else if input == "-list" then ListFunctions
    else if input == "-help" then Help
    else if input == "-printStruct" && "printStruct" in functions then PrintStructCmd
    else if input == "-printType" && "printType" in functions then PrintTypeCmd
    else if input == "-updateDoubleArr" && "updateDoubleArr" in functions then UpdateDoubleArrCmd
    else if input in MathInputs && "Div" in functions then
      MathInputName(input);
      MathCmd(StripLeadingDashes(input))
    else if input == "-stockPricing" && "stockPricing" in functions
            && (execFileName == "libOtStock" || execFileName == "OtStock") then StockPricingCmd
    else if input == "-pricing" && "pricing" in functions && execFileName == "fxForward" then FxForwardPricingCmd
    else if v == JnaExecRunner && input == "-pricing" && "pricing" in functions && execFileName == "bond" then BondPricingCmd
    else if v == JnaExecRunner && input == "-KISP_CalcHiFiveSwapMC" && "KISP_CalcHiFiveSwapMC" in functions
            && execFileName == "KISPEQ_HiFiveSwapMC64" then HiFiveSwapCmd
    else Unknown
  }

  /** A command whose symbol is not listed is never dispatched: its text falls through to the warning. */
  lemma MissingExportFallsThrough(v: RunnerVariant, c: Command, functions: seq<string>, execFileName: string)
    requires RequiredExport(c).Some? && RequiredExport(c).value !in functions
    requires !c.MathCmd? || c.name in ["Div", "Sub", "Mul", "Sum"]
    ensures Route(v, CommandText(c), functions, execFileName) == Unknown
  {
    ExportByTextLength(c);
    ExportByTextLength(Route(v, CommandText(c), functions, execFileName));
  }

  /** Commands with texts of the same length check the same symbol: the length of the text decides it. */
  function ExportOfLength(n: nat): Option<string> {
    if n == 12 then Some("printStruct")
    else if n == 10 then Some("printType")
    else if n == 16 then Some("updateDoubleArr")
    else if n == 4 then Some("Div")
    else if n == 13 then Some("stockPricing")
    else if n == 8 then Some("pricing")
    else if n == 22 then Some("KISP_CalcHiFiveSwapMC")
    else None
  }

  lemma ExportByTextLength(c: Command)
    ensures c != Unknown && (c.MathCmd? ==> c.name in ["Div", "Sub", "Mul", "Sum"]) ==>
      RequiredExport(c) == ExportOfLength(|CommandText(c)|)
  {
  }

  /** "-list" and "-help" are always recognised and never call native code. */
  lemma ListAndHelpCallNothing(v: RunnerVariant, functions: seq<string>, execFileName: string)
    ensures Route(v, "-list", functions, execFileName) == ListFunctions
    ensures Route(v, "-help", functions, execFileName) == Help
    ensures RequiredExport(ListFunctions).None? && RequiredExport(Help).None?
  {
  }

  /** "-pricing" for a bond library: the JNAexec runner prices it, the exec runner only warns. */
  lemma BondPricingOnlyInJnaExec(functions: seq<string>)
    requires "pricing" in functions
    ensures Route(JnaExecRunner, "-pricing", functions, "bond") == BondPricingCmd
    ensures Route(ExecRunner, "-pricing", functions, "bond") == Unknown
  {
    var input := "-pricing";
    assert |input| == 8 && input[1] == 'p' && input[2] == 'r' && input[3] == 'i';
    assert input != "-exit" && input != "-list" && input != "-help";
    assert input != "-printStruct" && input != "-printType" && input != "-updateDoubleArr";
    assert input !in MathInputs && input != "-stockPricing";
  }

  /** The arithmetic gate checks "Div" only: "-Sum" is dispatched to "Sum" even when "Sum" is not listed. */
  lemma MathGateChecksDivOnly(v: RunnerVariant, execFileName: string)
    ensures Route(v, "-Sum", ["Div"], execFileName) == MathCmd("Sum")
    ensures "Sum" !in ["Div"]
  {
    var input := "-Sum";
    assert |input| == 4 && input[1] == 'S';
    assert input != "-exit" && input != "-list" && input != "-help";
    assert input != "-printStruct" && input != "-printType" && input != "-updateDoubleArr";
    assert input in MathInputs;
    StripDashPrefix("Sum");
    assert "-" + "Sum" == input;
  }

  // ---- "-list" ----

  /** List.indexOf: the first position of x, or -1. */
  function IndexOf(xs: seq<string>, x: string): (i: int)
    ensures -1 <= i < |xs|
    ensures i == -1 <==> x !in xs
    ensures i >= 0 ==> xs[i] == x && forall j :: 0 <= j < i ==> xs[j] != x
    decreases |xs|
  {
    if |xs| == 0 then -1
    else if xs[0] == x then 0
    else var k := IndexOf(xs[1..], x); if k == -1 then -1 else k + 1
  }

  /** The line "-list" prints for the name at position k: its indexOf + 1, a dot, and the name. */
  function ListLine(functions: seq<string>, k: nat): string
    requires k < |functions|
  {
    NatToDecimal(IndexOf(functions, functions[k]) + 1) + ". " + functions[k]
  }

  /** The "-list" loop: one line per listed name, in list order. */
  method ListLines(functions: seq<string>) returns (lines: seq<string>)
    ensures |lines| == |functions|
    ensures forall k :: 0 <= k < |functions| ==> lines[k] == ListLine(functions, k)
  {
    lines := [];
    var k := 0;
    while k < |functions|
      invariant 0 <= k <= |functions| && |lines| == k
      invariant forall j :: 0 <= j < k ==> lines[j] == ListLine(functions, j)
    {
      lines := lines + [ListLine(functions, k)];
      k := k + 1;
    }
  }

  /** A name listed once is numbered by its own position; a repeated name prints its first position again. */
  lemma ListNumbering(functions: seq<string>, k: nat)
    requires k < |functions|
    ensures (forall j :: 0 <= j < k ==> functions[j] != functions[k]) ==>
      ListLine(functions, k) == NatToDecimal(k + 1) + ". " + functions[k]
    ensures forall j :: 0 <= j < k && functions[j] == functions[k] ==>
      ListLine(functions, k) == ListLine(functions, j) && IndexOf(functions, functions[k]) <= j
  {
    var i := IndexOf(functions, functions[k]);
    assert functions[k] in functions;
    assert 0 <= i <= k;
  }

  // ---- comma lists ----

  /** The pieces between the commas of s, every comma separating two pieces (empty ones included). */
  function SplitAll(s: string): (parts: seq<string>)
    ensures |parts| >= 1
    ensures forall k :: 0 <= k < |parts| ==> ',' !in parts[k]
    decreases |s|
  {
    if |s| == 0 then [""]
    else
      var p := SplitAll(s[..|s| - 1]);
      if s[|s| - 1] == ',' then p + [""]
      else p[..|p| - 1] + [p[|p| - 1] + [s[|s| - 1]]]
  }

  /** The pieces without the empty ones at the end. */
  function DropTrailingEmpty(parts: seq<string>): (r: seq<string>)
    ensures |r| <= |parts| && r == parts[..|r|]
    ensures r == [] || r[|r| - 1] != ""
    ensures forall k :: |r| <= k < |parts| ==> parts[k] == ""
    decreases |parts|
  {
    if |parts| == 0 || parts[|parts| - 1] != "" then parts
    else DropTrailingEmpty(parts[..|parts| - 1])
  }

  /**
   * The runner's comma lists: an empty line is the empty array, any other line is
   * String.split(","), which drops the empty strings at the end.
   */
  function CommaList(line: string): (r: seq<string>)
    ensures line == "" ==> r == []
    ensures forall k :: 0 <= k < |r| ==> ',' !in r[k]
    ensures r == [] || r[|r| - 1] != ""
  {
    if line == "" then [] else DropTrailingEmpty(SplitAll(line))
  }

  /** Joining the pieces with commas gives the line back. */
  lemma {:induction false} SplitAllJoin(s: string)
    ensures Join(SplitAll(s), ",") == s
    decreases |s|
  {
    if |s| > 0 {
      var init := s[..|s| - 1];
      var c := s[|s| - 1];
      SplitAllJoin(init);
      SplitAllSnoc(s, init, c);
      assert s == init + [c];
    }
  }

  /** One more character either starts a new piece (a comma) or extends the last one; either way the join grows by it. */
  lemma SplitAllSnoc(s: string, init: string, c: char)
    requires |s| > 0 && init == s[..|s| - 1] && c == s[|s| - 1]
    ensures Join(SplitAll(s), ",") == Join(SplitAll(init), ",") + [c]
  {
    var p := SplitAll(init);
    if c == ',' {
      assert SplitAll(s) == p + [""];
      JoinSnoc(p, "", ",");
    } else {
      assert SplitAll(s) == p[..|p| - 1] + [p[|p| - 1] + [c]];
      JoinExtendLast(p, c);
    }
  }

  /** Extending the last piece by one character extends the joined string by that character. */
  lemma JoinExtendLast(p: seq<string>, c: char)
    requires |p| >= 1
    ensures Join(p[..|p| - 1] + [p[|p| - 1] + [c]], ",") == Join(p, ",") + [c]
  {
    var init := p[..|p| - 1];
    JoinSnoc(init, p[|p| - 1] + [c], ",");
  }

  /** A comma-free piece after a comma is a piece of its own. */
  lemma {:induction false} SplitAllAppend(a: string, x: string)
    requires ',' !in x
    ensures SplitAll(a + "," + x) == SplitAll(a) + [x]
    decreases |x|
  {
    if |x| == 0 {
      assert a + "," + x == a + ",";
      assert (a + ",")[..|a + ","| - 1] == a;
    } else {
      var init := x[..|x| - 1];
      SplitAllAppend(a, init);
      var s := a + "," + x;
      assert s[..|s| - 1] == a + "," + init;
      assert s[|s| - 1] == x[|x| - 1];
      assert init + [x[|x| - 1]] == x;
    }
  }

  /** A comma-free string is a single piece. */
  lemma {:induction false} SplitAllPlain(x: string)
    requires ',' !in x
    ensures SplitAll(x) == [x]
    decreases |x|
  {
    if |x| > 0 {
      SplitAllPlain(x[..|x| - 1]);
      assert x[..|x| - 1] + [x[|x| - 1]] == x;
    }
  }

  /** Splitting undoes joining: comma-free pieces joined with commas split back into the same pieces. */
  lemma {:induction false} JoinSplitAll(parts: seq<string>)
    requires |parts| >= 1 && forall k :: 0 <= k < |parts| ==> ',' !in parts[k]
    ensures SplitAll(Join(parts, ",")) == parts
    decreases |parts|
  {
    var n := |parts|;
    if n == 1 {
      SplitAllPlain(parts[0]);
    } else {
      var init := parts[..n - 1];
      JoinSplitAll(init);
      assert parts == init + [parts[n - 1]];
      JoinSnoc(init, parts[n - 1], ",");
      SplitAllAppend(Join(init, ","), parts[n - 1]);
    }
  }

  /**
   * The comma list of a line that does not end with a comma joins back to that line, and
   * the comma list of joined pieces is those pieces when the last one is not empty.
   */
  lemma CommaListRoundTrip(line: string, parts: seq<string>)
    ensures line == "" || line[|line| - 1] != ',' ==> Join(CommaList(line), ",") == line
    ensures |parts| >= 1 && parts[|parts| - 1] != "" && (forall k :: 0 <= k < |parts| ==> ',' !in parts[k]) ==>
      CommaList(Join(parts, ",")) == parts
  {
    if line != "" && line[|line| - 1] != ',' {
      CommaListJoin(line);
    }
    if |parts| >= 1 && parts[|parts| - 1] != "" && (forall k :: 0 <= k < |parts| ==> ',' !in parts[k]) {
      CommaListOfJoin(parts);
    }
  }

  lemma CommaListJoin(line: string)
    requires line != "" && line[|line| - 1] != ','
    ensures Join(CommaList(line), ",") == line
  {
    SplitAllJoin(line);
    var p := SplitAll(line[..|line| - 1]);
    assert SplitAll(line) == p[..|p| - 1] + [p[|p| - 1] + [line[|line| - 1]]];
  }

  lemma CommaListOfJoin(parts: seq<string>)
    requires |parts| >= 1 && parts[|parts| - 1] != "" && forall k :: 0 <= k < |parts| ==> ',' !in parts[k]
    ensures CommaList(Join(parts, ",")) == parts
  {
    JoinSplitAll(parts);
    var init := parts[..|parts| - 1];
    assert parts == init + [parts[|parts| - 1]];
    JoinSnoc(init, parts[|parts| - 1], ",");
  }

  /** Arrays.stream(parts).mapTo…(parse): every element parsed, or the exception of the first one that fails. */
  function ParseAll<T>(parts: seq<string>, parse: string -> Option<T>): (r: Option<seq<T>>)
    ensures r.Some? ==> |r.value| == |parts| && forall k :: 0 <= k < |parts| ==> parse(parts[k]) == Some(r.value[k])
    ensures r.None? <==> exists k :: 0 <= k < |parts| && parse(parts[k]).None?
    decreases |parts|
  {
    if |parts| == 0 then Some([])
    else
      match parse(parts[0])
      case None => None
      case Some(x) =>
        match ParseAll(parts[1..], parse)
        case None => None
        case Some(xs) => Some([x] + xs)
  }

  /**
   * What the loop depends on outside the runner: Integer.parseInt, Long.parseLong and
   * Double.parseDouble (a value, or None where they throw), and whether a native call
   * returns. Every call* method of the loader rethrows a failure of getFunction or invoke
   * as a RuntimeException, which nothing in the loop catches.
   */
  datatype Oracles = Oracles(parseInt: string -> Option<int>, parseLong: string -> Option<int>,
                             parseDouble: string -> Option<real>, callReturns: Call -> bool)

  /** A native call the runner makes, with the arguments it passes. */
  datatype Call =
    | MathCall(name: string, a: real, b: real)
    | PrintTypeCall(strs: seq<string>, ints: seq<int>, doubles: seq<real>, longs: seq<int>, value: real)
    | PrintStructCall(positionNm: string, bucket: seq<string>, bucketSize: int, bsdt: string, tenor: int, value: real)
    | UpdateDoubleArrCall(values: seq<real>)
    | FixedInputCall(command: Command)

  /** The number of lines a command's handler reads after the command line. */
  function ArgumentCount(c: Command): (n: nat)
    ensures n > 0 ==> RequiredExport(c).Some?
  {
    match c
    case PrintStructCmd => 5
    case PrintTypeCmd => 5
    case UpdateDoubleArrCmd => 1
    case MathCmd(_) => 2
    case _ => 0
  }

  /** execPrintType on its five trimmed lines: four comma lists and a double that defaults to 0. */
  function PrintTypeArguments(lines: seq<string>, p: Oracles): (r: Option<Call>)
    requires |lines| == 5
    ensures r.Some? ==> r.value.PrintTypeCall? && r.value.strs == CommaList(lines[0])
    ensures r.Some? ==>
      |r.value.ints| == |CommaList(lines[1])| && |r.value.doubles| == |CommaList(lines[2])| && |r.value.longs| == |CommaList(lines[3])|
    ensures r.Some? && lines[4] == "" ==> r.value.value == 0.0
    ensures r.None? <==>
      ParseAll(CommaList(lines[1]), p.parseInt).None? || ParseAll(CommaList(lines[2]), p.parseDouble).None? ||
      ParseAll(CommaList(lines[3]), p.parseLong).None? || (lines[4] != "" && p.parseDouble(lines[4]).None?)
  {
    var ints := ParseAll(CommaList(lines[1]), p.parseInt);
    var doubles := ParseAll(CommaList(lines[2]), p.parseDouble);
    var longs := ParseAll(CommaList(lines[3]), p.parseLong);
    var value := if lines[4] == "" then Some(0.0) else p.parseDouble(lines[4]);
    if ints.None? || doubles.None? || longs.None? || value.None? then None
    else Some(PrintTypeCall(CommaList(lines[0]), ints.value, doubles.value, longs.value, value.value))
  }

  const DefaultPositionNm: string := "Default Position"
  const DefaultBsdt: string := "99991231"
  const DefaultTenor: int := 365

  /** execPrintStruct on its five trimmed lines: an empty line takes its field's default. */
  function PrintStructArguments(lines: seq<string>, p: Oracles): (r: Option<Call>)
    requires |lines| == 5
    ensures r.Some? ==> r.value.PrintStructCall? && r.value.bucket == CommaList(lines[1]) && r.value.bucketSize == |r.value.bucket|
    ensures r.Some? ==> (lines[0] == "" ==> r.value.positionNm == DefaultPositionNm) && (lines[0] != "" ==> r.value.positionNm == lines[0])
    ensures r.Some? ==> (lines[2] == "" ==> r.value.bsdt == DefaultBsdt) && (lines[2] != "" ==> r.value.bsdt == lines[2])
    ensures r.None? <==> (lines[3] != "" && p.parseInt(lines[3]).None?) || (lines[4] != "" && p.parseDouble(lines[4]).None?)
  {
    var tenor := if lines[3] == "" then Some(DefaultTenor) else p.parseInt(lines[3]);
    var value := if lines[4] == "" then Some(0.0) else p.parseDouble(lines[4]);
    if tenor.None? || value.None? then None
    else
      var bucket := CommaList(lines[1]);
      Some(PrintStructCall(if lines[0] == "" then DefaultPositionNm else lines[0], bucket, |bucket|,
        if lines[2] == "" then DefaultBsdt else lines[2], tenor.value, value.value))
  }

  /**
   * Five empty lines give the documented defaults: "Default Position", no bucket, "99991231",
   * 365 and 0. The struct the call then builds has a bucket count of 0, which is the one
   * count MyStruct's constructor refuses; with the count taken from the array itself every
   * non-empty bucket list is accepted.
   */
  lemma PrintStructDefaults(p: Oracles, bucket: seq<string>)
    ensures PrintStructArguments(["", "", "", "", ""], p) == Some(PrintStructCall(DefaultPositionNm, [], 0, DefaultBsdt, DefaultTenor, 0.0))
    ensures MyStructMapping.CreateError(0, 0) == Some(MyStructMapping.ZeroAllocation)
    ensures bucket != [] ==> MyStructMapping.CreateError(|bucket|, |bucket|).None?
  {
  }

  /** The symbol a call's command was checked against. */
  function CallGate(call: Call): string {
    match call
    case MathCall(_, _, _) => "Div"
    case PrintTypeCall(_, _, _, _, _) => "printType"
    case PrintStructCall(_, _, _, _, _, _) => "printStruct"
    case UpdateDoubleArrCall(_) => "updateDoubleArr"
    case FixedInputCall(c) => if RequiredExport(c).Some? then RequiredExport(c).value else ""
  }

  /** The handler of a command on the lines it reads (trimmed); None where parsing throws. */
  function Handle(c: Command, args: seq<string>, p: Oracles): (r: Option<Call>)
    requires |args| == ArgumentCount(c) && RequiredExport(c).Some?
    ensures r.Some? ==> CallGate(r.value) == RequiredExport(c).value
    ensures c.MathCmd? ==> (r.Some? <==> p.parseDouble(args[0]).Some? && p.parseDouble(args[1]).Some?)
    ensures c.MathCmd? && r.Some? ==>
      p.parseDouble(args[0]).Some? && p.parseDouble(args[1]).Some? &&
      r.value == MathCall(c.name, p.parseDouble(args[0]).value, p.parseDouble(args[1]).value)
    ensures c == UpdateDoubleArrCmd ==>
      (r.Some? <==> ParseAll(CommaList(args[0]), p.parseDouble).Some?) &&
      (r.Some? ==> r.value == UpdateDoubleArrCall(ParseAll(CommaList(args[0]), p.parseDouble).value))
    ensures ArgumentCount(c) == 0 ==> r == Some(FixedInputCall(c))
  {
    match c
    case MathCmd(name) =>
      var a := p.parseDouble(args[0]);
      var b := p.parseDouble(args[1]);
      if a.None? || b.None? then None else Some(MathCall(name, a.value, b.value))
    case PrintTypeCmd => PrintTypeArguments(args, p)
    case PrintStructCmd => PrintStructArguments(args, p)
    case UpdateDoubleArrCmd =>
      var values := ParseAll(CommaList(args[0]), p.parseDouble);
      if values.None? then None else Some(UpdateDoubleArrCall(values.value))
    case _ => Some(FixedInputCall(c))
  }

  // ---- the session ----

  /**
   * How the loop ends: "-exit", or an exception (no line left to read, a number that does
   * not parse, a MyStruct the printStruct handler cannot build, or a native call that fails).
   */
  datatype SessionEnd = Exited | Thrown

  function TrimAll(lines: seq<string>): (r: seq<string>)
    ensures |r| == |lines| && forall k :: 0 <= k < |lines| ==> r[k] == Trim(lines[k])
  {
    seq(|lines|, k requires 0 <= k < |lines| => Trim(lines[k]))
  }

  /** One pass of the loop: it stops, goes on at line `next` without a call, or makes a call and goes on. */
  datatype Step = Stop(end: SessionEnd) | Skip(next: nat) | Emit(call: Call, next: nat)

  /**
   * Whether making the call throws on the Java side before the native function runs:
   * callPrintStruct builds its MyStruct outside its try block, and the constructor refuses
   * the bucket count it is given (a count of 0 among them).
   */
  predicate CallThrows(call: Call) {
    call.PrintStructCall? && MyStructMapping.CreateError(|call.bucket|, call.bucketSize).Some?
  }

  /** The pass that starts at line `pos`: the command line and, for a native command, its argument lines. */
  function StepAt(v: RunnerVariant, execFileName: string, functions: seq<string>, input: seq<string>, p: Oracles,
                  pos: nat): (s: Step)
    requires pos <= |input|
    ensures s.Stop? && s.end == Exited <==> pos < |input| && Trim(input[pos]) == "-exit"
    ensures pos == |input| ==> s == Stop(Thrown)
    ensures !s.Stop? ==> pos < s.next <= |input|
    ensures s.Emit? ==> CallGate(s.call) in functions && p.callReturns(s.call)
  {
    if pos == |input| then Stop(Thrown)
    else StepFor(Route(v, Trim(input[pos]), functions, execFileName), input, p, pos)
  }

  /** The rest of a pass once the line at `pos` has been routed to command c. */
  function StepFor(c: Command, input: seq<string>, p: Oracles, pos: nat): (s: Step)
    requires pos < |input|
    ensures s.Stop? && s.end == Exited <==> c == Exit
    ensures !s.Stop? ==> pos < s.next <= |input|
    ensures s.Emit? ==> RequiredExport(c).Some? && CallGate(s.call) == RequiredExport(c).value
    ensures s.Emit? ==> !CallThrows(s.call) && p.callReturns(s.call)
    ensures s.Emit? && s.call.PrintStructCall? ==> s.call.bucket != []
  {
    if c == Exit then Stop(Exited)
    else if RequiredExport(c).None? then Skip(pos + 1)
    else
      var next := pos + 1 + ArgumentCount(c);
      if next > |input| then Stop(Thrown)
      else
        var call := Handle(c, TrimAll(input[pos + 1..next]), p);
        if call.None? || CallThrows(call.value) || !p.callReturns(call.value) then Stop(Thrown)
        else Emit(call.value, next)
  }

  /**
   * "-printStruct" followed by five blank lines ends the loop in an exception: the defaults
   * leave the bucket empty, and MyStruct's constructor refuses a bucket count of 0.
   */
  lemma EmptyBucketThrows(input: seq<string>, p: Oracles, pos: nat)
    requires pos + 5 < |input| && forall k :: pos < k <= pos + 5 ==> Trim(input[k]) == ""
    ensures StepFor(PrintStructCmd, input, p, pos) == Stop(Thrown)
  {
    BlankLinesTrimmed(input, pos, 5);
    BlankArgumentsThrow(input, p, pos);
  }

  lemma BlankLinesTrimmed(input: seq<string>, pos: nat, n: nat)
    requires pos + n < |input| && forall k :: pos < k <= pos + n ==> Trim(input[k]) == ""
    ensures TrimAll(input[pos + 1..pos + n + 1]) == seq(n, _ => "")
  {
  }

  lemma BlankArgumentsThrow(input: seq<string>, p: Oracles, pos: nat)
    requires pos + 5 < |input| && TrimAll(input[pos + 1..pos + 6]) == seq(5, _ => "")
    ensures StepFor(PrintStructCmd, input, p, pos) == Stop(Thrown)
  {
    var args := TrimAll(input[pos + 1..pos + 6]);
    assert args == ["", "", "", "", ""];
    PrintStructDefaults(p, []);
  }

  /** The calls the loop completes from line `pos` of the input on, and how it ends. */
  function SessionFrom(v: RunnerVariant, execFileName: string, functions: seq<string>, input: seq<string>, p: Oracles,
                       pos: nat): (r: (seq<Call>, SessionEnd))
    requires pos <= |input|
    decreases |input| - pos
  {
    match StepAt(v, execFileName, functions, input, p, pos)
    case Stop(end) => ([], end)
    case Skip(next) => SessionFrom(v, execFileName, functions, input, p, next)
    case Emit(call, next) =>
      var rest := SessionFrom(v, execFileName, functions, input, p, next);
      ([call] + rest.0, rest.1)
  }

  /**
   * Every call of a session was checked against the loader's list and returned, and no
   * line makes more than one call.
   */
  lemma {:induction false} SessionCallsAreListed(v: RunnerVariant, execFileName: string, functions: seq<string>,
                                                 input: seq<string>, p: Oracles, pos: nat)
    requires pos <= |input|
    ensures forall call :: call in SessionFrom(v, execFileName, functions, input, p, pos).0 ==>
      CallGate(call) in functions && p.callReturns(call)
    ensures |SessionFrom(v, execFileName, functions, input, p, pos).0| <= |input| - pos
    decreases |input| - pos
  {
    SessionStep(v, execFileName, functions, input, p, pos);
    match StepAt(v, execFileName, functions, input, p, pos)
    case Stop(_) =>
    case Skip(next) =>
      SessionCallsAreListed(v, execFileName, functions, input, p, next);
    case Emit(call, next) =>
      SessionCallsAreListed(v, execFileName, functions, input, p, next);
      var rest := SessionFrom(v, execFileName, functions, input, p, next).0;
      assert CallGate(call) in functions && p.callReturns(call);
      assert SessionFrom(v, execFileName, functions, input, p, pos).0 == [call] + rest;
  }

  /** Lines after "-exit" are never read, and a session without "-exit" ends in an exception. */
  lemma {:induction false} SessionExit(v: RunnerVariant, execFileName: string, functions: seq<string>,
                                       input: seq<string>, p: Oracles, pos: nat)
    requires pos <= |input|
    ensures pos < |input| && Trim(input[pos]) == "-exit" ==> SessionFrom(v, execFileName, functions, input, p, pos) == ([], Exited)
    ensures (forall k :: pos <= k < |input| ==> Trim(input[k]) != "-exit") ==>
      SessionFrom(v, execFileName, functions, input, p, pos).1 == Thrown
    decreases |input| - pos
  {
    SessionStep(v, execFileName, functions, input, p, pos);
    match StepAt(v, execFileName, functions, input, p, pos)
    case Stop(_) =>
    case Skip(next) =>
      SessionExit(v, execFileName, functions, input, p, next);
    case Emit(call, next) =>
      SessionExit(v, execFileName, functions, input, p, next);
  }

  /**
   * A native call that fails ends the loop where it stands: the line's command is listed,
   * its arguments parse, and the call* method rethrows, so the session makes no further
   * call and ends in an exception.
   */
  lemma FailedCallEndsSession(v: RunnerVariant, execFileName: string, functions: seq<string>, input: seq<string>,
                              p: Oracles, pos: nat)
    requires pos < |input|
    requires var c := Route(v, Trim(input[pos]), functions, execFileName);
      var next := pos + 1 + ArgumentCount(c);
      RequiredExport(c).Some? && next <= |input| &&
      var call := Handle(c, TrimAll(input[pos + 1..next]), p);
      call.Some? && !p.callReturns(call.value)
    ensures SessionFrom(v, execFileName, functions, input, p, pos) == ([], Thrown)
  {
    SessionStep(v, execFileName, functions, input, p, pos);
  }

  /** One pass of the session, unfolded: a stop ends it, a skip goes on, a call is followed by the rest. */
  lemma SessionStep(v: RunnerVariant, execFileName: string, functions: seq<string>, input: seq<string>, p: Oracles, pos: nat)
    requires pos <= |input|
    ensures pos < |input| ==>
      StepAt(v, execFileName, functions, input, p, pos) == StepFor(Route(v, Trim(input[pos]), functions, execFileName), input, p, pos)
    ensures match StepAt(v, execFileName, functions, input, p, pos)
      case Stop(e) => SessionFrom(v, execFileName, functions, input, p, pos) == ([], e)
      case Skip(next) => SessionFrom(v, execFileName, functions, input, p, pos) == SessionFrom(v, execFileName, functions, input, p, next)
      case Emit(call, next) =>
        SessionFrom(v, execFileName, functions, input, p, pos).0 == [call] + SessionFrom(v, execFileName, functions, input, p, next).0 &&
        SessionFrom(v, execFileName, functions, input, p, pos).1 == SessionFrom(v, execFileName, functions, input, p, next).1
  {
  }

  /** The command loop over the loader's list: the calls it makes and how it ends. */
  method RunCommands(v: RunnerVariant, execFileName: string, loader: NativeLibraryLoader, input: seq<string>, p: Oracles)
    returns (calls: seq<Call>, end: SessionEnd)
    ensures (calls, end) == SessionFrom(v, execFileName, loader.functions, input, p, 0)
  {
    var functions := loader.functions;
    ghost var whole := SessionFrom(v, execFileName, functions, input, p, 0);
    calls := [];
    var pos := 0;
    assert calls + whole.0 == whole.0;
    while true
      invariant 0 <= pos <= |input|
      invariant whole.0 == calls + SessionFrom(v, execFileName, functions, input, p, pos).0
      invariant whole.1 == SessionFrom(v, execFileName, functions, input, p, pos).1
      decreases |input| - pos
    {
      SessionStep(v, execFileName, functions, input, p, pos);
      if pos == |input| {
        assert calls + [] == calls;
        return calls, Thrown;
      }
      var command := Route(v, Trim(input[pos]), functions, execFileName);
      var step := StepFor(command, input, p, pos);
      match step
      case Stop(e) =>
        assert calls + [] == calls;
        return calls, e;
      case Skip(next) =>
        pos := next;
      case Emit(call, next) =>
        ghost var rest := SessionFrom(v, execFileName, functions, input, p, next).0;
        AppendAssociative(calls, [call], rest);
        calls := calls + [call];
        pos := next;
    }
  }

  /** How runNativeLibrary ends. */
  datatype RunOutcome =
    | MissingConfig
    | UnsupportedPlatform
    | LoadFailed(message: string)
    | Ran(path: string, calls: seq<Call>, end: SessionEnd)

  /** The configuration: the library directory and file name, either of which may be missing. */
  datatype Config = Config(execFileDir: Option<string>, execFileName: string)

  /**
   * runNativeLibrary: resolve the file and path, open the loader (whose constructor runs the
   * export-listing tool), then run the command loop on the loader's list.
   */
  method RunNativeLibrary(v: RunnerVariant, config: Option<Config>, platform: Platform, userDir: string, separator: string,
                          tool: ProcessSpec -> ToolRun, input: seq<string>, p: Oracles)
    returns (outcome: RunOutcome)
    ensures config.None? ==> outcome == MissingConfig
    ensures config.Some? && platform == OtherPlatform ==> outcome == UnsupportedPlatform
    ensures config.Some? && platform != OtherPlatform ==>
      var path := LibraryPath(v, config.value.execFileDir, userDir, separator, LibraryFileName(config.value.execFileName, platform).value);
      var built := Construction(LoaderOf(v), platform, path, tool);
      (built.Failure? ==> outcome == LoadFailed(built.error)) &&
      (built.Success? ==>
        var session := SessionFrom(v, config.value.execFileName, built.value, input, p, 0);
        outcome == Ran(path, session.0, session.1))
  {
    if config.None? {
      return MissingConfig;
    }
    var fileName := LibraryFileName(config.value.execFileName, platform);
    if fileName.None? {
      return UnsupportedPlatform;
    }
    var path := LibraryPath(v, config.value.execFileDir, userDir, separator, fileName.value);
    var loader := Open(path, LoaderOf(v), platform, tool);
    if loader.Failure? {
      return LoadFailed(loader.error);
    }
    var calls, end := RunCommands(v, config.value.execFileName, loader.value, input, p);
    return Ran(path, calls, end);
  }
}
