/**
 * NativeLibraryLoader: on construction it runs the platform's symbol-listing tool
 * on the library and keeps, in order, the names ExportParser accepts.
 *
 * Starting the process and reading its output become an oracle `tool` from the
 * process description to the lines it prints (and the exception it throws, if any).
 * The two copies of the class differ only in the Windows command line.
 */
module NativeLoader {
  import opened Wrappers
  import opened ExportParser
  import opened Text

  datatype Platform = Windows | Linux | OtherPlatform

  /** The two copies of the loader: the one next to the JNAexec runner and the earlier one next to the exec runner. */
  datatype Variant = JnaExecLoader | ExecLoader

  /** A process to start: its argument vector and whether stderr is merged into the stream that is read. */
  datatype ProcessSpec = ProcessSpec(argv: seq<string>, mergeStderr: bool)

  /** A Java exception as far as the loader looks at it: getMessage(), which may be null. */
  datatype JavaException = JavaException(message: Option<string>)

  /** The lines readLine() returned before the end of the stream, and the exception that ended reading early, if one did. */
  datatype ToolRun = ToolRun(lines: seq<string>, thrown: Option<JavaException>)

  const LoadFailurePrefix: string := "Failed to load functions from native library: "

  /** The process each variant starts on each platform; None where loadFunctionList returns at once. */
  function ExportCommand(variant: Variant, platform: Platform, path: string): (r: Option<ProcessSpec>)
    ensures r.None? <==> platform == OtherPlatform
    ensures platform == Linux ==> r == Some(ProcessSpec(["nm", "-D", path], false))
    ensures platform == Windows ==>
      r.Some? && |r.value.argv| >= 3 && r.value.argv[0] == "cmd.exe" &&
      r.value.argv[|r.value.argv| - 1] == "dumpbin /EXPORTS \"" + path + "\"" &&
      (r.value.mergeStderr <==> variant == JnaExecLoader)
  {
    match platform
    case Windows =>
      var dumpbin := "dumpbin /EXPORTS \"" + path + "\"";
      if variant == JnaExecLoader then Some(ProcessSpec(["cmd.exe", "/c", dumpbin], true))
      else Some(ProcessSpec(["cmd.exe", "/s", "/c", dumpbin], false))
    case Linux => Some(ProcessSpec(["nm", "-D", path], false))
    case OtherPlatform => None
  }

  /** The RuntimeException message: the prefix followed by the cause's message, printed as "null" when absent. */
  function LoadFailureMessage(e: JavaException): (msg: string)
    ensures |msg| >= |LoadFailurePrefix| && msg[..|LoadFailurePrefix|] == LoadFailurePrefix
    ensures e.message.Some? ==> msg[|LoadFailurePrefix|..] == e.message.value
  {
    LoadFailurePrefix + match e.message { case None => "null" case Some(m) => m }
  }

  /** Two causes with different messages give different failure messages. */
  lemma LoadFailureMessageInjective(e1: JavaException, e2: JavaException)
    requires e1.message.Some? && e2.message.Some? && LoadFailureMessage(e1) == LoadFailureMessage(e2)
    ensures e1 == e2
  {
    assert LoadFailureMessage(e1)[|LoadFailurePrefix|..] == LoadFailureMessage(e2)[|LoadFailurePrefix|..];
  }

  /** What the constructor leaves behind: the symbol list, or the message of the exception it throws. */
  function Construction(variant: Variant, platform: Platform, path: string, tool: ProcessSpec -> ToolRun): Result<seq<string>, string>
  {
    match ExportCommand(variant, platform, path)
    case None => Success([])
    case Some(spec) =>
      var run := tool(spec);
      match run.thrown
      case Some(e) => Failure(LoadFailureMessage(e))
      case None => Success(ParseExports(run.lines))
  }

  /** On an unsupported platform the list is empty and nothing is thrown. */
  lemma UnsupportedPlatformEmpty(variant: Variant, path: string, tool: ProcessSpec -> ToolRun)
    ensures Construction(variant, OtherPlatform, path, tool) == Success([])
  {
  }

  /** A successful construction lists at most one name per output line, none of them empty. */
  lemma ConstructionListShape(variant: Variant, platform: Platform, path: string, tool: ProcessSpec -> ToolRun)
    requires Construction(variant, platform, path, tool).Success?
    ensures platform != OtherPlatform ==>
      |Construction(variant, platform, path, tool).value| <= |tool(ExportCommand(variant, platform, path).value).lines|
    ensures forall n :: n in Construction(variant, platform, path, tool).value ==> |n| >= 1
  {
    match ExportCommand(variant, platform, path)
    case None =>
    case Some(spec) =>
      var lines := tool(spec).lines;
      ParseExportsLength(lines);
      forall n | n in ParseExports(lines) ensures |n| >= 1 {
        ParseExportsNonEmpty(lines, n);
      }
  }

  /** Both variants list the same names whenever their tools print the same lines. */
  lemma VariantsAgreeOnSameOutput(platform: Platform, path: string, tool: ProcessSpec -> ToolRun)
    requires platform != OtherPlatform
    requires tool(ExportCommand(JnaExecLoader, platform, path).value) == tool(ExportCommand(ExecLoader, platform, path).value)
    ensures Construction(JnaExecLoader, platform, path, tool) == Construction(ExecLoader, platform, path, tool)
  {
  }

  /** One more line of output extends the list by that line's name, if any. */
  lemma ExportsGrow(start: seq<string>, lines: seq<string>, i: nat, before: seq<string>, after: seq<string>)
    requires i < |lines|
    requires before == start + ParseExports(lines[..i])
    requires after == before + OptionToSeq(LineName(lines[i]))
    ensures after == start + ParseExports(lines[..i + 1])
  {
    ParseExportsStep(lines, i);
    AppendAssociative(start, ParseExports(lines[..i]), OptionToSeq(LineName(lines[i])));
  }

  class NativeLibraryLoader {
    const libraryPath: string
    var functions: seq<string>

    /** The first half of the Java constructor: the path is stored and the list starts empty. */
    constructor Empty(libraryPath: string)
      ensures this.libraryPath == libraryPath && functions == []
    {
      this.libraryPath := libraryPath;
      functions := [];
    }

    /** loadFunctionList: reads the tool's output line by line, appending each accepted name. */
    method LoadFunctionList(variant: Variant, platform: Platform, tool: ProcessSpec -> ToolRun)
      returns (thrown: Option<JavaException>)
      modifies this
      ensures ExportCommand(variant, platform, libraryPath).None? ==> functions == old(functions) && thrown.None?
      ensures ExportCommand(variant, platform, libraryPath).Some? ==>
        (var run := tool(ExportCommand(variant, platform, libraryPath).value);
         functions == old(functions) + ParseExports(run.lines) && thrown == run.thrown)
    {
      var spec := ExportCommand(variant, platform, libraryPath);
      if spec.None? {
        return None;
      }
      var run := tool(spec.value);
      var lines := run.lines;
      ghost var start := functions;
      var i := 0;
      while i < |lines|
        invariant 0 <= i <= |lines|
        invariant functions == start + ParseExports(lines[..i])
      {
        ghost var before := functions;
        AppendLineName(lines[i]);
        ExportsGrow(start, lines, i, before, functions);
        i := i + 1;
      }
      assert lines[..i] == lines;
      thrown := run.thrown;
    }

    /** One line of the tool's output: an ILT or ordinal name unless refused, otherwise an nm name. */
    method AppendLineName(line: string)
      modifies this
      ensures functions == old(functions) + OptionToSeq(LineName(line))
    {
      LineNameRules(line);
      var ilt := IltName(line);
      var ordinal := OrdinalName(line);
      if ilt.Some? {
        if !Refused(ilt.value) {
          functions := functions + [ilt.value];
        }
      } else if ordinal.Some? {
        if !Refused(ordinal.value) {
          functions := functions + [ordinal.value];
        }
      } else {
        var nm := NmName(line);
        if nm.Some? {
          functions := functions + [nm.value];
        }
      }
    }
  }

  /**
   * `new NativeLibraryLoader(path)`: either a loader whose list holds exactly the names
   * of the tool's output, or the RuntimeException the constructor throws.
   */
  method Open(path: string, variant: Variant, platform: Platform, tool: ProcessSpec -> ToolRun)
    returns (r: Result<NativeLibraryLoader, string>)
    ensures r.Success? <==> Construction(variant, platform, path, tool).Success?
    ensures r.Success? ==>
      fresh(r.value) && r.value.libraryPath == path &&
      r.value.functions == Construction(variant, platform, path, tool).value
    ensures r.Failure? ==> r.error == Construction(variant, platform, path, tool).error
  {
    var loader := new NativeLibraryLoader.Empty(path);
    var thrown := loader.LoadFunctionList(variant, platform, tool);
    if thrown.Some? {
      return Failure(LoadFailureMessage(thrown.value));
    }
    return Success(loader);
  }
}
