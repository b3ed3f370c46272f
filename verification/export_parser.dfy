/**
 * The per-line classifier of NativeLibraryLoader.loadFunctionList: one line of
 * `dumpbin /EXPORTS` or `nm -D` output yields at most one exported symbol name.
 *
 * The two Java regular expressions are written as scanners over the characters
 * and each is proved equal to a declarative description of the strings it matches
 * (Matcher.matches(), i.e. the whole line must match).
 */
module ExportParser {
  import opened Wrappers
  import opened Text

  // ---- runs of one character class ----

  /** The end of the maximal run of characters satisfying p that starts at i. */
  function RunEnd(s: string, i: nat, p: char -> bool): (j: nat)
    requires i <= |s|
    ensures i <= j <= |s|
    ensures forall k :: i <= k < j ==> p(s[k])
    ensures j == |s| || !p(s[j])
    decreases |s| - i
  {
    if i < |s| && p(s[i]) then RunEnd(s, i + 1, p) else i
  }

  /** Any run that is closed by a non-member (or the end) is the run RunEnd finds. */
  lemma RunEndIs(s: string, i: nat, j: nat, p: char -> bool)
    requires i <= j <= |s|
    requires forall k :: i <= k < j ==> p(s[k])
    requires j == |s| || !p(s[j])
    ensures RunEnd(s, i, p) == j
  {
  }

  // ---- pattern 1: .*\((\w+)\).* ----

  /** "(" word ")" occurs with its parenthesis at p and the word at s[p+1..q]. */
  predicate ParenWordAt(s: string, p: nat, q: nat) {
    p + 1 < q < |s| && s[p] == '(' && s[q] == ')' && forall k :: p < k < q ==> IsWordChar(s[k])
  }

  /** Where the word after an opening parenthesis at p is closed, if it is. */
  function ParenWordClose(s: string, p: nat): (r: Option<nat>)
    requires p < |s|
    ensures r.Some? <==> exists q :: ParenWordAt(s, p, q)
    ensures r.Some? ==> ParenWordAt(s, p, r.value)
  {
    if s[p] != '(' then
      None
    else
      var q := RunEnd(s, p + 1, IsWordChar);
      if q > p + 1 && q < |s| && s[q] == ')' then
        assert ParenWordAt(s, p, q);
        Some(q)
      else
        assert forall q' :: !ParenWordAt(s, p, q') by {
          forall q' | ParenWordAt(s, p, q') ensures false {
            RunEndIs(s, p + 1, q', IsWordChar);
          }
        }
        None
  }

  /** The largest p < end at which a parenthesised word starts, with its closing index. */
  function LastParenWord(s: string, end: nat): (r: Option<(nat, nat)>)
    requires end <= |s|
    ensures r.Some? ==> r.value.0 < end && ParenWordAt(s, r.value.0, r.value.1)
    ensures r.Some? ==> forall p': nat, q': nat :: r.value.0 < p' < end ==> !ParenWordAt(s, p', q')
    ensures r.None? ==> forall p': nat, q': nat :: p' < end ==> !ParenWordAt(s, p', q')
    decreases end
  {
    if end == 0 then
      None
    else
      var p: nat := end - 1;
      match ParenWordClose(s, p)
      case Some(q) => Some((p, q))
      case None => LastParenWord(s, p)
  }

  predicate NoLineTerminator(s: string) {
    forall k :: 0 <= k < |s| ==> !IsLineTerminator(s[k])
  }

  /**
   * The language of `.*\((\w+)\).*` and its capture: `.` matches anything but a
   * line terminator, and the greedy leading `.*` leaves the capture at the last
   * parenthesised word of the line.
   */
  ghost predicate IltCaptures(s: string, name: string) {
    NoLineTerminator(s) &&
    exists p: nat, q: nat :: ParenWordAt(s, p, q) && name == s[p + 1..q] &&
      forall p': nat, q': nat :: p < p' ==> !ParenWordAt(s, p', q')
  }

  /** The captured group of pattern 1, or None when the whole line does not match. */
  function IltName(s: string): (r: Option<string>)
    ensures r.Some? ==> |r.value| >= 1 && AllChars(r.value, IsWordChar)
  {
    if !NoLineTerminator(s) then None
    else
      match LastParenWord(s, |s|)
      case None => None
      case Some((p, q)) => Some(s[p + 1..q])
  }

  /** The scanner is exactly the regular expression: it finds a name iff the line matches, and the name is the capture. */
  lemma IltNameMeaning(s: string, name: string)
    ensures IltName(s) == Some(name) <==> IltCaptures(s, name)
  {
    if IltCaptures(s, name) {
      var p: nat, q: nat :| ParenWordAt(s, p, q) && name == s[p + 1..q] &&
        forall p': nat, q': nat :: p < p' ==> !ParenWordAt(s, p', q');
      var r := LastParenWord(s, |s|);
      assert r.Some?;
      assert r.value.0 == p;
      ParenWordClosingUnique(s, p, q, r.value.1);
    }
  }

  lemma ParenWordClosingUnique(s: string, p: nat, q: nat, q': nat)
    requires ParenWordAt(s, p, q) && ParenWordAt(s, p, q')
    ensures q == q'
  {
    RunEndIs(s, p + 1, q, IsWordChar);
    RunEndIs(s, p + 1, q', IsWordChar);
  }

  predicate NoOpenParen(s: string) {
    forall k :: 0 <= k < |s| ==> s[k] != '('
  }

  /** The dumpbin debug-build row "... = @ILT+n(name)" yields the name inside the last parentheses. */
  lemma IltRowRoundTrip(prefix: string, name: string, suffix: string)
    requires NoLineTerminator(prefix) && NoLineTerminator(suffix)
    requires |name| >= 1 && AllChars(name, IsWordChar)
    requires NoOpenParen(suffix)
    ensures IltName(prefix + "(" + name + ")" + suffix) == Some(name)
  {
    var s := prefix + "(" + name + ")" + suffix;
    var p := |prefix|;
    var q := |prefix| + 1 + |name|;
    assert s[p + 1..q] == name;
    assert ParenWordAt(s, p, q);
    forall p', q' | p < p' ensures !ParenWordAt(s, p', q') {
      if p' < q {
        assert IsWordChar(s[p']);
      } else if p' < |s| {
        if p' > q {
          assert s[p'] == suffix[p' - q - 1];
        }
      }
    }
    assert NoLineTerminator(s) by {
      forall k | 0 <= k < |s| ensures !IsLineTerminator(s[k]) {
        if k < p {
          assert s[k] == prefix[k];
        } else if p < k < q {
          assert s[k] == name[k - p - 1];
        } else if k > q {
          assert s[k] == suffix[k - q - 1];
        }
      }
    }
    IltNameMeaning(s, name);
  }

  /** A line without an opening parenthesis never matches pattern 1. */
  lemma NoParenNoIlt(s: string)
    requires NoOpenParen(s)
    ensures IltName(s) == None
  {
    if IltName(s).Some? {
      IltNameMeaning(s, IltName(s).value);
    }
  }

  // ---- pattern 2: ^\s*\d+\s+\d+\s+[0-9A-Fa-f]+\s+(\w+)$ ----

  /** The seven columns of a dumpbin export row: indentation, ordinal, gap, hint, gap, RVA, gap and the name. */
  datatype OrdinalRow = OrdinalRow(
    indent: string, ordinal: string, gap1: string, hint: string,
    gap2: string, rva: string, gap3: string, name: string)

  function RowText(r: OrdinalRow): string {
    r.indent + (r.ordinal + (r.gap1 + (r.hint + (r.gap2 + (r.rva + (r.gap3 + r.name))))))
  }

  predicate NonEmptyOf(s: string, p: char -> bool) { |s| >= 1 && AllChars(s, p) }

  /** The rows the regular expression describes, column by column. */
  predicate WellFormedRow(r: OrdinalRow) {
    AllChars(r.indent, IsJavaSpace) && NonEmptyOf(r.ordinal, IsDigit) && NonEmptyOf(r.gap1, IsJavaSpace) &&
    NonEmptyOf(r.hint, IsDigit) && NonEmptyOf(r.gap2, IsJavaSpace) && NonEmptyOf(r.rva, IsHexDigit) &&
    NonEmptyOf(r.gap3, IsJavaSpace) && NonEmptyOf(r.name, IsWordChar)
  }

  /** Splits off the longest prefix of characters satisfying p. */
  function Munch(s: string, p: char -> bool): (r: (string, string))
    ensures r.0 + r.1 == s
    ensures AllChars(r.0, p)
    ensures r.1 == [] || !p(r.1[0])
    decreases |s|
  {
    if |s| > 0 && p(s[0]) then
      var (a, b) := Munch(s[1..], p);
      assert [s[0]] + a + b == s;
      ([s[0]] + a, b)
    else
      ([], s)
  }

  /** A run that is followed by a non-member (or nothing) is exactly what Munch splits off. */
  lemma {:induction false} MunchIs(x: string, rest: string, p: char -> bool)
    requires AllChars(x, p)
    requires rest == [] || !p(rest[0])
    ensures Munch(x + rest, p) == (x, rest)
    decreases |x|
  {
    if |x| > 0 {
      assert (x + rest)[0] == x[0];
      assert (x + rest)[1..] == x[1..] + rest;
      MunchIs(x[1..], rest, p);
      assert [x[0]] + x[1..] == x;
    } else {
      assert x + rest == rest;
    }
  }

  /**
   * Pattern 2 by maximal munch, column by column. Each class is disjoint from the
   * class of the next column, so the munch is the only way to split the line.
   */
  function OrdinalSplit(s: string): (r: Option<OrdinalRow>)
    ensures r.Some? ==> WellFormedRow(r.value) && RowText(r.value) == s
  {
    var indent := Munch(s, IsJavaSpace);
    var ordinal := Munch(indent.1, IsDigit);
    var gap1 := Munch(ordinal.1, IsJavaSpace);
    var hint := Munch(gap1.1, IsDigit);
    var gap2 := Munch(hint.1, IsJavaSpace);
    var rva := Munch(gap2.1, IsHexDigit);
    var gap3 := Munch(rva.1, IsJavaSpace);
    var name := Munch(gap3.1, IsWordChar);
    if |ordinal.0| > 0 && |gap1.0| > 0 && |hint.0| > 0 && |gap2.0| > 0 && |rva.0| > 0 && |gap3.0| > 0 && |name.0| > 0
       && name.1 == [] then
      var row := OrdinalRow(indent.0, ordinal.0, gap1.0, hint.0, gap2.0, rva.0, gap3.0, name.0);
      assert name.0 == gap3.1 by { assert name.0 + [] == name.0; }
      Some(row)
    else
      None
  }

  /** The name column of pattern 2, or None when the whole line does not match. */
  function OrdinalName(s: string): Option<string>
  {
    match OrdinalSplit(s)
    case None => None
    case Some(row) => Some(row.name)
  }

  /** Conversely, every line pattern 2 accepts is a well-formed row, and the capture is its name column. */
  lemma OrdinalNameSound(s: string)
    requires OrdinalName(s).Some?
    ensures exists row :: WellFormedRow(row) && RowText(row) == s && row.name == OrdinalName(s).value
  {
    var row := OrdinalSplit(s).value;
    assert WellFormedRow(row) && RowText(row) == s;
  }

  /** Every well-formed row is matched, and its name column is the capture: pattern 2 accepts exactly the rows. */
  lemma OrdinalRowRoundTrip(r: OrdinalRow)
    requires WellFormedRow(r)
    ensures OrdinalName(RowText(r)) == Some(r.name)
  {
    var t7 := r.gap3 + r.name;
    var t6 := r.rva + t7;
    var t5 := r.gap2 + t6;
    var t4 := r.hint + t5;
    var t3 := r.gap1 + t4;
    var t2 := r.ordinal + t3;
    MunchIs(r.name, [], IsWordChar);
    assert r.name + [] == r.name;
    SpaceIsNoColumn(r.gap3[0]);
    SpaceIsNoColumn(r.gap2[0]);
    SpaceIsNoColumn(r.gap1[0]);
    ColumnIsNoSpace(r.name[0]);
    ColumnIsNoSpace(r.rva[0]);
    ColumnIsNoSpace(r.hint[0]);
    ColumnIsNoSpace(r.ordinal[0]);
    MunchColumn(r.gap3, r.name, [], IsJavaSpace);
    MunchColumn(r.rva, r.gap3, r.name, IsHexDigit);
    MunchColumn(r.gap2, r.rva, t7, IsJavaSpace);
    MunchColumn(r.hint, r.gap2, t6, IsDigit);
    MunchColumn(r.gap1, r.hint, t5, IsJavaSpace);
    MunchColumn(r.ordinal, r.gap1, t4, IsDigit);
    MunchColumn(r.indent, r.ordinal, t3, IsJavaSpace);
  }

  /** No \s character is a digit or a hex digit, so a gap ends the column before it. */
  lemma SpaceIsNoColumn(c: char)
    requires IsJavaSpace(c)
    ensures !IsDigit(c) && !IsHexDigit(c)
  {
  }

  /** No digit, hex digit or word character is \s, so a column ends the gap before it. */
  lemma ColumnIsNoSpace(c: char)
    requires IsDigit(c) || IsHexDigit(c) || IsWordChar(c)
    ensures !IsJavaSpace(c)
  {
  }

  /** A column of p characters is munched whole when the next column starts with a character outside p. */
  lemma MunchColumn(x: string, next: string, tail: string, p: char -> bool)
    requires AllChars(x, p) && |next| >= 1 && !p(next[0])
    ensures Munch(x + (next + tail), p) == (x, next + tail)
  {
    assert (next + tail)[0] == next[0];
    MunchIs(x, next + tail, p);
  }

  // ---- rule 3: nm -D "address T name" ----

  /** Where the last piece of `t.split("\\s+")` starts: just after the last \s character, or 0. */
  function LastTokenStart(t: string): (k: nat)
    ensures k <= |t|
    ensures k == 0 || IsJavaSpace(t[k - 1])
    ensures forall i :: k <= i < |t| ==> !IsJavaSpace(t[i])
    decreases |t|
  {
    if |t| == 0 then 0
    else if IsJavaSpace(t[|t| - 1]) then |t|
    else LastTokenStart(t[..|t| - 1])
  }

  /** The last column of an nm line: the last whitespace-separated piece of the trimmed line. */
  function LastToken(line: string): (tok: string)
    ensures forall i :: 0 <= i < |tok| ==> !IsJavaSpace(tok[i])
    ensures Trim(line) != [] ==> |tok| >= 1
  {
    var t := Trim(line);
    t[LastTokenStart(t)..]
  }

  /** The rule applied when neither pattern matches: a " T " line contributes its last column unless it starts with '_'. */
  function NmName(line: string): (r: Option<string>)
    ensures r.Some? ==> Contains(line, " T ") && r.value == LastToken(line) && !StartsWith(r.value, "_")
    ensures Contains(line, " T ") && !StartsWith(LastToken(line), "_") ==> r.Some?
  {
    if Contains(line, " T ") && !StartsWith(LastToken(line), "_") then Some(LastToken(line)) else None
  }

  /** Names that the two dumpbin rules refuse. */
  predicate Refused(name: string) { name == "R" || name == "C" }

  /** The symbol one output line contributes, if any: pattern 1 first, pattern 2 next, the nm rule last. */
  function LineName(line: string): Option<string>
  {
    match IltName(line)
    case Some(n) => if Refused(n) then None else Some(n)
    case None =>
      match OrdinalName(line)
      case Some(n) => if Refused(n) then None else Some(n)
      case None => NmName(line)
  }

  /** The order of the rules: pattern 1 wins over pattern 2, which wins over the nm rule; only the dumpbin rules refuse "R" and "C". */
  lemma LineNameRules(line: string)
    ensures IltName(line).Some? ==>
      LineName(line) == (if Refused(IltName(line).value) then None else IltName(line))
    ensures IltName(line).None? && OrdinalName(line).Some? ==>
      LineName(line) == (if Refused(OrdinalName(line).value) then None else OrdinalName(line))
    ensures IltName(line).None? && OrdinalName(line).None? ==> LineName(line) == NmName(line)
  {
  }

  function OptionToSeq(o: Option<string>): (r: seq<string>)
    ensures |r| <= 1
  {
    match o
    case None => []
    case Some(x) => [x]
  }

  /** What a line-by-line reader collects when each line contributes f(line), if anything. */
  function Collect(lines: seq<string>, f: string -> Option<string>): seq<string>
    decreases |lines|
  {
    if |lines| == 0 then [] else Collect(lines[..|lines| - 1], f) + OptionToSeq(f(lines[|lines| - 1]))
  }

  /** The whole list: each line's contribution, in line order. */
  function ParseExports(lines: seq<string>): seq<string>
  {
    Collect(lines, LineName)
  }

  lemma {:induction false} CollectLength(lines: seq<string>, f: string -> Option<string>)
    ensures |Collect(lines, f)| <= |lines|
    decreases |lines|
  {
    if |lines| > 0 {
      CollectLength(lines[..|lines| - 1], f);
    }
  }

  lemma {:induction false} CollectAppend(a: seq<string>, b: seq<string>, f: string -> Option<string>)
    ensures Collect(a + b, f) == Collect(a, f) + Collect(b, f)
    decreases |b|
  {
    if |b| == 0 {
      assert a + b == a;
    } else {
      var b' := b[..|b| - 1];
      assert (a + b)[..|a + b| - 1] == a + b';
      CollectAppend(a, b', f);
    }
  }

  lemma {:induction false} CollectMembers(lines: seq<string>, f: string -> Option<string>, name: string)
    ensures name in Collect(lines, f) <==> exists i :: 0 <= i < |lines| && f(lines[i]) == Some(name)
    decreases |lines|
  {
    if |lines| > 0 {
      var init := lines[..|lines| - 1];
      var last := f(lines[|lines| - 1]);
      CollectMembers(init, f, name);
      if name in Collect(lines, f) {
        if name in Collect(init, f) {
          var i :| 0 <= i < |init| && f(init[i]) == Some(name);
          assert lines[i] == init[i];
        } else {
          assert last == Some(name);
        }
      }
      if exists i :: 0 <= i < |lines| && f(lines[i]) == Some(name) {
        var i :| 0 <= i < |lines| && f(lines[i]) == Some(name);
        if i < |init| {
          assert init[i] == lines[i];
        } else {
          assert name in OptionToSeq(last);
        }
      }
    }
  }

  lemma {:induction false} CollectNone(lines: seq<string>, f: string -> Option<string>)
    requires forall i :: 0 <= i < |lines| ==> f(lines[i]).None?
    ensures Collect(lines, f) == []
    decreases |lines|
  {
    if |lines| > 0 {
      CollectNone(lines[..|lines| - 1], f);
    }
  }

  /** Each line contributes at most one name. */
  lemma ParseExportsLength(lines: seq<string>)
    ensures |ParseExports(lines)| <= |lines|
  {
    CollectLength(lines, LineName);
  }

  /** Reading two chunks of output one after the other gives the names of the first, then those of the second. */
  lemma ParseExportsAppend(a: seq<string>, b: seq<string>)
    ensures ParseExports(a + b) == ParseExports(a) + ParseExports(b)
  {
    CollectAppend(a, b, LineName);
  }

  /** Reading one more line adds that line's contribution at the end. */
  lemma ParseExportsStep(lines: seq<string>, i: nat)
    requires i < |lines|
    ensures ParseExports(lines[..i + 1]) == ParseExports(lines[..i]) + OptionToSeq(LineName(lines[i]))
  {
    assert lines[..i + 1][..i] == lines[..i];
  }

  /** A name is listed iff some line yields it (so duplicates are kept, one per line). */
  lemma ParseExportsMembers(lines: seq<string>, name: string)
    ensures name in ParseExports(lines) <==> exists i :: 0 <= i < |lines| && LineName(lines[i]) == Some(name)
  {
    CollectMembers(lines, LineName, name);
  }

  /** Output without a single matching line yields an empty list, not an error. */
  lemma ParseExportsNone(lines: seq<string>)
    requires forall i :: 0 <= i < |lines| ==> LineName(lines[i]).None?
    ensures ParseExports(lines) == []
  {
    CollectNone(lines, LineName);
  }

  /** An nm line always has a last column: the " T " marker keeps the trimmed line non-empty. */
  lemma NmNameNonEmpty(line: string)
    ensures NmName(line).Some? ==> |NmName(line).value| >= 1
  {
    if NmName(line).Some? {
      var i: nat :| i <= |line| && OccursAt(line, " T ", i);
      assert line[i + 1] == 'T';
      TrimKeepsPrintable(line, i + 1);
    }
  }

  /** A line never yields the empty name. */
  lemma LineNameNonEmpty(line: string)
    ensures LineName(line).Some? ==> |LineName(line).value| >= 1
  {
    if IltName(line).None? {
      var row := OrdinalSplit(line);
      if row.Some? {
        assert NonEmptyOf(row.value.name, IsWordChar);
      } else {
        NmNameNonEmpty(line);
      }
    }
  }

  /** Every listed name is non-empty. The dumpbin rules never list "R" or "C"; the nm rule does not filter them. */
  lemma ParseExportsNonEmpty(lines: seq<string>, name: string)
    requires name in ParseExports(lines)
    ensures |name| >= 1
  {
    ParseExportsMembers(lines, name);
    var i :| 0 <= i < |lines| && LineName(lines[i]) == Some(name);
    LineNameNonEmpty(lines[i]);
  }

  // ---- whole rows of tool output ----

  predicate IsPrintable(c: char) { !IsTrimmable(c) }

  lemma NoOpenParenAppend(a: string, b: string)
    requires NoOpenParen(a) && NoOpenParen(b)
    ensures NoOpenParen(a + b)
  {
    forall k | 0 <= k < |a + b| ensures (a + b)[k] != '(' {
      if k >= |a| {
        assert (a + b)[k] == b[k - |a|];
      }
    }
  }

  /** A dumpbin release-build row "ordinal hint RVA name" lists its name unless that name is "R" or "C". */
  lemma OrdinalRowLine(r: OrdinalRow)
    requires WellFormedRow(r)
    ensures LineName(RowText(r)) == if Refused(r.name) then None else Some(r.name)
  {
    NoOpenParenAppend(r.gap3, r.name);
    NoOpenParenAppend(r.rva, r.gap3 + r.name);
    NoOpenParenAppend(r.gap2, r.rva + (r.gap3 + r.name));
    NoOpenParenAppend(r.hint, r.gap2 + (r.rva + (r.gap3 + r.name)));
    NoOpenParenAppend(r.gap1, r.hint + (r.gap2 + (r.rva + (r.gap3 + r.name))));
    NoOpenParenAppend(r.ordinal, r.gap1 + (r.hint + (r.gap2 + (r.rva + (r.gap3 + r.name)))));
    NoOpenParenAppend(r.indent, r.ordinal + (r.gap1 + (r.hint + (r.gap2 + (r.rva + (r.gap3 + r.name))))));
    NoParenNoIlt(RowText(r));
    OrdinalRowRoundTrip(r);
  }

  /** The start of the last column is the position just after the last \s character. */
  lemma {:induction false} LastTokenStartIs(t: string, k: nat)
    requires k <= |t|
    requires k == 0 || IsJavaSpace(t[k - 1])
    requires forall i :: k <= i < |t| ==> !IsJavaSpace(t[i])
    ensures LastTokenStart(t) == k
    decreases |t|
  {
    if |t| > k {
      LastTokenStartIs(t[..|t| - 1], k);
    }
  }

  /** The last column of an "address T name" row is the name. */
  lemma NmRowLastToken(addr: string, name: string)
    requires |addr| >= 1 && AllChars(addr, IsPrintable)
    requires |name| >= 1 && AllChars(name, IsPrintable)
    ensures LastToken(addr + " T " + name) == name
  {
    var s := addr + " T " + name;
    assert s[0] == addr[0];
    assert s[|s| - 1] == name[|name| - 1];
    TrimNoop(s);
    forall i | |addr| + 3 <= i < |s| ensures !IsJavaSpace(s[i]) {
      assert s[i] == name[i - |addr| - 3];
    }
    assert IsJavaSpace(s[|addr| + 2]);
    LastTokenStartIs(s, |addr| + 3);
    assert s[|addr| + 3..] == name;
  }

  lemma RowHasMarker(addr: string, name: string)
    ensures Contains(addr + " T " + name, " T ")
  {
    assert OccursAt(addr + " T " + name, " T ", |addr|);
  }

  lemma NmNameIs(s: string, name: string)
    requires Contains(s, " T ") && LastToken(s) == name && |name| >= 1
    ensures NmName(s) == if name[0] == '_' then None else Some(name)
  {
    assert StartsWith(name, "_") <==> name[0] == '_';
  }

  /** The nm rule is consulted only for lines neither pattern matches. */
  lemma LineNameFallsThrough(line: string)
    requires IltName(line).None? && OrdinalName(line).None?
    ensures LineName(line) == NmName(line)
  {
  }

  /** An "address T name" row of nm -D: the name is listed unless it starts with '_'. */
  lemma NmRowRoundTrip(addr: string, name: string)
    requires |addr| >= 1 && AllChars(addr, IsPrintable) && NoOpenParen(addr)
    requires |name| >= 1 && AllChars(name, IsPrintable) && NoOpenParen(name)
    ensures LineName(addr + " T " + name) == if name[0] == '_' then None else Some(name)
  {
    var s := addr + " T " + name;
    var tail := " T " + name;
    assert s == addr + tail;
    assert NoOpenParen(tail) by {
      forall k | 0 <= k < |tail| ensures tail[k] != '(' {
        if k >= 3 {
          assert tail[k] == name[k - 3];
        }
      }
    }
    NoOpenParenAppend(addr, tail);
    NoParenNoIlt(s);
    NmRowNotOrdinal(addr, tail, name);
    LineNameFallsThrough(s);
    RowHasMarker(addr, name);
    NmRowLastToken(addr, name);
    NmNameIs(s, name);
  }

  lemma NmRowNotOrdinal(addr: string, tail: string, name: string)
    requires |addr| >= 1 && AllChars(addr, IsPrintable)
    requires tail == " T " + name
    ensures OrdinalName(addr + tail) == None
  {
    var s := addr + tail;
    MunchIs([], s, IsJavaSpace);
    assert [] + s == s;
    var (d, a2) := Munch(addr, IsDigit);
    if a2 == [] {
      assert d == addr;
      MunchIs(addr, tail, IsDigit);
      assert tail == " " + ("T " + name);
      MunchIs(" ", "T " + name, IsJavaSpace);
      MunchIs([], "T " + name, IsDigit);
      assert [] + ("T " + name) == "T " + name;
    } else {
      assert addr == d + a2;
      assert a2 == addr[|d|..] && a2[0] == addr[|d|];
      assert (a2 + tail)[0] == a2[0];
      assert s == d + (a2 + tail);
      MunchIs(d, a2 + tail, IsDigit);
      MunchIs([], a2 + tail, IsJavaSpace);
      assert [] + (a2 + tail) == a2 + tail;
    }
  }

  /** Sample rows of each shape and what they contribute. */
  lemma SampleNmRow(line: string)
    requires line == "0000000000001139 T Div"
    ensures LineName(line) == Some("Div")
  {
    assert line == "0000000000001139" + " T " + "Div";
    NmRowRoundTrip("0000000000001139", "Div");
  }

  lemma SampleNmRuntimeRow(line: string)
    requires line == "0000000000001100 T __cxa_finalize"
    ensures LineName(line) == None
  {
    assert line == "0000000000001100" + " T " + "__cxa_finalize";
    NmRowRoundTrip("0000000000001100", "__cxa_finalize");
  }

  lemma SampleIltRow(line: string)
    requires line == "    1    0 00011127 mathDiv = @ILT+290(mathDiv)"
    ensures LineName(line) == Some("mathDiv")
  {
    assert line == "    1    0 00011127 mathDiv = @ILT+290" + "(" + "mathDiv" + ")" + "";
    IltRowRoundTrip("    1    0 00011127 mathDiv = @ILT+290", "mathDiv", "");
  }

  lemma SampleOrdinalRow(line: string)
    requires line == "          3    2 00028C30 pricing"
    ensures LineName(line) == Some("pricing")
  {
    var row := OrdinalRow("          ", "3", "    ", "2", " ", "00028C30", " ", "pricing");
    SampleRowColumns(row);
    SampleRowText(row);
    OrdinalRowLine(row);
  }

  lemma SampleRowText(row: OrdinalRow)
    requires row == OrdinalRow("          ", "3", "    ", "2", " ", "00028C30", " ", "pricing")
    ensures RowText(row) == "          3    2 00028C30 pricing"
  {
  }

  lemma SampleRowColumns(row: OrdinalRow)
    requires row == OrdinalRow("          ", "3", "    ", "2", " ", "00028C30", " ", "pricing")
    ensures WellFormedRow(row)
  {
    assert AllChars(row.indent, IsJavaSpace);
    assert NonEmptyOf(row.gap1, IsJavaSpace) && NonEmptyOf(row.gap2, IsJavaSpace) && NonEmptyOf(row.gap3, IsJavaSpace);
    assert NonEmptyOf(row.ordinal, IsDigit) && NonEmptyOf(row.hint, IsDigit);
    assert NonEmptyOf(row.rva, IsHexDigit);
    assert NonEmptyOf(row.name, IsWordChar);
  }
}
