/** The `degrade` Gradle init script: it watches the standard output of every task,
    finds the Kotlin/Native compiler invocations the task logged, and writes a shell
    script per task that re-runs them with the transformed arguments, plus two
    aggregate scripts that re-run all tasks' scripts or only the failed ones.

    The Gradle listeners, the per-task output buffers and the file system are not
    modelled: a task's output is a string, and a written script is a name and a text. */
module Degrade {
  import opened Wrappers

  // ---------------------------------------------------------------------------
  // Strings
  // ---------------------------------------------------------------------------

  predicate StartsWith(s: string, prefix: string) {
    |prefix| <= |s| && s[..|prefix|] == prefix
  }

  /** Kotlin's `Char.isWhitespace()` on the JVM: `Character.isWhitespace` or
      `Character.isSpaceChar`, i.e. the controls U+0009..U+000D and U+001C..U+001F and
      the Unicode space, line and paragraph separators. */
  predicate IsWhitespace(c: char) {
    var n := c as int;
    (0x09 <= n <= 0x0D) || (0x1C <= n <= 0x20) || n == 0xA0 || n == 0x1680
    || (0x2000 <= n <= 0x200A) || n == 0x2028 || n == 0x2029 || n == 0x202F
    || n == 0x205F || n == 0x3000
  }

  /** `s.trimStart()`: drops the longest prefix of whitespace. */
  function TrimStart(s: string): (r: string)
    ensures |r| <= |s|
    ensures r == [] || !IsWhitespace(r[0])
  {
    if s != [] && IsWhitespace(s[0]) then TrimStart(s[1..]) else s
  }

  /** What `trimStart` drops is whitespace, and what it keeps is the rest of `s`. */
  lemma {:induction false} TrimStartIsSuffix(s: string)
    ensures var r := TrimStart(s);
            r == s[|s| - |r|..] && forall k :: 0 <= k < |s| - |r| ==> IsWhitespace(s[k])
  {
    if s != [] && IsWhitespace(s[0]) {
      TrimStartIsSuffix(s[1..]);
    }
  }

  /** Index of the first `c` in `s`. */
  function IndexOf(s: string, c: char): (k: nat)
    requires c in s
    ensures k < |s| && s[k] == c && c !in s[..k]
  {
    if s[0] == c then 0
    else
      var k := 1 + IndexOf(s[1..], c);
      assert s[..k] == [s[0]] + s[1..][..k - 1];
      k
  }

  /** `s.split('\n')`: the pieces between newline characters, empty pieces included,
      and the (possibly empty) piece after the last newline. */
  function SplitLines(s: string): (lines: seq<string>)
    ensures |lines| >= 1
    ensures forall k :: 0 <= k < |lines| ==> '\n' !in lines[k]
    decreases |s|
  {
    if '\n' !in s then [s]
    else
      var k := IndexOf(s, '\n');
      [s[..k]] + SplitLines(s[k + 1..])
  }

  /** Glues lines back together with newline separators. */
  function JoinLines(lines: seq<string>): string
    requires |lines| >= 1
  {
    if |lines| == 1 then lines[0] else lines[0] + "\n" + JoinLines(lines[1..])
  }

  lemma {:induction false} JoinSplitLines(s: string)
    ensures JoinLines(SplitLines(s)) == s
    decreases |s|
  {
    if '\n' in s {
      var k := IndexOf(s, '\n');
      var rest := SplitLines(s[k + 1..]);
      JoinSplitLines(s[k + 1..]);
      assert ([s[..k]] + rest)[0] == s[..k] && ([s[..k]] + rest)[1..] == rest;
      assert s == s[..k] + [s[k]] + s[k + 1..];
    }
  }

  lemma {:induction false} SplitJoinLines(lines: seq<string>)
    requires |lines| >= 1
    requires forall k :: 0 <= k < |lines| ==> '\n' !in lines[k]
    ensures SplitLines(JoinLines(lines)) == lines
  {
    if |lines| > 1 {
      var first, tail := lines[0], lines[1..];
      var rest := JoinLines(tail);
      assert forall k :: 0 <= k < |tail| ==> tail[k] == lines[k + 1];
      SplitJoinLines(tail);
      FirstNewline(first, rest);
      var s := first + "\n" + rest;
      assert SplitLines(s) == [first] + tail;
      assert lines == [first] + tail;
    }
  }

  /** The first newline of `first + "\n" + rest` is the one after `first`. */
  lemma FirstNewline(first: string, rest: string)
    requires '\n' !in first
    ensures var s := first + "\n" + rest;
            '\n' in s && IndexOf(s, '\n') == |first|
            && s[..|first|] == first && s[|first| + 1..] == rest
  {
    var s := first + "\n" + rest;
    assert s[|first|] == '\n';
    assert s[..|first|] == first;
    assert s[|first| + 1..] == rest;
  }

  /** `appendLine` once per line: every line followed by a newline. */
  function Unlines(lines: seq<string>): string {
    if lines == [] then "" else lines[0] + "\n" + Unlines(lines[1..])
  }

  lemma {:induction false} UnlinesAppend(a: seq<string>, b: seq<string>)
    ensures Unlines(a + b) == Unlines(a) + Unlines(b)
  {
    if a == [] {
      assert a + b == b;
    } else {
      assert (a + b)[1..] == a[1..] + b;
      UnlinesAppend(a[1..], b);
    }
  }

  /** The text of newline-terminated lines reads back as those lines followed by the
      empty piece after the last newline. */
  lemma {:induction false} SplitUnlines(lines: seq<string>)
    requires forall k :: 0 <= k < |lines| ==> '\n' !in lines[k]
    ensures SplitLines(Unlines(lines)) == lines + [""]
  {
    UnlinesIsJoin(lines);
    SplitJoinLines(lines + [""]);
  }

  lemma {:induction false} UnlinesIsJoin(lines: seq<string>)
    ensures Unlines(lines) == JoinLines(lines + [""])
  {
    if lines != [] {
      assert (lines + [""])[1..] == lines[1..] + [""];
      UnlinesIsJoin(lines[1..]);
    }
  }

  // ---------------------------------------------------------------------------
  // Parsing a task's output into Kotlin/Native compiler commands
  // ---------------------------------------------------------------------------

  const EntryPointClass: string := "org.jetbrains.kotlin.cli.utilities.MainKt"

  /** A line announcing a run of the Kotlin/Native tool launcher. */
  predicate IsEntryPointBanner(line: string) {
    line == "Main class = " + EntryPointClass
    || StartsWith(line, "Entry point method = " + EntryPointClass + ".")
  }

  /** The line that opens the block of transformed arguments. */
  predicate IsArgumentsHeader(line: string) {
    StartsWith(line, "Transformed arguments = ")
  }

  /** The line that closes the block of transformed arguments. */
  predicate IsArgumentsEnd(line: string) {
    line == "]"
  }

  /** No line is recognised as two of banner, arguments header and `]`: their first
      characters, or their lengths, differ. */
  lemma RecognisersDisjoint(line: string)
    ensures !(IsEntryPointBanner(line) && IsArgumentsHeader(line))
    ensures !(IsEntryPointBanner(line) && IsArgumentsEnd(line))
    ensures !(IsArgumentsHeader(line) && IsArgumentsEnd(line))
  {
    var banner, entryPoint := "Main class = " + EntryPointClass, "Entry point method = " + EntryPointClass + ".";
    var header := "Transformed arguments = ";
    if line == banner {
      assert line[0] == 'M';
    } else if StartsWith(line, entryPoint) {
      assert line[0] == line[..|entryPoint|][0] == 'E';
    }
    if StartsWith(line, header) {
      assert line[0] == line[..|header|][0] == 'T';
    }
  }

  /** What the recognisers accept at their edges: the `Main class` banner must match
      exactly, the entry-point banner needs the dot after the class name, the header is
      a prefix test, and the `]` line is not trimmed before it is compared. */
  lemma RecognisedLines()
    ensures IsEntryPointBanner("Main class = " + EntryPointClass)
    ensures !IsEntryPointBanner("Main class = " + EntryPointClass + "2")
    ensures IsEntryPointBanner("Entry point method = " + EntryPointClass + ".main")
    ensures !IsEntryPointBanner("Entry point method = " + EntryPointClass)
    ensures IsArgumentsHeader("Transformed arguments = [")
    ensures !IsArgumentsHeader("Transformed arguments =")
    ensures IsArgumentsEnd("]") && !IsArgumentsEnd(" ]")
  {
    var main := "Main class = " + EntryPointClass;
    assert |main + "2"| != |main|;
    var entry := "Entry point method = " + EntryPointClass;
    assert (entry + ".main")[..|entry + "."|] == entry + ".";
    assert ("Transformed arguments = [")[..24] == "Transformed arguments = ";
  }

  /** The role a line can play for the parser. */
  datatype LineKind = BannerLine | HeaderLine | EndLine | PlainLine

  function KindOf(line: string): (k: LineKind)
    ensures k == BannerLine <==> IsEntryPointBanner(line)
    ensures k == HeaderLine <==> IsArgumentsHeader(line)
    ensures k == EndLine <==> IsArgumentsEnd(line)
  {
    RecognisersDisjoint(line);
    if IsEntryPointBanner(line) then BannerLine
    else if IsArgumentsHeader(line) then HeaderLine
    else if IsArgumentsEnd(line) then EndLine
    else PlainLine
  }

  /** The kind of every line. */
  function Kinds(lines: seq<string>): (kinds: seq<LineKind>)
    ensures |kinds| == |lines|
  {
    if lines == [] then [] else [KindOf(lines[0])] + Kinds(lines[1..])
  }

  lemma {:induction false} KindsAt(lines: seq<string>, j: nat)
    requires j < |lines|
    ensures Kinds(lines)[j] == KindOf(lines[j])
  {
    if j > 0 {
      KindsAt(lines[1..], j - 1);
    }
  }

  datatype KotlinNativeCommand = KotlinNativeCommand(transformedArguments: seq<string>)

  /** The first index at or after `i` whose line is of kind `kind`, or `|kinds|`. */
  function FirstFrom(kinds: seq<LineKind>, i: nat, kind: LineKind): (k: nat)
    requires i <= |kinds|
    ensures i <= k <= |kinds|
    ensures forall j :: i <= j < k ==> kinds[j] != kind
    ensures k < |kinds| ==> kinds[k] == kind
    decreases |kinds| - i
  {
    if i == |kinds| || kinds[i] == kind then i else FirstFrom(kinds, i + 1, kind)
  }

  function TrimEach(lines: seq<string>): (r: seq<string>)
    ensures |r| == |lines|
  {
    seq(|lines|, k requires 0 <= k < |lines| => TrimStart(lines[k]))
  }

  /** The commands found in `lines[i..]`, whose kinds are `kinds`, each line read once,
      in order: skip to a banner, skip past the arguments header, take the argument
      lines up to the `]` line, which is consumed too, and go on after it. A banner
      without a later header consumes the rest of the output and yields a command
      without arguments. */
  function Commands(lines: seq<string>, kinds: seq<LineKind>, i: nat): seq<KotlinNativeCommand>
    requires |kinds| == |lines| && i <= |lines|
    decreases |lines| - i, 1
  {
    CommandsFrom(lines, kinds, FirstFrom(kinds, i, BannerLine))
  }

  /** The commands found in `lines[b..]` when `b` is a banner line or `|lines|`. */
  function CommandsFrom(lines: seq<string>, kinds: seq<LineKind>, b: nat): seq<KotlinNativeCommand>
    requires |kinds| == |lines| && b <= |lines|
    decreases |lines| - b, 0
  {
    if b == |lines| then []
    else
      var h := FirstFrom(kinds, b + 1, HeaderLine);
      if h == |lines| then [KotlinNativeCommand([])]
      else
        var e := FirstFrom(kinds, h + 1, EndLine);
        [KotlinNativeCommand(TrimEach(lines[h + 1..e]))]
        + Commands(lines, kinds, if e == |lines| then e else e + 1)
  }

  /** The commands of a task's output lines. */
  function ParsedCommands(lines: seq<string>): seq<KotlinNativeCommand> {
    Commands(lines, Kinds(lines), 0)
  }

  /** `parseKotlinNativeCommands`, with `nextLine()` reading `lines[next]` and
      answering null once all lines are read. */
  method ParseKotlinNativeCommands(lines: seq<string>) returns (result: seq<KotlinNativeCommand>)
    ensures result == ParsedCommands(lines)
  {
    ghost var kinds := Kinds(lines);
    result := [];
    var next := 0;
    while next < |lines|
      invariant next <= |lines|
      invariant result + Commands(lines, kinds, next) == Commands(lines, kinds, 0)
      decreases |lines| - next
    {
      var line := lines[next];
      KindsAt(lines, next);
      if IsEntryPointBanner(line) {
        var command, after := ReadCommand(lines, next);
        assert result + [command] + Commands(lines, kinds, after) == result + ([command] + Commands(lines, kinds, after));
        result, next := result + [command], after;
      } else {
        assert FirstFrom(kinds, next, BannerLine) == FirstFrom(kinds, next + 1, BannerLine);
        assert Commands(lines, kinds, next) == Commands(lines, kinds, next + 1);
        next := next + 1;
      }
    }
    CommandsAtEnd(lines, kinds);
  }

  /** The command announced by the banner line at `b`: its transformed arguments, and
      the index of the first line not yet read. */
  method ReadCommand(lines: seq<string>, b: nat) returns (command: KotlinNativeCommand, next: nat)
    requires b < |lines| && IsEntryPointBanner(lines[b])
    ensures b < next <= |lines|
    ensures Commands(lines, Kinds(lines), b) == [command] + Commands(lines, Kinds(lines), next)
  {
    KindsAt(lines, b);
    next := SkipPastHeader(lines, b + 1);
    ghost var start := next;
    var arguments;
    arguments, next := TakeArguments(lines, next);
    command := KotlinNativeCommand(arguments);
    CommandsAtRead(lines, Kinds(lines), b, start, arguments, next);
  }

  /** What one call of the loop body reads, stated on the kinds of the lines. */
  lemma CommandsAtRead(lines: seq<string>, kinds: seq<LineKind>, b: nat, start: nat,
                       arguments: seq<string>, next: nat)
    requires |kinds| == |lines| && b < |lines| && kinds[b] == BannerLine
    requires var h := FirstFrom(kinds, b + 1, HeaderLine);
             start == if h == |lines| then h else h + 1
    requires var e := FirstFrom(kinds, start, EndLine);
             arguments == TrimEach(lines[start..e]) && next == if e == |lines| then e else e + 1
    ensures b < next <= |lines|
    ensures Commands(lines, kinds, b) == [KotlinNativeCommand(arguments)] + Commands(lines, kinds, next)
  {
    var command := KotlinNativeCommand(arguments);
    var h := FirstFrom(kinds, b + 1, HeaderLine);
    var e := FirstFrom(kinds, start, EndLine);
    if h < |lines| {
      assert start == h + 1;
      var resume := if e == |lines| then e else e + 1;
      assert next == resume && arguments == TrimEach(lines[h + 1..e]);
      CommandsAtBanner(lines, kinds, b, h, e);
      assert Commands(lines, kinds, b) == [command] + Commands(lines, kinds, resume);
    } else {
      assert arguments == [] && next == |lines|;
      CommandsAtLastBanner(lines, kinds, b);
      CommandsAtEnd(lines, kinds);
      assert [command] == [command] + Commands(lines, kinds, next);
    }
  }

  /** Skips the lines from `start` up to and including the first arguments header:
      the index after that header, or `|lines|` when there is none. */
  method SkipPastHeader(lines: seq<string>, start: nat) returns (next: nat)
    requires start <= |lines|
    ensures var h := FirstFrom(Kinds(lines), start, HeaderLine);
            next == if h == |lines| then h else h + 1
  {
    ghost var kinds := Kinds(lines);
    next := start;
    while next < |lines| && !IsArgumentsHeader(lines[next])
      invariant start <= next <= |lines|
      invariant FirstFrom(kinds, next, HeaderLine) == FirstFrom(kinds, start, HeaderLine)
      decreases |lines| - next
    {
      KindsAt(lines, next);
      next := next + 1;
    }
    if next < |lines| {
      KindsAt(lines, next);
      next := next + 1;
    }
  }

  /** Takes the lines from `start` up to the closing `]` line, each with its leading
      whitespace trimmed. The `]` line that ends the block has already been read from
      the iterator, so reading goes on after it. */
  method TakeArguments(lines: seq<string>, start: nat) returns (arguments: seq<string>, next: nat)
    requires start <= |lines|
    ensures var e := FirstFrom(Kinds(lines), start, EndLine);
            arguments == TrimEach(lines[start..e]) && next == if e == |lines| then e else e + 1
  {
    ghost var kinds := Kinds(lines);
    ghost var e := FirstFrom(kinds, start, EndLine);
    arguments := [];
    next := start;
    while next < |lines| && !IsArgumentsEnd(lines[next])
      invariant start <= next <= e
      invariant FirstFrom(kinds, next, EndLine) == e
      invariant arguments == TrimEach(lines[start..next])
      decreases |lines| - next
    {
      KindsAt(lines, next);
      TakeStep(lines, kinds, start, next, e);
      arguments := arguments + [TrimStart(lines[next])];
      next := next + 1;
    }
    if next < |lines| {
      KindsAt(lines, next);
      next := next + 1;
    }
  }

  lemma TakeStep(lines: seq<string>, kinds: seq<LineKind>, start: nat, next: nat, e: nat)
    requires |kinds| == |lines| && start <= next < |lines| && kinds[next] != EndLine
    requires FirstFrom(kinds, next, EndLine) == e
    ensures next + 1 <= e && FirstFrom(kinds, next + 1, EndLine) == e
    ensures TrimEach(lines[start..next + 1]) == TrimEach(lines[start..next]) + [TrimStart(lines[next])]
  {
    assert TrimEach(lines[start..next] + [lines[next]]) == TrimEach(lines[start..next]) + [TrimStart(lines[next])];
    assert lines[start..next + 1] == lines[start..next] + [lines[next]];
  }

  /** One step of the parser from a banner line at `b`, with `h` the first header after
      it and `e` the first `]` after that. */
  lemma CommandsAtBanner(lines: seq<string>, kinds: seq<LineKind>, b: nat, h: nat, e: nat)
    requires |kinds| == |lines| && b < |lines| && kinds[b] == BannerLine
    requires h == FirstFrom(kinds, b + 1, HeaderLine) && h < |lines|
    requires e == FirstFrom(kinds, h + 1, EndLine)
    ensures Commands(lines, kinds, b)
            == [KotlinNativeCommand(TrimEach(lines[h + 1..e]))]
               + Commands(lines, kinds, if e == |lines| then e else e + 1)
  {
    assert FirstFrom(kinds, b, BannerLine) == b;
  }

  /** A banner line at `b` without a header after it gives the last command. */
  lemma CommandsAtLastBanner(lines: seq<string>, kinds: seq<LineKind>, b: nat)
    requires |kinds| == |lines| && b < |lines| && kinds[b] == BannerLine
    requires FirstFrom(kinds, b + 1, HeaderLine) == |lines|
    ensures Commands(lines, kinds, b) == [KotlinNativeCommand([])]
  {
    assert FirstFrom(kinds, b, BannerLine) == b;
  }

  /** Parsing from `i` and from the first banner line at or after `i` agree. */
  lemma CommandsSkipTo(lines: seq<string>, kinds: seq<LineKind>, i: nat, b: nat)
    requires |kinds| == |lines| && i <= b < |lines|
    requires FirstFrom(kinds, i, BannerLine) == b
    ensures Commands(lines, kinds, i) == Commands(lines, kinds, b)
  {
    assert FirstFrom(kinds, b, BannerLine) == b;
  }

  lemma CommandsAtEnd(lines: seq<string>, kinds: seq<LineKind>)
    requires |kinds| == |lines|
    ensures Commands(lines, kinds, |lines|) == []
  {
  }

  /** The first index at or after `i` of the given kind is the unique index with those
      properties. */
  lemma {:induction false} FirstFromIs(kinds: seq<LineKind>, i: nat, kind: LineKind, k: nat)
    requires i <= k <= |kinds|
    requires forall j :: i <= j < k ==> kinds[j] != kind
    requires k < |kinds| ==> kinds[k] == kind
    ensures FirstFrom(kinds, i, kind) == k
    decreases k - i
  {
    if i < k {
      FirstFromIs(kinds, i + 1, kind, k);
    }
  }

  /** The output from line `i` on holds a command exactly when it holds a banner line. */
  lemma {:induction false} NoCommandsIffNoBanner(lines: seq<string>, i: nat)
    requires i <= |lines|
    ensures Commands(lines, Kinds(lines), i) == []
            <==> forall j :: i <= j < |lines| ==> !IsEntryPointBanner(lines[j])
  {
    var kinds := Kinds(lines);
    var b := FirstFrom(kinds, i, BannerLine);
    if b < |lines| {
      KindsAt(lines, b);
    } else {
      forall j | i <= j < |lines| ensures !IsEntryPointBanner(lines[j]) {
        KindsAt(lines, j);
      }
    }
  }

  /** A complete command block: the first banner at `b`, the first header after it at
      `h`, and the first `]` after that at `e` give one command whose arguments are the
      trimmed lines strictly between `h` and `e`; parsing resumes after the `]`. */
  lemma {:induction false} CommandsOfBlock(lines: seq<string>, i: nat, b: nat, h: nat, e: nat)
    requires i <= b < h < e < |lines|
    requires forall j :: i <= j < b ==> !IsEntryPointBanner(lines[j])
    requires IsEntryPointBanner(lines[b])
    requires forall j :: b < j < h ==> !IsArgumentsHeader(lines[j])
    requires IsArgumentsHeader(lines[h])
    requires forall j :: h < j < e ==> lines[j] != "]"
    requires lines[e] == "]"
    ensures Commands(lines, Kinds(lines), i)
            == [KotlinNativeCommand(TrimEach(lines[h + 1..e]))] + Commands(lines, Kinds(lines), e + 1)
  {
    var kinds := Kinds(lines);
    forall j | i <= j < b ensures kinds[j] != BannerLine {
      KindsAt(lines, j);
    }
    forall j | b < j < h ensures kinds[j] != HeaderLine {
      KindsAt(lines, j);
    }
    forall j | h < j < e ensures kinds[j] != EndLine {
      KindsAt(lines, j);
    }
    KindsAt(lines, b);
    KindsAt(lines, h);
    KindsAt(lines, e);
    FirstFromIs(kinds, i, BannerLine, b);
    FirstFromIs(kinds, b + 1, HeaderLine, h);
    FirstFromIs(kinds, h + 1, EndLine, e);
    CommandsSkipTo(lines, kinds, i, b);
    CommandsAtBanner(lines, kinds, b, h, e);
  }

  /** A banner with no arguments header after it yields a single command without
      arguments and ends parsing. */
  lemma {:induction false} CommandsOfBannerWithoutArguments(lines: seq<string>, i: nat, b: nat)
    requires i <= b < |lines|
    requires forall j :: i <= j < b ==> !IsEntryPointBanner(lines[j])
    requires IsEntryPointBanner(lines[b])
    requires forall j :: b < j < |lines| ==> !IsArgumentsHeader(lines[j])
    ensures Commands(lines, Kinds(lines), i) == [KotlinNativeCommand([])]
  {
    var kinds := Kinds(lines);
    forall j | i <= j < b ensures kinds[j] != BannerLine {
      KindsAt(lines, j);
    }
    forall j | b < j < |lines| ensures kinds[j] != HeaderLine {
      KindsAt(lines, j);
    }
    KindsAt(lines, b);
    FirstFromIs(kinds, i, BannerLine, b);
    FirstFromIs(kinds, b + 1, HeaderLine, |lines|);
    CommandsSkipTo(lines, kinds, i, b);
    CommandsAtLastBanner(lines, kinds, b);
  }

  /** The number of banner lines in `kinds[i..]`. */
  function BannerCount(kinds: seq<LineKind>, i: nat): nat
    requires i <= |kinds|
    decreases |kinds| - i
  {
    if i == |kinds| then 0
    else (if kinds[i] == BannerLine then 1 else 0) + BannerCount(kinds, i + 1)
  }

  lemma {:induction false} BannerCountMonotone(kinds: seq<LineKind>, i: nat, j: nat)
    requires i <= j <= |kinds|
    ensures BannerCount(kinds, j) <= BannerCount(kinds, i)
    decreases j - i
  {
    if i < j {
      BannerCountMonotone(kinds, i + 1, j);
    }
  }

  lemma {:induction false} BannerCountSkip(kinds: seq<LineKind>, i: nat, b: nat)
    requires i <= b < |kinds|
    requires forall j :: i <= j < b ==> kinds[j] != BannerLine
    requires kinds[b] == BannerLine
    ensures BannerCount(kinds, i) == 1 + BannerCount(kinds, b + 1)
    decreases b - i
  {
    if i < b {
      BannerCountSkip(kinds, i + 1, b);
    }
  }

  /** At most one command per banner line: banners inside a consumed argument block
      are not commands. */
  lemma {:induction false} CommandsAtMostBanners(lines: seq<string>, kinds: seq<LineKind>, i: nat)
    requires |kinds| == |lines| && i <= |lines|
    ensures |Commands(lines, kinds, i)| <= BannerCount(kinds, i)
    decreases |lines| - i
  {
    var b := FirstFrom(kinds, i, BannerLine);
    if b < |lines| {
      BannerCountSkip(kinds, i, b);
      CommandsSkipTo(lines, kinds, i, b);
      var h := FirstFrom(kinds, b + 1, HeaderLine);
      if h < |lines| {
        var e := FirstFrom(kinds, h + 1, EndLine);
        var resume := if e == |lines| then e else e + 1;
        CommandsAtBanner(lines, kinds, b, h, e);
        CommandsAtMostBanners(lines, kinds, resume);
        BannerCountMonotone(kinds, b + 1, resume);
      } else {
        CommandsAtLastBanner(lines, kinds, b);
      }
    }
  }

  /** `a` is the trimmed form of one of `lines[i..]`. */
  predicate IsTrimmedLine(a: string, lines: seq<string>, i: nat) {
    exists j :: i <= j < |lines| && a == TrimStart(lines[j])
  }

  /** Every argument of `commands` is the trimmed form of one of `lines[i..]`, and
      starts with a character that is not whitespace. */
  predicate ArgumentsAreTrimmedLines(commands: seq<KotlinNativeCommand>, lines: seq<string>, i: nat) {
    forall c, a :: c in commands && a in c.transformedArguments ==>
      (a == [] || !IsWhitespace(a[0])) && IsTrimmedLine(a, lines, i)
  }

  lemma {:induction false} CommandArgumentsAreTrimmedLines(lines: seq<string>, kinds: seq<LineKind>, i: nat)
    requires |kinds| == |lines| && i <= |lines|
    ensures ArgumentsAreTrimmedLines(Commands(lines, kinds, i), lines, i)
    decreases |lines| - i, 1
  {
    var b := FirstFrom(kinds, i, BannerLine);
    CommandArgumentsFromAreTrimmedLines(lines, kinds, b);
    ArgumentsAreTrimmedLinesWeaken(CommandsFrom(lines, kinds, b), lines, i, b);
  }

  lemma {:induction false} CommandArgumentsFromAreTrimmedLines(lines: seq<string>, kinds: seq<LineKind>, b: nat)
    requires |kinds| == |lines| && b <= |lines|
    ensures ArgumentsAreTrimmedLines(CommandsFrom(lines, kinds, b), lines, b)
    decreases |lines| - b, 0
  {
    if b == |lines| {
      assert CommandsFrom(lines, kinds, b) == [];
    } else {
      var h := FirstFrom(kinds, b + 1, HeaderLine);
      if h == |lines| {
        assert CommandsFrom(lines, kinds, b) == [KotlinNativeCommand([])];
      } else {
        var e := FirstFrom(kinds, h + 1, EndLine);
        var resume := if e == |lines| then e else e + 1;
        CommandArgumentsAreTrimmedLines(lines, kinds, resume);
        BlockThenRestAreTrimmedLines(lines, kinds, b, h, e, resume);
      }
    }
  }

  lemma BlockThenRestAreTrimmedLines(lines: seq<string>, kinds: seq<LineKind>, b: nat, h: nat, e: nat, resume: nat)
    requires |kinds| == |lines| && b < |lines|
    requires h == FirstFrom(kinds, b + 1, HeaderLine) && h < |lines|
    requires e == FirstFrom(kinds, h + 1, EndLine) && resume == if e == |lines| then e else e + 1
    requires ArgumentsAreTrimmedLines(Commands(lines, kinds, resume), lines, resume)
    ensures ArgumentsAreTrimmedLines(CommandsFrom(lines, kinds, b), lines, b)
  {
    var first := [KotlinNativeCommand(TrimEach(lines[h + 1..e]))];
    assert CommandsFrom(lines, kinds, b) == first + Commands(lines, kinds, resume);
    BlockArgumentsAreTrimmedLines(lines, b, h + 1, e);
    ArgumentsAreTrimmedLinesAppend(first, Commands(lines, kinds, resume), lines, b, resume);
  }

  lemma ArgumentsAreTrimmedLinesWeaken(commands: seq<KotlinNativeCommand>, lines: seq<string>, i: nat, j: nat)
    requires i <= j
    requires ArgumentsAreTrimmedLines(commands, lines, j)
    ensures ArgumentsAreTrimmedLines(commands, lines, i)
  {
    forall c, a | c in commands && a in c.transformedArguments
      ensures IsTrimmedLine(a, lines, i)
    {
      assert IsTrimmedLine(a, lines, j);
      var k :| j <= k < |lines| && a == TrimStart(lines[k]);
    }
  }

  lemma BlockArgumentsAreTrimmedLines(lines: seq<string>, i: nat, start: nat, end: nat)
    requires i <= start <= end <= |lines|
    ensures ArgumentsAreTrimmedLines([KotlinNativeCommand(TrimEach(lines[start..end]))], lines, i)
  {
    var args := TrimEach(lines[start..end]);
    forall a | a in args ensures IsTrimmedLine(a, lines, i) {
      var k :| 0 <= k < |args| && args[k] == a;
      assert a == TrimStart(lines[start + k]);
    }
  }

  lemma ArgumentsAreTrimmedLinesAppend(first: seq<KotlinNativeCommand>, rest: seq<KotlinNativeCommand>,
                                       lines: seq<string>, i: nat, j: nat)
    requires i <= j
    requires ArgumentsAreTrimmedLines(first, lines, i)
    requires ArgumentsAreTrimmedLines(rest, lines, j)
    ensures ArgumentsAreTrimmedLines(first + rest, lines, i)
  {
    forall c, a | c in first + rest && a in c.transformedArguments
      ensures IsTrimmedLine(a, lines, i)
    {
      if c in rest {
        assert IsTrimmedLine(a, lines, j);
        var k :| j <= k < |lines| && a == TrimStart(lines[k]);
      }
    }
  }

  // ---------------------------------------------------------------------------
  // Writing the scripts
  // ---------------------------------------------------------------------------

  /** The lines `generateScript` writes before every script's body. */
  const ShellHeader: seq<string> := ["#!/bin/sh", "set -e", ""]

  /** The first line of every re-run command. */
  const RunKonanLine: string := "\"$kotlinNativeDist/bin/run_konan\" \\"

  const ChangeToScriptDirectory: string := "cd \"$(dirname \"$0\")\""

  /** The argument lines of one command: indented by four spaces, every one but the
      last continued with ` \`. */
  function ArgumentLines(args: seq<string>): (r: seq<string>)
    ensures |r| == |args|
  {
    seq(|args|, k requires 0 <= k < |args| =>
      "    " + args[k] + (if k != |args| - 1 then " \\" else ""))
  }

  /** The lines of one command. Without arguments, the newline that ends the argument
      list ends an empty line instead. */
  function CommandLines(c: KotlinNativeCommand): seq<string> {
    [RunKonanLine]
    + (if c.transformedArguments == [] then [""] else ArgumentLines(c.transformedArguments))
    + [""]
  }

  function AllCommandLines(commands: seq<KotlinNativeCommand>): seq<string> {
    if commands == [] then [] else CommandLines(commands[0]) + AllCommandLines(commands[1..])
  }

  lemma {:induction false} AllCommandLinesSnoc(commands: seq<KotlinNativeCommand>, c: KotlinNativeCommand)
    ensures AllCommandLines(commands + [c]) == AllCommandLines(commands) + CommandLines(c)
  {
    if commands == [] {
      assert commands + [c] == [c];
    } else {
      assert (commands + [c])[1..] == commands[1..] + [c];
      AllCommandLinesSnoc(commands[1..], c);
    }
  }

  /** A Kotlin string template renders null as "null". */
  function Render(value: Option<string>): string {
    if value.Some? then value.value else "null"
  }

  /** The lines of the script that re-runs one task's commands. */
  function TaskScriptLines(konanHome: Option<string>, commands: seq<KotlinNativeCommand>): seq<string> {
    ShellHeader + ["kotlinNativeDist=\"" + Render(konanHome) + "\"", ""] + AllCommandLines(commands)
  }

  function ScriptCalls(scripts: seq<string>): (r: seq<string>)
    ensures |r| == |scripts|
  {
    seq(|scripts|, k requires 0 <= k < |scripts| => "./" + scripts[k])
  }

  /** The lines of an aggregate script that runs the given scripts in order. */
  function AggregateScriptLines(scripts: seq<string>): seq<string> {
    ShellHeader + [ChangeToScriptDirectory, ""] + ScriptCalls(scripts)
  }

  /** The script name of a task: its path without the leading character, with every
      ':' turned into '_', and ".sh" added. An empty path has no such name: dropping
      its first character throws. */
  function ScriptName(taskPath: string): (name: Option<string>)
    ensures name.None? <==> taskPath == ""
    ensures name.Some? ==>
      && |name.value| == |taskPath| + 2
      && name.value[|taskPath| - 1..] == ".sh"
      && (forall k :: 0 <= k < |taskPath| - 1 ==>
            name.value[k] == if taskPath[k + 1] == ':' then '_' else taskPath[k + 1])
  {
    if taskPath == [] then None
    else
      var rest := taskPath[1..];
      Some(seq(|rest|, k requires 0 <= k < |rest| => if rest[k] == ':' then '_' else rest[k]) + ".sh")
  }

  /** The name of a task's script carries no colon. */
  lemma ScriptNameHasNoColon(taskPath: string)
    requires taskPath != ""
    ensures ':' !in ScriptName(taskPath).value
  {
    var name := ScriptName(taskPath).value;
    forall k | 0 <= k < |name| ensures name[k] != ':' {
      if k >= |taskPath| - 1 {
        assert name[k] == name[|taskPath| - 1..][k - (|taskPath| - 1)];
      }
    }
  }

  /** `appendLine(line)`: the line and a newline. */
  method AppendLine(out: string, line: string) returns (out': string)
    ensures out' == out + Unlines([line])
  {
    out' := out + line + "\n";
    assert [line][1..] == [];
  }

  /** What `generateScript` writes before the script's body. */
  method AppendShellHeader(out: string) returns (out': string)
    ensures out' == out + Unlines(ShellHeader)
  {
    var first := AppendLine(out, "#!/bin/sh");
    var second := AppendLine(first, "set -e");
    out' := AppendLine(second, "");
    AppendUnlines(out, first, second, ["#!/bin/sh"], ["set -e"]);
    AppendUnlines(out, second, out', ["#!/bin/sh", "set -e"], [""]);
    assert ["#!/bin/sh", "set -e"] + [""] == ShellHeader;
  }

  /** The script of one task: `generateScript` with the body of `generateScriptForTask`. */
  method WriteTaskScript(konanHome: Option<string>, commands: seq<KotlinNativeCommand>)
    returns (text: string)
    ensures text == Unlines(TaskScriptLines(konanHome, commands))
  {
    var header := AppendShellHeader("");
    var home := "kotlinNativeDist=\"" + Render(konanHome) + "\"";
    var withHome := AppendLine(header, home);
    var withBlank := AppendLine(withHome, "");
    text := AppendCommands(withBlank, commands);
    assert "" + Unlines(ShellHeader) == Unlines(ShellHeader);
    AppendUnlines("", header, withHome, ShellHeader, [home]);
    AppendUnlines("", withHome, withBlank, ShellHeader + [home], [""]);
    AppendUnlines("", withBlank, text, ShellHeader + [home] + [""], AllCommandLines(commands));
    assert [home] + [""] == [home, ""];
    assert ShellHeader + [home] + [""] + AllCommandLines(commands) == ShellHeader + [home, ""] + AllCommandLines(commands);
    assert "" + Unlines(TaskScriptLines(konanHome, commands)) == Unlines(TaskScriptLines(konanHome, commands));
  }

  /** The lines of every command, in order. */
  method AppendCommands(out: string, commands: seq<KotlinNativeCommand>) returns (out': string)
    ensures out' == out + Unlines(AllCommandLines(commands))
  {
    out' := out;
    assert AllCommandLines(commands[..0]) == [];
    assert out + Unlines([]) == out;
    for i := 0 to |commands|
      invariant out' == out + Unlines(AllCommandLines(commands[..i]))
    {
      ghost var before := out';
      out' := AppendCommand(out', commands[i]);
      AppendCommandsStep(out, before, out', commands, i);
    }
    assert commands[..|commands|] == commands;
  }

  lemma AppendCommandsStep(out: string, before: string, after: string, commands: seq<KotlinNativeCommand>, i: nat)
    requires i < |commands|
    requires before == out + Unlines(AllCommandLines(commands[..i]))
    requires after == before + Unlines(CommandLines(commands[i]))
    ensures after == out + Unlines(AllCommandLines(commands[..i + 1]))
  {
    AppendUnlines(out, before, after, AllCommandLines(commands[..i]), CommandLines(commands[i]));
    assert commands[..i + 1] == commands[..i] + [commands[i]];
    AllCommandLinesSnoc(commands[..i], commands[i]);
  }

  /** Appending the text of `a` and then that of `b` appends the text of `a + b`. */
  lemma AppendUnlines(out: string, before: string, after: string, a: seq<string>, b: seq<string>)
    requires before == out + Unlines(a)
    requires after == before + Unlines(b)
    ensures after == out + Unlines(a + b)
  {
    var ta, tb := Unlines(a), Unlines(b);
    UnlinesAppend(a, b);
    assert (out + ta) + tb == out + (ta + tb);
  }

  /** The body of `commands.forEach`: the launcher line, the argument lines, and the
      two `appendLine()` calls that end the argument list and leave an empty line. */
  method AppendCommand(out: string, command: KotlinNativeCommand) returns (out': string)
    ensures out' == out + Unlines(CommandLines(command))
  {
    var args := command.transformedArguments;
    var launcher := AppendLine(out, RunKonanLine);
    var open := AppendArguments(launcher, args);
    var closed := AppendLine(open, "");
    out' := AppendLine(closed, "");
    ghost var argumentLines := if args == [] then [""] else ArgumentLines(args);
    if args == [] {
      assert ArgumentLines(args) == [];
      assert open + "" == open && launcher + "" == launcher;
      assert closed == launcher + Unlines([""]);
    } else {
      assert closed == launcher + Unlines(ArgumentLines(args));
    }
    AppendUnlines(out, launcher, closed, [RunKonanLine], argumentLines);
    AppendUnlines(out, closed, out', [RunKonanLine] + argumentLines, [""]);
  }

  /** `transformedArguments.forEachIndexed`: each argument indented, and every one but
      the last followed by ` \` and a newline. The last line is left open. */
  method AppendArguments(out: string, args: seq<string>) returns (out': string)
    ensures out' + (if args == [] then "" else "\n") == out + Unlines(ArgumentLines(args))
  {
    out' := out;
    ghost var lines := ArgumentLines(args);
    assert out + Unlines(lines[..0]) == out;
    for index := 0 to |args|
      invariant out' + (if 0 < index == |args| then "\n" else "") == out + Unlines(lines[..index])
    {
      ghost var before := out';
      out' := out' + "    ";
      out' := out' + args[index];
      if index != |args| - 1 {
        out' := out' + " \\" + "\n";
        AppendArgumentStep(out, before, out', lines, index);
      } else {
        AppendArgumentStep(out, before, out' + "\n", lines, index);
      }
    }
    assert lines[..|args|] == lines;
  }

  lemma AppendArgumentStep(out: string, before: string, after: string, lines: seq<string>, index: nat)
    requires index < |lines|
    requires before == out + Unlines(lines[..index])
    requires after == before + lines[index] + "\n"
    ensures after == out + Unlines(lines[..index + 1])
  {
    assert [lines[index]][1..] == [];
    assert after == before + Unlines([lines[index]]);
    AppendUnlines(out, before, after, lines[..index], [lines[index]]);
    assert lines[..index + 1] == lines[..index] + [lines[index]];
  }

  /** `generateAggregateScript`: `generateScript` with a body that changes to the
      script's directory and runs the given scripts in order. */
  method WriteAggregateScript(scripts: seq<string>) returns (text: string)
    ensures text == Unlines(AggregateScriptLines(scripts))
  {
    var header := AppendShellHeader("");
    var withCd := AppendLine(header, ChangeToScriptDirectory);
    var prefix := AppendLine(withCd, "");
    assert "" + Unlines(ShellHeader) == Unlines(ShellHeader);
    AppendUnlines("", header, withCd, ShellHeader, [ChangeToScriptDirectory]);
    AppendUnlines("", withCd, prefix, ShellHeader + [ChangeToScriptDirectory], [""]);
    ghost var prefixLines := ShellHeader + [ChangeToScriptDirectory] + [""];
    assert [ChangeToScriptDirectory] + [""] == [ChangeToScriptDirectory, ""];
    assert prefixLines + ScriptCalls(scripts) == ShellHeader + [ChangeToScriptDirectory, ""] + ScriptCalls(scripts);
    text := prefix;
    assert prefixLines + ScriptCalls(scripts)[..0] == prefixLines;
    for i := 0 to |scripts|
      invariant text == "" + Unlines(prefixLines + ScriptCalls(scripts)[..i])
    {
      ghost var before := text;
      text := AppendLine(text, "./" + scripts[i]);
      AppendUnlines("", before, text, prefixLines + ScriptCalls(scripts)[..i], ["./" + scripts[i]]);
      assert prefixLines + ScriptCalls(scripts)[..i] + ["./" + scripts[i]]
          == prefixLines + ScriptCalls(scripts)[..i + 1];
    }
    assert prefixLines + ScriptCalls(scripts)[..|scripts|] == AggregateScriptLines(scripts);
    assert "" + Unlines(AggregateScriptLines(scripts)) == Unlines(AggregateScriptLines(scripts));
  }

  /** What `generateScriptForTask` does with one task: no script without commands, an
      exception for an empty task path, otherwise the named script. */
  datatype TaskScript = NoCommands | BadTaskPath | Script(name: string, text: string)

  function TaskScriptFor(taskPath: string, stdout: string, konanHome: Option<string>): TaskScript {
    var commands := ParsedCommands(SplitLines(stdout));
    if commands == [] then NoCommands
    else if taskPath == [] then BadTaskPath
    else Script(ScriptName(taskPath).value, Unlines(TaskScriptLines(konanHome, commands)))
  }

  method GenerateScriptForTask(taskPath: string, stdout: string, konanHome: Option<string>)
    returns (r: TaskScript)
    ensures r == TaskScriptFor(taskPath, stdout, konanHome)
    ensures r.NoCommands? <==> ParsedCommands(SplitLines(stdout)) == []
    ensures r.BadTaskPath? <==> ParsedCommands(SplitLines(stdout)) != [] && taskPath == ""
    ensures r.Script? ==> Some(r.name) == ScriptName(taskPath)
    ensures r.Script? ==>
      SplitLines(r.text) == TaskScriptLines(konanHome, ParsedCommands(SplitLines(stdout))) + [""]
              || '\n' in Render(konanHome)
  {
    var lines := SplitLines(stdout);
    var commands := ParseKotlinNativeCommands(lines);
    if commands == [] {
      return NoCommands;
    }
    var name := ScriptName(taskPath);
    if name.None? {
      return BadTaskPath;
    }
    var text := WriteTaskScript(konanHome, commands);
    r := Script(name.value, text);
    if '\n' !in Render(konanHome) {
      CommandArgumentsHaveNoNewline(lines, commands);
      TaskScriptLinesHaveNoNewline(konanHome, commands);
      SplitUnlines(TaskScriptLines(konanHome, commands));
    }
  }

  lemma CommandArgumentsHaveNoNewline(lines: seq<string>, commands: seq<KotlinNativeCommand>)
    requires forall k :: 0 <= k < |lines| ==> '\n' !in lines[k]
    requires commands == ParsedCommands(lines)
    ensures forall c, a :: c in commands && a in c.transformedArguments ==> '\n' !in a
  {
    CommandArgumentsAreTrimmedLines(lines, Kinds(lines), 0);
    forall c, a | c in commands && a in c.transformedArguments ensures '\n' !in a {
      assert c in Commands(lines, Kinds(lines), 0);
      assert IsTrimmedLine(a, lines, 0);
      var j :| 0 <= j < |lines| && a == TrimStart(lines[j]);
      TrimStartIsSuffix(lines[j]);
      assert a == lines[j][|lines[j]| - |a|..];
    }
  }

  lemma {:induction false} TaskScriptLinesHaveNoNewline(konanHome: Option<string>, commands: seq<KotlinNativeCommand>)
    requires '\n' !in Render(konanHome)
    requires forall c, a :: c in commands && a in c.transformedArguments ==> '\n' !in a
    ensures forall k :: 0 <= k < |TaskScriptLines(konanHome, commands)| ==>
              '\n' !in TaskScriptLines(konanHome, commands)[k]
  {
    AllCommandLinesHaveNoNewline(commands);
  }

  lemma {:induction false} AllCommandLinesHaveNoNewline(commands: seq<KotlinNativeCommand>)
    requires forall c, a :: c in commands && a in c.transformedArguments ==> '\n' !in a
    ensures forall k :: 0 <= k < |AllCommandLines(commands)| ==> '\n' !in AllCommandLines(commands)[k]
  {
    if commands != [] {
      AllCommandLinesHaveNoNewline(commands[1..]);
      var args := commands[0].transformedArguments;
      forall k | 0 <= k < |args| ensures '\n' !in ArgumentLines(args)[k] {
        assert args[k] in args;
      }
    }
  }

  // ---------------------------------------------------------------------------
  // The registry of written scripts
  // ---------------------------------------------------------------------------

  datatype ScriptFile = ScriptFile(name: string, text: string)

  /** The lists `register` keeps between task executions and the end of the build. */
  class ScriptRegistry {
    var allScripts: seq<string>
    var failedScripts: seq<string>

    constructor ()
      ensures allScripts == [] && failedScripts == []
    {
      allScripts := [];
      failedScripts := [];
    }

    /** `afterExecute`: every written script is recorded; a failed task's script also
        among the failed ones. */
    method AfterExecute(taskPath: string, stdout: string, konanHome: Option<string>, failed: bool)
      returns (written: TaskScript)
      modifies this
      ensures written == TaskScriptFor(taskPath, stdout, konanHome)
      ensures written.Script? ==> allScripts == old(allScripts) + [written.name]
      ensures written.Script? ==>
        failedScripts == old(failedScripts) + (if failed then [written.name] else [])
      ensures !written.Script? ==>
        allScripts == old(allScripts) && failedScripts == old(failedScripts)
    {
      written := GenerateScriptForTask(taskPath, stdout, konanHome);
      if written.Script? {
        allScripts := allScripts + [written.name];
        if failed {
          failedScripts := failedScripts + [written.name];
        }
      }
    }

    /** `buildFinished`: writes `rerun-all.sh` and `rerun-failed.sh`, then forgets both lists. */
    method BuildFinished() returns (rerunAll: ScriptFile, rerunFailed: ScriptFile)
      modifies this
      ensures rerunAll == ScriptFile("rerun-all.sh", Unlines(AggregateScriptLines(old(allScripts))))
      ensures rerunFailed == ScriptFile("rerun-failed.sh", Unlines(AggregateScriptLines(old(failedScripts))))
      ensures allScripts == [] && failedScripts == []
    {
      var all := WriteAggregateScript(allScripts);
      var failedOnes := WriteAggregateScript(failedScripts);
      rerunAll := ScriptFile("rerun-all.sh", all);
      rerunFailed := ScriptFile("rerun-failed.sh", failedOnes);
      failedScripts := [];
      allScripts := [];
    }
  }
}
