/**
 The diff tab: a unified diff is parsed into numbered hunks, and a hunk is laid
 out in two columns.
 */
module Diff {
  import opened Common
  import opened Numbers

  datatype LineKind = Context | Add | Del

  datatype DiffLine = DiffLine(kind: LineKind, text: string, oldNo: Option<nat>, newNo: Option<nat>)

  datatype Hunk = Hunk(header: string, lines: seq<DiffLine>)

  datatype ParsedDiff = ParsedDiff(
    oldPath: Option<string>, newPath: Option<string>, hunks: seq<Hunk>, added: nat, removed: nat)

  // ------------------------------------------------------------ the two sides of a hunk

  function Without(kind: LineKind, lines: seq<DiffLine>): seq<DiffLine> {
    if lines == [] then []
    else if lines[0].kind == kind then Without(kind, lines[1..])
    else [lines[0]] + Without(kind, lines[1..])
  }

  /** The lines of the old file: context and deletions. */
  function OldSide(lines: seq<DiffLine>): seq<DiffLine> {
    Without(Add, lines)
  }

  /** The lines of the new file: context and additions. */
  function NewSide(lines: seq<DiffLine>): seq<DiffLine> {
    Without(Del, lines)
  }

  lemma {:induction false} WithoutJoins(kind: LineKind, a: seq<DiffLine>, b: seq<DiffLine>)
    ensures Without(kind, a + b) == Without(kind, a) + Without(kind, b)
  {
    if a == [] {
      assert a + b == b;
    } else {
      assert (a + b)[1..] == a[1..] + b;
      WithoutJoins(kind, a[1..], b);
    }
  }

  lemma {:induction false} SidesJoin(a: seq<DiffLine>, b: seq<DiffLine>)
    ensures OldSide(a + b) == OldSide(a) + OldSide(b)
    ensures NewSide(a + b) == NewSide(a) + NewSide(b)
  {
    WithoutJoins(Add, a, b);
    WithoutJoins(Del, a, b);
  }

  lemma {:induction false} SideOfOne(line: DiffLine)
    ensures OldSide([line]) == if line.kind != Add then [line] else []
    ensures NewSide([line]) == if line.kind != Del then [line] else []
  {
    assert [line][1..] == [] && [line] + [] == [line];
    assert Without(Add, []) == [] && Without(Del, []) == [];
  }

  /** Each side is numbered without gaps from where the header says; a line has no number on the other side. */
  ghost predicate Numbered(lines: seq<DiffLine>, o: nat, n: nat) {
    && (forall k | 0 <= k < |OldSide(lines)| :: OldSide(lines)[k].oldNo == Some(o + k))
    && (forall k | 0 <= k < |NewSide(lines)| :: NewSide(lines)[k].newNo == Some(n + k))
    && (forall i | 0 <= i < |lines| ::
          (lines[i].kind == Add ==> lines[i].oldNo.None?) && (lines[i].kind == Del ==> lines[i].newNo.None?))
  }

  function CountOf(kind: LineKind, lines: seq<DiffLine>): nat {
    if lines == [] then 0
    else CountOf(kind, lines[..|lines| - 1]) + if lines[|lines| - 1].kind == kind then 1 else 0
  }

  function CountIn(kind: LineKind, hunks: seq<Hunk>): nat {
    if hunks == [] then 0
    else CountIn(kind, hunks[..|hunks| - 1]) + CountOf(kind, hunks[|hunks| - 1].lines)
  }

  // ------------------------------------------------------------ hunk headers

  function DigitRun(s: string): (n: nat)
    ensures n <= |s|
    ensures forall i | 0 <= i < n :: '0' <= s[i] <= '9'
    ensures n < |s| ==> !('0' <= s[n] <= '9')
  {
    if s == "" || !('0' <= s[0] <= '9') then 0 else 1 + DigitRun(s[1..])
  }

  /** A number, perhaps with a comma and a count after it: the number and what follows. */
  function Range(s: string): Option<(nat, string)> {
    var n := DigitRun(s);
    if n == 0 then None
    else
      var rest := s[n..];
      var m := if rest != "" && rest[0] == ',' then DigitRun(rest[1..]) else 0;
      Some((Number(s[..n]), if m > 0 then rest[m + 1..] else rest))
  }

  function After(s: string, prefix: string): Option<string> {
    if |prefix| <= |s| && s[..|prefix|] == prefix then Some(s[|prefix|..]) else None
  }

  /** The line numbers in `@@ -a,b +c,d @@`. */
  function HunkStart(raw: string): Option<(nat, nat)> {
    match After(raw, "@@ -")
    case None => None
    case Some(s) =>
      match Range(s)
      case None => None
      case Some((o, t)) =>
        match After(t, " +")
        case None => None
        case Some(u) =>
          match Range(u)
          case None => None
          case Some((n, v)) => if After(v, " @@").Some? then Some((o, n)) else None
  }

  /** How a line is recognised as a hunk header; the parser uses `HunkStart`. */
  type Header = string -> Option<(nat, nat)>

  /** Headers start with an at sign, so no line of a hunk is one. */
  ghost predicate AtSign(start: Header) {
    forall raw | start(raw).Some? :: raw != "" && raw[0] == '@'
  }

  lemma HunkStartHasAtSign()
    ensures AtSign(HunkStart)
  {
    forall raw | HunkStart(raw).Some? ensures raw != "" && raw[0] == '@' {
      StartsLike(raw, "@@ -");
    }
  }

  lemma StartsLike(s: string, prefix: string)
    requires prefix != ""
    ensures After(s, prefix).Some? ==> s != "" && s[0] == prefix[0]
  {
    if After(s, prefix).Some? {
      assert s[..|prefix|][0] == s[0];
    }
  }

  // ------------------------------------------------------------ parsing

  datatype State = State(out: ParsedDiff, oldNo: nat, newNo: nat)

  const START := State(ParsedDiff(None, None, [], 0, 0), 0, 0)

  function Push(hunks: seq<Hunk>, line: DiffLine): seq<Hunk>
    requires hunks != []
  {
    var last := |hunks| - 1;
    hunks[last := hunks[last].(lines := hunks[last].lines + [line])]
  }

  function Tail(raw: string): string {
    if raw == "" then "" else raw[1..]
  }

  /** One line of input. */
  function Step(s: State, raw: string, start: Header): State {
    var inHunk := s.out.hunks != [];
    if !inHunk && After(raw, "--- ").Some? then s.(out := s.out.(oldPath := After(raw, "--- ")))
    else if !inHunk && After(raw, "+++ ").Some? then s.(out := s.out.(newPath := After(raw, "+++ ")))
    else if start(raw).Some? then
      var (o, n) := start(raw).value;
      State(s.out.(hunks := s.out.hunks + [Hunk(raw, [])]), o, n)
    else if !inHunk then s
    else if raw != "" && raw[0] == '+' then
      var line := DiffLine(Add, raw[1..], None, Some(s.newNo));
      State(s.out.(hunks := Push(s.out.hunks, line), added := s.out.added + 1), s.oldNo, s.newNo + 1)
    else if raw != "" && raw[0] == '-' then
      var line := DiffLine(Del, raw[1..], Some(s.oldNo), None);
      State(s.out.(hunks := Push(s.out.hunks, line), removed := s.out.removed + 1), s.oldNo + 1, s.newNo)
    else if raw != "" && raw[0] == '\\' then s
    else
      var line := DiffLine(Context, Tail(raw), Some(s.oldNo), Some(s.newNo));
      State(s.out.(hunks := Push(s.out.hunks, line)), s.oldNo + 1, s.newNo + 1)
  }

  function Run(lines: seq<string>, s: State, start: Header): State {
    if lines == [] then s else Run(lines[1..], Step(s, lines[0], start), start)
  }

  /** A hunk's sides are numbered from its header. */
  ghost predicate HunkOk(h: Hunk, start: Header) {
    start(h.header).Some? && Numbered(h.lines, start(h.header).value.0, start(h.header).value.1)
  }

  ghost predicate NextNumbers(h: Hunk, oldNo: nat, newNo: nat, start: Header) {
    start(h.header).Some?
    && oldNo == start(h.header).value.0 + |OldSide(h.lines)| && newNo == start(h.header).value.1 + |NewSide(h.lines)|
  }

  ghost predicate Counted(out: ParsedDiff) {
    out.added == CountIn(Add, out.hunks) && out.removed == CountIn(Del, out.hunks)
  }

  /** What holds between two lines of input. */
  ghost predicate Sound(s: State, start: Header) {
    && (forall h | h in s.out.hunks :: HunkOk(h, start))
    && (s.out.hunks != [] ==> NextNumbers(s.out.hunks[|s.out.hunks| - 1], s.oldNo, s.newNo, start))
    && Counted(s.out)
  }

  lemma {:induction false} LineNumbered(lines: seq<DiffLine>, line: DiffLine, o: nat, n: nat)
    requires Numbered(lines, o, n)
    requires line.oldNo == if line.kind == Add then None else Some(o + |OldSide(lines)|)
    requires line.newNo == if line.kind == Del then None else Some(n + |NewSide(lines)|)
    ensures Numbered(lines + [line], o, n)
    ensures |OldSide(lines + [line])| == |OldSide(lines)| + if line.kind == Add then 0 else 1
    ensures |NewSide(lines + [line])| == |NewSide(lines)| + if line.kind == Del then 0 else 1
  {
    hide OldSide, NewSide;
    SidesJoin(lines, [line]);
    SideOfOne(line);
  }

  lemma {:induction false} LineCounted(hunks: seq<Hunk>, line: DiffLine, kind: LineKind)
    requires hunks != []
    ensures CountIn(kind, Push(hunks, line)) == CountIn(kind, hunks) + if line.kind == kind then 1 else 0
  {
    var last := |hunks| - 1;
    assert Push(hunks, line)[..last] == hunks[..last];
    assert (hunks[last].lines + [line])[..|hunks[last].lines|] == hunks[last].lines;
  }

  lemma {:induction false} LinePushed(h: Hunk, line: DiffLine, oldNo: nat, newNo: nat, start: Header)
    requires HunkOk(h, start) && NextNumbers(h, oldNo, newNo, start)
    requires line.oldNo == if line.kind == Add then None else Some(oldNo)
    requires line.newNo == if line.kind == Del then None else Some(newNo)
    ensures HunkOk(h.(lines := h.lines + [line]), start)
    ensures NextNumbers(h.(lines := h.lines + [line]),
              oldNo + (if line.kind == Add then 0 else 1), newNo + (if line.kind == Del then 0 else 1), start)
  {
    hide Numbered, OldSide, NewSide;
    var (o, n) := start(h.header).value;
    LineNumbered(h.lines, line, o, n);
  }

  lemma {:induction false} PushKeeps(s: State, line: DiffLine, added: nat, removed: nat, start: Header)
    requires Sound(s, start) && s.out.hunks != []
    requires line.oldNo == if line.kind == Add then None else Some(s.oldNo)
    requires line.newNo == if line.kind == Del then None else Some(s.newNo)
    requires added == s.out.added + (if line.kind == Add then 1 else 0)
    requires removed == s.out.removed + (if line.kind == Del then 1 else 0)
    ensures Sound(State(
              s.out.(hunks := Push(s.out.hunks, line), added := added, removed := removed),
              s.oldNo + (if line.kind == Add then 0 else 1), s.newNo + (if line.kind == Del then 0 else 1)), start)
  {
    hide HunkOk, NextNumbers, CountIn;
    LinePushed(s.out.hunks[|s.out.hunks| - 1], line, s.oldNo, s.newNo, start);
    LineCounted(s.out.hunks, line, Add);
    LineCounted(s.out.hunks, line, Del);
  }

  lemma {:induction false} HunkKeeps(s: State, raw: string, start: Header)
    requires Sound(s, start) && start(raw).Some?
    ensures var (o, n) := start(raw).value;
            Sound(State(s.out.(hunks := s.out.hunks + [Hunk(raw, [])]), o, n), start)
  {
    var hunks := s.out.hunks + [Hunk(raw, [])];
    assert hunks[..|s.out.hunks|] == s.out.hunks;
    assert HunkOk(Hunk(raw, []), start);
  }

  lemma {:induction false} StepKeeps(s: State, raw: string, start: Header)
    requires Sound(s, start)
    ensures Sound(Step(s, raw, start), start)
  {
    hide HunkOk, NextNumbers, CountIn, After;
    var t := Step(s, raw, start);
    if t.out.hunks == s.out.hunks {
    } else if start(raw).Some? {
      HunkKeeps(s, raw, start);
    } else {
      var lines := t.out.hunks[|s.out.hunks| - 1].lines;
      PushKeeps(s, lines[|lines| - 1], t.out.added, t.out.removed, start);
    }
  }

  /** In every parsed diff each hunk's sides are numbered from its header, and the totals count its lines. */
  lemma {:induction false} RunKeeps(lines: seq<string>, s: State, start: Header)
    requires Sound(s, start)
    ensures Sound(Run(lines, s, start), start)
  {
    if lines != [] {
      StepKeeps(s, lines[0], start);
      RunKeeps(lines[1..], Step(s, lines[0], start), start);
    }
  }

  // ------------------------------------------------------------ the text

  /** `split("\n")`. */
  function Split(s: string): (lines: seq<string>)
    ensures lines != []
  {
    if s == "" then [""]
    else
      var rest := Split(s[1..]);
      if s[0] == '\n' then [""] + rest else [[s[0]] + rest[0]] + rest[1..]
  }

  function Stripped(diff: string): string {
    if diff != "" && diff[|diff| - 1] == '\n' then diff[..|diff| - 1] else diff
  }

  /** `parseDiff`. */
  method ParseDiff(diff: string) returns (out: ParsedDiff)
    ensures out == Run(Split(Stripped(diff)), START, HunkStart).out
    ensures forall h | h in out.hunks :: HunkOk(h, HunkStart)
    ensures Counted(out)
  {
    hide Step, HunkOk, CountIn;
    var lines := Split(Stripped(diff));
    var s := START;
    assert Sound(START, HunkStart) by { Begins(HunkStart); }
    RunKeeps(lines, START, HunkStart);
    for i := 0 to |lines|
      invariant Run(lines[i..], s, HunkStart) == Run(lines, START, HunkStart)
    {
      assert lines[i..][1..] == lines[i + 1..];
      s := Step(s, lines[i], HunkStart);
    }
    out := s.out;
  }

  lemma Begins(start: Header)
    ensures Sound(START, start)
  {}

  // ------------------------------------------------------------ printing, and reading it back

  function ShowLine(line: DiffLine): string {
    [match line.kind case Add => '+' case Del => '-' case Context => ' '] + line.text
  }

  function ShowLines(lines: seq<DiffLine>): seq<string> {
    if lines == [] then [] else [ShowLine(lines[0])] + ShowLines(lines[1..])
  }

  function ShowHunks(hunks: seq<Hunk>): seq<string> {
    if hunks == [] then [] else [hunks[0].header] + ShowLines(hunks[0].lines) + ShowHunks(hunks[1..])
  }

  function ShowPath(prefix: string, path: Option<string>): seq<string> {
    if path.Some? then [prefix + path.value] else []
  }

  /** A unified diff. */
  function Show(d: ParsedDiff): seq<string> {
    ShowPath("--- ", d.oldPath) + ShowPath("+++ ", d.newPath) + ShowHunks(d.hunks)
  }

  lemma {:induction false} RunJoins(a: seq<string>, b: seq<string>, s: State, start: Header)
    ensures Run(a + b, s, start) == Run(b, Run(a, s, start), start)
  {
    if a == [] {
      assert a + b == b;
    } else {
      assert (a + b)[1..] == a[1..] + b;
      RunJoins(a[1..], b, Step(s, a[0], start), start);
    }
  }

  /** The numbers from the front. */
  predicate NumberedFrom(lines: seq<DiffLine>, o: nat, n: nat) {
    lines == [] ||
    (&& lines[0].oldNo == (if lines[0].kind == Add then None else Some(o))
     && lines[0].newNo == (if lines[0].kind == Del then None else Some(n))
     && NumberedFrom(lines[1..], o + (if lines[0].kind == Add then 0 else 1), n + (if lines[0].kind == Del then 0 else 1)))
  }

  lemma {:induction false} NumberedFromFront(lines: seq<DiffLine>, o: nat, n: nat)
    requires Numbered(lines, o, n)
    ensures NumberedFrom(lines, o, n)
  {
    if lines != [] {
      var rest := lines[1..];
      var o', n' := o + (if lines[0].kind == Add then 0 else 1), n + (if lines[0].kind == Del then 0 else 1);
      assert lines[0].kind != Add ==> OldSide(lines) == [lines[0]] + OldSide(rest) && OldSide(lines)[0] == lines[0];
      assert lines[0].kind != Del ==> NewSide(lines) == [lines[0]] + NewSide(rest) && NewSide(lines)[0] == lines[0];
      forall k | 0 <= k < |OldSide(rest)| ensures OldSide(rest)[k].oldNo == Some(o' + k) {
        assert OldSide(rest)[k] == OldSide(lines)[k + (o' - o)];
      }
      forall k | 0 <= k < |NewSide(rest)| ensures NewSide(rest)[k].newNo == Some(n' + k) {
        assert NewSide(rest)[k] == NewSide(lines)[k + (n' - n)];
      }
      NumberedFromFront(rest, o', n');
    }
  }

  /** The state after a line of a hunk is read. */
  function WithLine(s: State, line: DiffLine): State
    requires s.out.hunks != []
  {
    State(
      s.out.(
        hunks := Push(s.out.hunks, line),
        added := s.out.added + (if line.kind == Add then 1 else 0),
        removed := s.out.removed + (if line.kind == Del then 1 else 0)),
      s.oldNo + (if line.kind == Add then 0 else 1), s.newNo + (if line.kind == Del then 0 else 1))
  }

  lemma {:induction false} LineReads(s: State, line: DiffLine, start: Header)
    requires AtSign(start)
    requires s.out.hunks != []
    requires line.oldNo == if line.kind == Add then None else Some(s.oldNo)
    requires line.newNo == if line.kind == Del then None else Some(s.newNo)
    ensures Step(s, ShowLine(line), start) == WithLine(s, line)
  {
    var raw := ShowLine(line);
    assert raw[1..] == line.text;
    assert start(raw).None?;
  }

  function Extended(hunks: seq<Hunk>, lines: seq<DiffLine>): seq<Hunk>
    requires hunks != []
  {
    var last := |hunks| - 1;
    hunks[last := hunks[last].(lines := hunks[last].lines + lines)]
  }

  lemma {:induction false} LinesRead(s: State, lines: seq<DiffLine>, start: Header)
    requires AtSign(start)
    requires s.out.hunks != [] && NumberedFrom(lines, s.oldNo, s.newNo)
    ensures Run(ShowLines(lines), s, start).out.hunks == Extended(s.out.hunks, lines)
    ensures Run(ShowLines(lines), s, start).out.oldPath == s.out.oldPath && Run(ShowLines(lines), s, start).out.newPath == s.out.newPath
    decreases |lines|
  {
    hide Step;
    if lines == [] {
      ExtendedByNone(s.out.hunks);
    } else {
      LineReads(s, lines[0], start);
      var t := WithLine(s, lines[0]);
      LinesRead(t, lines[1..], start);
      assert ShowLines(lines)[1..] == ShowLines(lines[1..]);
      ExtendedTwice(s.out.hunks, lines);
    }
  }

  lemma ExtendedByNone(hunks: seq<Hunk>)
    requires hunks != []
    ensures Extended(hunks, []) == hunks
  {
    var last := |hunks| - 1;
    assert hunks[last].lines + [] == hunks[last].lines;
  }

  lemma ExtendedTwice(hunks: seq<Hunk>, lines: seq<DiffLine>)
    requires hunks != [] && lines != []
    ensures Extended(Push(hunks, lines[0]), lines[1..]) == Extended(hunks, lines)
  {
    var last := |hunks| - 1;
    assert hunks[last].lines + [lines[0]] + lines[1..] == hunks[last].lines + lines;
  }

  lemma HeaderIsNoPath(raw: string)
    requires raw != "" && raw[0] == '@'
    ensures After(raw, "--- ").None? && After(raw, "+++ ").None?
  {
    hide After;
    StartsLike(raw, "--- ");
    StartsLike(raw, "+++ ");
  }

  /** The state after a hunk header is read. */
  function WithHeader(s: State, raw: string, start: Header): State
    requires start(raw).Some?
  {
    State(s.out.(hunks := s.out.hunks + [Hunk(raw, [])]), start(raw).value.0, start(raw).value.1)
  }

  lemma HeaderReads(s: State, raw: string, start: Header)
    requires AtSign(start)
    requires start(raw).Some?
    ensures Step(s, raw, start) == WithHeader(s, raw, start)
  {
    hide After;
    HeaderIsNoPath(raw);
  }

  lemma ExtendedNew(hunks: seq<Hunk>, h: Hunk)
    ensures Extended(hunks + [Hunk(h.header, [])], h.lines) == hunks + [h]
  {
    assert [] + h.lines == h.lines;
  }

  lemma {:induction false} HunkReads(s: State, h: Hunk, start: Header)
    requires AtSign(start)
    requires HunkOk(h, start)
    ensures var t := Run([h.header] + ShowLines(h.lines), s, start);
            && t.out.hunks == s.out.hunks + [h]
            && t.out.oldPath == s.out.oldPath && t.out.newPath == s.out.newPath
  {
    hide Step, Numbered, Extended, ShowLines;
    HeaderReads(s, h.header, start);
    var t := WithHeader(s, h.header, start);
    NumberedFromFront(h.lines, t.oldNo, t.newNo);
    LinesRead(t, h.lines, start);
    assert ([h.header] + ShowLines(h.lines))[1..] == ShowLines(h.lines);
    ExtendedNew(s.out.hunks, h);
  }

  lemma {:induction false} HunksRead(s: State, hunks: seq<Hunk>, start: Header)
    requires AtSign(start)
    requires forall h | h in hunks :: HunkOk(h, start)
    ensures var t := Run(ShowHunks(hunks), s, start);
            && t.out.hunks == s.out.hunks + hunks
            && t.out.oldPath == s.out.oldPath && t.out.newPath == s.out.newPath
    decreases |hunks|
  {
    hide HunkOk, Step;
    if hunks != [] {
      var first := [hunks[0].header] + ShowLines(hunks[0].lines);
      HunkReads(s, hunks[0], start);
      RunJoins(first, ShowHunks(hunks[1..]), s, start);
      HunksRead(Run(first, s, start), hunks[1..], start);
      assert s.out.hunks + [hunks[0]] + hunks[1..] == s.out.hunks + hunks;
    }
  }

  lemma PathsRead(oldPath: Option<string>, newPath: Option<string>, start: Header)
    requires AtSign(start)
    ensures Run(ShowPath("--- ", oldPath) + ShowPath("+++ ", newPath), START, start)
            == START.(out := START.out.(oldPath := oldPath, newPath := newPath))
  {
    var a, b := ShowPath("--- ", oldPath), ShowPath("+++ ", newPath);
    RunJoins(a, b, START, start);
    if oldPath.Some? {
      assert a[0][..4] == "--- " && a[0][4..] == oldPath.value;
      assert Run(a, START, start) == Step(START, a[0], start);
    }
    if newPath.Some? {
      assert b[0][..4] == "+++ " && b[0][4..] == newPath.value;
      assert b[0][0] == '+';
      assert Run(b, Run(a, START, start), start) == Step(Run(a, START, start), b[0], start);
    }
  }

  /** A well-numbered diff that is printed reads back as itself. */
  lemma {:induction false} ShowReadsBack(d: ParsedDiff, start: Header)
    requires AtSign(start)
    requires (forall h | h in d.hunks :: HunkOk(h, start)) && Counted(d)
    ensures Run(Show(d), START, start).out == d
  {
    hide HunkOk, Step, CountIn;
    var paths := ShowPath("--- ", d.oldPath) + ShowPath("+++ ", d.newPath);
    PathsRead(d.oldPath, d.newPath, start);
    RunJoins(paths, ShowHunks(d.hunks), START, start);
    var s := Run(paths, START, start);
    HunksRead(s, d.hunks, start);
    assert Sound(START, start) by { Begins(start); }
    RunKeeps(Show(d), START, start);
    assert [] + d.hunks == d.hunks;
  }

  // ------------------------------------------------------------ printed headers

  lemma {:induction false} DigitRunSkips(a: string, rest: string)
    requires forall i | 0 <= i < |a| :: '0' <= a[i] <= '9'
    ensures DigitRun(a + rest) == |a| + DigitRun(rest)
  {
    if a == "" {
      assert a + rest == rest;
    } else {
      assert (a + rest)[1..] == a[1..] + rest;
      DigitRunSkips(a[1..], rest);
    }
  }

  /** The count of a range, which may be left out. */
  function CountText(count: Option<nat>): string {
    if count.Some? then "," + Digits(count.value) else ""
  }

  predicate AllDigits(s: string) {
    forall i | 0 <= i < |s| :: '0' <= s[i] <= '9'
  }

  lemma {:induction false} RangeParts(a: string, tail: string)
    requires a != "" && AllDigits(a) && DigitRun(tail) == 0
    ensures var m := if tail != "" && tail[0] == ',' then DigitRun(tail[1..]) else 0;
            Range(a + tail) == Some((Number(a), if m > 0 then tail[m + 1..] else tail))
  {
    DigitRunSkips(a, tail);
    assert (a + tail)[..|a|] == a && (a + tail)[|a|..] == tail;
    hide Number, DigitRun;
  }

  lemma NoDigitFirst(s: string)
    requires s != "" && !('0' <= s[0] <= '9')
    ensures DigitRun(s) == 0
  {}

  lemma {:induction false} RangePlain(a: string, rest: string)
    requires a != "" && AllDigits(a) && rest != "" && !('0' <= rest[0] <= '9') && rest[0] != ','
    ensures Range(a + rest) == Some((Number(a), rest))
  {
    hide Number, Range, DigitRun;
    NoDigitFirst(rest);
    RangeParts(a, rest);
  }

  lemma {:induction false} RangeCounted(a: string, b: string, rest: string)
    requires a != "" && AllDigits(a) && b != "" && AllDigits(b) && rest != "" && !('0' <= rest[0] <= '9')
    ensures Range(a + ("," + (b + rest))) == Some((Number(a), rest))
  {
    hide Number, Range, DigitRun;
    var more := b + rest;
    var tail := "," + more;
    NoDigitFirst(tail);
    NoDigitFirst(rest);
    DigitRunSkips(b, rest);
    assert tail[1..] == more && tail[|b| + 1..] == more[|b|..] && more[|b|..] == rest;
    hide AllDigits;
    RangeParts(a, tail);
  }

  lemma {:induction false} RangeReads(n: nat, count: Option<nat>, rest: string)
    requires rest != "" && rest[0] == ' '
    ensures Range(Digits(n) + CountText(count) + rest) == Some((n, rest))
  {
    hide Range, Number, DigitRun;
    DigitsReadBack(n);
    if count.Some? {
      RangeCounted(Digits(n), Digits(count.value), rest);
      assert Digits(n) + CountText(count) + rest == Digits(n) + ("," + (Digits(count.value) + rest));
    } else {
      RangePlain(Digits(n), rest);
      assert Digits(n) + CountText(count) + rest == Digits(n) + rest;
    }
  }

  lemma AfterPrefix(prefix: string, rest: string)
    ensures After(prefix + rest, prefix) == Some(rest)
  {
    assert (prefix + rest)[..|prefix|] == prefix && (prefix + rest)[|prefix|..] == rest;
  }

  function HeaderText(o: nat, oldCount: Option<nat>, n: nat, newCount: Option<nat>, tail: string): string {
    "@@ -" + (Digits(o) + CountText(oldCount) + (" +" + (Digits(n) + CountText(newCount) + (" @@" + tail))))
  }

  /** The first number of a printed header is where the old side starts, the second where the new one does. */
  lemma {:induction false} PrintedHeaderReads(
      o: nat, oldCount: Option<nat>, n: nat, newCount: Option<nat>, tail: string)
    ensures HunkStart(HeaderText(o, oldCount, n, newCount, tail)) == Some((o, n))
  {
    hide Range, DigitRun, Digits, CountText, After;
    var last := " @@" + tail;
    var second := Digits(n) + CountText(newCount) + last;
    var mid := " +" + second;
    AfterPrefix("@@ -", Digits(o) + CountText(oldCount) + mid);
    RangeReads(o, oldCount, mid);
    AfterPrefix(" +", second);
    RangeReads(n, newCount, last);
    AfterPrefix(" @@", tail);
  }

  const NO_NEWLINE := "\\ No newline at end of file"

  /** A hunk as text: deletions take the old numbers, additions the new ones, context both. */
  lemma {:induction false} HunkTextReads(
      s: State, o: nat, oldCount: Option<nat>, n: nat, newCount: Option<nat>, tail: string, gone: string, come: string, kept: string)
    ensures var header := HeaderText(o, oldCount, n, newCount, tail);
            var after := Run([header, "-" + gone, "+" + come, NO_NEWLINE, " " + kept], s, HunkStart);
            && after.out.hunks == s.out.hunks + [Hunk(header, [
                 DiffLine(Del, gone, Some(o), None), DiffLine(Add, come, None, Some(n)),
                 DiffLine(Context, kept, Some(o + 1), Some(n + 1))])]
            && after.out.added == s.out.added + 1 && after.out.removed == s.out.removed + 1
            && after.out.oldPath == s.out.oldPath && after.out.newPath == s.out.newPath
  {
    hide HunkStart, HeaderText, Step;
    var header := HeaderText(o, oldCount, n, newCount, tail);
    PrintedHeaderReads(o, oldCount, n, newCount, tail);
    HunkStartHasAtSign();
    HeaderReads(s, header, HunkStart);
    FiveSteps(header, "-" + gone, "+" + come, NO_NEWLINE, " " + kept, s, HunkStart);
    ThreeLinesRead(WithHeader(s, header, HunkStart), s, o, n, header, gone, come, kept, HunkStart);
  }

  lemma ThreeLinesRead(
      s1: State, s: State, o: nat, n: nat, header: string, gone: string, come: string, kept: string, start: Header)
    requires AtSign(start) && s1 == State(s.out.(hunks := s.out.hunks + [Hunk(header, [])]), o, n)
    ensures var after := Step(Step(Step(Step(s1, "-" + gone, start), "+" + come, start), NO_NEWLINE, start), " " + kept, start);
            && after.out.hunks == s.out.hunks + [Hunk(header, [
                 DiffLine(Del, gone, Some(o), None), DiffLine(Add, come, None, Some(n)),
                 DiffLine(Context, kept, Some(o + 1), Some(n + 1))])]
            && after.out.added == s.out.added + 1 && after.out.removed == s.out.removed + 1
            && after.out.oldPath == s.out.oldPath && after.out.newPath == s.out.newPath
  {
    hide Step;
    var del, add := DiffLine(Del, gone, Some(o), None), DiffLine(Add, come, None, Some(n));
    var ctx := DiffLine(Context, kept, Some(o + 1), Some(n + 1));
    LineReads(s1, del, start);
    var s2 := WithLine(s1, del);
    LineReads(s2, add, start);
    var s3 := WithLine(s2, add);
    NoNewlineReads(s3, start);
    LineReads(s3, ctx, start);
    var s4 := WithLine(s3, ctx);
    PushLast(s.out.hunks, Hunk(header, []), del);
    PushLast(s.out.hunks, Hunk(header, [del]), add);
    PushLast(s.out.hunks, Hunk(header, [del, add]), ctx);
    assert [] + [del] == [del] && [del] + [add] == [del, add] && [del, add] + [ctx] == [del, add, ctx];
    assert s2.out.hunks == s.out.hunks + [Hunk(header, [del])];
    assert s3.out.hunks == s.out.hunks + [Hunk(header, [del, add])];
    assert s4.out.hunks == s.out.hunks + [Hunk(header, [del, add, ctx])];
  }

  lemma PushLast(hunks: seq<Hunk>, h: Hunk, line: DiffLine)
    ensures Push(hunks + [h], line) == hunks + [h.(lines := h.lines + [line])]
  {}

  lemma NoNewlineReads(s: State, start: Header)
    requires AtSign(start) && s.out.hunks != []
    ensures Step(s, NO_NEWLINE, start) == s
  {
    assert NO_NEWLINE[0] == '\\';
  }

  lemma RunCons(raw: string, rest: seq<string>, s: State, start: Header)
    ensures Run([raw] + rest, s, start) == Run(rest, Step(s, raw, start), start)
  {
    assert ([raw] + rest)[1..] == rest;
  }

  lemma FiveSteps(a: string, b: string, c: string, d: string, e: string, s: State, start: Header)
    ensures Run([a, b, c, d, e], s, start) == Step(Step(Step(Step(Step(s, a, start), b, start), c, start), d, start), e, start)
  {
    hide Step, Run;
    var s1 := Step(s, a, start);
    var s2 := Step(s1, b, start);
    var s3 := Step(s2, c, start);
    assert [a, b, c, d, e] == [a] + [b, c, d, e] && [b, c, d, e] == [b] + [c, d, e] && [c, d, e] == [c] + [d, e];
    RunCons(a, [b, c, d, e], s, start);
    RunCons(b, [c, d, e], s1, start);
    RunCons(c, [d, e], s2, start);
    assert [d, e] == [d] + [e] && [e] == [e] + [];
    RunCons(d, [e], s3, start);
    RunCons(e, [], Step(s3, d, start), start);
    NothingRuns(Step(Step(s3, d, start), e, start), start);
  }

  lemma NothingRuns(s: State, start: Header)
    ensures Run([], s, start) == s
  {}

  // ------------------------------------------------------------ two columns

  datatype SideRow = SideRow(left: Option<DiffLine>, right: Option<DiffLine>)

  function Left(rows: seq<SideRow>): seq<DiffLine> {
    if rows == [] then []
    else if rows[0].left.None? then Left(rows[1..])
    else [rows[0].left.value] + Left(rows[1..])
  }

  function Right(rows: seq<SideRow>): seq<DiffLine> {
    if rows == [] then []
    else if rows[0].right.None? then Right(rows[1..])
    else [rows[0].right.value] + Right(rows[1..])
  }

  /** Context on both sides, or a deletion beside an addition, either of which may be missing. */
  predicate RowOk(row: SideRow) {
    || (row.left.Some? && row.left.value.kind == Context && row.right == row.left)
    || ((row.left.Some? || row.right.Some?)
        && (row.left.Some? ==> row.left.value.kind == Del) && (row.right.Some? ==> row.right.value.kind == Add))
  }

  lemma {:induction false} ColumnsSnoc(rows: seq<SideRow>, row: SideRow)
    ensures Left(rows + [row]) == Left(rows) + (if row.left.Some? then [row.left.value] else [])
    ensures Right(rows + [row]) == Right(rows) + (if row.right.Some? then [row.right.value] else [])
  {
    if rows == [] {
      assert rows + [row] == [row] && [row][1..] == [];
    } else {
      assert (rows + [row])[1..] == rows[1..] + [row];
      ColumnsSnoc(rows[1..], row);
    }
  }

  /** The lines from `i` on that have one kind. */
  method TakeRun(lines: seq<DiffLine>, from: nat, kind: LineKind) returns (run: seq<DiffLine>, i: nat)
    requires from <= |lines|
    ensures from <= i <= |lines| && run == lines[from..i]
    ensures forall k | 0 <= k < |run| :: run[k].kind == kind
    ensures i < |lines| ==> lines[i].kind != kind
  {
    i := from;
    while i < |lines| && lines[i].kind == kind
      invariant from <= i <= |lines|
      invariant forall k | from <= k < i :: lines[k].kind == kind
    {
      i := i + 1;
    }
    run := lines[from..i];
  }

  lemma {:induction false} RunSides(run: seq<DiffLine>, kind: LineKind)
    requires forall k | 0 <= k < |run| :: run[k].kind == kind
    ensures OldSide(run) == if kind == Add then [] else run
    ensures NewSide(run) == if kind == Del then [] else run
  {
    if run != [] {
      RunSides(run[1..], kind);
      assert [run[0]] + run[1..] == run;
    }
  }

  function PairRow(dels: seq<DiffLine>, adds: seq<DiffLine>, k: nat): SideRow {
    SideRow(if k < |dels| then Some(dels[k]) else None, if k < |adds| then Some(adds[k]) else None)
  }

  function Min(a: nat, b: nat): nat {
    if a < b then a else b
  }

  lemma {:induction false} PairColumns(dels: seq<DiffLine>, adds: seq<DiffLine>, rows: seq<SideRow>)
    requires forall k | 0 <= k < |rows| :: rows[k] == PairRow(dels, adds, k)
    ensures Left(rows) == dels[..Min(|rows|, |dels|)] && Right(rows) == adds[..Min(|rows|, |adds|)]
    decreases |rows|
  {
    if rows != [] {
      var n := |rows| - 1;
      var row := rows[n];
      PairColumns(dels, adds, rows[..n]);
      ColumnsSnoc(rows[..n], row);
      assert rows == rows[..n] + [row];
    }
  }

  /** Deletions and additions, row by row. */
  method Pair(dels: seq<DiffLine>, adds: seq<DiffLine>) returns (rows: seq<SideRow>)
    requires forall k | 0 <= k < |dels| :: dels[k].kind == Del
    requires forall k | 0 <= k < |adds| :: adds[k].kind == Add
    ensures Left(rows) == dels && Right(rows) == adds
    ensures forall k | 0 <= k < |rows| :: RowOk(rows[k]) && rows[k] == PairRow(dels, adds, k)
    ensures |rows| == if |dels| > |adds| then |dels| else |adds|
  {
    hide Left, Right;
    var n := if |dels| > |adds| then |dels| else |adds|;
    rows := [];
    for k := 0 to n
      invariant |rows| == k
      invariant forall j | 0 <= j < k :: rows[j] == PairRow(dels, adds, j)
    {
      rows := rows + [PairRow(dels, adds, k)];
    }
    PairColumns(dels, adds, rows);
  }

  lemma {:induction false} LeftJoins(a: seq<SideRow>, b: seq<SideRow>)
    ensures Left(a + b) == Left(a) + Left(b)
  {
    if a == [] {
      assert a + b == b;
    } else {
      assert (a + b)[1..] == a[1..] + b;
      LeftJoins(a[1..], b);
    }
  }

  lemma {:induction false} RightJoins(a: seq<SideRow>, b: seq<SideRow>)
    ensures Right(a + b) == Right(a) + Right(b)
  {
    if a == [] {
      assert a + b == b;
    } else {
      assert (a + b)[1..] == a[1..] + b;
      RightJoins(a[1..], b);
    }
  }

  /** `rows` lay out `lines`. */
  ghost predicate Laid(rows: seq<SideRow>, lines: seq<DiffLine>) {
    Left(rows) == OldSide(lines) && Right(rows) == NewSide(lines) && forall k | 0 <= k < |rows| :: RowOk(rows[k])
  }

  lemma {:induction false} ContextLaid(rows: seq<SideRow>, lines: seq<DiffLine>, i: nat)
    requires i < |lines| && lines[i].kind == Context && Laid(rows, lines[..i])
    ensures Laid(rows + [SideRow(Some(lines[i]), Some(lines[i]))], lines[..i + 1])
  {
    hide Left, Right, OldSide, NewSide;
    var line := lines[i];
    ColumnsSnoc(rows, SideRow(Some(line), Some(line)));
    SidesJoin(lines[..i], [line]);
    SideOfOne(line);
    assert lines[..i + 1] == lines[..i] + [line];
  }

  lemma {:induction false} RunsLaid(rows: seq<SideRow>, paired: seq<SideRow>, lines: seq<DiffLine>, i: nat, j: nat, k: nat)
    requires i <= j <= k <= |lines| && Laid(rows, lines[..i])
    requires forall x | x in lines[i..j] :: x.kind == Del
    requires forall x | x in lines[j..k] :: x.kind == Add
    requires Left(paired) == lines[i..j] && Right(paired) == lines[j..k] && forall r | r in paired :: RowOk(r)
    ensures Laid(rows + paired, lines[..k])
  {
    hide Left, Right, OldSide, NewSide;
    var dels, adds := lines[i..j], lines[j..k];
    LeftJoins(rows, paired);
    RightJoins(rows, paired);
    RunSides(dels, Del);
    RunSides(adds, Add);
    SidesJoin(dels, adds);
    SidesJoin(lines[..i], dels + adds);
    assert lines[..k] == lines[..i] + (dels + adds);
    assert dels + [] == dels && [] + adds == adds;
  }

  /** `sideBySide`: the left column is the old side and the right column the new side, in order, none lost. */
  method SideBySide(lines: seq<DiffLine>) returns (rows: seq<SideRow>)
    ensures Left(rows) == OldSide(lines) && Right(rows) == NewSide(lines)
    ensures forall k | 0 <= k < |rows| :: RowOk(rows[k])
  {
    hide Left, Right, OldSide, NewSide;
    rows := [];
    var i := 0;
    Empty();
    while i < |lines|
      invariant 0 <= i <= |lines|
      invariant Laid(rows, lines[..i])
      decreases |lines| - i
    {
      var line := lines[i];
      if line.kind == Context {
        ContextLaid(rows, lines, i);
        rows := rows + [SideRow(Some(line), Some(line))];
        i := i + 1;
        continue;
      }
      var dels, j := TakeRun(lines, i, Del);
      var adds, k := TakeRun(lines, j, Add);
      var paired := Pair(dels, adds);
      RunsLaid(rows, paired, lines, i, j, k);
      rows := rows + paired;
      i := k;
    }
    assert lines[..|lines|] == lines;
  }

  lemma Empty()
    ensures Left([]) == OldSide([]) == [] && Right([]) == NewSide([]) == []
  {}
}
