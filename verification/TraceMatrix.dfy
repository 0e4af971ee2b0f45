/** The traceability document: printed as three Markdown tables, read back with the baseline parser. */
module TraceMatrix {
  import opened Common
  import opened Markdown
  import I = IdList

  type Phase = n: nat | n <= 9

  datatype ReqRow = ReqRow(id: string, packages: seq<string>, tests: seq<string>)
  datatype PkgRow = PkgRow(
    id: string, phase: Phase, size: string, prereq: seq<string>, tests: seq<string>, requirements: seq<string>)
  datatype TestRow = TestRow(id: string, phase: Phase, packages: seq<string>, requirements: seq<string>)

  datatype Matrix = Matrix(requirements: seq<ReqRow>, packages: seq<PkgRow>, tests: seq<TestRow>, problems: nat)

  /** The fixed sentences, headings and column names of the document. */
  datatype Titles = Titles(
    prelude: seq<string>, headings: seq<string>, columns: seq<seq<string>>, summary: Matrix -> string)

  predicate PlainLine(line: string) {
    OneLine(line) && !IsRow(line)
  }

  /** One-line sentences that are not rows, and titles that survive stripping, as those of the document are. */
  ghost predicate PlainTitles(t: Titles) {
    && (forall i :: 0 <= i < |t.prelude| ==> PlainLine(t.prelude[i]))
    && (forall m :: PlainLine(t.summary(m)))
    && |t.headings| == 3 && |t.columns| == 3
    && (forall i :: 0 <= i < 3 ==>
          t.headings[i] != [] && OneLine(t.headings[i]) && Strip(t.headings[i]) == t.headings[i])
    && forall i :: 0 <= i < 3 ==> t.columns[i] != [] && CleanRow(t.columns[i])
  }

  predicate CleanCell(c: string) {
    Clean(c) && OneLine(c)
  }

  predicate CleanRow(cells: seq<string>) {
    forall i :: 0 <= i < |cells| ==> CleanCell(cells[i])
  }

  function IdCell(ids: seq<string>): string {
    Join(ids, I.COMMA)
  }

  const DASH := ['\U{2014}']

  function PrereqCell(ids: seq<string>): string {
    if IdCell(ids) == [] then DASH else IdCell(ids)
  }

  function ReqCells(r: ReqRow): seq<string> {
    [r.id, IdCell(r.packages), IdCell(r.tests)]
  }

  function PkgCells(p: PkgRow): seq<string> {
    [p.id, [I.DigitChar(p.phase)], p.size, PrereqCell(p.prereq), IdCell(p.tests), IdCell(p.requirements)]
  }

  function TestCells(t: TestRow): seq<string> {
    [t.id, [I.DigitChar(t.phase)], IdCell(t.packages), IdCell(t.requirements)]
  }

  // ---------------------------------------------------------------- the document

  function Dashes(n: nat): string {
    if n == 0 then [] else Dashes(n - 1) + ['-', '-', '-', '|']
  }

  /** `|---|---|`, one group a column. */
  function Separator(columns: nat): string {
    ['|'] + Dashes(columns)
  }

  function Heading(title: string): string {
    ['#', '#', ' '] + title
  }

  function RowLines(rows: seq<seq<string>>): seq<string>
    requires forall i :: 0 <= i < |rows| ==> rows[i] != []
  {
    seq(|rows|, i requires 0 <= i < |rows| => RenderRow(rows[i]))
  }

  ghost predicate Filled(rows: seq<seq<string>>) {
    forall i :: 0 <= i < |rows| ==> rows[i] != []
  }

  function Intro(title: string, columns: seq<string>): seq<string>
    requires columns != []
  {
    [Heading(title), [], RenderRow(columns), Separator(|columns|)]
  }

  /** Heading, blank line, header, separator, rows, blank line. */
  function Section(title: string, columns: seq<string>, rows: seq<seq<string>>): seq<string>
    requires columns != [] && Filled(rows)
  {
    Intro(title, columns) + RowLines(rows) + [[]]
  }

  function ReqRows(m: Matrix): (r: seq<seq<string>>)
    ensures Filled(r) && |r| == |m.requirements|
  {
    seq(|m.requirements|, i requires 0 <= i < |m.requirements| => ReqCells(m.requirements[i]))
  }

  function PkgRows(m: Matrix): (r: seq<seq<string>>)
    ensures Filled(r) && |r| == |m.packages|
  {
    seq(|m.packages|, i requires 0 <= i < |m.packages| => PkgCells(m.packages[i]))
  }

  function TestRows(m: Matrix): (r: seq<seq<string>>)
    ensures Filled(r) && |r| == |m.tests|
  {
    seq(|m.tests|, i requires 0 <= i < |m.tests| => TestCells(m.tests[i]))
  }

  /** All lines but the empty one at the very end. */
  function Lines(m: Matrix, t: Titles): seq<string>
    requires PlainTitles(t)
  {
    t.prelude
    + (Section(t.headings[0], t.columns[0], ReqRows(m))
       + (Section(t.headings[1], t.columns[1], PkgRows(m))
          + (Section(t.headings[2], t.columns[2], TestRows(m)) + [t.summary(m)])))
  }

  method AppendRequirements(lines: seq<string>, m: Matrix) returns (more: seq<string>)
    ensures more == lines + RowLines(ReqRows(m))
  {
    hide RenderRow;
    more := lines;
    for i := 0 to |m.requirements|
      invariant more == lines + RowLines(ReqRows(m)[..i])
    {
      more := more + [RenderRow(ReqCells(m.requirements[i]))];
    }
    assert ReqRows(m)[..|m.requirements|] == ReqRows(m);
  }

  method AppendPackages(lines: seq<string>, m: Matrix) returns (more: seq<string>)
    ensures more == lines + RowLines(PkgRows(m))
  {
    hide RenderRow;
    more := lines;
    for i := 0 to |m.packages|
      invariant more == lines + RowLines(PkgRows(m)[..i])
    {
      more := more + [RenderRow(PkgCells(m.packages[i]))];
    }
    assert PkgRows(m)[..|m.packages|] == PkgRows(m);
  }

  method AppendTests(lines: seq<string>, m: Matrix) returns (more: seq<string>)
    ensures more == lines + RowLines(TestRows(m))
  {
    hide RenderRow;
    more := lines;
    for i := 0 to |m.tests|
      invariant more == lines + RowLines(TestRows(m)[..i])
    {
      more := more + [RenderRow(TestCells(m.tests[i]))];
    }
    assert TestRows(m)[..|m.tests|] == TestRows(m);
  }

  lemma SectionAppended(lines: seq<string>, title: string, columns: seq<string>, rows: seq<seq<string>>)
    requires columns != [] && Filled(rows)
    ensures lines + Intro(title, columns) + RowLines(rows) + [[]] == lines + Section(title, columns, rows)
  {
    hide Intro, RowLines;
  }

  lemma Regrouped(p: seq<string>, a: seq<string>, b: seq<string>, c: seq<string>, last: string)
    ensures p + a + b + c + [last, []] == p + (a + (b + (c + [last]))) + [[]]
  {
  }

  /** `render`: collects the lines, then joins them. */
  method Render(m: Matrix, t: Titles) returns (s: string)
    requires PlainTitles(t)
    ensures s == Join(Lines(m, t) + [[]], ['\n'])
  {
    var lines := AppendRequirements(t.prelude + Intro(t.headings[0], t.columns[0]), m);
    SectionAppended(t.prelude, t.headings[0], t.columns[0], ReqRows(m));
    SectionAppended(t.prelude + Section(t.headings[0], t.columns[0], ReqRows(m)), t.headings[1], t.columns[1],
                    PkgRows(m));
    SectionAppended(
      t.prelude + Section(t.headings[0], t.columns[0], ReqRows(m)) + Section(t.headings[1], t.columns[1], PkgRows(m)),
      t.headings[2], t.columns[2], TestRows(m));
    hide Section, Intro, RowLines, Join, ReqRows, PkgRows, TestRows, PlainTitles;
    lines := lines + [[]];
    lines := AppendPackages(lines + Intro(t.headings[1], t.columns[1]), m);
    lines := lines + [[]];
    lines := AppendTests(lines + Intro(t.headings[2], t.columns[2]), m);
    lines := lines + [[]];
    Regrouped(t.prelude, Section(t.headings[0], t.columns[0], ReqRows(m)),
              Section(t.headings[1], t.columns[1], PkgRows(m)), Section(t.headings[2], t.columns[2], TestRows(m)),
              t.summary(m));
    lines := lines + [t.summary(m), []];
    s := Join(lines, ['\n']);
  }

  // ---------------------------------------------------------------- lines come back

  lemma {:induction false} FirstBreakOf(l: string, rest: string)
    requires OneLine(l)
    ensures FirstBreak(l + ['\n'] + rest) == |l|
  {
    var s := l + ['\n'] + rest;
    if l == [] {
    } else {
      FirstBreakOf(l[1..], rest);
      assert s[1..] == l[1..] + ['\n'] + rest;
    }
  }

  lemma LineComesOff(l: string, rest: string)
    requires OneLine(l)
    ensures SplitLines(l + ['\n'] + rest) == [l] + SplitLines(rest)
  {
    var s := l + ['\n'] + rest;
    FirstBreakOf(l, rest);
    assert s[..|l|] == l && s[|l|] == '\n' && s[|l| + 1..] == rest;
  }

  /** Joined lines with a final line break split into the same lines. */
  lemma {:induction false} LinesComeBack(lines: seq<string>)
    requires lines != [] && forall i :: 0 <= i < |lines| ==> OneLine(lines[i])
    ensures SplitLines(Join(lines + [[]], ['\n'])) == lines
  {
    var rest := lines[1..] + [[]];
    assert lines + [[]] == [lines[0]] + rest && lines == [lines[0]] + lines[1..];
    assert rest == [[]] ==> Join(rest, ['\n']) == [] && SplitLines([]) == lines[1..];
    hide SplitLines, OneLine;
    JoinStep(lines[0], rest);
    hide Join;
    LineComesOff(lines[0], Join(rest, ['\n']));
    if |lines| <= 1 {
    } else {
      LinesComeBack(lines[1..]);
    }
  }

  // ---------------------------------------------------------------- sections parse

  lemma HeadingComesBack(title: string)
    requires title != [] && Strip(title) == title
    ensures HeadingAfter(Heading(title), []) == title && IsHeading(Heading(title)) && !IsRow(Heading(title))
  {
    var line := Heading(title);
    assert line[1..] == ['#', ' '] + title && line[1..][1..] == [' '] + title;
    assert DropHashes([' '] + title) == [' '] + title;
    assert DropHashes(line[1..]) == [' '] + title;
    assert LStrip([' '] + title) == LStrip(title) by {
      assert ([' '] + title)[1..] == title;
    }
  }

  lemma SeparatorRecognised(n: nat)
    requires n > 0
    ensures IsSeparator(Separator(n)) && OneLine(Separator(n))
  {
    DashesStart(n);
    var line := Separator(n);
    assert line[0] == '|' && line[1..] == Dashes(n);
    assert LStrip(line) == line && LStrip(line[1..]) == line[1..];
  }

  lemma {:induction false} DashesStart(n: nat)
    requires n > 0
    ensures |Dashes(n)| >= 3 && Dashes(n)[0] == '-' && Dashes(n)[1] == '-' && Dashes(n)[2] == '-'
    ensures OneLine(Dashes(n))
  {
    if n <= 1 {
    } else {
      DashesStart(n - 1);
    }
  }

  lemma {:induction false} RunOfRows(rows: seq<string>, rest: seq<string>)
    requires forall i :: 0 <= i < |rows| ==> IsRow(rows[i])
    requires rest != [] && !IsRow(rest[0])
    ensures RowRun(rows + rest) == |rows|
  {
    hide IsRow;
    if rows == [] {
      assert rows + rest == rest;
    } else {
      RunOfRows(rows[1..], rest);
      assert (rows + rest)[1..] == rows[1..] + rest;
    }
  }

  lemma LinePassed(line: string, rest: seq<string>, heading: string)
    requires !IsRow(line)
    ensures Tables([line] + rest, heading) == Tables(rest, HeadingAfter(line, heading))
  {
    assert ([line] + rest)[1..] == rest;
    hide IsRow, IsSeparator, HeadingAfter;
  }

  /** The heading in force after lines that are not rows. */
  function HeadingThrough(lines: seq<string>, heading: string): string {
    if lines == [] then heading else HeadingThrough(lines[1..], HeadingAfter(lines[0], heading))
  }

  lemma {:induction false} PreludePassed(prelude: seq<string>, rest: seq<string>, heading: string)
    requires forall i :: 0 <= i < |prelude| ==> !IsRow(prelude[i])
    ensures Tables(prelude + rest, heading) == Tables(rest, HeadingThrough(prelude, heading))
  {
    hide IsRow, Tables, HeadingAfter;
    if prelude == [] {
      assert prelude + rest == rest;
    } else {
      assert prelude + rest == [prelude[0]] + (prelude[1..] + rest);
      LinePassed(prelude[0], prelude[1..] + rest, heading);
      PreludePassed(prelude[1..], rest, HeadingAfter(prelude[0], heading));
    }
  }

  lemma HeadingWins(line: string, a: string, b: string)
    requires IsHeading(line)
    ensures HeadingAfter(line, a) == HeadingAfter(line, b)
  {
  }

  lemma TableTaken(header: string, sep: string, rows: seq<string>, rest: seq<string>, heading: string)
    requires IsRow(header) && !IsHeading(header) && IsSeparator(sep)
    requires (forall i :: 0 <= i < |rows| ==> IsRow(rows[i])) && rest != [] && !IsRow(rest[0])
    ensures Tables([header, sep] + rows + rest, heading)
      == [Table(heading, SplitRow(header), SplitRows(rows))] + Tables(rest, heading)
  {
    hide IsRow, IsSeparator, SplitRow, IsHeading, SplitRows;
    var lines := [header, sep] + rows + rest;
    assert lines[2..] == rows + rest;
    RunOfRows(rows, rest);
    var n := 2 + |rows|;
    assert lines[2..n] == rows && lines[n..] == rest;
    assert lines[0] == header && lines[1] == sep;
    hide RowRun;
  }

  /** A section parses to its table, whatever its cells hold; parsing goes on below its heading. */
  lemma SectionParses(title: string, columns: seq<string>, rows: seq<seq<string>>, rest: seq<string>, heading: string)
    requires title != [] && Strip(title) == title && columns != [] && Filled(rows)
    ensures Tables(Section(title, columns, rows) + rest, heading)
      == [Table(title, SplitRow(RenderRow(columns)), SplitRows(RowLines(rows)))] + Tables(rest, title)
  {
    HeadingComesBack(title);
    HeadingWins(Heading(title), heading, []);
    BodyOfRow(columns);
    SeparatorRecognised(|columns|);
    RowsAreRows(rows);
    assert !IsRow([]) && !IsHeading(RenderRow(columns));
    hide IsRow, IsSeparator, RenderRow, Separator, Heading, Strip, Tables;
    var header, sep, lines := RenderRow(columns), Separator(|columns|), RowLines(rows);
    var after := [[]] + rest;
    assert Section(title, columns, rows) + rest == [Heading(title)] + ([[]] + ([header, sep] + lines + after));
    LinePassed(Heading(title), [[]] + ([header, sep] + lines + after), heading);
    LinePassed([], [header, sep] + lines + after, title);
    TableTaken(header, sep, lines, after, title);
    LinePassed([], rest, title);
  }

  lemma RowsAreRows(rows: seq<seq<string>>)
    requires Filled(rows)
    ensures forall i :: 0 <= i < |rows| ==> IsRow(RowLines(rows)[i])
  {
    hide IsRow, RenderRow;
    forall i | 0 <= i < |rows| ensures IsRow(RowLines(rows)[i]) {
      BodyOfRow(rows[i]);
    }
  }

  // ---------------------------------------------------------------- the round trip

  function Parsed(rows: seq<seq<string>>): seq<seq<string>>
    requires Filled(rows)
  {
    SplitRows(RowLines(rows))
  }

  /** The tables a reader should find. */
  function Expected(m: Matrix, t: Titles): seq<Table>
    requires PlainTitles(t)
  {
    [Table(t.headings[0], t.columns[0], ReqRows(m)), Table(t.headings[1], t.columns[1], PkgRows(m)),
     Table(t.headings[2], t.columns[2], TestRows(m))]
  }

  ghost predicate AllClean(rows: seq<seq<string>>) {
    forall i :: 0 <= i < |rows| ==> CleanRow(rows[i])
  }

  ghost predicate AllOneLine(rows: seq<seq<string>>) {
    forall i :: 0 <= i < |rows| ==> forall j :: 0 <= j < |rows[i]| ==> OneLine(rows[i][j])
  }

  /** The section of one of the document's own headings. */
  lemma OwnSectionParses(t: Titles, i: nat, rows: seq<seq<string>>, rest: seq<string>, heading: string)
    requires PlainTitles(t) && i < 3 && Filled(rows)
    ensures Tables(Section(t.headings[i], t.columns[i], rows) + rest, heading)
      == [Table(t.headings[i], t.columns[i], Parsed(rows))] + Tables(rest, t.headings[i])
  {
    HeadersComeBack(t);
    hide Section, Tables, SplitRow, RenderRow, RowLines, SplitRows, Filled, Strip, CleanRow;
    SectionParses(t.headings[i], t.columns[i], rows, rest, heading);
  }

  lemma SummaryEnds(t: Titles, m: Matrix, heading: string)
    requires PlainTitles(t)
    ensures Tables([t.summary(m)], heading) == []
  {
    hide Tables, IsRow, HeadingAfter;
    assert [t.summary(m)] == [t.summary(m)] + [];
    LinePassed(t.summary(m), [], heading);
    NoLines(HeadingAfter(t.summary(m), heading));
  }

  lemma RowsFilled(m: Matrix)
    ensures Filled(ReqRows(m)) && Filled(PkgRows(m)) && Filled(TestRows(m))
  {
  }

  lemma LinesParse(m: Matrix, t: Titles)
    requires PlainTitles(t)
    ensures Tables(Lines(m, t), []) == [
      Table(t.headings[0], t.columns[0], Parsed(ReqRows(m))), Table(t.headings[1], t.columns[1], Parsed(PkgRows(m))),
      Table(t.headings[2], t.columns[2], Parsed(TestRows(m)))]
  {
    RowsFilled(m);
    PreludeHasNoRows(t);
    hide Section, Tables, PlainTitles, Filled, ReqRows, PkgRows, TestRows, HeadingThrough, Parsed;
    var third := Section(t.headings[2], t.columns[2], TestRows(m)) + [t.summary(m)];
    var second := Section(t.headings[1], t.columns[1], PkgRows(m)) + third;
    var first := Section(t.headings[0], t.columns[0], ReqRows(m)) + second;
    PreludePassed(t.prelude, first, []);
    OwnSectionParses(t, 0, ReqRows(m), second, HeadingThrough(t.prelude, []));
    OwnSectionParses(t, 1, PkgRows(m), third, t.headings[0]);
    OwnSectionParses(t, 2, TestRows(m), [t.summary(m)], t.headings[1]);
    SummaryEnds(t, m, t.headings[2]);
  }

  lemma PreludeHasNoRows(t: Titles)
    requires PlainTitles(t)
    ensures forall i :: 0 <= i < |t.prelude| ==> !IsRow(t.prelude[i])
    ensures |t.headings| == 3 && |t.columns| == 3
  {
  }

  lemma JoinStep(line: string, rest: seq<string>)
    requires rest != []
    ensures Join([line] + rest, ['\n']) == line + ['\n'] + Join(rest, ['\n'])
  {
    assert ([line] + rest)[1..] == rest;
  }

  lemma NoLines(heading: string)
    ensures Tables([], heading) == []
  {
  }

  lemma HeadersComeBack(t: Titles)
    requires PlainTitles(t)
    ensures forall i :: 0 <= i < 3 ==> SplitRow(RenderRow(t.columns[i])) == t.columns[i]
  {
    forall i | 0 <= i < 3 ensures SplitRow(RenderRow(t.columns[i])) == t.columns[i] {
      RowRoundTrip(t.columns[i]);
      assert forall j :: 0 <= j < |t.columns[i]| ==> CleanCell(t.columns[i][j]);
    }
  }

  lemma RowsRoundTrip(rows: seq<seq<string>>)
    requires Filled(rows) && AllOneLine(rows)
    ensures Parsed(rows) == rows <==> AllClean(rows)
  {
    hide SplitRow, RenderRow, Clean, OneLine;
    forall i | 0 <= i < |rows| ensures SplitRow(RenderRow(rows[i])) == rows[i] <==> CleanRow(rows[i]) {
      RowRoundTrip(rows[i]);
      assert CleanRow(rows[i]) <==> forall j :: 0 <= j < |rows[i]| ==> Clean(rows[i][j]);
    }
    forall i | 0 <= i < |rows| ensures Parsed(rows)[i] == SplitRow(RenderRow(rows[i])) {
    }
    if Parsed(rows) == rows {
      forall i | 0 <= i < |rows| ensures CleanRow(rows[i]) {
        assert Parsed(rows)[i] == rows[i];
      }
    }
  }

  lemma {:induction false} BarredOneLine(cells: seq<string>)
    requires cells != [] && forall j :: 0 <= j < |cells| ==> OneLine(cells[j])
    ensures OneLine(Barred(cells))
  {
    var n := |cells| - 1;
    assert OneLine([' '] + cells[n] + [' ']);
    if n == 0 {
    } else {
      BarredOneLine(cells[..n]);
    }
  }

  lemma SectionOneLine(title: string, columns: seq<string>, rows: seq<seq<string>>)
    requires OneLine(title) && columns != [] && Filled(rows) && AllOneLine(rows)
    requires forall j :: 0 <= j < |columns| ==> OneLine(columns[j])
    ensures forall i :: 0 <= i < |Section(title, columns, rows)| ==> OneLine(Section(title, columns, rows)[i])
  {
    SeparatorRecognised(|columns|);
    assert OneLine(Heading(title));
    BarredOneLine(columns);
    assert OneLine(RenderRow(columns));
    forall i | 0 <= i < |rows| ensures OneLine(RowLines(rows)[i]) {
      BarredOneLine(rows[i]);
      assert RowLines(rows)[i] == RenderRow(rows[i]);
    }
    hide Heading, RenderRow, Separator, Barred, RowLines, IsSeparator;
    assert OneLine([]);
    hide OneLine;
  }

  lemma DocumentOneLine(m: Matrix, t: Titles)
    requires PlainTitles(t) && AllOneLine(ReqRows(m)) && AllOneLine(PkgRows(m)) && AllOneLine(TestRows(m))
    ensures forall i :: 0 <= i < |Lines(m, t)| ==> OneLine(Lines(m, t)[i])
  {
    hide OneLine, Clean, ReqRows, PkgRows, TestRows;
    assert forall k :: 0 <= k < 3 ==> CleanRow(t.columns[k]);
    assert forall k, j :: 0 <= k < 3 && 0 <= j < |t.columns[k]| ==> CleanCell(t.columns[k][j]);
    SectionOneLine(t.headings[0], t.columns[0], ReqRows(m));
    SectionOneLine(t.headings[1], t.columns[1], PkgRows(m));
    SectionOneLine(t.headings[2], t.columns[2], TestRows(m));
    hide Section;
    assert OneLine(t.summary(m));
  }

  // Whatever the parser returns holds no line break.

  lemma {:induction false} PiecesOneLine(s: string)
    requires OneLine(s)
    ensures forall i :: 0 <= i < |Pieces(s)| ==> OneLine(Pieces(s)[i])
  {
    if s == [] {
    } else {
      PiecesOneLine(s[..|s| - 1]);
    }
  }

  lemma {:induction false} UnescapeOneLine(s: string)
    requires OneLine(s)
    ensures OneLine(Unescape(s))
  {
    if |s| >= 2 && s[0] == '\\' && s[1] == '|' {
      UnescapeOneLine(s[2..]);
    } else if s != [] {
      UnescapeOneLine(s[1..]);
    }
  }

  lemma {:induction false} RStripOneLine(s: string)
    requires OneLine(s)
    ensures OneLine(RStrip(s))
  {
    if s == [] || !IsSpace(s[|s| - 1]) {
    } else {
      RStripOneLine(s[..|s| - 1]);
    }
  }

  lemma StripOneLine(s: string)
    requires OneLine(s)
    ensures OneLine(Strip(s))
  {
    LStripShape(s);
    RStripOneLine(LStrip(s));
  }

  lemma RowOneLine(line: string)
    requires OneLine(line)
    ensures forall i :: 0 <= i < |SplitRow(line)| ==> OneLine(SplitRow(line)[i])
  {
    StripOneLine(line);
    assert OneLine(Body(line));
    var pieces := Pieces(Body(line));
    PiecesOneLine(Body(line));
    hide OneLine, Body, Strip, Unescape;
    forall i | 0 <= i < |pieces| ensures OneLine(Cell(pieces[i])) {
      UnescapeOneLine(pieces[i]);
      StripOneLine(Unescape(pieces[i]));
    }
  }

  lemma {:induction false} TablesOneLine(lines: seq<string>, heading: string)
    requires forall i :: 0 <= i < |lines| ==> OneLine(lines[i])
    ensures forall k :: 0 <= k < |Tables(lines, heading)| ==> AllOneLine(Tables(lines, heading)[k].rows)
    decreases |lines|
  {
    hide OneLine, IsRow, IsSeparator, SplitRow, HeadingAfter, RowRun;
    if lines == [] {
    } else {
      var h := HeadingAfter(lines[0], heading);
      if IsRow(lines[0]) && |lines| > 1 && IsSeparator(lines[1]) {
        var n := 2 + RowRun(lines[2..]);
        TablesOneLine(lines[n..], h);
        forall i | 0 <= i < n - 2
          ensures forall j :: 0 <= j < |SplitRows(lines[2..n])[i]| ==> OneLine(SplitRows(lines[2..n])[i][j])
        {
          RowOneLine(lines[2 + i]);
        }
      } else {
        TablesOneLine(lines[1..], h);
      }
    }
  }

  lemma {:induction false} SplitLinesOneLine(s: string)
    ensures forall i :: 0 <= i < |SplitLines(s)| ==> OneLine(SplitLines(s)[i])
    decreases |s|
  {
    if s == [] {
    } else {
      var k := FirstBreak(s);
      if k < |s| {
        SplitLinesOneLine(s[k + (if s[k] == '\r' && k + 1 < |s| && s[k + 1] == '\n' then 2 else 1)..]);
      } else {
        assert s[..k] == s;
      }
    }
  }

  /**
   The printed document parses back to its three tables exactly when no cell holds a bar, a line break or outer
   white space.
   */
  lemma DocumentRoundTrip(m: Matrix, t: Titles)
    requires PlainTitles(t)
    ensures Tables(SplitLines(Join(Lines(m, t) + [[]], ['\n'])), []) == Expected(m, t)
      <==> AllClean(ReqRows(m)) && AllClean(PkgRows(m)) && AllClean(TestRows(m))
  {
    var lines, text := Lines(m, t), Join(Lines(m, t) + [[]], ['\n']);
    hide Lines, ReqRows, PkgRows, TestRows, Clean, OneLine, Tables, Join, SplitLines;
    CleanIsOneLine(ReqRows(m));
    CleanIsOneLine(PkgRows(m));
    CleanIsOneLine(TestRows(m));
    if AllOneLine(ReqRows(m)) && AllOneLine(PkgRows(m)) && AllOneLine(TestRows(m)) {
      DocumentOneLine(m, t);
      LinesNotEmpty(m, t);
      LinesComeBack(lines);
      LinesParse(m, t);
      RowsRoundTrip(ReqRows(m));
      RowsRoundTrip(PkgRows(m));
      RowsRoundTrip(TestRows(m));
    } else {
      SplitLinesOneLine(text);
      TablesOneLine(SplitLines(text), []);
      var e := Expected(m, t);
      assert !(AllOneLine(e[0].rows) && AllOneLine(e[1].rows) && AllOneLine(e[2].rows));
    }
  }

  lemma LinesNotEmpty(m: Matrix, t: Titles)
    requires PlainTitles(t)
    ensures Lines(m, t) != []
  {
  }

  lemma CleanIsOneLine(rows: seq<seq<string>>)
    ensures AllClean(rows) ==> AllOneLine(rows)
  {
    hide OneLine, Clean;
    if AllClean(rows) {
      forall i, j | 0 <= i < |rows| && 0 <= j < |rows[i]| ensures OneLine(rows[i][j]) {
        assert CleanRow(rows[i]) && CleanCell(rows[i][j]);
      }
    }
  }

  // ---------------------------------------------------------------- identifier lists come back

  ghost predicate AllIds(ids: seq<string>) {
    forall x :: x in ids ==> I.IsId(x)
  }

  /** Every list holds identifiers only; the sizes are clean. */
  ghost predicate WellFormed(m: Matrix) {
    && (forall i :: 0 <= i < |m.requirements| ==> var r := m.requirements[i];
          CleanCell(r.id) && AllIds(r.packages) && AllIds(r.tests))
    && (forall i :: 0 <= i < |m.packages| ==> var p := m.packages[i];
          CleanCell(p.id) && CleanCell(p.size) && AllIds(p.prereq) && AllIds(p.tests) && AllReqs(p.requirements))
    && forall i :: 0 <= i < |m.tests| ==> var t := m.tests[i];
          CleanCell(t.id) && AllIds(t.packages) && AllReqs(t.requirements)
  }

  /** Requirement names: joined, they make one cell without bar, line break or outer white space. */
  ghost predicate AllReqs(ids: seq<string>) {
    CleanCell(IdCell(ids))
  }

  lemma {:induction false} ListCell(ids: seq<string>)
    requires forall k :: 0 <= k < |ids| ==> I.IsId(ids[k])
    ensures var c := IdCell(ids);
      && (forall i :: 0 <= i < |c| ==> I.IsWord(c[i]) || c[i] == '-' || c[i] == ',' || c[i] == ' ')
      && (ids != [] ==> c != [] && I.IsWord(c[0]) && I.IsWord(c[|c| - 1]))
  {
    if ids == [] {
    } else {
      I.IdParts(ids[0]);
      ListCell(ids[1..]);
    }
  }

  lemma ListCellClean(ids: seq<string>)
    requires AllIds(ids)
    ensures CleanCell(IdCell(ids)) && CleanCell(PrereqCell(ids)) && PrereqCell(ids) != []
    ensures I.Expand(IdCell(ids), 0) == ids && I.Expand(PrereqCell(ids), 0) == ids
  {
    assert forall k :: 0 <= k < |ids| ==> ids[k] in ids;
    ListCell(ids);
    I.ListRoundTrip(ids);
    assert I.MatchAt(DASH, 0) == None;
    assert I.Expand(DASH, 0) == [];
    var c := IdCell(ids);
    if c != [] {
      StripKeeps(c);
    }
    assert Strip(DASH) == DASH && CleanCell(DASH);
  }

  /**
   For a matrix of well-formed identifiers the document reads back, and expanding the package and Test cells gives
   the identifier lists of every row, empty ones included; the other cells are the row's own, and a package without
   prerequisites does not leave its cell empty.
   */
  lemma IdentifiersComeBack(m: Matrix, t: Titles)
    requires PlainTitles(t) && WellFormed(m)
    ensures Tables(SplitLines(Join(Lines(m, t) + [[]], ['\n'])), []) == Expected(m, t)
    ensures forall i :: 0 <= i < |m.requirements| ==>
      I.Expand(Expected(m, t)[0].rows[i][1], 0) == m.requirements[i].packages
      && I.Expand(Expected(m, t)[0].rows[i][2], 0) == m.requirements[i].tests
      && Expected(m, t)[0].rows[i][0] == m.requirements[i].id
    ensures forall i :: 0 <= i < |m.packages| ==>
      I.Expand(Expected(m, t)[1].rows[i][3], 0) == m.packages[i].prereq
      && I.Expand(Expected(m, t)[1].rows[i][4], 0) == m.packages[i].tests
      && OwnCells(m.packages[i], Expected(m, t)[1].rows[i])
    ensures forall i :: 0 <= i < |m.tests| ==>
      I.Expand(Expected(m, t)[2].rows[i][2], 0) == m.tests[i].packages
      && OwnTestCells(m.tests[i], Expected(m, t)[2].rows[i])
  {
    hide I.Expand, IdCell, PrereqCell, Tables, SplitLines, Join, Lines, CleanCell, I.IsId, OwnCells, OwnTestCells;
    forall i | 0 <= i < |m.requirements|
      ensures CleanRow(ReqRows(m)[i]) && I.Expand(ReqRows(m)[i][1], 0) == m.requirements[i].packages
        && I.Expand(ReqRows(m)[i][2], 0) == m.requirements[i].tests
    {
      ListCellClean(m.requirements[i].packages);
      ListCellClean(m.requirements[i].tests);
    }
    forall i | 0 <= i < |m.packages|
      ensures CleanRow(PkgRows(m)[i]) && I.Expand(PkgRows(m)[i][3], 0) == m.packages[i].prereq
        && I.Expand(PkgRows(m)[i][4], 0) == m.packages[i].tests && OwnCells(m.packages[i], PkgRows(m)[i])
    {
      PkgCellsOwn(m.packages[i]);
      ListCellClean(m.packages[i].prereq);
      ListCellClean(m.packages[i].tests);
      PhaseClean(m.packages[i].phase);
    }
    forall i | 0 <= i < |m.tests|
      ensures CleanRow(TestRows(m)[i]) && I.Expand(TestRows(m)[i][2], 0) == m.tests[i].packages
        && OwnTestCells(m.tests[i], TestRows(m)[i])
    {
      TestCellsOwn(m.tests[i]);
      ListCellClean(m.tests[i].packages);
      PhaseClean(m.tests[i].phase);
    }
    DocumentRoundTrip(m, t);
  }

  predicate ShowsDigit(cell: string, n: Phase) {
    |cell| == 1 && I.IsDigit(cell[0]) && I.DigitValue(cell[0]) == n
  }

  /** The cells of a package row that hold no packages and no Tests. */
  predicate OwnCells(p: PkgRow, row: seq<string>) {
    && |row| == 6 && row[0] == p.id && ShowsDigit(row[1], p.phase) && row[2] == p.size && row[3] != []
    && row[5] == Join(p.requirements, [',', ' '])
  }

  predicate OwnTestCells(p: TestRow, row: seq<string>) {
    |row| == 4 && row[0] == p.id && ShowsDigit(row[1], p.phase) && row[3] == Join(p.requirements, [',', ' '])
  }

  lemma PkgCellsOwn(p: PkgRow)
    requires AllIds(p.prereq)
    ensures OwnCells(p, PkgCells(p))
  {
    ListCellClean(p.prereq);
  }

  lemma TestCellsOwn(p: TestRow)
    ensures OwnTestCells(p, TestCells(p))
  {
  }

  lemma PhaseClean(n: Phase)
    ensures CleanCell([I.DigitChar(n)])
  {
    StripKeeps([I.DigitChar(n)]);
  }
}
