/** Pipe tables in Markdown: Python's strip and splitlines, row splitting, and the table parser. */
module Markdown {

  // ---------------------------------------------------------------- characters and lines

  /** Unicode white space, as `str.isspace` has it. */
  predicate IsSpace(c: char) {
    var n := c as int;
    0x09 <= n <= 0x0D || 0x1C <= n <= 0x20 || n == 0x85 || n == 0xA0 || n == 0x1680 || 0x2000 <= n <= 0x200A
    || n == 0x2028 || n == 0x2029 || n == 0x202F || n == 0x205F || n == 0x3000
  }

  /** What `str.splitlines` splits at. */
  predicate IsBreak(c: char) {
    var n := c as int;
    0x0A <= n <= 0x0D || 0x1C <= n <= 0x1E || n == 0x85 || n == 0x2028 || n == 0x2029
  }

  predicate OneLine(s: string) {
    forall i :: 0 <= i < |s| ==> !IsBreak(s[i])
  }

  function LStrip(s: string): string {
    if s != [] && IsSpace(s[0]) then LStrip(s[1..]) else s
  }

  function RStrip(s: string): string {
    if s != [] && IsSpace(s[|s| - 1]) then RStrip(s[..|s| - 1]) else s
  }

  function Strip(s: string): string {
    RStrip(LStrip(s))
  }

  function FirstBreak(s: string): (k: nat)
    ensures k <= |s| && OneLine(s[..k]) && (k < |s| ==> IsBreak(s[k]))
  {
    if s == [] || IsBreak(s[0]) then 0
    else
      var k := FirstBreak(s[1..]);
      assert s[..k + 1] == [s[0]] + s[1..][..k];
      k + 1
  }

  function SplitLines(s: string): seq<string> {
    if s == [] then []
    else
      var k := FirstBreak(s);
      if k == |s| then [s]
      else
        var w := if s[k] == '\r' && k + 1 < |s| && s[k + 1] == '\n' then 2 else 1;
        [s[..k]] + SplitLines(s[k + w..])
  }

  function Join(parts: seq<string>, sep: string): string {
    if parts == [] then [] else if |parts| == 1 then parts[0] else parts[0] + sep + Join(parts[1..], sep)
  }

  // ---------------------------------------------------------------- rows

  /** `re.split(r"(?<!\\)\|", s)`. */
  function AddChar(pieces: seq<string>, c: char): (r: seq<string>)
    requires pieces != []
    ensures |r| == |pieces|
  {
    pieces[|pieces| - 1 := pieces[|pieces| - 1] + [c]]
  }

  /** Whether the next character splits after `s`: a bar with no backslash before it. */
  predicate SplitsAfter(s: string, c: char) {
    c == '|' && !(s != [] && s[|s| - 1] == '\\')
  }

  function Pieces(s: string): (r: seq<string>)
    ensures |r| >= 1
  {
    if s == [] then [[]]
    else
      var n := |s| - 1;
      var before := Pieces(s[..n]);
      if SplitsAfter(s[..n], s[n]) then before + [[]] else AddChar(before, s[n])
  }

  /** `s.replace("\\|", "|")`. */
  function Unescape(s: string): string {
    if |s| >= 2 && s[0] == '\\' && s[1] == '|' then ['|'] + Unescape(s[2..])
    else if s == [] then []
    else [s[0]] + Unescape(s[1..])
  }

  function Cell(piece: string): string {
    Strip(Unescape(piece))
  }

  function Cells(pieces: seq<string>): seq<string> {
    seq(|pieces|, i requires 0 <= i < |pieces| => Cell(pieces[i]))
  }

  /** The row without its outer bars. */
  function Body(line: string): string {
    var a := Strip(line);
    var b := if a != [] && a[0] == '|' then a[1..] else a;
    if b != [] && b[|b| - 1] == '|' && !(|b| >= 2 && b[|b| - 2] == '\\') then b[..|b| - 1] else b
  }

  function SplitRow(line: string): seq<string> {
    Cells(Pieces(Body(line)))
  }

  // ---------------------------------------------------------------- tables

  datatype Table = Table(heading: string, header: seq<string>, rows: seq<seq<string>>)

  function DropHashes(s: string): string {
    if s != [] && s[0] == '#' then DropHashes(s[1..]) else s
  }

  predicate IsHeading(line: string) {
    line != [] && line[0] == '#'
  }

  predicate IsRow(line: string) {
    var s := LStrip(line);
    s != [] && s[0] == '|'
  }

  /** `^\s*\|?\s*:?-{3,}`. */
  predicate IsSeparator(line: string) {
    var a := LStrip(line);
    var b := LStrip(if a != [] && a[0] == '|' then a[1..] else a);
    var c := if b != [] && b[0] == ':' then b[1..] else b;
    |c| >= 3 && c[0] == '-' && c[1] == '-' && c[2] == '-'
  }

  function HeadingAfter(line: string, heading: string): string {
    if IsHeading(line) then Strip(DropHashes(line)) else heading
  }

  /** How many lines from the front are rows. */
  function RowRun(lines: seq<string>): (n: nat)
    ensures n <= |lines| && (n < |lines| ==> !IsRow(lines[n]))
    ensures forall i :: 0 <= i < n ==> IsRow(lines[i])
  {
    if lines == [] || !IsRow(lines[0]) then 0 else 1 + RowRun(lines[1..])
  }

  function SplitRows(lines: seq<string>): seq<seq<string>> {
    seq(|lines|, i requires 0 <= i < |lines| => SplitRow(lines[i]))
  }

  /** The tables of a list of lines, below the given heading. */
  function Tables(lines: seq<string>, heading: string): seq<Table>
    decreases |lines|
  {
    if lines == [] then []
    else
      var h := HeadingAfter(lines[0], heading);
      if IsRow(lines[0]) && |lines| > 1 && IsSeparator(lines[1]) then
        var n := 2 + RowRun(lines[2..]);
        [Table(h, SplitRow(lines[0]), SplitRows(lines[2..n]))] + Tables(lines[n..], h)
      else Tables(lines[1..], h)
  }

  function Tail(lines: seq<string>, i: nat): seq<string>
    requires i <= |lines|
  {
    lines[i..]
  }

  function RowsBetween(lines: seq<string>, i: nat, j: nat): seq<seq<string>>
    requires i <= j <= |lines|
  {
    SplitRows(lines[i..j])
  }

  function RowsEnd(lines: seq<string>, i: nat): (n: nat)
    requires i <= |lines|
    ensures i <= n <= |lines|
  {
    i + RowRun(lines[i..])
  }

  /** One turn of the parser: a table is taken whole, any other line is passed over. */
  lemma TablesStep(lines: seq<string>, i: nat, heading: string)
    requires i < |lines|
    ensures var h := HeadingAfter(lines[i], heading);
      if IsRow(lines[i]) && i + 1 < |lines| && IsSeparator(lines[i + 1]) then
        var n := RowsEnd(lines, i + 2);
        Tables(Tail(lines, i), heading)
        == [Table(h, SplitRow(lines[i]), RowsBetween(lines, i + 2, n))] + Tables(Tail(lines, n), h)
      else Tables(Tail(lines, i), heading) == Tables(Tail(lines, i + 1), h)
  {
    hide IsRow, IsSeparator, SplitRow, SplitRows, HeadingAfter, RowRun;
    assert lines[i..][0] == lines[i] && lines[i..][1..] == lines[i + 1..];
    if i + 1 < |lines| {
      assert lines[i..][1] == lines[i + 1] && lines[i..][2..] == lines[i + 2..];
      var k := 2 + RowRun(lines[i + 2..]);
      assert lines[i..][2..k] == lines[i + 2..i + k] && lines[i..][k..] == lines[i + k..];
    }
  }

  lemma WholeTail(lines: seq<string>, heading: string)
    ensures Tail(lines, 0) == lines && Tables(Tail(lines, |lines|), heading) == []
  {
  }

  lemma Assoc(tables: seq<Table>, t: Table, rest: seq<Table>)
    ensures tables + ([t] + rest) == (tables + [t]) + rest
  {
  }

  /** `parse_tables`. */
  method ParseTables(markdown: string) returns (tables: seq<Table>)
    ensures tables == Tables(SplitLines(markdown), [])
  {
    hide *;
    var heading, lines, i := [], SplitLines(markdown), 0;
    tables := [];
    WholeTail(lines, heading);
    while i < |lines|
      invariant 0 <= i <= |lines|
      invariant tables + Tables(Tail(lines, i), heading) == Tables(lines, [])
    {
      var line := lines[i];
      TablesStep(lines, i, heading);
      heading := NextHeading(line, heading);
      if IsRow(line) && i + 1 < |lines| && IsSeparator(lines[i + 1]) {
        var rows, next := ReadRows(lines, i + 2);
        var table := Table(heading, SplitRow(line), rows);
        Assoc(tables, table, Tables(Tail(lines, next), heading));
        tables := tables + [table];
        i := next;
      } else {
        i := i + 1;
      }
    }
    WholeTail(lines, heading);
  }

  method NextHeading(line: string, heading: string) returns (h: string)
    ensures h == HeadingAfter(line, heading)
  {
    h := heading;
    if line != [] && line[0] == '#' {
      h := Strip(DropHashes(line));
    }
  }

  /** The rows from `start` on, and where they end. */
  method ReadRows(lines: seq<string>, start: nat) returns (rows: seq<seq<string>>, i: nat)
    requires start <= |lines|
    ensures i == RowsEnd(lines, start) && rows == RowsBetween(lines, start, i)
  {
    hide SplitRow, IsRow;
    rows, i := [], start;
    ghost var n := RowRun(lines[start..]);
    while i < |lines| && IsRow(lines[i])
      invariant start <= i <= start + n
      invariant rows == SplitRows(lines[start..i])
    {
      assert lines[start..][i - start] == lines[i];
      rows := rows + [SplitRow(lines[i])];
      i := i + 1;
    }
    assert i < |lines| ==> lines[start..][i - start] == lines[i];
  }

  // ---------------------------------------------------------------- printing a row

  /** The cells between bars, each with a space on either side. */
  function Barred(cells: seq<string>): string
    requires cells != []
  {
    var n := |cells| - 1;
    if n == 0 then [' '] + cells[0] + [' '] else Barred(cells[..n]) + ['|'] + ([' '] + cells[n] + [' '])
  }

  /** `| a | b |`. */
  function RenderRow(cells: seq<string>): string
    requires cells != []
  {
    ['|'] + Barred(cells) + ['|']
  }

  /** A cell that survives printing and parsing. */
  predicate Clean(c: string) {
    '|' !in c && Strip(c) == c
  }

  lemma {:induction false} LStripShape(s: string)
    ensures |LStrip(s)| <= |s| && LStrip(s) == s[|s| - |LStrip(s)|..]
    ensures LStrip(s) != [] ==> !IsSpace(LStrip(s)[0])
    ensures LStrip(s) == [] <==> forall i :: 0 <= i < |s| ==> IsSpace(s[i])
  {
    if s == [] || !IsSpace(s[0]) {
    } else {
      LStripShape(s[1..]);
      assert forall i :: 0 < i < |s| ==> s[i] == s[1..][i - 1];
    }
  }

  lemma {:induction false} LStripAppended(s: string)
    ensures LStrip(s + [' ']) == if LStrip(s) == [] then [] else LStrip(s) + [' ']
  {
    if s == [] {
      assert LStrip([' ']) == LStrip([]);
    } else if IsSpace(s[0]) {
      LStripAppended(s[1..]);
      assert (s + [' '])[1..] == s[1..] + [' '];
    }
  }

  /** Surrounding spaces do not change what is left after stripping. */
  lemma PaddingIsStripped(c: string)
    ensures Strip([' '] + c + [' ']) == Strip(c)
  {
    assert ([' '] + c + [' '])[1..] == c + [' '];
    LStripAppended(c);
    if LStrip(c) != [] {
      assert (LStrip(c) + [' '])[..|LStrip(c)|] == LStrip(c);
    }
  }

  lemma {:induction false} RStripShortens(s: string)
    ensures |RStrip(s)| <= |s|
  {
    if s == [] || !IsSpace(s[|s| - 1]) {
    } else {
      RStripShortens(s[..|s| - 1]);
    }
  }

  /** Stripping a text that starts and ends with a space removes at least those two. */
  lemma StripRemovesEnds(u: string)
    requires |u| >= 2 && u[0] == ' ' && u[|u| - 1] == ' '
    ensures |Strip(u)| <= |u| - 2
  {
    var t := u[1..];
    LStripShape(t);
    assert LStrip(u) == LStrip(t);
    var v := LStrip(t);
    if v != [] {
      assert v[|v| - 1] == ' ';
      RStripShortens(v[..|v| - 1]);
    }
  }

  lemma {:induction false} UnescapeShortens(s: string, i: nat)
    requires i + 1 < |s| && s[i] == '\\' && s[i + 1] == '|'
    ensures |Unescape(s)| < |s|
  {
    if s[0] == '\\' && s[1] == '|' {
      UnescapeBounded(s[2..]);
    } else {
      UnescapeShortens(s[1..], i - 1);
    }
  }

  lemma {:induction false} UnescapeBounded(s: string)
    ensures |Unescape(s)| <= |s|
  {
    if |s| >= 2 && s[0] == '\\' && s[1] == '|' {
      UnescapeBounded(s[2..]);
    } else if s != [] {
      UnescapeBounded(s[1..]);
    }
  }

  lemma {:induction false} UnescapeKeepsEnd(s: string)
    requires s != [] && s[|s| - 1] == ' '
    ensures Unescape(s) != [] && Unescape(s)[|Unescape(s)| - 1] == ' '
  {
    if |s| >= 2 && s[0] == '\\' && s[1] == '|' {
      UnescapeKeepsEnd(s[2..]);
    } else if |s| >= 2 {
      UnescapeKeepsEnd(s[1..]);
    }
  }

  lemma {:induction false} UnescapePlain(s: string)
    requires '|' !in s
    ensures Unescape(s) == s
  {
    if s == [] {
    } else {
      UnescapePlain(s[1..]);
    }
  }

  lemma {:induction false} PiecesPlain(s: string)
    requires '|' !in s
    ensures Pieces(s) == [s]
  {
    if s == [] {
    } else {
      PiecesPlain(s[..|s| - 1]);
      assert s[..|s| - 1] + [s[|s| - 1]] == s;
    }
  }

  /** One piece means that every bar is escaped. */
  lemma {:induction false} OnePieceEscaped(s: string, i: nat)
    requires |Pieces(s)| == 1 && i < |s| && s[i] == '|'
    ensures Pieces(s) == [s] && i >= 1 && s[i - 1] == '\\'
  {
    OnePiece(s);
    var n := |s| - 1;
    if i >= n {
    } else {
      OnePieceEscaped(s[..n], i);
    }
  }

  lemma {:induction false} OnePiece(s: string)
    requires |Pieces(s)| == 1
    ensures Pieces(s) == [s]
  {
    if s == [] {
    } else {
      OnePiece(s[..|s| - 1]);
      assert s[..|s| - 1] + [s[|s| - 1]] == s;
    }
  }

  /** A bar after a text that does not end in a backslash splits there. */
  lemma {:induction false} PiecesConcat(a: string, b: string)
    requires a == [] || a[|a| - 1] != '\\'
    ensures Pieces(a + ['|'] + b) == Pieces(a) + Pieces(b)
  {
    hide Pieces;
    if b == [] {
      assert a + ['|'] + b == a + ['|'];
      PiecesStep(a, '|');
      EmptyPieces();
    } else {
      var front, c := b[..|b| - 1], b[|b| - 1];
      PiecesConcat(a, front);
      SplitsAlike(a, front, c);
      PiecesConcatStep(a + ['|'] + front, Pieces(a), front, c);
      assert front + [c] == b && (a + ['|'] + front) + [c] == a + ['|'] + b;
    }
  }

  lemma SplitsAlike(a: string, front: string, c: char)
    ensures SplitsAfter(a + ['|'] + front, c) <==> SplitsAfter(front, c)
  {
    var s := a + ['|'] + front;
    assert s[|s| - 1] == if front == [] then '|' else front[|front| - 1];
  }

  lemma PiecesConcatStep(s: string, first: seq<string>, front: string, c: char)
    requires Pieces(s) == first + Pieces(front) && (SplitsAfter(s, c) <==> SplitsAfter(front, c))
    ensures Pieces(s + [c]) == first + Pieces(front + [c])
  {
    hide *;
    PiecesStep(front, c);
    PiecesStep(s, c);
    Extend(first, Pieces(front), c);
  }

  lemma EmptyPieces()
    ensures Pieces("") == [[]]
  {
  }

  /** One more character starts a new piece or joins the last. */
  lemma PiecesStep(s: string, c: char)
    ensures var before := Pieces(s);
      Pieces(s + [c])
      == if SplitsAfter(s, c) then before + [[]] else AddChar(before, c)
  {
    assert (s + [c])[..|s|] == s;
  }

  lemma Extend(a: seq<string>, b: seq<string>, c: char)
    requires b != []
    ensures (a + b) + [[]] == a + (b + [[]])
    ensures AddChar(a + b, c) == a + AddChar(b, c)
  {
  }

  /** A padded cell comes back, and as one cell, exactly when it is clean. */
  lemma CellComesBack(c: string)
    ensures var s := [' '] + c + [' '];
      (|Pieces(s)| == 1 && Cell(s) == c) <==> Clean(c)
  {
    var s := [' '] + c + [' '];
    if '|' in c {
      if |Pieces(s)| == 1 {
        var i :| 0 <= i < |c| && c[i] == '|';
        assert s[i + 1] == '|';
        OnePieceEscaped(s, i + 1);
        UnescapeShortens(s, i);
        UnescapeKeepsEnd(s);
        assert Unescape(s)[0] == ' ';
        StripRemovesEnds(Unescape(s));
      }
    } else {
      PiecesPlain(s);
      UnescapePlain(s);
      PaddingIsStripped(c);
    }
  }

  lemma {:induction false} BarredEnds(cells: seq<string>)
    requires cells != []
    ensures Barred(cells) != [] && Barred(cells)[|Barred(cells)| - 1] == ' ' && Barred(cells)[0] == ' '
  {
    if |cells| <= 1 {
    } else {
      BarredEnds(cells[..|cells| - 1]);
    }
  }

  lemma OneCell(c: string)
    ensures var s := [' '] + c + [' '];
      Cells(Pieces(s)) == [c] <==> Clean(c)
  {
    hide Pieces, Cell, Clean;
    var s := [' '] + c + [' '];
    CellComesBack(c);
    assert Cells(Pieces(s)) == [c] ==> |Cells(Pieces(s))| == 1;
    if |Pieces(s)| == 1 {
      OnePiece(s);
      assert Cells([s]) == [Cell(s)];
    }
  }

  lemma CellsConcat(a: seq<string>, b: seq<string>)
    ensures Cells(a + b) == Cells(a) + Cells(b)
  {
    hide Cell;
  }

  lemma {:induction false} BarredPieces(cells: seq<string>)
    requires cells != []
    ensures |Pieces(Barred(cells))| >= |cells|
    ensures Cells(Pieces(Barred(cells))) == cells <==> forall i :: 0 <= i < |cells| ==> Clean(cells[i])
  {
    hide Pieces, Clean, Cells;
    var n := |cells| - 1;
    var front, c := cells[..n], [' '] + cells[n] + [' '];
    OneCell(cells[n]);
    if n > 0 {
      BarredEnds(front);
      BarredPieces(front);
      PiecesConcat(Barred(front), c);
      CellsLength(Pieces(Barred(front)));
      CellsLength(Pieces(c));
      CellsConcat(Pieces(Barred(front)), Pieces(c));
      LastOne(Cells(Pieces(Barred(front))), Cells(Pieces(c)), front, cells[n]);
      assert cells == front + [cells[n]];
    } else {
      assert cells == [cells[0]];
    }
  }

  lemma CellsLength(pieces: seq<string>)
    ensures |Cells(pieces)| == |pieces|
  {
  }

  lemma LastOne(a: seq<string>, b: seq<string>, front: seq<string>, last: string)
    requires |a| >= |front| && |b| >= 1
    ensures a + b == front + [last] <==> a == front && b == [last]
  {
    if a + b == front + [last] {
      assert |a + b| == |front| + 1;
      assert a == (a + b)[..|a|] && b == (a + b)[|a|..];
    }
  }

  lemma StripKeeps(s: string)
    requires s != [] && !IsSpace(s[0]) && !IsSpace(s[|s| - 1])
    ensures Strip(s) == s && LStrip(s) == s
  {
  }

  lemma UnbarredBody(b: string)
    requires b != [] && b[|b| - 1] == ' '
    ensures Body(['|'] + b + ['|']) == b && IsRow(['|'] + b + ['|'])
  {
    var line := ['|'] + b + ['|'];
    assert line[0] == '|' && line[|line| - 1] == '|';
    StripKeeps(line);
    hide Strip, LStrip;
    assert line[1..] == b + ['|'];
    assert (b + ['|'])[|b|] == '|' && (b + ['|'])[|b| - 1] == ' ';
    assert (b + ['|'])[..|b|] == b;
  }

  lemma BodyOfRow(cells: seq<string>)
    requires cells != []
    ensures Body(RenderRow(cells)) == Barred(cells) && IsRow(RenderRow(cells))
  {
    BarredEnds(cells);
    UnbarredBody(Barred(cells));
  }

  /** A printed row parses back to its cells exactly when every cell is free of bars and of outer white space. */
  lemma RowRoundTrip(cells: seq<string>)
    requires cells != []
    ensures SplitRow(RenderRow(cells)) == cells <==> forall i :: 0 <= i < |cells| ==> Clean(cells[i])
  {
    BodyOfRow(cells);
    BarredPieces(cells);
  }
}
