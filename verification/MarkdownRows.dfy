/** What the table parser makes of escaped bars, of rows without outer bars, and of separator lines. */
module MarkdownRows {
  import opened Markdown

  // ---------------------------------------------------------------- escaped bars

  /** A cell as an author has to write it: every bar with a backslash before it. */
  function Escape(c: string): string {
    if c == [] then [] else EscapeChar(c[0]) + Escape(c[1..])
  }

  function EscapeChar(c: char): string {
    if c == '|' then ['\\', '|'] else [c]
  }

  function Escaped(cells: seq<string>): seq<string> {
    seq(|cells|, i requires 0 <= i < |cells| => Escape(cells[i]))
  }

  function Stripped(cells: seq<string>): seq<string> {
    seq(|cells|, i requires 0 <= i < |cells| => Strip(cells[i]))
  }

  lemma {:induction false} EscapeShape(c: string)
    ensures Escape(c) == [] <==> c == []
    ensures c != [] ==> Escape(c)[0] == (if c[0] == '|' then '\\' else c[0])
    ensures c != [] ==> Escape(c)[|Escape(c)| - 1] == c[|c| - 1]
    ensures forall i :: 0 <= i < |Escape(c)| && Escape(c)[i] == '|' ==> i > 0 && Escape(c)[i - 1] == '\\'
  {
    if c == [] {
    } else {
      EscapeShape(c[1..]);
    }
  }

  /** The parser undoes the escapes. */
  lemma {:induction false} UnescapeEscape(c: string)
    ensures Unescape(Escape(c)) == c
  {
    if c == [] {
    } else {
      var rest := Escape(c[1..]);
      UnescapeEscape(c[1..]);
      EscapeShape(c[1..]);
      if c[0] == '|' {
        assert Escape(c)[2..] == rest;
      } else {
        assert Escape(c)[1..] == rest;
      }
    }
  }

  lemma {:induction false} EscapeConcat(a: string, b: string)
    ensures Escape(a + b) == Escape(a) + Escape(b)
  {
    if a == [] {
      assert a + b == b;
    } else {
      EscapeConcat(a[1..], b);
      assert (a + b)[1..] == a[1..] + b;
      hide EscapeChar;
      ThreeParts(EscapeChar(a[0]), Escape(a[1..]), Escape(b));
    }
  }

  lemma ThreeParts(a: string, b: string, c: string)
    ensures a + (b + c) == (a + b) + c
  {
  }

  /** Text in which every bar is escaped is one piece. */
  lemma {:induction false} EscapedIsOnePiece(s: string)
    requires forall i :: 0 <= i < |s| && s[i] == '|' ==> i > 0 && s[i - 1] == '\\'
    ensures Pieces(s) == [s]
  {
    if s == [] {
    } else {
      var n := |s| - 1;
      EscapedIsOnePiece(s[..n]);
      assert s[..n] + [s[n]] == s;
    }
  }

  lemma {:induction false} LStripLonger(c: string, t: string)
    requires LStrip(c) != []
    ensures LStrip(c + t) == LStrip(c) + t
  {
    if IsSpace(c[0]) {
      LStripLonger(c[1..], t);
      assert (c + t)[1..] == c[1..] + t;
    }
  }

  /** A space after a text, or none. */
  predicate AtMostSpace(t: string) {
    t == [] || t == [' ']
  }

  lemma PadIsStripped(c: string, before: string, after: string)
    requires AtMostSpace(before) && AtMostSpace(after)
    ensures Strip(before + c + after) == Strip(c)
  {
    assert before == [' '] ==> (before + c + after)[1..] == c + after;
    assert before == [] ==> before + c + after == c + after;
    if after == [' '] {
      LStripAppended(c);
      assert LStrip(c) != [] ==> (LStrip(c) + [' '])[..|LStrip(c)|] == LStrip(c);
    } else {
      assert c + after == c;
    }
  }

  /** An escaped cell, with or without spaces around it, is one cell: the text itself, stripped. */
  lemma EscapedCell(c: string, before: string, after: string)
    requires AtMostSpace(before) && AtMostSpace(after)
    ensures Cells(Pieces(before + Escape(c) + after)) == [Strip(c)]
  {
    var whole := before + c + after;
    EscapeConcat(before, c);
    EscapeConcat(before + c, after);
    assert Escape(before) == before && Escape(after) == after;
    EscapeShape(whole);
    EscapedIsOnePiece(Escape(whole));
    UnescapeEscape(whole);
    PadIsStripped(c, before, after);
  }

  /** `a | b | c`, the cells between bars without the outer ones. */
  function Inner(cells: seq<string>): string
    requires cells != []
  {
    var n := |cells| - 1;
    if n == 0 then cells[0] else Inner(cells[..n]) + [' '] + ['|'] + ([' '] + cells[n])
  }

  lemma EscapedFront(cells: seq<string>)
    requires cells != []
    ensures var n := |cells| - 1;
      && Escaped(cells)[..n] == Escaped(cells[..n]) && Escaped(cells)[n] == Escape(cells[n])
      && Stripped(cells) == Stripped(cells[..n]) + [Strip(cells[n])]
  {
  }

  lemma FiveParts(before: string, inner: string, cell: string, after: string)
    ensures before + (inner + [' '] + ['|'] + ([' '] + cell)) + after
      == (before + inner + [' ']) + ['|'] + ([' '] + cell + after)
  {
  }

  lemma InnerStep(cells: seq<string>, before: string, after: string)
    requires |cells| >= 2
    ensures var n := |cells| - 1;
      before + Inner(Escaped(cells)) + after
      == (before + Inner(Escaped(cells[..n])) + [' ']) + ['|'] + ([' '] + Escape(cells[n]) + after)
  {
    EscapedFront(cells);
    hide Escaped, Escape;
    FiveParts(before, Inner(Escaped(cells[..|cells| - 1])), Escape(cells[|cells| - 1]), after);
  }

  /** The cells come back from between their bars, whatever they hold. */
  lemma {:induction false} InnerCells(cells: seq<string>, before: string, after: string)
    requires cells != [] && AtMostSpace(before) && AtMostSpace(after)
    ensures Cells(Pieces(before + Inner(Escaped(cells)) + after)) == Stripped(cells)
    decreases |cells|
  {
    var n := |cells| - 1;
    EscapedFront(cells);
    hide Pieces, Cells, Inner, Stripped, Escape, Strip;
    if n == 0 {
      EscapedCell(cells[0], before, after);
      OnlyCell(cells);
    } else {
      var left, right := before + Inner(Escaped(cells[..n])) + [' '], [' '] + Escape(cells[n]) + after;
      InnerCells(cells[..n], before, [' ']);
      EscapedCell(cells[n], [' '], after);
      InnerStep(cells, before, after);
      PiecesConcat(left, right);
      CellsConcat(Pieces(left), Pieces(right));
    }
  }

  lemma OnlyCell(cells: seq<string>)
    requires |cells| == 1
    ensures Inner(Escaped(cells)) == Escape(cells[0]) && Stripped(cells) == [Strip(cells[0])]
  {
  }

  lemma {:induction false} BarredIsInner(cells: seq<string>)
    requires cells != []
    ensures Barred(cells) == [' '] + Inner(cells) + [' ']
  {
    if |cells| == 1 {
    } else {
      BarredIsInner(cells[..|cells| - 1]);
    }
  }

  /** Cells written with their bars escaped come back from the printed row, each one stripped, whatever they hold. */
  lemma EscapedRowRoundTrip(cells: seq<string>)
    requires cells != []
    ensures SplitRow(RenderRow(Escaped(cells))) == Stripped(cells)
  {
    BodyOfRow(Escaped(cells));
    BarredIsInner(Escaped(cells));
    InnerCells(cells, [' '], [' ']);
  }

  // ---------------------------------------------------------------- rows without outer bars

  predicate Solid(c: string) {
    c != [] && !IsSpace(c[0]) && !IsSpace(c[|c| - 1])
  }

  lemma {:induction false} InnerEnds(cells: seq<string>)
    requires cells != [] && cells[0] != [] && cells[|cells| - 1] != []
    ensures Inner(cells) != [] && Inner(cells)[0] == cells[0][0]
    ensures var s, c := Inner(cells), cells[|cells| - 1];
      |s| >= |c| && s[|s| - |c|..] == c
  {
    var n := |cells| - 1;
    if n == 0 {
    } else {
      InnerStart(cells[..n]);
      assert Inner(cells) == Inner(cells[..n]) + [' '] + ['|'] + ([' '] + cells[n]);
    }
  }

  lemma {:induction false} InnerStart(cells: seq<string>)
    requires cells != [] && cells[0] != []
    ensures Inner(cells) != [] && Inner(cells)[0] == cells[0][0]
  {
    if |cells| == 1 {
    } else {
      InnerStart(cells[..|cells| - 1]);
    }
  }

  /** Neither end of the line is an outer bar. */
  ghost predicate Unbarred(line: string) {
    && Solid(line) && line[0] != '|'
    && (line[|line| - 1] == '|' ==> |line| >= 2 && line[|line| - 2] == '\\')
  }

  lemma SolidEscape(c: string)
    requires Solid(c)
    ensures Unbarred(Escape(c))
  {
    EscapeShape(c);
    hide Escape;
  }

  lemma BareEnds(cells: seq<string>)
    requires cells != [] && Solid(cells[0]) && Solid(cells[|cells| - 1])
    ensures Unbarred(Inner(Escaped(cells)))
  {
    var line, first, last := Inner(Escaped(cells)), Escape(cells[0]), Escape(cells[|cells| - 1]);
    SolidEscape(cells[0]);
    SolidEscape(cells[|cells| - 1]);
    InnerEnds(Escaped(cells));
    LastOfSlice(line, last);
    hide Escape, Inner;
  }

  /** The outer bars may be left out: the row is split in the same way, also where its last cell ends in a bar. */
  lemma BareRow(cells: seq<string>)
    requires cells != [] && Solid(cells[0]) && Solid(cells[|cells| - 1])
    ensures SplitRow(Inner(Escaped(cells))) == Stripped(cells)
  {
    var line := Inner(Escaped(cells));
    BareEnds(cells);
    BareBody(line);
    InnerCells(cells, [], []);
    assert [] + line + [] == line;
    hide Pieces, Cells, Escaped, Inner, Stripped, Body, Unbarred;
  }

  /** A line that neither starts with a bar nor ends in one without a backslash is its own body. */
  lemma BareBody(line: string)
    requires Unbarred(line)
    ensures Body(line) == line
  {
    StripKeeps(line);
    hide Strip;
  }

  lemma LastOfSlice(s: string, t: string)
    requires t != [] && |s| >= |t| && s[|s| - |t|..] == t
    ensures s[|s| - 1] == t[|t| - 1] && (|t| >= 2 ==> s[|s| - 2] == t[|t| - 2])
  {
  }

  // ---------------------------------------------------------------- separator lines

  predicate Blank(s: string) {
    forall i :: 0 <= i < |s| ==> IsSpace(s[i])
  }

  /** The parts of a separator line: space, a bar or none, space, a colon or none, three dashes, anything. */
  ghost predicate Delimits(line: string, a: string, bar: string, b: string, colon: string, rest: string) {
    && line == a + (bar + (b + (colon + ("---" + rest))))
    && Blank(a) && Blank(b) && (bar == [] || bar == "|") && (colon == [] || colon == ":")
  }

  lemma {:induction false} LStripBlank(a: string, t: string)
    requires Blank(a) && t != [] && !IsSpace(t[0])
    ensures LStrip(a + t) == t
  {
    if a == [] {
      assert a + t == t;
    } else {
      LStripBlank(a[1..], t);
      assert (a + t)[1..] == a[1..] + t;
    }
  }

  lemma LStripSplits(s: string) returns (a: string)
    ensures Blank(a) && s == a + LStrip(s)
  {
    LStripShape(s);
    a := s[..|s| - |LStrip(s)|];
    LStripDropsBlank(s);
  }

  lemma {:induction false} LStripDropsBlank(s: string)
    ensures |LStrip(s)| <= |s| && Blank(s[..|s| - |LStrip(s)|])
  {
    if s == [] || !IsSpace(s[0]) {
    } else {
      LStripDropsBlank(s[1..]);
      var k := |s| - |LStrip(s)|;
      assert s[..k] == [s[0]] + s[1..][..k - 1];
    }
  }

  /** Takes the character off the front of a text, if it is there. */
  lemma Optional(s: string, c: char) returns (front: string, rest: string)
    ensures s == front + rest && rest == (if s != [] && s[0] == c then s[1..] else s) && (front == [] || front == [c])
  {
    front, rest := if s != [] && s[0] == c then [c] else [], if s != [] && s[0] == c then s[1..] else s;
  }

  /** A separator line is exactly one of that form. */
  lemma SeparatorExactly(line: string)
    ensures IsSeparator(line) <==> exists a, bar, b, colon, rest :: Delimits(line, a, bar, b, colon, rest)
  {
    if IsSeparator(line) {
      var a := LStripSplits(line);
      var bar, u := Optional(LStrip(line), '|');
      var b := LStripSplits(u);
      var colon, w := Optional(LStrip(u), ':');
      assert w == "---" + w[3..];
      hide LStrip, Blank;
      assert Delimits(line, a, bar, b, colon, w[3..]);
    }
    if a, bar, b, colon, rest :| Delimits(line, a, bar, b, colon, rest) {
      DelimitedIsSeparator(line, a, bar, b, colon, rest);
    }
  }

  lemma DelimitedIsSeparator(line: string, a: string, bar: string, b: string, colon: string, rest: string)
    requires Delimits(line, a, bar, b, colon, rest)
    ensures IsSeparator(line)
  {
    var w := "---" + rest;
    var v := colon + w;
    LStripBlank(b, v);
    if bar == [] {
      assert bar + (b + v) == b + v && a + (b + v) == (a + b) + v;
      LStripBlank(a + b, v);
      assert LStrip(v) == v;
    } else {
      var t := bar + (b + v);
      LStripBlank(a, t);
      assert t[1..] == b + v;
    }
    assert colon == ":" ==> v[1..] == w;
    assert colon == [] ==> v == w;
  }
}
