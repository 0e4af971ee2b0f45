/** The actual sentences, headings and columns of the traceability document. */
module TraceTitles {
  import opened Markdown
  import opened TraceMatrix
  import I = IdList

  const ARROW := " \U{2192} "

  function Decimal(n: nat): string {
    if n <= 9 then [I.DigitChar(n)] else Decimal(n / 10) + [I.DigitChar(n % 10)]
  }

  function Counted(name: string, n: nat): string {
    name + ": " + Decimal(n)
  }

  const DOT := " \U{B7} "

  function Summary(m: Matrix): string {
    Counted("Requirements", |m.requirements|) + DOT + Counted("Packages", |m.packages|) + DOT
    + Counted("Tests", |m.tests|) + DOT + Counted("Problems", m.problems)
  }

  const TITLE := "# Traceability matrix " + ("(generated by `python -m " + "tools.trace_matrix --write`)")
  const SOURCES := "Source: spec Appendix A, "
    + ("development plan package tables, " + "validation plan Test tables.")
  const NOTE := "Do not edit by hand; " + ("regenerate after any " + "baseline change.")

  const PRELUDE := [TITLE, [], SOURCES, NOTE, []]

  const HEADINGS := [
    "Requirement" + ARROW + "packages" + ARROW + "Tests",
    "Package" + ARROW + "Tests" + ARROW + "Requirements",
    "Test" + ARROW + "Packages" + ARROW + "Requirements"
  ]

  const COLUMNS := [
    ["REQ", "Packages", "Tests"],
    ["Package", "Phase", "Size", "Prereq", "Tests", "REQ"],
    ["Test", "Phase", "Packages", "REQ"]
  ]

  const TITLES := Titles(PRELUDE, HEADINGS, COLUMNS, Summary)

  lemma {:induction false} DecimalPlain(n: nat)
    ensures OneLine(Decimal(n)) && Decimal(n) != []
  {
    if n <= 9 {
    } else {
      DecimalPlain(n / 10);
    }
  }

  predicate Printable(s: string) {
    forall i :: 0 <= i < |s| ==> ' ' <= s[i] <= '~'
  }

  lemma Sentence(a: string, b: string, c: string)
    requires Printable(a) && Printable(b) && Printable(c) && a != [] && a[0] != '|' && a[0] != ' '
    ensures PlainLine(a + (b + c))
  {
    assert (a + (b + c))[0] == a[0];
    assert Printable(b + c);
  }

  lemma TitlePlain()
    ensures PlainLine(TITLE)
  {
    Sentence("# Traceability matrix ", "(generated by `python -m ", "tools.trace_matrix --write`)");
    hide PlainLine;
  }

  lemma SourcesPlain()
    ensures PlainLine(SOURCES)
  {
    Sentence("Source: spec Appendix A, ", "development plan package tables, ", "validation plan Test tables.");
    hide PlainLine;
  }

  lemma NotePlain()
    ensures PlainLine(NOTE)
  {
    Sentence("Do not edit by hand; ", "regenerate after any ", "baseline change.");
    hide PlainLine;
  }

  lemma PreludePlain()
    ensures forall i :: 0 <= i < |PRELUDE| ==> PlainLine(PRELUDE[i])
  {
    assert PlainLine([]);
    hide PlainLine;
    TitlePlain();
    SourcesPlain();
    NotePlain();
  }

  lemma Word(s: string)
    requires s != [] && forall i :: 0 <= i < |s| ==> 'A' <= s[i] <= 'z'
    requires '|' !in s
    ensures CleanCell(s)
  {
    StripKeeps(s);
  }

  lemma ColumnsPlain()
    ensures forall i :: 0 <= i < 3 ==> COLUMNS[i] != [] && CleanRow(COLUMNS[i])
  {
    Word("REQ");
    Word("Packages");
    Word("Tests");
    Word("Package");
    Word("Phase");
    Word("Size");
    Word("Prereq");
    Word("Test");
    hide CleanCell;
  }

  /** Three words between arrows. */
  lemma HeadingPlain(a: string, b: string, c: string)
    requires a != [] && c != [] && Printable(a) && Printable(b) && Printable(c)
    requires a[0] != ' ' && c[|c| - 1] != ' '
    ensures var h := a + ARROW + b + ARROW + c;
      h != [] && OneLine(h) && Strip(h) == h
  {
    var h := a + ARROW + b + ARROW + c;
    assert h[0] == a[0] && h[|h| - 1] == c[|c| - 1];
    StripKeeps(h);
    assert OneLine(ARROW);
  }

  lemma HeadingsPlain()
    ensures forall i :: 0 <= i < 3 ==> HEADINGS[i] != [] && OneLine(HEADINGS[i]) && Strip(HEADINGS[i]) == HEADINGS[i]
  {
    HeadingPlain("Requirement", "packages", "Tests");
    HeadingPlain("Package", "Tests", "Requirements");
    HeadingPlain("Test", "Packages", "Requirements");
    hide OneLine, Strip;
  }

  lemma CountedPlain(name: string, n: nat)
    requires Printable(name)
    ensures OneLine(Counted(name, n))
  {
    DecimalPlain(n);
    hide Decimal;
    assert OneLine(name) && OneLine(": ");
  }

  lemma SummaryPlain(m: Matrix)
    ensures PlainLine(Summary(m))
  {
    CountedPlain("Requirements", |m.requirements|);
    CountedPlain("Packages", |m.packages|);
    CountedPlain("Tests", |m.tests|);
    CountedPlain("Problems", m.problems);
    assert OneLine(DOT);
    assert Counted("Requirements", |m.requirements|)[0] == 'R';
    hide Counted;
    assert Summary(m)[0] == 'R';
  }

  /** The document's own titles meet every condition of the round trip. */
  lemma TitlesArePlain()
    ensures PlainTitles(TITLES)
  {
    PreludePlain();
    HeadingsPlain();
    ColumnsPlain();
    forall m: Matrix ensures PlainLine(TITLES.summary(m)) {
      SummaryPlain(m);
    }
    hide PlainLine, OneLine, Strip, CleanRow;
  }

  /** The published document, with its own titles, parses back exactly for matrices of clean cells. */
  lemma PublishedRoundTrip(m: Matrix)
    ensures PlainTitles(TITLES)
    ensures Tables(SplitLines(Join(Lines(m, TITLES) + [[]], ['\n'])), []) == Expected(m, TITLES)
      <==> AllClean(ReqRows(m)) && AllClean(PkgRows(m)) && AllClean(TestRows(m))
  {
    TitlesArePlain();
    DocumentRoundTrip(m, TITLES);
    hide *;
  }
}
