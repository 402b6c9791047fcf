/**
 Transcript search: a corpus built a run at a time, matches found with a moving span pointer, and a
 cached index; each against the plain definition it must agree with. Stripping terminal sequences,
 segmenting graphemes and finding the query are any functions: a rendered line is read as cells, and
 matches are increasing disjoint intervals of the corpus text.
 */
module Search {
  import opened Common

  /** One grapheme and the columns it takes. */
  datatype Cell = Cell(text: string, width: nat, blank: bool)

  datatype Line = Ascii(text: string) | Wide(cells: seq<Cell>)

  datatype Span = Span(textStart: nat, textEnd: nat, row: nat, startCol: nat, endCol: nat, linear: bool)

  /** A corpus under construction: a separator is owed before the next text. */
  datatype Corpus = Corpus(text: string, spans: seq<Span>, pending: bool)

  datatype Segment = Segment(row: nat, startCol: int, endCol: int)

  const EMPTY := Corpus("", [], false)

  // ---------------------------------------------------------------- the plain corpus: one span per cell

  function Blank(b: Corpus): Corpus { b.(pending := b.pending || b.text != "") }

  function Separated(b: Corpus): string { if b.pending then b.text + " " else b.text }

  function Put(b: Corpus, c: Cell, row: nat, col: nat): Corpus {
    if c.blank then Blank(b)
    else
      var t := Separated(b);
      Corpus(t + c.text, b.spans + [Span(|t|, |t| + |c.text|, row, col, col + c.width, false)], false)
  }

  function Columns(cells: seq<Cell>, n: nat): nat
    requires n <= |cells|
  {
    if n == 0 then 0 else Columns(cells, n - 1) + cells[n - 1].width
  }

  /** The first `n` cells of a row. */
  function PutCells(b: Corpus, cells: seq<Cell>, row: nat, n: nat): Corpus
    requires n <= |cells|
  {
    if n == 0 then b else Put(PutCells(b, cells, row, n - 1), cells[n - 1], row, Columns(cells, n - 1))
  }

  function AsciiCells(text: string): seq<Cell> {
    seq(|text|, i requires 0 <= i < |text| => Cell([text[i]], 1, text[i] == ' '))
  }

  function CellsOf(line: Line): seq<Cell> {
    match line case Ascii(text) => AsciiCells(text) case Wide(cells) => cells
  }

  function PutLines(lines: seq<Line>, n: nat): Corpus
    requires n <= |lines|
  {
    if n == 0 then EMPTY
    else
      var cells := CellsOf(lines[n - 1]);
      Blank(PutCells(PutLines(lines, n - 1), cells, n - 1, |cells|))
  }

  function PlainCorpus(lines: seq<Line>): Corpus { PutLines(lines, |lines|) }

  // ---------------------------------------------------------------- spans and their cells

  /** A linear span as the one-column spans of its characters. */
  function Units(s: Span): seq<Span>
    requires s.textStart <= s.textEnd
  {
    if !s.linear then [s]
    else seq(s.textEnd - s.textStart, k requires 0 <= k < s.textEnd - s.textStart => UnitAt(s, k))
  }

  function UnitAt(s: Span, k: nat): Span {
    Span(s.textStart + k, s.textStart + k + 1, s.row, s.startCol + k, s.startCol + k + 1, false)
  }

  predicate SpanOk(s: Span) {
    s.textStart < s.textEnd && (s.linear ==> s.endCol == s.startCol + (s.textEnd - s.textStart))
  }

  predicate SpansOk(spans: seq<Span>) { forall i :: 0 <= i < |spans| ==> SpanOk(spans[i]) }

  function Expand(spans: seq<Span>): seq<Span>
    requires SpansOk(spans)
  {
    if spans == [] then [] else Expand(spans[..|spans| - 1]) + Units(spans[|spans| - 1])
  }

  lemma ExpandOn(spans: seq<Span>, s: Span)
    requires SpansOk(spans) && SpanOk(s)
    ensures Expand(spans + [s]) == Expand(spans) + Units(s)
  {
    assert (spans + [s])[..|spans|] == spans;
  }

  /** The corpus built so far is the plain one, with its spans in longer pieces. */
  ghost predicate Condenses(b: Corpus, plain: Corpus) {
    SpansOk(b.spans) && b.text == plain.text && b.pending == plain.pending && Expand(b.spans) == plain.spans
  }

  // ---------------------------------------------------------------- building a run at a time

  lemma {:induction false} AsciiColumns(text: string, n: nat)
    requires n <= |text|
    ensures Columns(AsciiCells(text), n) == n
  {
    if n > 0 { AsciiColumns(text, n - 1); }
  }

  lemma PutNext(b: Corpus, cells: seq<Cell>, row: nat, n: nat)
    requires n < |cells|
    ensures PutCells(b, cells, row, n + 1) == Put(PutCells(b, cells, row, n), cells[n], row, Columns(cells, n))
    ensures Columns(cells, n + 1) == Columns(cells, n) + cells[n].width
  {
  }

  /** What a run of a row turns a corpus into. */
  function WithRun(b: Corpus, text: string, row: nat, begin: nat, stop: nat): Corpus
    requires begin <= stop <= |text|
  {
    var t := Separated(b);
    Corpus(t + text[begin..stop], b.spans + Units(RunSpan(|t|, row, begin, stop)), false)
  }

  function RunSpan(start: nat, row: nat, begin: nat, stop: nat): Span
    requires begin <= stop
  {
    Span(start, start + (stop - begin), row, begin, stop, true)
  }

  lemma OneMore(start: nat, row: nat, begin: nat, stop: nat)
    requires begin <= stop
    ensures Units(RunSpan(start, row, begin, begin)) == []
    ensures Units(RunSpan(start, row, begin, stop + 1)) ==
            Units(RunSpan(start, row, begin, stop)) + [Span(start + (stop - begin), start + (stop - begin) + 1, row,
                stop, stop + 1, false)]
  {
  }

  /** The first character of a run. */
  lemma RunStarts(b: Corpus, text: string, row: nat, begin: nat)
    requires begin < |text|
    ensures Put(b, Cell([text[begin]], 1, false), row, begin) == WithRun(b, text, row, begin, begin + 1)
  {
    OneMore(|Separated(b)|, row, begin, begin);
    hide Units;
    assert text[begin..begin + 1] == [text[begin]];
  }

  /** One more character of a run. */
  lemma RunGrows(b: Corpus, text: string, row: nat, begin: nat, stop: nat)
    requires begin < stop < |text|
    ensures Put(WithRun(b, text, row, begin, stop), Cell([text[stop]], 1, false), row, stop) == WithRun(b, text, row,
      begin, stop + 1)
  {
    var t := Separated(b);
    OneMore(|t|, row, begin, stop);
    hide Units, Separated;
    var units, more := Units(RunSpan(|t|, row, begin, stop)),
        Span(|t| + (stop - begin), |t| + (stop - begin) + 1, row, stop, stop + 1, false);
    NothingOwed(t + text[begin..stop], b.spans);
    OneMoreText(t, text, begin, stop);
    Regroup(b.spans, units, more);
    assert WithRun(b, text, row, begin, stop) == Corpus(t + text[begin..stop], b.spans + units, false);
  }

  lemma OneMoreText(t: string, text: string, begin: nat, stop: nat)
    requires begin <= stop < |text|
    ensures t + text[begin..stop + 1] == t + text[begin..stop] + [text[stop]]
  {
  }

  lemma Regroup<T>(a: seq<T>, b: seq<T>, x: T)
    ensures a + (b + [x]) == a + b + [x]
  {
  }

  lemma NothingOwed(text: string, spans: seq<Span>)
    ensures forall more :: Separated(Corpus(text, spans + more, false)) == text
  {
  }

  /** A stretch without spaces puts its characters one after the other. */
  lemma {:induction false} PutRun(b: Corpus, text: string, row: nat, begin: nat, stop: nat)
    requires begin < stop <= |text| && forall i :: begin <= i < stop ==> text[i] != ' '
    ensures PutCells(b, AsciiCells(text), row, stop) == WithRun(PutCells(b, AsciiCells(text), row, begin), text, row,
      begin, stop)
    decreases stop
  {
    hide Put, WithRun, PutCells, Columns;
    AsciiColumns(text, stop - 1);
    PutNext(b, AsciiCells(text), row, stop - 1);
    if begin < stop - 1 {
      PutRun(b, text, row, begin, stop - 1);
      RunGrows(PutCells(b, AsciiCells(text), row, begin), text, row, begin, stop - 1);
    } else {
      RunStarts(PutCells(b, AsciiCells(text), row, begin), text, row, begin);
    }
  }

  lemma CondensedBlank(b: Corpus, plain: Corpus)
    requires Condenses(b, plain)
    ensures Condenses(b.(pending := b.pending || |b.text| > 0), Blank(plain))
  {
  }

  lemma CondensedRun(b: Corpus, plain: Corpus, text: string, row: nat, begin: nat, stop: nat)
    requires Condenses(b, plain) && begin < stop <= |text|
    ensures var t := Separated(b); var span := RunSpan(|t|, row, begin, stop);
      Condenses(Corpus(t + text[begin..stop], b.spans + [span], false), WithRun(plain, text, row, begin, stop))
  {
    var span := RunSpan(|Separated(b)|, row, begin, stop);
    SeparatedSame(b, plain);
    ExpandOn(b.spans, span);
    AllOkWith(b.spans, span);
    hide Expand, Separated, Units, SpansOk;
  }

  lemma SeparatedSame(b: Corpus, plain: Corpus)
    requires Condenses(b, plain)
    ensures Separated(b) == Separated(plain)
  {
    hide Expand;
  }

  lemma CondensedCell(b: Corpus, plain: Corpus, c: Cell, row: nat, col: nat)
    requires Condenses(b, plain) && !c.blank && c.text != ""
    ensures var t := Separated(b); var span := Span(|t|, |t| + |c.text|, row, col, col + c.width, false);
      Condenses(Corpus(t + c.text, b.spans + [span], false), Put(plain, c, row, col))
  {
    var t := Separated(b);
    var span := Span(|t|, |t| + |c.text|, row, col, col + c.width, false);
    SeparatedSame(b, plain);
    ExpandOn(b.spans, span);
    assert Units(span) == [span];
    AllOkWith(b.spans, span);
    hide Expand, Separated, Units, SpansOk;
  }

  lemma AllOkWith(spans: seq<Span>, s: Span)
    requires SpansOk(spans) && SpanOk(s)
    ensures SpansOk(spans + [s])
  {
  }

  method AddAsciiLine(b: Corpus, ghost plain: Corpus, line: string, row: nat) returns (corpus: Corpus)
    requires Condenses(b, plain)
    ensures Condenses(corpus, PutCells(plain, AsciiCells(line), row, |line|))
  {
    NoCellsYet(plain, AsciiCells(line), row);
    hide Condenses, PutCells, Columns, WithRun;
    corpus := b;
    var column, index := 0, 0;
    while index < |line|
      invariant 0 <= index == column <= |line|
      invariant Condenses(corpus, PutCells(plain, AsciiCells(line), row, index))
    {
      if line[index] == ' ' {
        PutNext(plain, AsciiCells(line), row, index);
        CondensedBlank(corpus, PutCells(plain, AsciiCells(line), row, index));
        corpus := corpus.(pending := corpus.pending || |corpus.text| > 0);
        column, index := column + 1, index + 1;
      } else {
        var end := index + 1;
        while end < |line| && line[end] != ' '
          invariant index < end <= |line| && forall i :: index <= i < end ==> line[i] != ' '
        {
          end := end + 1;
        }
        var text := line[index..end];
        var t := if corpus.pending then corpus.text + " " else corpus.text;
        PutRun(plain, line, row, index, end);
        CondensedRun(corpus, PutCells(plain, AsciiCells(line), row, index), line, row, index, end);
        corpus := Corpus(t + text, corpus.spans + [Span(|t|, |t| + |text|, row, column, column + |text|, true)], false);
        column := column + |text|;
        index := end;
      }
    }
  }

  lemma NoCellsYet(plain: Corpus, cells: seq<Cell>, row: nat)
    ensures PutCells(plain, cells, row, 0) == plain && Columns(cells, 0) == 0
  {
  }

  method AddWideLine(b: Corpus, ghost plain: Corpus, cells: seq<Cell>, row: nat) returns (corpus: Corpus)
    requires Condenses(b, plain) && forall i :: 0 <= i < |cells| ==> cells[i].text != ""
    ensures Condenses(corpus, PutCells(plain, cells, row, |cells|))
  {
    NoCellsYet(plain, cells, row);
    hide Condenses, PutCells, Columns;
    corpus := b;
    var column, index := 0, 0;
    while index < |cells|
      invariant 0 <= index <= |cells| && column == Columns(cells, index)
      invariant Condenses(corpus, PutCells(plain, cells, row, index))
    {
      var cell := cells[index];
      PutNext(plain, cells, row, index);
      if cell.blank {
        CondensedBlank(corpus, PutCells(plain, cells, row, index));
        corpus := corpus.(pending := corpus.pending || |corpus.text| > 0);
      } else {
        CondensedCell(corpus, PutCells(plain, cells, row, index), cell, row, column);
        var t := if corpus.pending then corpus.text + " " else corpus.text;
        corpus := Corpus(t + cell.text, corpus.spans + [Span(|t|, |t| + |cell.text|, row, column, column + cell.width,
            false)], false);
      }
      column := column + cell.width;
      index := index + 1;
    }
  }

  /** No grapheme is empty. */
  predicate LineOk(line: Line) {
    line.Wide? ==> forall k :: 0 <= k < |line.cells| ==> line.cells[k].text != ""
  }

  predicate LinesOk(lines: seq<Line>) { forall i :: 0 <= i < |lines| ==> LineOk(lines[i]) }

  /** `buildSearchCorpus`: the plain corpus's text, and its spans condensed. */
  method BuildSearchCorpus(lines: seq<Line>) returns (corpus: Corpus)
    requires LinesOk(lines)
    ensures Condenses(corpus, PlainCorpus(lines)) && InOrder(corpus.spans)
  {
    EmptyCondenses(lines);
    hide Condenses, PutCells, PutLines, InOrder;
    corpus := EMPTY;
    var row := 0;
    while row < |lines|
      invariant 0 <= row <= |lines| && Condenses(corpus, PutLines(lines, row))
    {
      NextLine(lines, row);
      ghost var plain := PutLines(lines, row);
      match lines[row] {
        case Ascii(text) => corpus := AddAsciiLine(corpus, plain, text, row);
        case Wide(cells) => corpus := AddWideLine(corpus, plain, cells, row);
      }
      CondensedBlank(corpus, PutCells(plain, CellsOf(lines[row]), row, |CellsOf(lines[row])|));
      corpus := corpus.(pending := corpus.pending || |corpus.text| > 0);
      row := row + 1;
    }
    PlainInOrder(lines, |lines|);
    CondensedInOrder(corpus, PutLines(lines, |lines|));
  }

  lemma EmptyCondenses(lines: seq<Line>)
    ensures Condenses(EMPTY, PutLines(lines, 0))
  {
  }

  lemma NextLine(lines: seq<Line>, row: nat)
    requires row < |lines|
    ensures PutLines(lines, row + 1) ==
            Blank(PutCells(PutLines(lines, row), CellsOf(lines[row]), row, |CellsOf(lines[row])|))
  {
  }

  lemma CondensedInOrder(b: Corpus, plain: Corpus)
    requires Condenses(b, plain) && InOrder(plain.spans)
    ensures InOrder(b.spans)
  {
    ExpandedInOrder(b.spans);
  }

  // ---------------------------------------------------------------- spans are in text order

  predicate InOrder(spans: seq<Span>) {
    && (forall i :: 0 <= i < |spans| ==> spans[i].textStart < spans[i].textEnd)
    && (forall i, j :: 0 <= i < j < |spans| ==> spans[i].textEnd <= spans[j].textStart)
  }

  /** Every span lies within the text. */
  predicate Inside(spans: seq<Span>, n: nat) { forall i :: 0 <= i < |spans| ==> spans[i].textEnd <= n }

  lemma PutInOrder(b: Corpus, c: Cell, row: nat, col: nat)
    requires InOrder(b.spans) && Inside(b.spans, |b.text|) && (!c.blank ==> c.text != "")
    ensures var t := Put(b, c, row, col); InOrder(t.spans) && Inside(t.spans, |t.text|)
  {
  }

  lemma {:induction false} CellsInOrder(b: Corpus, cells: seq<Cell>, row: nat, n: nat)
    requires n <= |cells| && InOrder(b.spans) && Inside(b.spans, |b.text|) && forall i :: 0 <= i < |cells| ==>
      cells[i].text != ""
    ensures var t := PutCells(b, cells, row, n); InOrder(t.spans) && Inside(t.spans, |t.text|)
  {
    if n > 0 {
      CellsInOrder(b, cells, row, n - 1);
      PutInOrder(PutCells(b, cells, row, n - 1), cells[n - 1], row, Columns(cells, n - 1));
    }
  }

  lemma CellsNotEmpty(line: Line)
    requires LineOk(line)
    ensures forall i :: 0 <= i < |CellsOf(line)| ==> CellsOf(line)[i].text != ""
  {
  }

  predicate WellPlaced(b: Corpus) { InOrder(b.spans) && Inside(b.spans, |b.text|) }

  lemma LineInOrder(b: Corpus, line: Line, row: nat)
    requires WellPlaced(b) && LineOk(line)
    ensures WellPlaced(Blank(PutCells(b, CellsOf(line), row, |CellsOf(line)|)))
  {
    CellsNotEmpty(line);
    hide InOrder, Inside, PutCells, CellsOf, LineOk;
    CellsInOrder(b, CellsOf(line), row, |CellsOf(line)|);
  }

  lemma NoLines(lines: seq<Line>)
    ensures WellPlaced(PutLines(lines, 0))
  {
  }

  lemma {:induction false} PlainInOrder(lines: seq<Line>, n: nat)
    requires n <= |lines| && LinesOk(lines)
    ensures WellPlaced(PutLines(lines, n))
  {
    hide WellPlaced, Blank, PutCells, CellsOf, PutLines, LineOk;
    if n == 0 {
      NoLines(lines);
    } else {
      PlainInOrder(lines, n - 1);
      NextLine(lines, n - 1);
      LineInOrder(PutLines(lines, n - 1), lines[n - 1], n - 1);
    }
  }

  /** A span's units begin and end where it does. */
  lemma UnitsEnds(s: Span)
    requires SpanOk(s)
    ensures var u := Units(s); u != [] && u[0].textStart == s.textStart && EndsWith(u, s.textEnd)
  {
  }

  lemma InOrderParts(a: seq<Span>, b: seq<Span>)
    requires InOrder(a + b)
    ensures InOrder(a) && (a != [] && b != [] ==> a[|a| - 1].textEnd <= b[0].textStart)
  {
    assert forall i :: 0 <= i < |a| ==> (a + b)[i] == a[i];
    if a != [] && b != [] { assert (a + b)[|a|] == b[0]; }
  }

  lemma InOrderWith(spans: seq<Span>, s: Span)
    requires InOrder(spans) && s.textStart < s.textEnd && (spans != [] ==> spans[|spans| - 1].textEnd <= s.textStart)
    ensures InOrder(spans + [s])
  {
    forall i | 0 <= i < |spans| ensures spans[i].textEnd <= s.textStart {
      assert i < |spans| - 1 ==> spans[i].textEnd <= spans[|spans| - 1].textStart;
      assert spans[|spans| - 1].textStart < spans[|spans| - 1].textEnd;
    }
  }

  predicate EndsWith(spans: seq<Span>, n: nat) { spans != [] && spans[|spans| - 1].textEnd == n }

  lemma JoinOrdered(init: seq<Span>, s: Span, rest: seq<Span>, units: seq<Span>)
    requires InOrder(rest + units) && InOrder(init) && SpanOk(s)
    requires init != [] ==> EndsWith(rest, init[|init| - 1].textEnd)
    requires units != [] && units[0].textStart == s.textStart && EndsWith(units, s.textEnd)
    ensures InOrder(init + [s]) && EndsWith(rest + units, s.textEnd)
  {
    InOrderParts(rest, units);
    LastOf(rest, units);
    InOrderWith(init, s);
    hide InOrder;
  }

  lemma {:induction false} ExpandedInOrder(spans: seq<Span>)
    requires SpansOk(spans) && InOrder(Expand(spans))
    ensures InOrder(spans)
    ensures spans != [] ==> EndsWith(Expand(spans), spans[|spans| - 1].textEnd)
    decreases |spans|
  {
    if spans != [] {
      var init, s := spans[..|spans| - 1], spans[|spans| - 1];
      ExpandStep(spans);
      UnitsEnds(s);
      hide InOrder, Units, Expand, SpansOk, EndsWith;
      InOrderParts(Expand(init), Units(s));
      ExpandedInOrder(init);
      JoinOrdered(init, s, Expand(init), Units(s));
    }
  }

  lemma ExpandStep(spans: seq<Span>)
    requires SpansOk(spans) && spans != []
    ensures var n := |spans| - 1;
      && SpansOk(spans[..n]) && SpanOk(spans[n]) && spans == spans[..n] + [spans[n]]
      && Expand(spans) == Expand(spans[..n]) + Units(spans[n])
  {
    hide Units;
  }

  lemma LastOf<T>(a: seq<T>, b: seq<T>)
    requires b != []
    ensures a + b != [] && (a + b)[|a + b| - 1] == b[|b| - 1]
  {
  }

  // ---------------------------------------------------------------- segments

  predicate Meets(s: Span, start: nat, end: nat) { s.textStart < end && s.textEnd > start }

  /** The columns of a span that belong to a match. */
  function Shown(s: Span, start: nat, end: nat): Segment
    requires Meets(s, start, end)
  {
    if s.linear then
      Segment(s.row, s.startCol + Max(start, s.textStart) - s.textStart, s.startCol + Min(end, s.textEnd) - s.textStart)
    else Segment(s.row, s.startCol, s.endCol)
  }

  /** Joins a segment to the last one if it touches it on the same row. */
  function Join(segments: seq<Segment>, g: Segment): seq<Segment> {
    var n := |segments| - 1;
    if n >= 0 && segments[n].row == g.row && g.startCol <= segments[n].endCol
    then segments[n := segments[n].(endCol := Max(segments[n].endCol, g.endCol))]
    else segments + [g]
  }

  function AddSpan(segments: seq<Segment>, s: Span, start: nat, end: nat): seq<Segment> {
    if Meets(s, start, end) then Join(segments, Shown(s, start, end)) else segments
  }

  /** All spans, filtered by the match. */
  function AddSpans(segments: seq<Segment>, spans: seq<Span>, start: nat, end: nat): seq<Segment> {
    if spans == [] then segments
    else AddSpan(AddSpans(segments, spans[..|spans| - 1], start, end), spans[|spans| - 1], start, end)
  }

  lemma {:induction false} AddSpansAppend(segments: seq<Segment>, a: seq<Span>, b: seq<Span>, start: nat, end: nat)
    ensures AddSpans(segments, a + b, start, end) == AddSpans(AddSpans(segments, a, start, end), b, start, end)
    decreases |b|
  {
    if b == [] {
      assert a + b == a;
    } else {
      assert (a + b)[..|a + b| - 1] == a + b[..|b| - 1];
      AddSpansAppend(segments, a, b[..|b| - 1], start, end);
    }
  }

  /** A run adds what its characters add one by one. */
  lemma {:induction false} UnitsAdd(segments: seq<Segment>, s: Span, start: nat, end: nat)
    requires SpanOk(s) && s.linear && start < end
    ensures AddSpans(segments, Units(s), start, end) == AddSpan(segments, s, start, end)
    decreases s.textEnd - s.textStart
  {
    var last := UnitAt(s, s.textEnd - s.textStart - 1);
    if s.textEnd - s.textStart == 1 {
      assert Units(s) == [last];
      assert [last][..0] == [];
    } else {
      var shorter := s.(textEnd := s.textEnd - 1, endCol := s.endCol - 1);
      assert Units(s) == Units(shorter) + [last];
      assert Units(s)[..|Units(s)| - 1] == Units(shorter);
      UnitsAdd(segments, shorter, start, end);
      LastUnit(segments, s, start, end);
    }
  }

  /** Dropping the last character of a run and adding it afterwards changes nothing. */
  lemma LastUnit(segments: seq<Segment>, s: Span, start: nat, end: nat)
    requires SpanOk(s) && s.linear && start < end && s.textEnd - s.textStart > 1
    ensures var shorter := s.(textEnd := s.textEnd - 1, endCol := s.endCol - 1);
      AddSpan(AddSpan(segments, shorter, start, end), UnitAt(s, s.textEnd - s.textStart - 1), start, end) ==
          AddSpan(segments, s, start, end)
  {
  }

  /** So the condensed corpus shows every match where the plain one does. */
  lemma {:induction false} ExpandAdds(segments: seq<Segment>, spans: seq<Span>, start: nat, end: nat)
    requires SpansOk(spans) && start < end
    ensures AddSpans(segments, Expand(spans), start, end) == AddSpans(segments, spans, start, end)
    decreases |spans|
  {
    if spans != [] {
      var n := |spans| - 1;
      ExpandAdds(segments, spans[..n], start, end);
      AddSpansAppend(segments, Expand(spans[..n]), Units(spans[n]), start, end);
      var before := AddSpans(segments, spans[..n], start, end);
      if spans[n].linear {
        UnitsAdd(before, spans[n], start, end);
      } else {
        assert Units(spans[n])[..0] == [];
      }
    }
  }

  // ---------------------------------------------------------------- matches

  datatype Interval = Interval(start: nat, end: nat)

  /** What a global search of the text yields: non-empty matches, each behind the one before. */
  predicate Increasing(found: seq<Interval>) {
    && (forall i :: 0 <= i < |found| ==> found[i].start < found[i].end)
    && (forall i, j :: 0 <= i < j < |found| ==> found[i].end <= found[j].start)
  }

  function AllMatches(spans: seq<Span>, found: seq<Interval>): seq<seq<Segment>> {
    if found == [] then []
    else
      var m := found[|found| - 1];
      var segments := AddSpans([], spans, m.start, m.end);
      AllMatches(spans, found[..|found| - 1]) + if segments != [] then [segments] else []
  }

  lemma {:induction false} SameMatches(spans: seq<Span>, found: seq<Interval>)
    requires SpansOk(spans) && forall i :: 0 <= i < |found| ==> found[i].start < found[i].end
    ensures AllMatches(Expand(spans), found) == AllMatches(spans, found)
    decreases |found|
  {
    if found != [] {
      SameMatches(spans, found[..|found| - 1]);
      ExpandAdds([], spans, found[|found| - 1].start, found[|found| - 1].end);
    }
  }

  /** Spans that end before a match add nothing to it. */
  lemma {:induction false} NothingBefore(segments: seq<Segment>, spans: seq<Span>, n: nat, start: nat, end: nat)
    requires n <= |spans| && forall i :: 0 <= i < n ==> spans[i].textEnd <= start
    ensures AddSpans(segments, spans[..n], start, end) == segments
    decreases n
  {
    if n > 0 {
      assert spans[..n][..n - 1] == spans[..n - 1];
      NothingBefore(segments, spans, n - 1, start, end);
    }
  }

  /** Nor do spans that start behind it. */
  lemma {:induction false} NothingBehind(segments: seq<Segment>, spans: seq<Span>, n: nat, start: nat, end: nat)
    requires n <= |spans| && forall i :: n <= i < |spans| ==> spans[i].textStart >= end
    ensures AddSpans(segments, spans, start, end) == AddSpans(segments, spans[..n], start, end)
    decreases |spans| - n
  {
    if n < |spans| {
      NothingBehind(segments, spans, n + 1, start, end);
      assert spans[..n + 1][..n] == spans[..n];
    } else {
      assert spans[..n] == spans;
    }
  }

  /** The segments of one match, scanning from the moving pointer and stopping behind the match. */
  method SegmentsOf(spans: seq<Span>, spanIndex: nat, m: Interval) returns (segments: seq<Segment>)
    requires InOrder(spans) && spanIndex <= |spans| && forall i :: 0 <= i < spanIndex ==> spans[i].textEnd <= m.start
    ensures segments == AddSpans([], spans, m.start, m.end)
  {
    segments := [];
    NothingBefore([], spans, spanIndex, m.start, m.end);
    var index := spanIndex;
    while index < |spans|
      invariant spanIndex <= index <= |spans|
      invariant segments == AddSpans([], spans[..index], m.start, m.end)
    {
      var span := spans[index];
      if span.textStart >= m.end {
        NothingBehind([], spans, index, m.start, m.end);
        return;
      }
      assert spans[..index + 1][..index] == spans[..index];
      if span.textEnd > m.start {
        var startCol := if span.linear then span.startCol + Max(m.start, span.textStart) - span.textStart
            else span.startCol;
        var endCol := if span.linear then span.startCol + Min(m.end, span.textEnd) - span.textStart else span.endCol;
        var previous := |segments| - 1;
        if previous >= 0 && segments[previous].row == span.row && startCol <= segments[previous].endCol {
          segments := segments[previous := segments[previous].(endCol := Max(segments[previous].endCol, endCol))];
        } else {
          segments := segments + [Segment(span.row, startCol, endCol)];
        }
      }
      index := index + 1;
    }
    assert spans[..index] == spans;
  }

  /** The span pointer only moves forward, past spans no later match can meet. */
  method FindSearchCorpusMatches(spans: seq<Span>, found: seq<Interval>) returns (matches: seq<seq<Segment>>)
    requires InOrder(spans) && Increasing(found)
    ensures matches == AllMatches(spans, found)
  {
    matches := [];
    var spanIndex := 0;
    var i := 0;
    while i < |found|
      invariant 0 <= i <= |found| && 0 <= spanIndex <= |spans|
      invariant matches == AllMatches(spans, found[..i])
      invariant forall k :: 0 <= k < spanIndex ==> i < |found| ==> spans[k].textEnd <= found[i].start
    {
      var m := found[i];
      while spanIndex < |spans| && spans[spanIndex].textEnd <= m.start
        invariant 0 <= spanIndex <= |spans|
        invariant forall k :: 0 <= k < spanIndex ==> spans[k].textEnd <= m.start
      {
        spanIndex := spanIndex + 1;
      }
      var segments := SegmentsOf(spans, spanIndex, m);
      while spanIndex < |spans| && spans[spanIndex].textEnd <= m.end
        invariant 0 <= spanIndex <= |spans|
        invariant forall k :: 0 <= k < spanIndex ==> spans[k].textEnd <= m.end
      {
        spanIndex := spanIndex + 1;
      }
      assert found[..i + 1][..i] == found[..i];
      if |segments| > 0 { matches := matches + [segments]; }
      i := i + 1;
    }
    assert found[..i] == found;
  }

  // ---------------------------------------------------------------- search, with and without the cache

  /**
   What is left abstract: reading a rendered line, normalising a query, and a global case-insensitive search for it.
   */
  datatype Matcher = Matcher(
    read: string -> Line,
    normalize: string -> string,
    find: (string, string) -> seq<Interval>)

  ghost predicate Regular(m: Matcher) {
    && (forall text, query :: Increasing(m.find(text, query)))
    && (forall line :: LineOk(m.read(line)))
  }

  function ReadLines(m: Matcher, lines: seq<string>): seq<Line> {
    seq(|lines|, i requires 0 <= i < |lines| => m.read(lines[i]))
  }

  function Answer(m: Matcher, lines: seq<string>, q: string): seq<seq<Segment>> {
    if q == "" then []
    else var corpus := PlainCorpus(ReadLines(m, lines)); AllMatches(corpus.spans, m.find(corpus.text, q))
  }

  /** The plain definition: the query's matches in the plain corpus, each by all its spans. */
  function Plain(m: Matcher, lines: seq<string>, query: string): seq<seq<Segment>> {
    Answer(m, lines, m.normalize(query))
  }

  method Find(m: Matcher, corpus: Corpus, q: string, ghost lines: seq<string>) returns (matches: seq<seq<Segment>>)
    requires Regular(m) && Condenses(corpus, PlainCorpus(ReadLines(m, lines))) && InOrder(corpus.spans)
    ensures matches == Answer(m, lines, q)
  {
    if q == "" { return []; }
    var found := m.find(corpus.text, q);
    assert Increasing(found);
    matches := FindSearchCorpusMatches(corpus.spans, found);
    SameMatches(corpus.spans, found);
  }

  method FindAltScreenSearchMatches(m: Matcher, lines: seq<string>, query: string) returns (matches: seq<seq<Segment>>)
    requires Regular(m)
    ensures matches == Plain(m, lines, query)
  {
    var q := m.normalize(query);
    if q == "" { return []; }
    var corpus := BuildSearchCorpus(ReadLines(m, lines));
    matches := Find(m, corpus, q, lines);
  }

  class AltScreenSearchIndex {
    const matcher: Matcher
    var sourceLines: Option<seq<string>>
    var corpus: Option<Corpus>
    var normalizedQuery: Option<string>
    var matches: seq<seq<Segment>>

    constructor (matcher: Matcher)
      requires Regular(matcher)
      ensures Valid() && this.matcher == matcher && sourceLines.None?
    {
      this.matcher := matcher;
      sourceLines, corpus, normalizedQuery, matches := None, None, None, [];
    }

    /** The cached corpus is that of the cached lines, the cached matches those of the cached query in it. */
    ghost predicate Valid()
      reads this
    {
      && Regular(matcher)
      && (corpus.Some? ==> sourceLines.Some? && Corresponds(corpus.value, sourceLines.value))
      && (normalizedQuery.Some? ==> corpus.Some? && matches == Answer(matcher, sourceLines.value,
          normalizedQuery.value))
      && (sourceLines.Some? <==> corpus.Some?) && (corpus.Some? <==> normalizedQuery.Some?)
    }

    ghost predicate Corresponds(c: Corpus, lines: seq<string>) {
      Condenses(c, PlainCorpus(ReadLines(matcher, lines))) && InOrder(c.spans)
    }

    /**
     Whatever was searched before, the answer is the plain one; `changed` tells whether lines or query differ from the
     last call's.
     */
    method Search(lines: seq<string>, query: string) returns (result: seq<seq<Segment>>, changed: bool)
      requires Valid()
      modifies this
      ensures Valid() && result == Plain(matcher, lines, query)
      ensures sourceLines == Some(lines) && normalizedQuery == Some(matcher.normalize(query))
      ensures changed <==> old(sourceLines) != Some(lines) || old(normalizedQuery) != Some(matcher.normalize(query))
    {
      var sourceChanged := sourceLines.None? || |sourceLines.value| != |lines|;
      if !sourceChanged {
        var index := 0;
        while index < |lines| && !sourceChanged
          invariant 0 <= index <= |lines|
          invariant !sourceChanged ==> forall i :: 0 <= i < index ==> sourceLines.value[i] == lines[i]
          invariant sourceChanged ==> exists i :: 0 <= i < |lines| && sourceLines.value[i] != lines[i]
        {
          if sourceLines.value[index] != lines[index] { sourceChanged := true; }
          index := index + 1;
        }
      }
      if !sourceChanged { assert sourceLines.value == lines; }
      if sourceChanged || corpus.None? {
        sourceLines := Some(lines);
        var built := BuildSearchCorpus(ReadLines(matcher, lines));
        corpus := Some(built);
      }
      var normalized := matcher.normalize(query);
      changed := sourceChanged || normalizedQuery != Some(normalized);
      if changed {
        normalizedQuery := Some(normalized);
        matches := Find(matcher, corpus.value, normalized, lines);
      }
      result := matches;
    }
  }
}
