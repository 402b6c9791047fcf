/**
 What a transcript search shows: the corpus text holds the visible cells in reading order, with one space
 wherever something lies between two of them, and a match lights up exactly the columns of its cells.
 */
module SearchMeaning {
  import opened Common
  import opened Search

  // ---------------------------------------------------------------- the text of a corpus

  /** A visible cell, by its row and its place in the row. */
  datatype Mark = Mark(row: nat, at: nat)

  function MarksIn(cells: seq<Cell>, row: nat, n: nat): seq<Mark>
    requires n <= |cells|
  {
    if n == 0 then [] else MarksIn(cells, row, n - 1) + if cells[n - 1].blank then [] else [Mark(row, n - 1)]
  }

  /** The visible cells of the first `n` lines in reading order. */
  function Marks(lines: seq<Line>, n: nat): seq<Mark>
    requires n <= |lines|
  {
    if n == 0 then []
    else Marks(lines, n - 1) + MarksIn(CellsOf(lines[n - 1]), n - 1, |CellsOf(lines[n - 1])|)
  }

  predicate Marked(lines: seq<Line>, m: Mark) {
    m.row < |lines| && m.at < |CellsOf(lines[m.row])| && !CellsOf(lines[m.row])[m.at].blank
  }

  /** Side by side with nothing between. */
  predicate Adjacent(a: Mark, b: Mark) { a.row == b.row && b.at == a.at + 1 }

  /** The span holds the cell's text and stands for its columns. */
  predicate Holds(lines: seq<Line>, text: string, s: Span, m: Mark) {
    && Marked(lines, m)
    && var cell := CellsOf(lines[m.row])[m.at];
       && s.textStart <= s.textEnd <= |text| && text[s.textStart..s.textEnd] == cell.text
       && s.row == m.row && s.startCol == Columns(CellsOf(lines[m.row]), m.at) && s.endCol == s.startCol + cell.width
       && !s.linear
  }

  /** The next cell's text comes right behind, or behind one space if the cells are not adjacent. */
  predicate Follows(text: string, s: Span, m: Mark, t: Span, n: Mark) {
    if Adjacent(m, n) then t.textStart == s.textEnd
    else s.textEnd < |text| && text[s.textEnd] == ' ' && t.textStart == s.textEnd + 1
  }

  ghost predicate Reads(lines: seq<Line>, text: string, spans: seq<Span>, marks: seq<Mark>) {
    && |spans| == |marks|
    && (forall k :: 0 <= k < |marks| ==> Holds(lines, text, spans[k], marks[k]))
    && (forall k :: 0 < k < |marks| ==> Follows(text, spans[k - 1], marks[k - 1], spans[k], marks[k]))
    && (if marks == [] then text == "" else spans[0].textStart == 0 && spans[|spans| - 1].textEnd == |text|)
  }

  predicate Before(a: Mark, b: Mark) { a.row < b.row || (a.row == b.row && a.at < b.at) }

  /** So far: a space is owed if the next cell cannot be adjacent to the last one shown. */
  ghost predicate ReadsUpTo(lines: seq<Line>, b: Corpus, marks: seq<Mark>, next: Mark) {
    && Reads(lines, b.text, b.spans, marks)
    && (marks != [] ==> b.text != "" && Before(marks[|marks| - 1], next))
    && (b.pending <==> marks != [] && !Adjacent(marks[|marks| - 1], next))
  }

  lemma StillHolds(lines: seq<Line>, text: string, more: string, s: Span, m: Mark)
    requires Holds(lines, text, s, m)
    ensures Holds(lines, text + more, s, m)
  {
    assert (text + more)[s.textStart..s.textEnd] == text[s.textStart..s.textEnd];
  }

  lemma StillFollows(text: string, more: string, s: Span, m: Mark, t: Span, n: Mark)
    requires Follows(text, s, m, t, n)
    ensures Follows(text + more, s, m, t, n)
  {
  }

  lemma FollowsLast(text: string, b: Corpus, s: Span, m: Mark, t: Span, n: Mark)
    requires s.textEnd == |b.text| && t.textStart == |b.text| + (if b.pending then 1 else 0)
    requires b.pending <==> !Adjacent(m, n)
    requires b.pending ==> |b.text| < |text| && text[|b.text|] == ' '
    ensures Follows(text, s, m, t, n)
  {
  }

  lemma PutHolds(lines: seq<Line>, b: Corpus, m: Mark)
    requires Marked(lines, m) && CellsOf(lines[m.row])[m.at].text != ""
    ensures var cells := CellsOf(lines[m.row]);
      var c := Put(b, cells[m.at], m.row, Columns(cells, m.at));
      && |c.spans| == |b.spans| + 1 && c.spans[..|b.spans|] == b.spans && !c.pending
      && Holds(lines, c.text, c.spans[|b.spans|], m)
      && c.spans[|b.spans|].textEnd == |c.text|
      && c.spans[|b.spans|].textStart == |b.text| + (if b.pending then 1 else 0)
      && (exists more :: c.text == b.text + more)
      && |b.text| < |c.text| && (b.pending ==> c.text[|b.text|] == ' ')
  {
    var cell := CellsOf(lines[m.row])[m.at];
    var more := (if b.pending then " " else "") + cell.text;
    var c := Put(b, cell, m.row, Columns(CellsOf(lines[m.row]), m.at));
    hide Columns, CellsOf;
    assert c.text == b.text + more;
    assert c.text[|Separated(b)|..] == cell.text;
  }

  lemma VisibleNext(lines: seq<Line>, b: Corpus, marks: seq<Mark>, m: Mark)
    requires ReadsUpTo(lines, b, marks, m) && Marked(lines, m) && CellsOf(lines[m.row])[m.at].text != ""
    ensures var cells := CellsOf(lines[m.row]);
      ReadsUpTo(lines, Put(b, cells[m.at], m.row, Columns(cells, m.at)), marks + [m], Mark(m.row, m.at + 1))
  {
    hide Put, Holds, Columns, CellsOf, Follows;
    var cells := CellsOf(lines[m.row]);
    var c := Put(b, cells[m.at], m.row, Columns(cells, m.at));
    PutHolds(lines, b, m);
    var all := marks + [m];
    var more :| c.text == b.text + more;
    forall k | 0 <= k < |all| ensures Holds(lines, c.text, c.spans[k], all[k]) {
      if k < |marks| {
        assert c.spans[k] == c.spans[..|b.spans|][k];
        StillHolds(lines, b.text, more, b.spans[k], marks[k]);
      }
    }
    forall k | 0 < k < |all| ensures Follows(c.text, c.spans[k - 1], all[k - 1], c.spans[k], all[k]) {
      assert c.spans[k - 1] == c.spans[..|b.spans|][k - 1];
      if k < |marks| {
        assert c.spans[k] == c.spans[..|b.spans|][k];
        StillFollows(b.text, more, b.spans[k - 1], marks[k - 1], b.spans[k], marks[k]);
      } else {
        FollowsLast(c.text, b, c.spans[k - 1], marks[k - 1], c.spans[k], m);
      }
    }
    if marks != [] { assert c.spans[0] == c.spans[..|b.spans|][0]; }
  }

  lemma BlankNext(lines: seq<Line>, b: Corpus, marks: seq<Mark>, m: Mark, cell: Cell, col: nat)
    requires ReadsUpTo(lines, b, marks, m) && cell.blank
    ensures ReadsUpTo(lines, Put(b, cell, m.row, col), marks, Mark(m.row, m.at + 1))
  {
  }

  lemma CellRead(lines: seq<Line>, b: Corpus, marks: seq<Mark>, m: Mark)
    requires ReadsUpTo(lines, b, marks, m) && m.row < |lines| && m.at < |CellsOf(lines[m.row])|
    requires CellsOf(lines[m.row])[m.at].text != ""
    ensures var cells := CellsOf(lines[m.row]);
      ReadsUpTo(lines, Put(b, cells[m.at], m.row, Columns(cells, m.at)),
        if cells[m.at].blank then marks else marks + [m], Mark(m.row, m.at + 1))
  {
    hide ReadsUpTo, Put, Columns, CellsOf;
    var cells := CellsOf(lines[m.row]);
    if cells[m.at].blank {
      BlankNext(lines, b, marks, m, cells[m.at], Columns(cells, m.at));
    } else {
      VisibleNext(lines, b, marks, m);
    }
  }

  lemma NextMark(cells: seq<Cell>, row: nat, n: nat, marks: seq<Mark>)
    requires n < |cells|
    ensures marks + MarksIn(cells, row, n + 1) ==
            if cells[n].blank then marks + MarksIn(cells, row, n) else marks + MarksIn(cells, row, n) + [Mark(row, n)]
  {
  }

  lemma NoneEmpty(lines: seq<Line>, row: nat, n: nat)
    requires LinesOk(lines) && row < |lines| && n < |CellsOf(lines[row])|
    ensures CellsOf(lines[row])[n].text != ""
  {
    CellsNotEmpty(lines[row]);
  }

  lemma NothingRead(b: Corpus, marks: seq<Mark>, cells: seq<Cell>, row: nat)
    ensures PutCells(b, cells, row, 0) == b && marks + MarksIn(cells, row, 0) == marks
  {
  }

  lemma {:induction false} LineReads(lines: seq<Line>, b: Corpus, marks: seq<Mark>, row: nat, n: nat)
    requires LinesOk(lines) && row < |lines| && n <= |CellsOf(lines[row])| && ReadsUpTo(lines, b, marks, Mark(row, 0))
    ensures var cells := CellsOf(lines[row]);
      ReadsUpTo(lines, PutCells(b, cells, row, n), marks + MarksIn(cells, row, n), Mark(row, n))
    decreases n
  {
    hide *;
    var cells := CellsOf(lines[row]);
    if n == 0 {
      NothingRead(b, marks, cells, row);
    } else {
      NoneEmpty(lines, row, n - 1);
      LineReads(lines, b, marks, row, n - 1);
      PutNext(b, cells, row, n - 1);
      NextMark(cells, row, n - 1, marks);
      CellRead(lines, PutCells(b, cells, row, n - 1), marks + MarksIn(cells, row, n - 1), Mark(row, n - 1));
    }
  }

  lemma LineEnds(lines: seq<Line>, b: Corpus, marks: seq<Mark>, m: Mark)
    requires ReadsUpTo(lines, b, marks, m)
    ensures ReadsUpTo(lines, Blank(b), marks, Mark(m.row + 1, 0))
  {
  }

  lemma NoLinesRead(lines: seq<Line>)
    ensures ReadsUpTo(lines, PutLines(lines, 0), Marks(lines, 0), Mark(0, 0))
  {
  }

  lemma {:induction false} LinesRead(lines: seq<Line>, n: nat)
    requires LinesOk(lines) && n <= |lines|
    ensures ReadsUpTo(lines, PutLines(lines, n), Marks(lines, n), Mark(n, 0))
  {
    hide ReadsUpTo, PutLines, PutCells, CellsOf, MarksIn, LinesOk, Blank;
    if n == 0 {
      NoLinesRead(lines);
    } else {
      LinesRead(lines, n - 1);
      var cells := CellsOf(lines[n - 1]);
      LineReads(lines, PutLines(lines, n - 1), Marks(lines, n - 1), n - 1, |cells|);
      NextLine(lines, n - 1);
      LineEnds(lines, PutCells(PutLines(lines, n - 1), cells, n - 1, |cells|), Marks(lines, n), Mark(n - 1, |cells|));
    }
  }

  /** The corpus holds every visible cell, once, in reading order, and nothing else but single spaces between them. */
  lemma CorpusReads(lines: seq<Line>)
    requires LinesOk(lines)
    ensures var c := PlainCorpus(lines); Reads(lines, c.text, c.spans, Marks(lines, |lines|))
  {
    LinesRead(lines, |lines|);
    hide Reads, PutLines, Marks;
  }

  // ---------------------------------------------------------------- spans in reading order

  predicate InReadingOrder(marks: seq<Mark>) {
    forall i, j :: 0 <= i < j < |marks| ==> Before(marks[i], marks[j])
  }

  predicate AllBefore(marks: seq<Mark>, m: Mark) { forall i :: 0 <= i < |marks| ==> Before(marks[i], m) }

  lemma {:induction false} LineInReadingOrder(marks: seq<Mark>, cells: seq<Cell>, row: nat, n: nat)
    requires InReadingOrder(marks) && AllBefore(marks, Mark(row, 0)) && n <= |cells|
    ensures var all := marks + MarksIn(cells, row, n); InReadingOrder(all) && AllBefore(all, Mark(row, n))
  {
    if n == 0 {
      assert marks + [] == marks;
    } else {
      LineInReadingOrder(marks, cells, row, n - 1);
      NextMark(cells, row, n - 1, marks);
      NextInReadingOrder(marks + MarksIn(cells, row, n - 1), Mark(row, n - 1));
      hide MarksIn, InReadingOrder, AllBefore;
    }
  }

  lemma NextInReadingOrder(marks: seq<Mark>, m: Mark)
    requires InReadingOrder(marks) && AllBefore(marks, m)
    ensures var next := Mark(m.row, m.at + 1);
      AllBefore(marks, next) && InReadingOrder(marks + [m]) && AllBefore(marks + [m], next)
  {
  }

  lemma {:induction false} MarksInReadingOrder(lines: seq<Line>, n: nat)
    requires n <= |lines|
    ensures InReadingOrder(Marks(lines, n)) && AllBefore(Marks(lines, n), Mark(n, 0))
  {
    if n > 0 {
      MarksInReadingOrder(lines, n - 1);
      hide CellsOf, InReadingOrder, AllBefore, MarksIn;
      LineInReadingOrder(Marks(lines, n - 1), CellsOf(lines[n - 1]), n - 1, |CellsOf(lines[n - 1])|);
      LineOver(Marks(lines, n), n - 1, |CellsOf(lines[n - 1])|);
    }
  }

  lemma LineOver(marks: seq<Mark>, row: nat, n: nat)
    requires AllBefore(marks, Mark(row, n))
    ensures AllBefore(marks, Mark(row + 1, 0))
  {
  }

  lemma {:induction false} ColumnsGrow(cells: seq<Cell>, i: nat, j: nat)
    requires i <= j <= |cells|
    ensures Columns(cells, i) <= Columns(cells, j)
    decreases j
  {
    if i < j { ColumnsGrow(cells, i, j - 1); }
  }

  /** The span's columns lie behind or below. */
  predicate Past(row: nat, endCol: int, s: Span) { row < s.row || (row == s.row && endCol <= s.startCol) }

  /** Whole cells, each past the ones before it. */
  ghost predicate PlainSpans(spans: seq<Span>) {
    && (forall k :: 0 <= k < |spans| ==> !spans[k].linear && spans[k].startCol <= spans[k].endCol)
    && forall i, j :: 0 <= i < j < |spans| ==> Past(spans[i].row, spans[i].endCol, spans[j])
  }

  lemma CorpusIsPlain(lines: seq<Line>)
    requires LinesOk(lines)
    ensures PlainSpans(PlainCorpus(lines).spans)
  {
    var spans, text, marks := PlainCorpus(lines).spans, PlainCorpus(lines).text, Marks(lines, |lines|);
    CorpusReads(lines);
    MarksInReadingOrder(lines, |lines|);
    hide PlainCorpus, Marks, CellsOf, Columns, Follows;
    forall i, j | 0 <= i < j < |spans| ensures Past(spans[i].row, spans[i].endCol, spans[j]) {
      assert Holds(lines, text, spans[i], marks[i]) && Holds(lines, text, spans[j], marks[j]);
      assert Before(marks[i], marks[j]);
      if marks[i].row == marks[j].row {
        var cells := CellsOf(lines[marks[i].row]);
        NextColumn(cells, marks[i].at);
        ColumnsGrow(cells, marks[i].at + 1, marks[j].at);
      }
    }
  }

  lemma NextColumn(cells: seq<Cell>, n: nat)
    requires n < |cells|
    ensures Columns(cells, n + 1) == Columns(cells, n) + cells[n].width
  {
  }

  // ---------------------------------------------------------------- what a match lights up

  ghost predicate Lit(segments: seq<Segment>, row: nat, col: int) {
    exists i :: 0 <= i < |segments| && Within(segments[i], row, col)
  }

  predicate Within(g: Segment, row: nat, col: int) { g.row == row && g.startCol <= col < g.endCol }

  /** Some cell of the match takes that column. */
  ghost predicate InMatch(spans: seq<Span>, m: Interval, row: nat, col: int) {
    exists k :: 0 <= k < |spans| && Meets(spans[k], m.start, m.end) && Takes(spans[k], row, col)
  }

  predicate Takes(s: Span, row: nat, col: int) { s.row == row && s.startCol <= col < s.endCol }

  ghost predicate MeetsAny(spans: seq<Span>, m: Interval) {
    exists k :: 0 <= k < |spans| && Meets(spans[k], m.start, m.end)
  }

  /** From top to bottom and left to right, with a column between any two on a row. */
  predicate Separate(segments: seq<Segment>) {
    && (forall i :: 0 <= i < |segments| ==> segments[i].startCol <= segments[i].endCol)
    && forall i :: 0 < i < |segments| ==>
         segments[i - 1].row < segments[i].row ||
         (segments[i - 1].row == segments[i].row && segments[i - 1].endCol < segments[i].startCol)
  }

  /** Exactly the columns of the match's cells, in as few segments as that takes. */
  ghost predicate Shows(segments: seq<Segment>, spans: seq<Span>, m: Interval) {
    && (forall row, col :: Lit(segments, row, col) <==> InMatch(spans, m, row, col))
    && Separate(segments) && (segments != [] <==> MeetsAny(spans, m))
  }

  /** No segment reaches into a span past all the cells it was made of. */
  lemma {:induction false} SegmentsPast(spans: seq<Span>, m: Interval, s: Span)
    requires forall k :: 0 <= k < |spans| ==> !spans[k].linear && Past(spans[k].row, spans[k].endCol, s)
    ensures forall i :: 0 <= i < |AddSpans([], spans, m.start, m.end)| ==>
      var g := AddSpans([], spans, m.start, m.end)[i]; Past(g.row, g.endCol, s)
    decreases |spans|
  {
    if spans != [] { SegmentsPast(spans[..|spans| - 1], m, s); }
  }

  /** One more cell. */
  lemma JoinShows(segments: seq<Segment>, s: Span)
    requires !s.linear && s.startCol <= s.endCol && Separate(segments)
    requires forall i :: 0 <= i < |segments| ==> Past(segments[i].row, segments[i].endCol, s)
    ensures var all := Join(segments, Segment(s.row, s.startCol, s.endCol));
      && all != [] && Separate(all)
      && forall row, col :: Lit(all, row, col) <==> Lit(segments, row, col) || Takes(s, row, col)
  {
    var all, last := Join(segments, Segment(s.row, s.startCol, s.endCol)), |segments| - 1;
    forall row, col ensures Lit(all, row, col) <==> Lit(segments, row, col) || Takes(s, row, col) {
      if Lit(segments, row, col) {
        var i :| 0 <= i < |segments| && Within(segments[i], row, col);
        assert Within(all[i], row, col);
      }
      if Takes(s, row, col) { assert Within(all[|all| - 1], row, col); }
      if Lit(all, row, col) {
        var i :| 0 <= i < |all| && Within(all[i], row, col);
        assert i < |segments| && all[i] == segments[i] ==> Within(segments[i], row, col);
        assert i == last && all[i] != segments[i] ==> Within(segments[i], row, col) || Takes(s, row, col);
      }
    }
  }

  lemma {:induction false} SegmentsShow(spans: seq<Span>, m: Interval)
    requires PlainSpans(spans)
    ensures Shows(AddSpans([], spans, m.start, m.end), spans, m)
    decreases |spans|
  {
    if spans != [] {
      var n := |spans| - 1;
      var init, s := spans[..n], spans[n];
      SegmentsShow(init, m);
      SegmentsPast(init, m, s);
      var before, after := AddSpans([], init, m.start, m.end), AddSpans([], spans, m.start, m.end);
      assert after == AddSpan(before, s, m.start, m.end);
      hide AddSpans, Join, Separate, PlainSpans;
      if Meets(s, m.start, m.end) { JoinShows(before, s); }
      InMatchNext(spans, m);
    }
  }

  lemma InMatchNext(spans: seq<Span>, m: Interval)
    requires spans != []
    ensures var n := |spans| - 1; var met := Meets(spans[n], m.start, m.end);
      && (MeetsAny(spans, m) <==> MeetsAny(spans[..n], m) || met)
      && forall row, col :: InMatch(spans, m, row, col) <==>
           InMatch(spans[..n], m, row, col) || (met && Takes(spans[n], row, col))
  {
    var n := |spans| - 1;
    assert forall k :: 0 <= k < n ==> spans[..n][k] == spans[k];
  }

  /** One entry for each match that meets a cell, in the order of the matches, each showing exactly its match. */
  ghost predicate AllShown(shown: seq<seq<Segment>>, spans: seq<Span>, found: seq<Interval>, which: seq<nat>) {
    && |shown| == |which|
    && (forall i: nat :: i in which <==> i < |found| && MeetsAny(spans, found[i]))
    && (forall i, j :: 0 <= i < j < |which| ==> which[i] < which[j])
    && forall j :: 0 <= j < |which| ==> which[j] in which && Shows(shown[j], spans, found[which[j]])
  }

  lemma {:induction false} MatchesShow(spans: seq<Span>, found: seq<Interval>) returns (which: seq<nat>)
    requires PlainSpans(spans)
    ensures AllShown(AllMatches(spans, found), spans, found, which)
    decreases |found|
  {
    if found == [] {
      which := [];
    } else {
      hide AllShown, PlainSpans;
      var n := |found| - 1;
      assert found == found[..n] + [found[n]];
      which := MatchesShow(spans, found[..n]);
      SegmentsShow(spans, found[n]);
      which := NextShown(AllMatches(spans, found[..n]), spans, found[..n], which, found[n],
        AddSpans([], spans, found[n].start, found[n].end));
    }
  }

  lemma NextShown(shown: seq<seq<Segment>>, spans: seq<Span>, found: seq<Interval>, which: seq<nat>, m: Interval,
      segments: seq<Segment>) returns (all: seq<nat>)
    requires AllShown(shown, spans, found, which) && Shows(segments, spans, m)
    ensures AllShown(shown + if segments != [] then [segments] else [], spans, found + [m], all)
  {
    assert segments != [] <==> MeetsAny(spans, m);
    hide Shows, MeetsAny;
    all := if segments != [] then which + [|found|] else which;
    assert forall j :: 0 <= j < |which| ==> which[j] in which;
    forall i: nat ensures i in all <==> i < |found + [m]| && MeetsAny(spans, (found + [m])[i]) {
      assert i in all <==> i in which || (segments != [] && i == |found|);
    }
  }

  /** So a search shows every match of the normalised query in the text of the visible cells, and nothing for none. */
  lemma SearchShows(matcher: Matcher, lines: seq<string>, query: string) returns (which: seq<nat>)
    requires Regular(matcher)
    ensures var q := matcher.normalize(query);
      var read := ReadLines(matcher, lines);
      var corpus := PlainCorpus(read);
      && Reads(read, corpus.text, corpus.spans, Marks(read, |read|))
      && if q == "" then Plain(matcher, lines, query) == []
         else AllShown(Plain(matcher, lines, query), corpus.spans, matcher.find(corpus.text, q), which)
  {
    var read := ReadLines(matcher, lines);
    var corpus := PlainCorpus(read);
    assert LinesOk(read);
    CorpusReads(read);
    CorpusIsPlain(read);
    hide PlainCorpus, Reads, AllShown, PlainSpans, Marks;
    which := MatchesShow(corpus.spans, matcher.find(corpus.text, matcher.normalize(query)));
  }
}
