/**
 * The 'full reorder' fixture of the cell-layout tests: for each grid size, a
 * start board, the cell the dragged block is moved to, and the board the
 * reorder solver is expected to produce. Boards are strings of rows separated
 * by '\n'; each character is one cell, 'x' marks the unusable top row and
 * every other character names an occupant, which repeats its character over
 * every cell it spans.
 */
module FullReorderCase {

  /** android.graphics.Point: x is the column, y is the row. */
  datatype Point = Point(x: int, y: int)

  datatype ReorderTestCase = ReorderTestCase(start: string, moveTo: Point, end: string)

  // 5x5
  const StartBoard5x5: string := ""
    + "xxxxx\n"
    + "222mm\n"
    + "222mm\n"
    + "ad111\n"
    + "bc111"
  const MoveTo5x5: Point := Point(0, 4)
  const EndBoard5x5: string := ""
    + "xxxxx\n"
    + "222ad\n"
    + "222bc\n"
    + "mm111\n"
    + "mm111"
  const TestCase5x5: ReorderTestCase := ReorderTestCase(StartBoard5x5, MoveTo5x5, EndBoard5x5)

  // 6x5
  const StartBoard6x5: string := ""
    + "xxxxxx\n"
    + "2222mm\n"
    + "2222mm\n"
    + "ad1111\n"
    + "bc1111"
  const MoveTo6x5: Point := Point(0, 4)
  const EndBoard6x5: string := ""
    + "xxxxxx\n"
    + "2222ad\n"
    + "2222bc\n"
    + "mm1111\n"
    + "mm1111"
  const TestCase6x5: ReorderTestCase := ReorderTestCase(StartBoard6x5, MoveTo6x5, EndBoard6x5)

  // 4x4
  const StartBoard4x4: string := ""
    + "xxxx\n"
    + "22mm\n"
    + "admm\n"
    + "bc11"
  const MoveTo4x4: Point := Point(0, 3)
  const EndBoard4x4: string := ""
    + "xxxx\n"
    + "22ad\n"
    + "mmbc\n"
    + "mm11"
  const TestCase4x4: ReorderTestCase := ReorderTestCase(StartBoard4x4, MoveTo4x4, EndBoard4x4)

  /** The fixture's lookup table, keyed by grid size (columns, rows). */
  const TestByGridSize: map<Point, ReorderTestCase> :=
    map[Point(5, 5) := TestCase5x5, Point(6, 5) := TestCase6x5, Point(4, 4) := TestCase4x4]

  /** The character the moved block is drawn with. */
  const MovedBlock: char := 'm'

  /** The character of the unusable top row. */
  const Blocked: char := 'x'

  // ---------------------------------------------------------------------
  // Reading a board
  // ---------------------------------------------------------------------

  /** Rows joined with '\n', the way the fixture writes a board. */
  function Join(rows: seq<string>): string
    requires rows != []
  {
    if |rows| == 1 then rows[0] else rows[0] + "\n" + Join(rows[1..])
  }

  /** Index of the first '\n' in s, or |s| when there is none. */
  function LineEnd(s: string): (i: nat)
    ensures i <= |s|
    ensures '\n' !in s[..i]
    ensures i < |s| ==> s[i] == '\n'
  {
    if s == [] || s[0] == '\n' then 0
    else
      var i := 1 + LineEnd(s[1..]);
      assert s[..i] == [s[0]] + s[1..][..i - 1];
      i
  }

  /** The rows of a board: s split at every '\n'. */
  function Lines(s: string): (rows: seq<string>)
    ensures rows != []
    decreases |s|
  {
    var i := LineEnd(s);
    if i == |s| then [s] else [s[..i]] + Lines(s[i + 1..])
  }

  lemma {:induction false} LineEndOfJoined(r: string, rest: string)
    requires '\n' !in r
    ensures LineEnd(r + rest) == (if rest != [] && rest[0] == '\n' then |r| else |r| + LineEnd(rest))
    decreases |r|
  {
    if r == [] {
      assert r + rest == rest;
    } else {
      assert (r + rest)[1..] == r[1..] + rest;
      LineEndOfJoined(r[1..], rest);
    }
  }

  /** Splitting a joined board gives back its rows. */
  lemma {:induction false} LinesOfJoin(rows: seq<string>)
    requires rows != []
    requires forall k :: 0 <= k < |rows| ==> '\n' !in rows[k]
    ensures Lines(Join(rows)) == rows
    decreases |rows|
  {
    var s := Join(rows);
    if |rows| == 1 {
      LineEndOfJoined(rows[0], []);
      assert rows[0] + [] == rows[0];
    } else {
      var rest := Join(rows[1..]);
      assert s == rows[0] + ("\n" + rest);
      LineEndOfJoined(rows[0], "\n" + rest);
      assert s[..|rows[0]|] == rows[0];
      assert s[|rows[0]| + 1..] == rest;
      LinesOfJoin(rows[1..]);
    }
  }

  /** A board of h rows, each w cells wide. */
  predicate IsGrid(rows: seq<string>, w: int, h: int)
  {
    |rows| == h && forall y :: 0 <= y < |rows| ==> |rows[y]| == w
  }

  /** Executable form of the row-width part of IsGrid. */
  function AllRowsWide(rows: seq<string>, w: int): bool
  {
    rows == [] || (|rows[0]| == w && AllRowsWide(rows[1..], w))
  }

  lemma {:induction false} AllRowsWideSound(rows: seq<string>, w: int)
    requires AllRowsWide(rows, w)
    ensures forall y :: 0 <= y < |rows| ==> |rows[y]| == w
  {
    if rows != [] {
      AllRowsWideSound(rows[1..], w);
      forall y | 1 <= y < |rows| ensures |rows[y]| == w {
        assert rows[y] == rows[1..][y - 1];
      }
    }
  }

  // ---------------------------------------------------------------------
  // Occupant rectangles
  // ---------------------------------------------------------------------

  /** A rectangle of cells: columns x..x+w-1, rows y..y+h-1. */
  datatype Span = Span(x: int, y: int, w: int, h: int) {
    predicate Contains(cx: int, cy: int) {
      x <= cx < x + w && y <= cy < y + h
    }
  }

  /** Occupant c fills exactly the cells of span r (and r is not empty). */
  predicate OccupiesSpan(rows: seq<string>, c: char, r: Span)
  {
    && r.w > 0 && r.h > 0
    && forall y, x :: 0 <= y < |rows| && 0 <= x < |rows[y]| ==>
         (rows[y][x] == c <==> r.Contains(x, y))
  }

  /** No cell lies in both spans. */
  predicate Disjoint(a: Span, b: Span)
  {
    a.x + a.w <= b.x || b.x + b.w <= a.x || a.y + a.h <= b.y || b.y + b.h <= a.y
  }

  /** Executable: from column x on, every cell of row y lies in the span of its own occupant. */
  function RowCovered(row: string, x: int, y: int, spans: map<char, Span>): bool
  {
    row == [] || (row[0] in spans && spans[row[0]].Contains(x, y) && RowCovered(row[1..], x + 1, y, spans))
  }

  /** Executable: from row y on, every cell lies in the span of its own occupant. */
  function Covered(rows: seq<string>, y: int, spans: map<char, Span>): bool
  {
    rows == [] || (RowCovered(rows[0], 0, y, spans) && Covered(rows[1..], y + 1, spans))
  }

  lemma {:induction false} RowCoveredSound(row: string, x: int, y: int, spans: map<char, Span>)
    requires RowCovered(row, x, y, spans)
    ensures forall i :: 0 <= i < |row| ==> row[i] in spans && spans[row[i]].Contains(x + i, y)
  {
    if row != [] {
      RowCoveredSound(row[1..], x + 1, y, spans);
      forall i | 1 <= i < |row| ensures row[i] in spans && spans[row[i]].Contains(x + i, y) {
        assert row[i] == row[1..][i - 1];
      }
    }
  }

  lemma {:induction false} CoveredSound(rows: seq<string>, y: int, spans: map<char, Span>)
    requires Covered(rows, y, spans)
    ensures forall j, i :: 0 <= j < |rows| && 0 <= i < |rows[j]| ==>
              rows[j][i] in spans && spans[rows[j][i]].Contains(i, y + j)
  {
    if rows != [] {
      RowCoveredSound(rows[0], 0, y, spans);
      CoveredSound(rows[1..], y + 1, spans);
      forall j, i | 1 <= j < |rows| && 0 <= i < |rows[j]|
        ensures rows[j][i] in spans && spans[rows[j][i]].Contains(i, y + j)
      {
        assert rows[j] == rows[1..][j - 1];
      }
    }
  }

  /**
   * The spans tile the board: they are non-empty, pairwise disjoint, and
   * every cell lies in the span of the occupant written there.
   */
  predicate Tiling(rows: seq<string>, spans: map<char, Span>)
  {
    SpanTable(spans) && Covered(rows, 0, spans)
  }

  /** Every span of the table is non-empty and no two of them overlap. */
  predicate SpanTable(spans: map<char, Span>)
  {
    && (forall c :: c in spans ==> spans[c].w > 0 && spans[c].h > 0)
    && (forall c, d :: c in spans && d in spans && c != d ==> Disjoint(spans[c], spans[d]))
  }

  /** In a tiling every occupant fills exactly its span. */
  lemma TilingOccupies(rows: seq<string>, spans: map<char, Span>, c: char)
    requires Tiling(rows, spans) && c in spans
    ensures OccupiesSpan(rows, c, spans[c])
  {
    CoveredSound(rows, 0, spans);
  }

  /** A character other than the separator in a joined board comes from one of its rows. */
  lemma {:induction false} InJoin(rows: seq<string>, c: char) returns (k: nat)
    requires rows != [] && c in Join(rows) && c != '\n'
    ensures k < |rows| && c in rows[k]
  {
    if |rows| == 1 {
      k := 0;
    } else {
      assert Join(rows) == rows[0] + ("\n" + Join(rows[1..]));
      if c in rows[0] {
        k := 0;
      } else {
        var k' := InJoin(rows[1..], c);
        k := k' + 1;
      }
    }
  }

  // ---------------------------------------------------------------------
  // What every case of the fixture satisfies
  // ---------------------------------------------------------------------

  /**
   * Every occupant of board s covers a rectangle, and covers one of the same
   * width and height in board e.
   */
  ghost predicate SameShapes(s: seq<string>, e: seq<string>, board: string)
  {
    forall c :: c in board && c != '\n' ==>
      exists rs: Span, re: Span :: OccupiesSpan(s, c, rs) && OccupiesSpan(e, c, re) && rs.w == re.w && rs.h == re.h
  }

  /** What a reorder case of grid size (columns, rows) promises. */
  ghost predicate WellFormedCase(size: Point, t: ReorderTestCase)
  {
    var s := Lines(t.start);
    var e := Lines(t.end);
    && IsGrid(s, size.x, size.y) && IsGrid(e, size.x, size.y)
    && 0 <= t.moveTo.x < size.x && 0 <= t.moveTo.y < size.y
    && (forall x :: 0 <= x < size.x ==> s[0][x] == Blocked && e[0][x] == Blocked)
    && s[t.moveTo.y][t.moveTo.x] != MovedBlock
    && e[t.moveTo.y][t.moveTo.x] == MovedBlock
    && SameShapes(s, e, t.start)
  }

  /**
   * A board given as rows, tiled by a span table without the separator, reads
   * back as those rows.
   */
  lemma RowsOfTiledBoard(rows: seq<string>, spans: map<char, Span>)
    requires rows != [] && Tiling(rows, spans) && '\n' !in spans
    ensures Lines(Join(rows)) == rows
  {
    CoveredSound(rows, 0, spans);
    assert forall k :: 0 <= k < |rows| ==> '\n' !in rows[k];
    LinesOfJoin(rows);
  }

  /**
   * Two boards tiled by span tables with the same occupants and the same
   * rectangle sizes have the same shapes.
   */
  lemma ShapesOfTilings(s: seq<string>, e: seq<string>, ss: map<char, Span>, es: map<char, Span>)
    requires s != [] && Tiling(s, ss) && Tiling(e, es) && ss.Keys <= es.Keys
    requires forall c :: c in ss ==> ss[c].w == es[c].w && ss[c].h == es[c].h
    ensures SameShapes(s, e, Join(s))
  {
    CoveredSound(s, 0, ss);
    forall c | c in Join(s) && c != '\n'
      ensures exists rs: Span, re: Span :: OccupiesSpan(s, c, rs) && OccupiesSpan(e, c, re) && rs.w == re.w && rs.h == re.h
    {
      var k := InJoin(s, c);
      var i :| 0 <= i < |s[k]| && s[k][i] == c;
      TilingOccupies(s, ss, c);
      TilingOccupies(e, es, c);
    }
  }

  /**
   * The 5x5 and 6x5 cases: the moved block (two rows high) trades places
   * with the two-by-two group of single cells below-left of it.
   */
  lemma SwapBelowKeepsCells(top: string, wide: string, moved: string, upper: string, lower: string, rest: string, nl: string)
    ensures multiset(top + nl + wide + moved + nl + wide + moved + nl + upper + rest + nl + lower + rest)
         == multiset(top + nl + wide + upper + nl + wide + lower + nl + moved + rest + nl + moved + rest)
  {
  }

  /**
   * The 4x4 case: the moved block trades places with the single cells beside
   * and below it.
   */
  lemma SwapAcrossKeepsCells(top: string, wide: string, moved: string, upper: string, lower: string, rest: string, nl: string)
    ensures multiset(top + nl + wide + moved + nl + upper + moved + nl + lower + rest)
         == multiset(top + nl + wide + upper + nl + moved + lower + nl + moved + rest)
  {
  }

  /**
   * A case whose boards are given as rows of the grid's width, tiled by span
   * tables that agree on the occupants and their sizes, whose top row is the
   * blocked span and whose move-to cell lies in the moved block only at the
   * end, is well formed.
   */
  lemma CaseOfTilings(size: Point, t: ReorderTestCase, s: seq<string>, e: seq<string>,
                      ss: map<char, Span>, es: map<char, Span>)
    requires s != [] && e != [] && t.start == Join(s) && t.end == Join(e)
    requires |s| == size.y && |e| == size.y && AllRowsWide(s, size.x) && AllRowsWide(e, size.x)
    requires Tiling(s, ss) && Tiling(e, es) && '\n' !in ss && '\n' !in es
    requires ss.Keys <= es.Keys
    requires forall c :: c in ss ==> ss[c].w == es[c].w && ss[c].h == es[c].h
    requires Blocked in ss && Blocked in es && ss[Blocked] == es[Blocked] == Span(0, 0, size.x, 1)
    requires 0 <= t.moveTo.x < size.x && 0 <= t.moveTo.y < size.y
    requires MovedBlock in ss && !ss[MovedBlock].Contains(t.moveTo.x, t.moveTo.y)
    requires MovedBlock in es && es[MovedBlock].Contains(t.moveTo.x, t.moveTo.y)
    ensures WellFormedCase(size, t)
  {
    RowsOfTiledBoard(s, ss);
    RowsOfTiledBoard(e, es);
    AllRowsWideSound(s, size.x);
    AllRowsWideSound(e, size.x);
    ShapesOfTilings(s, e, ss, es);
    TilingOccupies(s, ss, Blocked);
    TilingOccupies(e, es, Blocked);
    TilingOccupies(s, ss, MovedBlock);
    TilingOccupies(e, es, MovedBlock);
  }

  // ---------------------------------------------------------------------
  // The three cases, row by row, with the rectangle of every occupant
  // ---------------------------------------------------------------------

  const StartRows5x5: seq<string> := ["xxxxx", "222mm", "222mm", "ad111", "bc111"]
  const EndRows5x5: seq<string> := ["xxxxx", "222ad", "222bc", "mm111", "mm111"]
  const StartSpans5x5: map<char, Span> :=
    map['x' := Span(0, 0, 5, 1), '2' := Span(0, 1, 3, 2), 'm' := Span(3, 1, 2, 2), 'a' := Span(0, 3, 1, 1), 'd' := Span(1, 3, 1, 1), 'b' := Span(0, 4, 1, 1), 'c' := Span(1, 4, 1, 1), '1' := Span(2, 3, 3, 2)]
  const EndSpans5x5: map<char, Span> :=
    map['x' := Span(0, 0, 5, 1), '2' := Span(0, 1, 3, 2), 'm' := Span(0, 3, 2, 2), 'a' := Span(3, 1, 1, 1), 'd' := Span(4, 1, 1, 1), 'b' := Span(3, 2, 1, 1), 'c' := Span(4, 2, 1, 1), '1' := Span(2, 3, 3, 2)]

  lemma StartRowsOf5x5()
    ensures StartBoard5x5 == Join(StartRows5x5) && |StartRows5x5| == 5 && AllRowsWide(StartRows5x5, 5)
  {
  }

  lemma EndRowsOf5x5()
    ensures EndBoard5x5 == Join(EndRows5x5) && |EndRows5x5| == 5 && AllRowsWide(EndRows5x5, 5)
  {
  }

  lemma StartCovered5x5()
    ensures Covered(StartRows5x5, 0, StartSpans5x5)
  {
  }

  lemma EndCovered5x5()
    ensures Covered(EndRows5x5, 0, EndSpans5x5)
  {
  }

  lemma Tables5x5()
    ensures forall c :: c in StartSpans5x5 ==> StartSpans5x5[c].w > 0 && StartSpans5x5[c].h > 0
    ensures forall c, d :: c in StartSpans5x5 && d in StartSpans5x5 && c != d ==> Disjoint(StartSpans5x5[c], StartSpans5x5[d])
    ensures forall c :: c in EndSpans5x5 ==> EndSpans5x5[c].w > 0 && EndSpans5x5[c].h > 0
    ensures forall c, d :: c in EndSpans5x5 && d in EndSpans5x5 && c != d ==> Disjoint(EndSpans5x5[c], EndSpans5x5[d])
    ensures forall c :: c in StartSpans5x5 ==> c in EndSpans5x5 && StartSpans5x5[c].w == EndSpans5x5[c].w && StartSpans5x5[c].h == EndSpans5x5[c].h
  {
  }

  lemma Conserved5x5()
    ensures multiset(StartBoard5x5) == multiset(EndBoard5x5)
  {
    var top, wide, moved, upper, lower, rest, nl := "xxxxx", "222", "mm", "ad", "bc", "111", "\n";
    assert StartBoard5x5 == top + nl + wide + moved + nl + wide + moved + nl + upper + rest + nl + lower + rest;
    assert EndBoard5x5 == top + nl + wide + upper + nl + wide + lower + nl + moved + rest + nl + moved + rest;
    SwapBelowKeepsCells(top, wide, moved, upper, lower, rest, nl);
  }

  lemma Marks5x5()
    ensures '\n' !in StartSpans5x5 && '\n' !in EndSpans5x5 && StartSpans5x5.Keys <= EndSpans5x5.Keys
    ensures Blocked in StartSpans5x5 && Blocked in EndSpans5x5 && StartSpans5x5[Blocked] == EndSpans5x5[Blocked] == Span(0, 0, 5, 1)
    ensures MovedBlock in StartSpans5x5 && !StartSpans5x5[MovedBlock].Contains(TestCase5x5.moveTo.x, TestCase5x5.moveTo.y)
    ensures MovedBlock in EndSpans5x5 && EndSpans5x5[MovedBlock].Contains(TestCase5x5.moveTo.x, TestCase5x5.moveTo.y)
  {
  }

  lemma Case5x5()
    ensures WellFormedCase(Point(5, 5), TestCase5x5)
  {
    StartRowsOf5x5();
    EndRowsOf5x5();
    StartCovered5x5();
    EndCovered5x5();
    Tables5x5();
    Marks5x5();
    CaseOfTilings(Point(5, 5), TestCase5x5, StartRows5x5, EndRows5x5, StartSpans5x5, EndSpans5x5);
  }

  const StartRows6x5: seq<string> := ["xxxxxx", "2222mm", "2222mm", "ad1111", "bc1111"]
  const EndRows6x5: seq<string> := ["xxxxxx", "2222ad", "2222bc", "mm1111", "mm1111"]
  const StartSpans6x5: map<char, Span> :=
    map['x' := Span(0, 0, 6, 1), '2' := Span(0, 1, 4, 2), 'm' := Span(4, 1, 2, 2), 'a' := Span(0, 3, 1, 1), 'd' := Span(1, 3, 1, 1), 'b' := Span(0, 4, 1, 1), 'c' := Span(1, 4, 1, 1), '1' := Span(2, 3, 4, 2)]
  const EndSpans6x5: map<char, Span> :=
    map['x' := Span(0, 0, 6, 1), '2' := Span(0, 1, 4, 2), 'm' := Span(0, 3, 2, 2), 'a' := Span(4, 1, 1, 1), 'd' := Span(5, 1, 1, 1), 'b' := Span(4, 2, 1, 1), 'c' := Span(5, 2, 1, 1), '1' := Span(2, 3, 4, 2)]

  lemma StartRowsOf6x5()
    ensures StartBoard6x5 == Join(StartRows6x5) && |StartRows6x5| == 5 && AllRowsWide(StartRows6x5, 6)
  {
  }

  lemma EndRowsOf6x5()
    ensures EndBoard6x5 == Join(EndRows6x5) && |EndRows6x5| == 5 && AllRowsWide(EndRows6x5, 6)
  {
  }

  lemma StartCovered6x5()
    ensures Covered(StartRows6x5, 0, StartSpans6x5)
  {
  }

  lemma EndCovered6x5()
    ensures Covered(EndRows6x5, 0, EndSpans6x5)
  {
  }

  lemma Tables6x5()
    ensures forall c :: c in StartSpans6x5 ==> StartSpans6x5[c].w > 0 && StartSpans6x5[c].h > 0
    ensures forall c, d :: c in StartSpans6x5 && d in StartSpans6x5 && c != d ==> Disjoint(StartSpans6x5[c], StartSpans6x5[d])
    ensures forall c :: c in EndSpans6x5 ==> EndSpans6x5[c].w > 0 && EndSpans6x5[c].h > 0
    ensures forall c, d :: c in EndSpans6x5 && d in EndSpans6x5 && c != d ==> Disjoint(EndSpans6x5[c], EndSpans6x5[d])
    ensures forall c :: c in StartSpans6x5 ==> c in EndSpans6x5 && StartSpans6x5[c].w == EndSpans6x5[c].w && StartSpans6x5[c].h == EndSpans6x5[c].h
  {
  }

  lemma Conserved6x5()
    ensures multiset(StartBoard6x5) == multiset(EndBoard6x5)
  {
    var top, wide, moved, upper, lower, rest, nl := "xxxxxx", "2222", "mm", "ad", "bc", "1111", "\n";
    assert StartBoard6x5 == top + nl + wide + moved + nl + wide + moved + nl + upper + rest + nl + lower + rest;
    assert EndBoard6x5 == top + nl + wide + upper + nl + wide + lower + nl + moved + rest + nl + moved + rest;
    SwapBelowKeepsCells(top, wide, moved, upper, lower, rest, nl);
  }

  lemma Marks6x5()
    ensures '\n' !in StartSpans6x5 && '\n' !in EndSpans6x5 && StartSpans6x5.Keys <= EndSpans6x5.Keys
    ensures Blocked in StartSpans6x5 && Blocked in EndSpans6x5 && StartSpans6x5[Blocked] == EndSpans6x5[Blocked] == Span(0, 0, 6, 1)
    ensures MovedBlock in StartSpans6x5 && !StartSpans6x5[MovedBlock].Contains(TestCase6x5.moveTo.x, TestCase6x5.moveTo.y)
    ensures MovedBlock in EndSpans6x5 && EndSpans6x5[MovedBlock].Contains(TestCase6x5.moveTo.x, TestCase6x5.moveTo.y)
  {
  }

  lemma Case6x5()
    ensures WellFormedCase(Point(6, 5), TestCase6x5)
  {
    StartRowsOf6x5();
    EndRowsOf6x5();
    StartCovered6x5();
    EndCovered6x5();
    Tables6x5();
    Marks6x5();
    CaseOfTilings(Point(6, 5), TestCase6x5, StartRows6x5, EndRows6x5, StartSpans6x5, EndSpans6x5);
  }

  const StartRows4x4: seq<string> := ["xxxx", "22mm", "admm", "bc11"]
  const EndRows4x4: seq<string> := ["xxxx", "22ad", "mmbc", "mm11"]
  const StartSpans4x4: map<char, Span> :=
    map['x' := Span(0, 0, 4, 1), '2' := Span(0, 1, 2, 1), 'm' := Span(2, 1, 2, 2), 'a' := Span(0, 2, 1, 1), 'd' := Span(1, 2, 1, 1), 'b' := Span(0, 3, 1, 1), 'c' := Span(1, 3, 1, 1), '1' := Span(2, 3, 2, 1)]
  const EndSpans4x4: map<char, Span> :=
    map['x' := Span(0, 0, 4, 1), '2' := Span(0, 1, 2, 1), 'm' := Span(0, 2, 2, 2), 'a' := Span(2, 1, 1, 1), 'd' := Span(3, 1, 1, 1), 'b' := Span(2, 2, 1, 1), 'c' := Span(3, 2, 1, 1), '1' := Span(2, 3, 2, 1)]

  lemma StartRowsOf4x4()
    ensures StartBoard4x4 == Join(StartRows4x4) && |StartRows4x4| == 4 && AllRowsWide(StartRows4x4, 4)
  {
  }

  lemma EndRowsOf4x4()
    ensures EndBoard4x4 == Join(EndRows4x4) && |EndRows4x4| == 4 && AllRowsWide(EndRows4x4, 4)
  {
  }

  lemma StartCovered4x4()
    ensures Covered(StartRows4x4, 0, StartSpans4x4)
  {
  }

  lemma EndCovered4x4()
    ensures Covered(EndRows4x4, 0, EndSpans4x4)
  {
  }

  lemma Tables4x4()
    ensures forall c :: c in StartSpans4x4 ==> StartSpans4x4[c].w > 0 && StartSpans4x4[c].h > 0
    ensures forall c, d :: c in StartSpans4x4 && d in StartSpans4x4 && c != d ==> Disjoint(StartSpans4x4[c], StartSpans4x4[d])
    ensures forall c :: c in EndSpans4x4 ==> EndSpans4x4[c].w > 0 && EndSpans4x4[c].h > 0
    ensures forall c, d :: c in EndSpans4x4 && d in EndSpans4x4 && c != d ==> Disjoint(EndSpans4x4[c], EndSpans4x4[d])
    ensures forall c :: c in StartSpans4x4 ==> c in EndSpans4x4 && StartSpans4x4[c].w == EndSpans4x4[c].w && StartSpans4x4[c].h == EndSpans4x4[c].h
  {
  }

  lemma Conserved4x4()
    ensures multiset(StartBoard4x4) == multiset(EndBoard4x4)
  {
    var top, wide, moved, upper, lower, rest, nl := "xxxx", "22", "mm", "ad", "bc", "11", "\n";
    assert StartBoard4x4 == top + nl + wide + moved + nl + upper + moved + nl + lower + rest;
    assert EndBoard4x4 == top + nl + wide + upper + nl + moved + lower + nl + moved + rest;
    SwapAcrossKeepsCells(top, wide, moved, upper, lower, rest, nl);
  }

  lemma Marks4x4()
    ensures '\n' !in StartSpans4x4 && '\n' !in EndSpans4x4 && StartSpans4x4.Keys <= EndSpans4x4.Keys
    ensures Blocked in StartSpans4x4 && Blocked in EndSpans4x4 && StartSpans4x4[Blocked] == EndSpans4x4[Blocked] == Span(0, 0, 4, 1)
    ensures MovedBlock in StartSpans4x4 && !StartSpans4x4[MovedBlock].Contains(TestCase4x4.moveTo.x, TestCase4x4.moveTo.y)
    ensures MovedBlock in EndSpans4x4 && EndSpans4x4[MovedBlock].Contains(TestCase4x4.moveTo.x, TestCase4x4.moveTo.y)
  {
  }

  lemma Case4x4()
    ensures WellFormedCase(Point(4, 4), TestCase4x4)
  {
    StartRowsOf4x4();
    EndRowsOf4x4();
    StartCovered4x4();
    EndCovered4x4();
    Tables4x4();
    Marks4x4();
    CaseOfTilings(Point(4, 4), TestCase4x4, StartRows4x4, EndRows4x4, StartSpans4x4, EndSpans4x4);
  }

  /** The fixture's table holds exactly the three grid sizes, each with a well-formed case. */
  lemma FixtureWellFormed()
    ensures TestByGridSize.Keys == {Point(5, 5), Point(6, 5), Point(4, 4)}
    ensures forall k :: k in TestByGridSize ==> WellFormedCase(k, TestByGridSize[k])
  {
    Case5x5();
    Case6x5();
    Case4x4();
  }
}
