/**
 * `asciiToTable` of tests/tabletest.py: a pretty-printed ASCII table such as
 * MySQL's console prints becomes a list of rows, each a list of the stripped
 * texts between the `|` bars of one input line.
 */
module TableTest {
  import opened Wrappers
  import opened PyValues
  import opened PyStrings

  /** `[item.strip() for item in row.split('|')[1:-1]]`. */
  function Cells(row: string): seq<string>
  {
    var pieces := Split(row, '|');
    if |pieces| < 2 then [] else StripEach(pieces[1..|pieces| - 1])
  }

  function StripEach(items: seq<string>): (r: seq<string>)
    ensures |r| == |items| && forall k :: 0 <= k < |r| ==> r[k] == Strip(items[k])
  {
    if items == [] then [] else [Strip(items[0])] + StripEach(items[1..])
  }

  /** Whether a line is a row of cells: it starts with a bar (`row[0] == '|'`). */
  predicate IsRowLine(line: string)
  {
    line != [] && line[0] == '|'
  }

  /** The comprehension over `lines`; an empty line fails on `row[0]` with an IndexError. */
  function Rows(lines: seq<string>): (r: Result<seq<seq<string>>, Exception>)
    ensures r.Failure? ==> r == Failure(IndexError)
    ensures r.Success? ==> |r.value| <= |lines|
    ensures lines != [] && lines[0] == "" ==> r == Failure(IndexError)
  {
    if lines == [] then Success([])
    else if lines[0] == "" then Failure(IndexError)
    else
      match Rows(lines[1..])
      case Failure(e) => Failure(e)
      case Success(rest) => Success(if IsRowLine(lines[0]) then [Cells(lines[0])] + rest else rest)
  }

  /** `asciiToTable(text)` (tests/tabletest.py:15-30). */
  function AsciiToTable(text: string): (r: Result<seq<seq<string>>, Exception>)
    ensures r.Failure? ==> r == Failure(IndexError)
    ensures r.Success? ==> |r.value| <= Count(text, '\n') + 1
  {
    Rows(Split(text, '\n'))
  }

  /**
   * The lines that are rows of cells, in their order: exactly the lines
   * starting with a bar, all of them when every line does.
   */
  function RowLines(lines: seq<string>): (r: seq<string>)
    ensures forall k :: 0 <= k < |r| ==> IsRowLine(r[k])
    ensures forall line :: line in r <==> line in lines && IsRowLine(line)
    ensures (forall k :: 0 <= k < |lines| ==> IsRowLine(lines[k])) ==> r == lines
    ensures |r| <= |lines|
  {
    if lines == [] then []
    else if IsRowLine(lines[0]) then [lines[0]] + RowLines(lines[1..])
    else RowLines(lines[1..])
  }

  /** Filtering keeps order across a split of the input: the rows of `a + b` are those of `a`, then those of `b`. */
  lemma {:induction false} RowLinesAppend(a: seq<string>, b: seq<string>)
    ensures RowLines(a + b) == RowLines(a) + RowLines(b)
  {
    if a != [] {
      assert (a + b)[0] == a[0];
      assert (a + b)[1..] == a[1..] + b;
      RowLinesAppend(a[1..], b);
      if IsRowLine(a[0]) {
        assert RowLines(a + b) == [a[0]] + RowLines(a[1..] + b);
      } else {
        assert RowLines(a + b) == RowLines(a[1..] + b);
      }
    } else {
      assert a + b == b;
    }
  }

  /** `Cells` applied to every line. */
  function CellsEach(lines: seq<string>): (r: seq<seq<string>>)
    ensures |r| == |lines| && forall k :: 0 <= k < |r| ==> r[k] == Cells(lines[k])
  {
    if lines == [] then [] else [Cells(lines[0])] + CellsEach(lines[1..])
  }

  /** Whether some line is empty, so that `row[0]` fails on it. */
  predicate HasEmptyLine(lines: seq<string>)
  {
    exists k :: 0 <= k < |lines| && lines[k] == ""
  }

  /**
   * The parse fails exactly when some line is empty; otherwise its rows are,
   * one for one and in order, the cells of the lines starting with a bar,
   * and every other line (the `+---+` borders) is dropped.
   */
  lemma {:induction false} RowsOfRowLines(lines: seq<string>)
    ensures Rows(lines).Failure? <==> HasEmptyLine(lines)
    ensures Rows(lines).Failure? ==> Rows(lines) == Failure(IndexError)
    ensures Rows(lines).Success? ==> Rows(lines).value == CellsEach(RowLines(lines))
  {
    if lines != [] {
      RowsOfRowLines(lines[1..]);
      if HasEmptyLine(lines[1..]) {
        var k :| 0 <= k < |lines[1..]| && lines[1..][k] == "";
        assert lines[k + 1] == "";
      }
      if HasEmptyLine(lines) && lines[0] != "" {
        var k :| 0 <= k < |lines| && lines[k] == "";
        assert lines[1..][k - 1] == "";
      }
    }
  }

  lemma AsciiToTableRows(text: string)
    ensures AsciiToTable(text).Failure? <==> HasEmptyLine(Split(text, '\n'))
    ensures AsciiToTable(text).Success? ==> AsciiToTable(text).value == CellsEach(RowLines(Split(text, '\n')))
  {
    var lines := Split(text, '\n');
    RowsOfRowLines(lines);
    assert AsciiToTable(text) == Rows(lines);
  }

  /** A row has one cell fewer than it has bars, and none when it has no bar. */
  lemma CellCount(row: string)
    ensures |Cells(row)| == if Count(row, '|') == 0 then 0 else Count(row, '|') - 1
  {
  }

  /** No cell holds a bar or starts or ends with whitespace. */
  lemma CellsStripped(row: string)
    ensures forall k :: 0 <= k < |Cells(row)| ==>
      var c := Cells(row)[k];
      '|' !in c && (c != [] ==> !IsSpace(c[0]) && !IsSpace(c[|c| - 1]))
  {
    var pieces := Split(row, '|');
    var cells := Cells(row);
    if |pieces| >= 2 {
      var inner := pieces[1..|pieces| - 1];
      forall k | 0 <= k < |cells|
        ensures '|' !in cells[k] && (cells[k] != [] ==> !IsSpace(cells[k][0]) && !IsSpace(cells[k][|cells[k]| - 1]))
      {
        assert cells[k] == Strip(inner[k]);
        StripKeepsOut(inner[k], '|');
      }
    }
  }

  /** A row line framing its cells in bars. */
  function Frame(cells: seq<string>): string
  {
    "|" + Join(cells, '|') + "|"
  }

  /** The pieces of a framed row: an empty one at each end, the cells between. */
  lemma FramePieces(cells: seq<string>)
    requires |cells| >= 1
    requires forall k :: 0 <= k < |cells| ==> '|' !in cells[k]
    ensures Split(Frame(cells), '|') == [""] + cells + [""]
  {
    var j := Join(cells, '|');
    var tail := j + ['|'] + [];
    assert Frame(cells) == [] + ['|'] + tail;
    SplitAround([], tail, '|');
    SplitAround(j, [], '|');
    SplitJoin(cells, '|');
  }

  /** Parsing a framed row gives back the cells of the frame, stripped. */
  lemma CellsOfFrame(cells: seq<string>)
    requires |cells| >= 1
    requires forall k :: 0 <= k < |cells| ==> '|' !in cells[k]
    ensures Cells(Frame(cells)) == StripEach(cells)
  {
    FramePieces(cells);
    var pieces := [""] + cells + [""];
    assert pieces[1..|pieces| - 1] == cells;
  }

  /** A framed row of cells that are already stripped reads back as exactly those cells. */
  lemma CellsFrameRoundTrip(cells: seq<string>)
    requires |cells| >= 1
    requires forall k :: 0 <= k < |cells| ==> '|' !in cells[k] && Strip(cells[k]) == cells[k]
    ensures Cells(Frame(cells)) == cells
  {
    CellsOfFrame(cells);
  }
}
