/**
 * The pretty-printed tables `asciiToTable` reads (tests/tabletest.py:3-13):
 * a border of `+` and `-`, the header row, a border, the body rows and a
 * closing border, each cell a space, its word, and spaces up to the width of
 * its column.  Parsing such a table gives back its words.
 */
module TableSample {
  import opened Wrappers
  import opened PyStrings
  import opened TableTest

  function Spaces(n: nat): (r: string)
    ensures |r| == n && AllSpace(r)
  {
    seq(n, k => ' ')
  }

  function Dashes(n: nat): (r: string)
    ensures |r| == n && forall k :: 0 <= k < n ==> r[k] == '-'
  {
    seq(n, k => '-')
  }

  /** A word left-aligned in a cell of the given width, after one space. */
  function Pad(word: string, width: nat): (r: string)
    requires |word| < width
    ensures |r| == width
  {
    " " + word + Spaces(width - 1 - |word|)
  }

  /** Padding adds only spaces. */
  lemma PadKeepsOut(word: string, width: nat, ch: char)
    requires |word| < width && ch != ' ' && ch !in word
    ensures ch !in Pad(word, width)
  {
    var p := Pad(word, width);
    forall k | 0 <= k < |p|
      ensures p[k] != ch
    {
      if 1 <= k <= |word| {
        assert p[k] == word[k - 1];
      }
    }
  }

  /** A padded word strips back to the word. */
  lemma StripPad(word: string, width: nat)
    requires |word| < width
    requires word != [] ==> !IsSpace(word[0]) && !IsSpace(word[|word| - 1])
    ensures Strip(Pad(word, width)) == word
  {
    if word == [] {
      assert Pad(word, width) == Spaces(width);
      StripBlank(Pad(word, width));
    } else {
      StripPadded(" ", word, Spaces(width - 1 - |word|));
    }
  }

  /** The words a table may hold: they fit their columns, hold no bar or newline, and have no edge whitespace. */
  predicate Fits(word: string, width: nat)
  {
    && |word| < width && '|' !in word && '\n' !in word
    && (word != [] ==> !IsSpace(word[0]) && !IsSpace(word[|word| - 1]))
  }

  predicate RowFits(words: seq<string>, widths: seq<nat>)
  {
    |words| == |widths| && forall c :: 0 <= c < |widths| ==> Fits(words[c], widths[c])
  }

  /** A table of at least a header and one column whose every row fits the columns. */
  predicate Printable(rows: seq<seq<string>>, widths: seq<nat>)
  {
    |rows| >= 1 && |widths| >= 1 && forall r :: 0 <= r < |rows| ==> RowFits(rows[r], widths)
  }

  function Border(widths: seq<nat>): string
  {
    "+" + Join(seq(|widths|, c requires 0 <= c < |widths| => Dashes(widths[c])), '+') + "+"
  }

  function PaddedCells(words: seq<string>, widths: seq<nat>): (cells: seq<string>)
    requires RowFits(words, widths)
    ensures |cells| == |widths|
  {
    seq(|widths|, c requires 0 <= c < |widths| => Pad(words[c], widths[c]))
  }

  function RowText(words: seq<string>, widths: seq<nat>): string
    requires RowFits(words, widths)
  {
    Frame(PaddedCells(words, widths))
  }

  function BodyLines(rows: seq<seq<string>>, widths: seq<nat>): (lines: seq<string>)
    requires Printable(rows, widths)
    ensures |lines| == |rows| - 1
  {
    seq(|rows| - 1, k requires 0 <= k < |rows| - 1 => RowText(rows[k + 1], widths))
  }

  function Lines(rows: seq<seq<string>>, widths: seq<nat>): seq<string>
    requires Printable(rows, widths)
  {
    [Border(widths), RowText(rows[0], widths), Border(widths)] + BodyLines(rows, widths) + [Border(widths)]
  }

  /** The pretty-printed table: its lines joined by newlines, with no final newline. */
  function PrettyPrint(rows: seq<seq<string>>, widths: seq<nat>): (r: string)
    requires Printable(rows, widths)
    ensures |Border(widths)| <= |r| && r[..|Border(widths)|] == Border(widths)
  {
    Join(Lines(rows, widths), '\n')
  }

  /** A printed row is one line that starts with a bar and parses back to its words. */
  lemma RowTextParses(words: seq<string>, widths: seq<nat>)
    requires |widths| >= 1 && RowFits(words, widths)
    ensures '\n' !in RowText(words, widths) && IsRowLine(RowText(words, widths))
    ensures Cells(RowText(words, widths)) == words
  {
    var cells := PaddedCells(words, widths);
    forall c | 0 <= c < |widths|
      ensures '|' !in cells[c] && '\n' !in cells[c] && Strip(cells[c]) == words[c]
    {
      assert Fits(words[c], widths[c]);
      assert cells[c] == Pad(words[c], widths[c]);
      PadKeepsOut(words[c], widths[c], '|');
      PadKeepsOut(words[c], widths[c], '\n');
      StripPad(words[c], widths[c]);
    }
    JoinAvoids(cells, '|', '\n');
    CellsOfFrame(cells);
  }

  lemma BorderLine(widths: seq<nat>)
    ensures '\n' !in Border(widths) && !IsRowLine(Border(widths)) && Border(widths) != ""
  {
    var dashes := seq(|widths|, c requires 0 <= c < |widths| => Dashes(widths[c]));
    JoinAvoids(dashes, '+', '\n');
  }

  /** Row lines followed by a border: the border is dropped. */
  lemma RowLinesThenBorder(body: seq<string>, border: string)
    requires forall k :: 0 <= k < |body| ==> IsRowLine(body[k])
    requires !IsRowLine(border)
    ensures RowLines(body + [border]) == body
  {
    RowLinesAppend(body, [border]);
    assert RowLines([border]) == RowLines([]);
  }

  /** Every line of a printed table is non-empty and free of newlines. */
  lemma LinesAreLines(rows: seq<seq<string>>, widths: seq<nat>)
    requires Printable(rows, widths)
    ensures forall k :: 0 <= k < |Lines(rows, widths)| ==>
      '\n' !in Lines(rows, widths)[k] && Lines(rows, widths)[k] != ""
    ensures Split(PrettyPrint(rows, widths), '\n') == Lines(rows, widths)
  {
    var lines := Lines(rows, widths);
    var body := BodyLines(rows, widths);
    BorderLine(widths);
    RowTextParses(rows[0], widths);
    forall k | 0 <= k < |lines|
      ensures '\n' !in lines[k] && lines[k] != ""
    {
      if 3 <= k < |lines| - 1 {
        assert lines[k] == body[k - 3] == RowText(rows[k - 2], widths);
        RowTextParses(rows[k - 2], widths);
      }
    }
    SplitJoin(lines, '\n');
  }

  /** The row lines of a printed table are the header row and the body rows, in order. */
  lemma RowLinesOfLines(rows: seq<seq<string>>, widths: seq<nat>)
    requires Printable(rows, widths)
    ensures RowLines(Lines(rows, widths)) == [RowText(rows[0], widths)] + BodyLines(rows, widths)
  {
    var body := BodyLines(rows, widths);
    var b := Border(widths);
    var head := RowText(rows[0], widths);
    BorderLine(widths);
    RowTextParses(rows[0], widths);
    forall k | 0 <= k < |body|
      ensures IsRowLine(body[k])
    {
      RowTextParses(rows[k + 1], widths);
    }
    var lines := Lines(rows, widths);
    assert lines[3..] == body + [b];
    RowLinesThenBorder(body, b);
    assert RowLines(lines) == RowLines(lines[1..]);
    assert RowLines(lines[1..]) == [head] + RowLines(lines[2..]);
    assert lines[2..][1..] == lines[3..];
    assert RowLines(lines[2..]) == RowLines(lines[3..]);
  }

  /** The printed row lines parse, one for one, back into the table's rows. */
  lemma RowTextsParse(rows: seq<seq<string>>, widths: seq<nat>)
    requires Printable(rows, widths)
    ensures CellsEach([RowText(rows[0], widths)] + BodyLines(rows, widths)) == rows
  {
    var rowLines := [RowText(rows[0], widths)] + BodyLines(rows, widths);
    assert forall r :: 0 <= r < |rows| ==> rowLines[r] == RowText(rows[r], widths);
    forall r | 0 <= r < |rows|
      ensures Cells(RowText(rows[r], widths)) == rows[r]
    {
      RowTextParses(rows[r], widths);
    }
  }

  /** Every printable table parses back into exactly its rows of words. */
  lemma PrettyPrintParses(rows: seq<seq<string>>, widths: seq<nat>)
    requires Printable(rows, widths)
    ensures AsciiToTable(PrettyPrint(rows, widths)) == Success(rows)
  {
    var lines := Lines(rows, widths);
    LinesAreLines(rows, widths);
    RowLinesOfLines(rows, widths);
    RowsOfRowLines(lines);
    RowTextsParse(rows, widths);
    assert !HasEmptyLine(lines);
  }

  /** What `print(asciiToTable(table))` shows for the sample of tests/tabletest.py:3-13. */
  const SampleResult: seq<seq<string>> := [
    ["Field", "Type", "Null", "Key", "Default", "Extra"],
    ["Id", "int(11)", "NO", "PRI", "NULL", "auto_increment"],
    ["Name", "char(35)", "NO", "", "", ""],
    ["Country", "char(3)", "NO", "UNI", "", ""],
    ["District", "char(20)", "YES", "MUL", "", ""],
    ["Population", "int(11)", "NO", "", "0", ""]]

  /** The widths of its six columns between the bars. */
  const SampleWidths: seq<nat> := [12, 10, 6, 5, 9, 16]

  /** A visible ASCII character other than the bar. */
  predicate Plain(ch: char)
  {
    '!' <= ch <= '~' && ch != '|'
  }

  /** A row of visible words each shorter than its column fits it. */
  lemma PlainRowFits(words: seq<string>, widths: seq<nat>)
    requires |words| == |widths|
    requires forall c :: 0 <= c < |widths| ==> |words[c]| < widths[c]
    requires forall c, k :: 0 <= c < |widths| && 0 <= k < |words[c]| ==> Plain(words[c][k])
    ensures RowFits(words, widths)
  {
    forall c | 0 <= c < |widths|
      ensures Fits(words[c], widths[c])
    {
      var w := words[c];
      assert forall k :: 0 <= k < |w| ==> Plain(w[k]);
    }
  }

  /** Each row of the sample fits the columns. */
  lemma SampleRowFits(r: nat)
    requires r < 6
    ensures RowFits(SampleResult[r], SampleWidths)
  {
    PlainRowFits(SampleResult[r], SampleWidths);
  }

  /** The sample parses into six rows of six cells, the header first. */
  lemma SampleTableParses()
    ensures Printable(SampleResult, SampleWidths)
    ensures AsciiToTable(PrettyPrint(SampleResult, SampleWidths)) == Success(SampleResult)
    ensures |SampleResult| == 6 && forall r :: 0 <= r < 6 ==> |SampleResult[r]| == 6
  {
    forall r | 0 <= r < 6
      ensures RowFits(SampleResult[r], SampleWidths)
    {
      SampleRowFits(r);
    }
    PrettyPrintParses(SampleResult, SampleWidths);
  }
}
