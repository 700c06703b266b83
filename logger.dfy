/** The in-memory CSV builder (Assets/Scripts/CSVGenerator.cs, namespace
    Logger). Its content is the header cells joined by commas, then for each
    appended row a line break and the row's cells joined by commas. */
module Logger {
  import opened Runtime

  const Comma: char := ','
  /** Environment.NewLine, fixed to a single line feed. */
  const LineBreak: char := '\n'
  const NewLine: string := [LineBreak]

  // ---------------------------------------------------------------- counting

  /** How often `ch` occurs in `s`. */
  function Count(s: string, ch: char): nat
    decreases |s|
  {
    if s == [] then 0 else Count(s[..|s| - 1], ch) + (if s[|s| - 1] == ch then 1 else 0)
  }

  lemma {:induction false} CountConcat(a: string, b: string, ch: char)
    ensures Count(a + b, ch) == Count(a, ch) + Count(b, ch)
    decreases |b|
  {
    if b == [] {
      assert a + b == a;
    } else {
      assert (a + b)[..|a + b| - 1] == a + b[..|b| - 1];
      CountConcat(a, b[..|b| - 1], ch);
    }
  }

  lemma {:induction false} CountZero(s: string, ch: char)
    ensures Count(s, ch) == 0 <==> ch !in s
    decreases |s|
  {
    if s != [] {
      CountZero(s[..|s| - 1], ch);
      assert s == s[..|s| - 1] + [s[|s| - 1]];
    }
  }

  /** How often `ch` occurs in all of `cells` together. */
  function CountAll(cells: seq<string>, ch: char): nat
    decreases |cells|
  {
    if cells == [] then 0 else CountAll(cells[..|cells| - 1], ch) + Count(cells[|cells| - 1], ch)
  }

  /** No cell contains `ch`. */
  predicate Free(cells: seq<string>, ch: char)
  {
    forall i :: 0 <= i < |cells| ==> ch !in cells[i]
  }

  // ---------------------------------------------------------------- joining

  /** The cells with `sep` between each two neighbours: the first cell, then
      `sep` and the next cell for each further one, as the source's loops
      starting at index 1 build it. */
  function Join(cells: seq<string>, sep: char): (r: string)
    ensures |cells| == 0 ==> r == ""
    ensures |cells| == 1 ==> r == cells[0]
    ensures 0 < |cells| ==> cells[0] <= r
    decreases |cells|
  {
    if |cells| == 0 then ""
    else if |cells| == 1 then cells[0]
    else Join(cells[..|cells| - 1], sep) + [sep] + cells[|cells| - 1]
  }

  lemma JoinSnoc(cells: seq<string>, cell: string, sep: char)
    requires 0 < |cells|
    ensures Join(cells + [cell], sep) == Join(cells, sep) + [sep] + cell
  {
    assert (cells + [cell])[..|cells|] == cells;
  }

  /** Joining adds one `sep` per neighbouring pair and nothing else. */
  lemma {:induction false} JoinCount(cells: seq<string>, sep: char, ch: char)
    ensures Count(Join(cells, sep), ch) ==
              CountAll(cells, ch) + (if ch == sep && 0 < |cells| then |cells| - 1 else 0)
    decreases |cells|
  {
    if |cells| == 1 {
      assert cells[..0] == [];
    } else if 1 < |cells| {
      var init := cells[..|cells| - 1];
      JoinCount(init, sep, ch);
      CountConcat(Join(init, sep), [sep], ch);
      CountConcat(Join(init, sep) + [sep], cells[|cells| - 1], ch);
      assert [sep][..0] == [];
    }
  }

  // ---------------------------------------------------------------- splitting

  /** `s` cut at every `sep`: the inverse of Join for cells without `sep`. */
  function Split(s: string, sep: char): (r: seq<string>)
    ensures 0 < |r|
    decreases |s|
  {
    if s == [] then [""]
    else
      var init := Split(s[..|s| - 1], sep);
      if s[|s| - 1] == sep then init + [""]
      else init[..|init| - 1] + [init[|init| - 1] + [s[|s| - 1]]]
  }

  /** Text without `sep` is one field. */
  lemma {:induction false} SplitWithoutSep(s: string, sep: char)
    requires sep !in s
    ensures Split(s, sep) == [s]
    decreases |s|
  {
    if s != [] {
      SplitWithoutSep(s[..|s| - 1], sep);
      assert s[..|s| - 1] + [s[|s| - 1]] == s;
    }
  }

  /** A `sep` followed by text without `sep` starts one more field. */
  lemma {:induction false} SplitAfterSep(a: string, b: string, sep: char)
    requires sep !in b
    ensures Split(a + [sep] + b, sep) == Split(a, sep) + [b]
    decreases |b|
  {
    var s := a + [sep] + b;
    if b == [] {
      assert s[..|s| - 1] == a;
    } else {
      var b' := b[..|b| - 1];
      assert s[..|s| - 1] == a + [sep] + b';
      SplitAfterSep(a, b', sep);
      assert b' + [b[|b| - 1]] == b;
    }
  }

  /** Splitting joined cells recovers them when no cell holds the separator. */
  lemma {:induction false} SplitJoin(cells: seq<string>, sep: char)
    requires 0 < |cells| && Free(cells, sep)
    ensures Split(Join(cells, sep), sep) == cells
    decreases |cells|
  {
    if |cells| == 1 {
      SplitWithoutSep(cells[0], sep);
    } else {
      var init := cells[..|cells| - 1];
      SplitJoin(init, sep);
      SplitAfterSep(Join(init, sep), cells[|cells| - 1], sep);
      assert init + [cells[|cells| - 1]] == cells;
    }
  }

  // ---------------------------------------------------------------- content

  /** The lines of the content: the header line, then one line per row. */
  function Lines(headers: seq<string>, rows: seq<seq<string>>): (lines: seq<string>)
    ensures |lines| == |rows| + 1
    ensures lines[0] == Join(headers, Comma)
    ensures forall i :: 0 <= i < |rows| ==> lines[i + 1] == Join(rows[i], Comma)
    decreases |rows|
  {
    if rows == [] then [Join(headers, Comma)]
    else Lines(headers, rows[..|rows| - 1]) + [Join(rows[|rows| - 1], Comma)]
  }

  /** The content after a constructor call with `headers` and AppendRow calls
      with `rows`, in that order. */
  function Render(headers: seq<string>, rows: seq<seq<string>>): string
  {
    Join(Lines(headers, rows), LineBreak)
  }

  /** An AppendRow call adds one line break and the joined row. */
  lemma RenderAppend(headers: seq<string>, rows: seq<seq<string>>, row: seq<string>)
    ensures Render(headers, rows + [row]) == Render(headers, rows) + NewLine + Join(row, Comma)
  {
    assert (rows + [row])[..|rows|] == rows;
    JoinSnoc(Lines(headers, rows), Join(row, Comma), LineBreak);
  }

  /** The content only grows: what was written stays a prefix whatever rows
      follow. */
  lemma {:induction false} RenderGrows(headers: seq<string>, rows: seq<seq<string>>, more: seq<seq<string>>)
    ensures Render(headers, rows) <= Render(headers, rows + more)
    decreases |more|
  {
    if more != [] {
      var init := more[..|more| - 1];
      RenderGrows(headers, rows, init);
      RenderAppend(headers, rows + init, more[|more| - 1]);
      assert rows + init + [more[|more| - 1]] == rows + more;
    } else {
      assert rows + more == rows;
    }
  }

  /** No line of the content contains `ch` when no cell does and `ch` is
      not the comma. */
  lemma LinesFree(headers: seq<string>, rows: seq<seq<string>>, ch: char)
    requires ch != Comma && Free(headers, ch)
    requires forall i :: 0 <= i < |rows| ==> Free(rows[i], ch)
    ensures Free(Lines(headers, rows), ch)
  {
    var lines := Lines(headers, rows);
    forall i | 0 <= i < |lines| ensures ch !in lines[i] {
      var cells := if i == 0 then headers else rows[i - 1];
      assert lines[i] == Join(cells, Comma);
      JoinCount(cells, Comma, ch);
      CellsFreeCount(cells, ch);
      CountZero(lines[i], ch);
    }
  }

  lemma {:induction false} CellsFreeCount(cells: seq<string>, ch: char)
    requires Free(cells, ch)
    ensures CountAll(cells, ch) == 0
    decreases |cells|
  {
    if cells != [] {
      CellsFreeCount(cells[..|cells| - 1], ch);
      CountZero(cells[|cells| - 1], ch);
    }
  }

  /** With no line break inside a cell, the content holds exactly one line
      break per appended row. */
  lemma LineBreakCount(headers: seq<string>, rows: seq<seq<string>>)
    requires Free(headers, LineBreak)
    requires forall i :: 0 <= i < |rows| ==> Free(rows[i], LineBreak)
    ensures Count(Render(headers, rows), LineBreak) == |rows|
  {
    LinesFree(headers, rows, LineBreak);
    JoinCount(Lines(headers, rows), LineBreak, LineBreak);
    CellsFreeCount(Lines(headers, rows), LineBreak);
  }

  /** Reading CSV content back: lines, then cells. */
  function Parse(content: string): (table: seq<seq<string>>)
    ensures |table| == Count(content, LineBreak) + 1
  {
    var lines := Split(content, LineBreak);
    SplitCount(content, LineBreak);
    seq(|lines|, i requires 0 <= i < |lines| => Split(lines[i], Comma))
  }

  lemma {:induction false} SplitCount(s: string, sep: char)
    ensures |Split(s, sep)| == Count(s, sep) + 1
    decreases |s|
  {
    if s != [] {
      SplitCount(s[..|s| - 1], sep);
    }
  }

  /** With no comma or line break inside a cell and no empty row, parsing
      the content gives back the headers and the rows in call order. */
  lemma ParseRender(headers: seq<string>, rows: seq<seq<string>>)
    requires 0 < |headers| && Free(headers, Comma) && Free(headers, LineBreak)
    requires forall i :: 0 <= i < |rows| ==>
               0 < |rows[i]| && Free(rows[i], Comma) && Free(rows[i], LineBreak)
    ensures Parse(Render(headers, rows)) == [headers] + rows
  {
    var lines := Lines(headers, rows);
    LinesFree(headers, rows, LineBreak);
    SplitJoin(lines, LineBreak);
    var table := Parse(Render(headers, rows));
    assert |table| == |lines|;
    forall i | 0 <= i < |lines| ensures table[i] == ([headers] + rows)[i] {
      if i == 0 {
        SplitJoin(headers, Comma);
      } else {
        SplitJoin(rows[i - 1], Comma);
      }
    }
  }

  // ---------------------------------------------------------------- component

  /** The generator object: its StringBuilder `content`, the Exported flag,
      and as ghost state the headers and rows it was given. */
  class CSVGenerator {
    var Exported: bool
    var content: string
    ghost var headers: seq<string>
    ghost var rows: seq<seq<string>>

    ghost predicate Valid()
      reads this
    {
      0 < |headers| && content == Render(headers, rows)
    }

    /** An empty header list makes the source throw before any object
      exists, so it is excluded here. */
    constructor (headers: seq<string>)
      requires 0 < |headers|
      ensures Valid() && this.headers == headers && rows == [] && !Exported
      ensures content == Join(headers, Comma)
    {
      Exported := false;
      content := headers[0];
      this.headers := headers;
      rows := [];
      new;
      var i := 1;
      while i < |headers|
        invariant 1 <= i <= |headers|
        invariant content == Join(headers[..i], Comma)
        invariant this.headers == headers && rows == [] && !Exported
      {
        JoinSnoc(headers[..i], headers[i], Comma);
        assert headers[..i] + [headers[i]] == headers[..i + 1];
        content := content + [Comma] + headers[i];
        i := i + 1;
      }
      assert headers[..|headers|] == headers;
    }

    /** Appends a line break and the row's cells joined by commas. An empty
      row throws after the line break was appended; it is recorded as a row
      with no cells, which renders as an empty line. */
    method AppendRow(row: seq<string>) returns (outcome: Outcome)
      requires Valid()
      modifies this`content, this`rows
      ensures Valid() && headers == old(headers)
      ensures rows == old(rows) + [row]
      ensures content == old(content) + NewLine + Join(row, Comma)
      ensures old(content) <= content
      ensures outcome == if row == [] then Threw(IndexOutOfRange) else Completed
    {
      RenderAppend(headers, rows, row);
      content := content + NewLine;
      if row == [] {
        rows := rows + [row];
        return Threw(IndexOutOfRange);
      }

      ghost var start := content;
      content := content + row[0];
      var i := 1;
      while i < |row|
        invariant 1 <= i <= |row|
        invariant content == start + Join(row[..i], Comma)
        invariant rows == old(rows)
      {
        JoinSnoc(row[..i], row[i], Comma);
        assert row[..i] + [row[i]] == row[..i + 1];
        content := content + [Comma] + row[i];
        i := i + 1;
      }
      assert row[..|row|] == row;
      rows := rows + [row];
      return Completed;
    }

    /** Marks the generator exported. Writing the file is not modelled; the
      content is left as it is. */
    method Export()
      modifies this`Exported
      ensures Exported
      ensures unchanged(this`content)
    {
      Exported := true;
    }
  }
}
