// Splitting a table row into cells. A bar inside an inline-code span does not end a cell.

module TableRow {
  import opened Text

  // The row without surrounding white space and without its outer bars.
  function Inner(line: string): string {
    var s := Trim(line);
    var s := if s != "" && s[0] == '|' then s[1..] else s;
    if s != "" && s[|s| - 1] == '|' then s[..|s| - 1] else s
  }

  // The cells still to come, with `cur` collected so far and `inCode` inside a code span.
  function Cells(s: string, cur: string, inCode: bool): seq<string> {
    if s == "" then [Trim(cur)]
    else if s[0] == '`' then Cells(s[1..], cur + [s[0]], !inCode)
    else if s[0] == '|' && !inCode then [Trim(cur)] + Cells(s[1..], "", inCode)
    else Cells(s[1..], cur + [s[0]], inCode)
  }

  function RowCells(line: string): seq<string> {
    Cells(Inner(line), "", false)
  }

  // The loop of splitRow.
  method SplitRow(line: string) returns (cells: seq<string>)
    ensures cells == RowCells(line)
  {
    hide RowCells, Inner, Trim, Cells, Trimmed;
    var s := Trim(line);
    if s != "" && s[0] == '|' { s := s[1..]; }
    if s != "" && s[|s| - 1] == '|' { s := s[..|s| - 1]; }
    InnerSteps(line);
    assert s == Inner(line) && s[0..] == s;
    ghost var all := RowCells(line);
    cells := [];
    var cur, inCode := "", false;
    assert cells + Cells(s[0..], cur, inCode) == all by { RowStart(line, s); }
    for i := 0 to |s|
      invariant cells + Cells(s[i..], cur, inCode) == all
    {
      var ch := s[i];
      CellsStep(s, i, cells, cur, inCode);
      if ch == '`' {
        inCode := !inCode;
        cur := cur + [ch];
      } else if ch == '|' && !inCode {
        cells := cells + [Trim(cur)];
        cur := "";
      } else {
        cur := cur + [ch];
      }
    }
    assert Cells(s[|s|..], cur, inCode) == [Trim(cur)] by { CellsEnd(cur, inCode); assert s[|s|..] == ""; }
    cells := cells + [Trim(cur)];
  }

  lemma InnerSteps(line: string)
    ensures var s := Trim(line);
            var t := if s != "" && s[0] == '|' then s[1..] else s;
            Inner(line) == if t != "" && t[|t| - 1] == '|' then t[..|t| - 1] else t
  {
    hide Trim;
  }

  lemma RowStart(line: string, s: string)
    requires s == Inner(line)
    ensures [] + Cells(s[0..], "", false) == RowCells(line)
  {
    assert s[0..] == s;
  }

  lemma CellsEnd(cur: string, inCode: bool)
    ensures Cells("", cur, inCode) == [Trim(cur)]
  {
  }

  // What one character does to the cells before and after it.
  lemma CellsStep(s: string, i: nat, cells: seq<string>, cur: string, inCode: bool)
    requires i < |s|
    ensures cells + Cells(s[i..], cur, inCode) ==
            if s[i] == '`' then cells + Cells(s[i + 1..], cur + [s[i]], !inCode)
            else if s[i] == '|' && !inCode then (cells + [Trim(cur)]) + Cells(s[i + 1..], "", inCode)
            else cells + Cells(s[i + 1..], cur + [s[i]], inCode)
  {
    assert s[i..][1..] == s[i + 1..];
    var rest := Cells(s[i + 1..], "", inCode);
    assert cells + ([Trim(cur)] + rest) == (cells + [Trim(cur)]) + rest;
  }

  // Bars outside code spans, and whether the text ends inside one.
  function Bars(s: string, inCode: bool): nat {
    if s == "" then 0
    else if s[0] == '`' then Bars(s[1..], !inCode)
    else (if s[0] == '|' && !inCode then 1 else 0) + Bars(s[1..], inCode)
  }

  function EndsInCode(s: string, inCode: bool): bool {
    if s == "" then inCode else EndsInCode(s[1..], if s[0] == '`' then !inCode else inCode)
  }

  lemma {:induction false} CellsCount(s: string, cur: string, inCode: bool)
    ensures |Cells(s, cur, inCode)| == 1 + Bars(s, inCode)
    ensures forall i :: 0 <= i < |Cells(s, cur, inCode)| ==> Trimmed(Cells(s, cur, inCode)[i])
    decreases |s|
  {
    TrimIsTrimmed(cur);
    if s == "" {
    } else if s[0] == '`' {
      CellsCount(s[1..], cur + [s[0]], !inCode);
    } else if s[0] == '|' && !inCode {
      CellsCount(s[1..], "", inCode);
    } else {
      CellsCount(s[1..], cur + [s[0]], inCode);
    }
  }

  // One cell more than there are separating bars, each of them trimmed.
  lemma RowCount(line: string)
    ensures |RowCells(line)| == 1 + Bars(Inner(line), false)
    ensures forall i :: 0 <= i < |RowCells(line)| ==> Trimmed(RowCells(line)[i])
  {
    CellsCount(Inner(line), "", false);
  }

  // A row loses its surrounding white space and then at most one bar on either side.
  lemma InnerIs(before: string, left: bool, body: string, right: bool, after: string)
    requires AllSpace(before) && AllSpace(after)
    requires Trimmed((if left then "|" else "") + body + (if right then "|" else ""))
    requires !left ==> body != "" && body[0] != '|'
    requires !right ==> body == "" || body[|body| - 1] != '|'
    ensures Inner(before + ((if left then "|" else "") + body + (if right then "|" else "")) + after) == body
  {
    hide Trim;
    var bar := "|";
    assert bar == ['|'];
    var s := (if left then bar else "") + body + (if right then bar else "");
    TrimPadding(before, s, after);
    if left { assert s[1..] == body + if right then bar else ""; }
    if right { assert (body + bar)[..|body|] == body; }
    assert body + "" == body;
  }

  // ----- printing -----

  function Body(cells: seq<string>): string
    requires cells != []
  {
    if |cells| == 1 then " " + cells[0] + " " else " " + cells[0] + " |" + Body(cells[1..])
  }

  // `| c1 | ... | ck |`
  function PrintRow(cells: seq<string>): string
    requires cells != []
  {
    "|" + Body(cells) + "|"
  }

  // A cell that can stand in a row: trimmed, its backticks paired, its bars inside code.
  predicate Printable(cell: string) {
    Trimmed(cell) && !EndsInCode(cell, false) && Bars(cell, false) == 0
  }

  lemma {:induction false} Collect(p: string, rest: string, cur: string, inCode: bool)
    requires Bars(p, inCode) == 0
    ensures Cells(p + rest, cur, inCode) == Cells(rest, cur + p, EndsInCode(p, inCode))
    decreases |p|
  {
    if p == "" {
      assert p + rest == rest && cur + p == cur;
    } else {
      assert (p + rest)[1..] == p[1..] + rest;
      assert (cur + [p[0]]) + p[1..] == cur + p;
      Collect(p[1..], rest, cur + [p[0]], if p[0] == '`' then !inCode else inCode);
    }
  }

  lemma {:induction false} Padded(c: string, inCode: bool)
    ensures Bars(c + " ", inCode) == Bars(c, inCode)
    ensures EndsInCode(c + " ", inCode) == EndsInCode(c, inCode)
    decreases |c|
  {
    if c == "" {
      assert c + " " == " ";
    } else {
      assert (c + " ")[1..] == c[1..] + " ";
      Padded(c[1..], if c[0] == '`' then !inCode else inCode);
    }
  }

  // Reading one printed cell up to whatever follows it.
  lemma ReadCell(c: string, rest: string)
    requires Printable(c)
    ensures Cells(" " + c + " " + rest, "", false) == Cells(rest, " " + c + " ", false)
    ensures Trim(" " + c + " ") == c
  {
    var p := " " + c + " ";
    assert p[1..] == c + " ";
    Padded(c, false);
    Collect(p, rest, "", false);
    assert "" + p == p;
    TrimPadding(" ", c, " ");
  }

  // And the bar that ends it.
  lemma ReadNext(c: string, rest: string)
    requires Printable(c)
    ensures Cells(" " + c + " |" + rest, "", false) == [c] + Cells(rest, "", false)
  {
    hide Trim, Printable, Cells;
    ReadCell(c, "|" + rest);
    Spaced(c, rest);
    EndCell(" " + c + " ", rest);
  }

  lemma Spaced(c: string, rest: string)
    ensures " " + c + " " + ("|" + rest) == " " + c + " |" + rest
  {
    var bar := " |";
    assert bar == " " + "|";
  }

  lemma EndCell(cur: string, rest: string)
    ensures Cells("|" + rest, cur, false) == [Trim(cur)] + Cells(rest, "", false)
  {
    hide Trim;
    assert ("|" + rest)[0] == '|' && ("|" + rest)[1..] == rest;
  }

  lemma ReadLast(c: string)
    requires Printable(c)
    ensures Cells(" " + c + " ", "", false) == [c]
  {
    hide Trim;
    ReadCell(c, "");
    assert " " + c + " " + "" == " " + c + " ";
  }

  lemma {:induction false} ReadBody(cells: seq<string>)
    requires cells != [] && forall i :: 0 <= i < |cells| ==> Printable(cells[i])
    ensures Cells(Body(cells), "", false) == cells
    decreases |cells|
  {
    hide Cells, Printable;
    if |cells| == 1 {
      ReadLast(cells[0]);
    } else {
      ReadNext(cells[0], Body(cells[1..]));
      ReadBody(cells[1..]);
    }
  }

  // Splitting undoes printing, white space around the row or not.
  lemma PaddedRoundTrip(before: string, cells: seq<string>, after: string)
    requires cells != [] && forall i :: 0 <= i < |cells| ==> Printable(cells[i])
    requires AllSpace(before) && AllSpace(after)
    ensures RowCells(before + PrintRow(cells) + after) == cells
  {
    hide Body, Printable, Trim, Cells, Inner, IsSpace;
    BarsAreTrimmed(Body(cells));
    InnerIs(before, true, Body(cells), true, after);
    ReadBody(cells);
  }

  lemma BarsAreTrimmed(body: string)
    ensures Trimmed("|" + body + "|")
  {
    assert "|" == ['|'];
  }

  // Splitting undoes printing.
  lemma RowRoundTrip(cells: seq<string>)
    requires cells != [] && forall i :: 0 <= i < |cells| ==> Printable(cells[i])
    ensures RowCells(PrintRow(cells)) == cells
  {
    hide Body, Printable, Trim, Cells, Inner;
    var body := Body(cells);
    InnerOf(body);
    ReadBody(cells);
  }

  lemma InnerOf(body: string)
    ensures Inner("|" + body + "|") == body
  {
    hide Trim;
    var row := "|" + body + "|";
    TrimPadding("", row, "");
    assert "" + row + "" == row;
    assert row[1..] == body + "|";
    assert (body + "|")[..|body|] == body;
  }
}
