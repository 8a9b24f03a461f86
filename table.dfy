/**
 * Pipe tables: the table parser of the parsing buffer (src/parsing-buffer.ts, with an
 * identical copy in main.ts), the row objects it builds and their `hasRole` method
 * (src/dataview.ts, main.ts), and the table formatter of the booking report (src/retain.ts).
 */
module MarkdownTable {
  import opened Js

  /** A property value of a row object: a string, or `undefined`. */
  type Cell = Option<string>

  /** The own properties of a row object, in the order JavaScript enumerates them. */
  type Fields = seq<(string, Cell)>

  /** `obj[k]`: None when there is no such property, Some(cell) otherwise. */
  function Lookup(f: Fields, k: string): Option<Cell> {
    if f == [] then None else if f[0].0 == k then Some(f[0].1) else Lookup(f[1..], k)
  }

  lemma {:induction false} LookupFindsKeys(f: Fields, k: string)
    ensures Lookup(f, k).Some? <==> k in Keys(f)
  {
    if f != [] {
      LookupFindsKeys(f[1..], k);
      assert Keys(f) == [f[0].0] + Keys(f[1..]);
    }
  }

  /** `obj[k] = v`: an existing property keeps its place, a new one is added last. */
  function SetField(f: Fields, k: string, v: Cell): (r: Fields)
    ensures Lookup(r, k) == Some(v)
    ensures Keys(r) == if k in Keys(f) then Keys(f) else Keys(f) + [k]
  {
    if f == [] then [(k, v)]
    else if f[0].0 == k then [(k, v)] + f[1..]
    else
      var r := [f[0]] + SetField(f[1..], k, v);
      assert Keys(f) == [f[0].0] + Keys(f[1..]);
      assert Keys(r) == [f[0].0] + Keys(SetField(f[1..], k, v));
      r
  }

  lemma LookupAfterSet(f: Fields, before: Fields, k: string, v: Cell, other: string, c: Option<Cell>)
    requires f == SetField(before, k, v) && other != k && Lookup(before, other) == c
    ensures Lookup(f, other) == c
  {
    SetFieldOther(before, k, v, other);
  }

  /** Setting one property leaves every other property as it was. */
  lemma {:induction false} SetFieldOther(f: Fields, k: string, v: Cell, other: string)
    requires other != k
    ensures Lookup(SetField(f, k, v), other) == Lookup(f, other)
  {
    if f != [] && f[0].0 != k {
      SetFieldOther(f[1..], k, v, other);
    }
  }

  // ---------------------------------------------------------------- parseTable

  /** `cells[i]`: undefined past the end. */
  function CellAt(cells: seq<string>, i: nat): Cell {
    if i < |cells| then Some(cells[i]) else None
  }

  /** `headers.forEach((header, index) => rowObject[header] = cells[index])`. */
  function BuildRow(headers: seq<string>, cells: seq<string>): Fields
    decreases |headers|
  {
    if headers == [] then []
    else SetField(BuildRow(headers[..|headers| - 1], cells), headers[|headers| - 1], CellAt(cells, |headers| - 1))
  }

  /** `rows.findIndex(r => !r.startsWith("| "))`. */
  function FirstNonTableLine(lines: seq<string>): (r: Option<nat>)
    ensures r.Some? ==> r.value < |lines| && !StartsWith(lines[r.value], "| ")
                        && forall j :: 0 <= j < r.value ==> StartsWith(lines[j], "| ")
    ensures r.None? ==> forall j :: 0 <= j < |lines| ==> StartsWith(lines[j], "| ")
  {
    if lines == [] then None
    else if !StartsWith(lines[0], "| ") then Some(0)
    else match FirstNonTableLine(lines[1..])
      case None => None
      case Some(i) => Some(i + 1)
  }

  /** `rows.slice(0, rows.findIndex(...))`: with no failing line the index is -1, so the
      slice drops the last line. */
  function LeadingRun(lines: seq<string>): seq<string> {
    match FirstNonTableLine(lines)
    case Some(i) => lines[..i]
    case None => if lines == [] then [] else lines[..|lines| - 1]
  }

  /** The header line: split on `|`, trimmed, empty cells dropped. */
  function ParseHeaders(line: string): seq<string> {
    NonEmpty(TrimAll(Split(line, "|")))
  }

  /** A data line: padded, split on `" | "`, trimmed, empty cells dropped. */
  function ParseCells(line: string): seq<string> {
    NonEmpty(TrimAll(Split(" " + line + " ", " | ")))
  }

  function BuildRows(headers: seq<string>, data: seq<string>): (r: seq<Fields>)
    ensures |r| == |data|
  {
    if data == [] then [] else [BuildRow(headers, ParseCells(data[0]))] + BuildRows(headers, data[1..])
  }

  /** parseTable after `markdown.trim().split('\n')`. `rows[0].split` on an empty leading
      run is a TypeError. */
  function ParseRows(lines: seq<string>): Result<seq<Fields>> {
    var rows := LeadingRun(lines);
    if rows == [] then Fail(TypeError("Cannot read properties of undefined (reading 'split')"))
    else Ok(BuildRows(ParseHeaders(rows[0]), if |rows| > 2 then rows[2..] else []))
  }

  /** parseTable of src/parsing-buffer.ts:57-73 and main.ts:314-330. */
  function ParseTable(markdown: string): Result<seq<Fields>> {
    ParseRows(Split(Trim(markdown), "\n"))
  }

  /** Which lines are kept: the lines before the first one that does not start with "| ",
      or, when every line does, all lines but the last. */
  lemma LeadingRunKeeps(lines: seq<string>)
    ensures FirstNonTableLine(lines).Some? ==>
              LeadingRun(lines) == lines[..FirstNonTableLine(lines).value]
    ensures FirstNonTableLine(lines).None? && |lines| > 0 ==>
              LeadingRun(lines) == lines[..|lines| - 1]
    ensures forall j :: 0 <= j < |LeadingRun(lines)| ==> StartsWith(LeadingRun(lines)[j], "| ")
  {
  }

  /** parseTable fails exactly when the first line does not start with "| ", or when the
      only line does; otherwise it yields one row per kept line after the first two. */
  lemma ParseRowsOutcome(lines: seq<string>)
    requires |lines| > 0
    ensures ParseRows(lines).Fail? <==>
              !StartsWith(lines[0], "| ") || (|lines| == 1 && FirstNonTableLine(lines).None?)
    ensures ParseRows(lines).Ok? ==>
              |ParseRows(lines).value| == if |LeadingRun(lines)| > 2 then |LeadingRun(lines)| - 2 else 0
  {
  }

  /** The usual markdown separator `|---|---|` does not start with "| ", so it ends the run
      and no data rows come out, however many follow. */
  lemma SeparatorEndsRun(lines: seq<string>)
    requires |lines| >= 2 && StartsWith(lines[0], "| ") && StartsWith(lines[1], "|-")
    ensures ParseRows(lines) == Ok([])
  {
    assert !StartsWith(lines[1], "| ") by { assert lines[1][1] == '-'; }
    assert FirstNonTableLine(lines[1..]) == Some(0);
  }

  /** A note whose table is the last thing in it loses the table's last line. */
  lemma AllTableLinesDropLast(lines: seq<string>)
    requires |lines| > 2 && forall j :: 0 <= j < |lines| ==> StartsWith(lines[j], "| ")
    ensures ParseRows(lines) == Ok(BuildRows(ParseHeaders(lines[0]), lines[2..|lines| - 1]))
  {
    var run := lines[..|lines| - 1];
    RunOfTableLines(lines);
    ParseRowsOfRun(lines, run);
    assert run[2..] == lines[2..|lines| - 1] && run[0] == lines[0];
  }

  lemma RunOfTableLines(lines: seq<string>)
    requires |lines| > 0 && forall j :: 0 <= j < |lines| ==> StartsWith(lines[j], "| ")
    ensures LeadingRun(lines) == lines[..|lines| - 1]
  {
    assert FirstNonTableLine(lines).None?;
  }

  /** What parseTable builds from the kept lines: headers from the first, one row object
      for each line after the second. */
  lemma ParseRowsOfRun(lines: seq<string>, run: seq<string>)
    requires LeadingRun(lines) == run && |run| > 0
    ensures ParseRows(lines) == Ok(BuildRows(ParseHeaders(run[0]), if |run| > 2 then run[2..] else []))
  {
  }

  /** Header i maps to cell i; with fewer cells the surplus headers map to undefined; the
      row's properties are the distinct headers in order. */
  lemma BuildRowMapsByPosition(headers: seq<string>, cells: seq<string>)
    requires NoDuplicates(headers)
    ensures Keys(BuildRow(headers, cells)) == headers
    ensures forall i :: 0 <= i < |headers| ==> Lookup(BuildRow(headers, cells), headers[i]) == Some(CellAt(cells, i))
  {
    BuildRowKeys(headers, cells);
    DedupeOfDistinct(headers);
    forall i | 0 <= i < |headers|
      ensures Lookup(BuildRow(headers, cells), headers[i]) == Some(CellAt(cells, i))
    {
      BuildRowAt(headers, cells, i);
    }
  }

  /** Header i maps to cell i when no later header has the same name. */
  lemma {:induction false} BuildRowAt(headers: seq<string>, cells: seq<string>, i: nat)
    requires i < |headers| && forall j :: i < j < |headers| ==> headers[j] != headers[i]
    ensures Lookup(BuildRow(headers, cells), headers[i]) == Some(CellAt(cells, i))
    decreases |headers|
  {
    var n := |headers| - 1;
    var init := headers[..n];
    BuildRowLast(headers, cells);
    if i < n {
      assert init[i] == headers[i];
      forall j | i < j < |init| ensures init[j] != init[i] {
        assert init[j] == headers[j];
      }
      BuildRowAt(init, cells, i);
      LookupAfterSet(BuildRow(headers, cells), BuildRow(init, cells), headers[n], CellAt(cells, n),
                     headers[i], Some(CellAt(cells, i)));
    }
  }

  lemma BuildRowLast(headers: seq<string>, cells: seq<string>)
    requires headers != []
    ensures BuildRow(headers, cells)
            == SetField(BuildRow(headers[..|headers| - 1], cells), headers[|headers| - 1], CellAt(cells, |headers| - 1))
  {
  }

  /** With repeated headers the row still has each header once, in order of first
      occurrence (a later equal header overwrites the value, not the position). */
  lemma {:induction false} BuildRowKeys(headers: seq<string>, cells: seq<string>)
    ensures Keys(BuildRow(headers, cells)) == Dedupe(headers)
    decreases |headers|
  {
    if headers != [] {
      BuildRowKeys(headers[..|headers| - 1], cells);
    }
  }

  /** Empty cells are removed before the mapping, so the values after an empty cell shift
      one header to the left and the last header gets undefined. */
  lemma EmptyCellShiftsLeft(a: string, b: string, h1: string, h2: string, h3: string)
    requires h1 != h2 && h2 != h3 && h1 != h3
    ensures NonEmpty([a, "", b]) == NonEmpty([a, b])
    ensures |a| > 0 && |b| > 0 ==>
              Lookup(BuildRow([h1, h2, h3], NonEmpty([a, "", b])), h2) == Some(Some(b))
              && Lookup(BuildRow([h1, h2, h3], NonEmpty([a, "", b])), h3) == Some(None)
  {
    DropEmptyCell(a, b);
    if |a| > 0 && |b| > 0 {
      TwoCells(a, b);
      BuildRowMapsByPosition([h1, h2, h3], [a, b]);
      assert [h1, h2, h3][1] == h2 && [h1, h2, h3][2] == h3;
    }
  }

  lemma DropEmptyCell(a: string, b: string)
    ensures NonEmpty([a, "", b]) == NonEmpty([a, b])
  {
    assert [a, "", b] == [a] + ["", b] && ["", b] == [""] + [b] && [a, b] == [a] + [b];
    NonEmptyCons(a, ["", b]);
    NonEmptyCons("", [b]);
    NonEmptyCons(a, [b]);
  }

  lemma TwoCells(a: string, b: string)
    requires |a| > 0 && |b| > 0
    ensures NonEmpty([a, b]) == [a, b]
  {
    NonEmptyOfNonEmpty([a, b]);
  }

  // ---------------------------------------------------------------- hasRole

  /** `this["Role"].split(",").map(trim).filter(r => roles.includes(r)).length > 0`; a row
      without a Role value fails because `split` is called on undefined. */
  function HasRole(row: Fields, roles: seq<string>): (r: Result<bool>)
    ensures r.Fail? <==> Lookup(row, "Role") in {None, Some(None)}
    ensures roles == [] ==> r != Ok(true)
  {
    match Lookup(row, "Role")
    case Some(Some(role)) => Ok(exists part :: part in TrimAll(Split(role, ",")) && part in roles)
    case _ => Fail(TypeError("Cannot read properties of undefined (reading 'split')"))
  }

  /** A single role, with or without surrounding blanks, is matched exactly. */
  lemma HasRoleSingle(row: Fields, role: string, roles: seq<string>)
    requires Lookup(row, "Role") == Some(Some(role)) && !Contains(role, ",")
    ensures HasRole(row, roles) == Ok(Trim(role) in roles)
  {
    assert Split(role, ",") == [role];
  }

  /** A Role of comma-separated parts holds one of the roles exactly when some part, trimmed,
      is one of them. */
  lemma HasRoleParts(row: Fields, parts: seq<string>, roles: seq<string>)
    requires |parts| > 0 && forall i :: 0 <= i < |parts| ==> Lacks(parts[i], ',')
    requires Lookup(row, "Role") == Some(Some(Join(parts, ",")))
    ensures HasRole(row, roles) == Ok(exists i :: 0 <= i < |parts| && Trim(parts[i]) in roles)
  {
    SplitJoinChar(parts, ',');
    var trimmed := TrimAll(parts);
    if exists i :: 0 <= i < |parts| && Trim(parts[i]) in roles {
      var i :| 0 <= i < |parts| && Trim(parts[i]) in roles;
      assert trimmed[i] in trimmed;
    }
  }

  // ---------------------------------------------------------------- formatMarkdownTable

  /** One table line: `| a | b |`. */
  function RowLine(cells: seq<string>): string {
    "| " + Join(cells, " | ") + " |"
  }

  function Dashes(n: nat): (r: seq<string>)
    ensures |r| == n && forall i :: 0 <= i < n ==> r[i] == "---"
  {
    if n == 0 then [] else Dashes(n - 1) + ["---"]
  }

  function RowLines(rows: seq<seq<string>>): (r: seq<string>)
    ensures |r| == |rows| && forall i :: 0 <= i < |rows| ==> r[i] == RowLine(rows[i])
  {
    if rows == [] then [] else [RowLine(rows[0])] + RowLines(rows[1..])
  }

  /** formatMarkdownTable of src/retain.ts:42-47: header line, separator line, then the rows
      joined by newlines, all three joined by a newline. */
  function FormatMarkdownTable(headers: seq<string>, rows: seq<seq<string>>): string {
    Join([RowLine(headers), RowLine(Dashes(|headers|)), Join(RowLines(rows), "\n")], "\n")
  }

  /** An empty row list leaves a trailing newline after the separator line. */
  lemma FormatEmptyTable(headers: seq<string>)
    ensures FormatMarkdownTable(headers, []) == RowLine(headers) + "\n" + RowLine(Dashes(|headers|)) + "\n"
  {
    JoinEndingEmpty(RowLine(headers), RowLine(Dashes(|headers|)), "\n");
  }

  lemma JoinEndingEmpty(a: string, b: string, sep: string)
    ensures Join([a, b, ""], sep) == a + sep + b + sep
  {
    JoinCons(a, [b, ""], sep);
    JoinCons(b, [""], sep);
    assert [a, b, ""] == [a] + [b, ""];
    assert [b, ""] == [b] + [""];
    assert b + sep + "" == b + sep;
  }

  // ---------------------------------------------------------------- format, then parse

  /** A header the parser gives back: non-empty, not padded, with no `|` and no newline. */
  predicate GoodHeader(h: string) {
    |h| > 0 && Trimmed(h) && Lacks(h, '|') && Lacks(h, '\n')
  }

  /** A cell the parser gives back: non-empty, not padded, no newline, and no `|` right
      after a blank (an escaped `\|` is fine). */
  predicate GoodCell(c: string) {
    && |c| > 0 && Trimmed(c)
    && Lacks(c, '\n')
    && (forall i, j :: 0 <= i < |c| && j == i + 1 && j < |c| ==> !(c[i] == ' ' && c[j] == '|'))
  }

  lemma JoinSnoc(xs: seq<string>, x: string, sep: string)
    requires |xs| > 0
    ensures Join(xs + [x], sep) == Join(xs, sep) + sep + x
    decreases |xs|
  {
    if |xs| > 1 {
      assert (xs + [x])[1..] == xs[1..] + [x];
      JoinSnoc(xs[1..], x, sep);
    }
  }

  lemma NonEmptyOfNonEmpty(xs: seq<string>)
    requires forall i :: 0 <= i < |xs| ==> |xs[i]| > 0
    ensures NonEmpty(xs) == xs && NonEmpty(xs + [""]) == xs
  {
    NonEmptyKeeps(xs);
    NonEmptyAppend(xs, [""]);
    assert NonEmpty([""]) == [] + NonEmpty([""][1..]);
  }

  lemma NonEmptyFramed(xs: seq<string>)
    requires forall i :: 0 <= i < |xs| ==> |xs[i]| > 0
    ensures NonEmpty([""] + xs + [""]) == xs
  {
    var ys := xs + [""];
    var framed := [""] + xs + [""];
    assert framed == [""] + ys;
    NonEmptyCons("", ys);
    NonEmptyOfNonEmpty(xs);
  }

  lemma NonEmptyCons(x: string, ys: seq<string>)
    ensures NonEmpty([x] + ys) == (if |x| == 0 then [] else [x]) + NonEmpty(ys)
  {
    assert ([x] + ys)[1..] == ys;
  }

  lemma TrimAllFramed(xs: seq<string>)
    requires forall i :: 0 <= i < |xs| ==> Trimmed(xs[i])
    ensures TrimAll(xs) == xs
  {
    forall i | 0 <= i < |xs| ensures Trim(xs[i]) == xs[i] { TrimOfTrimmed(xs[i]); }
  }

  /** No occurrence of `" | "` starts inside a good cell, whatever follows it. */
  lemma NoStraddle(c: string, rest: string)
    requires GoodCell(c)
    ensures forall k :: 0 <= k < |c| ==> !OccursAt(c + " | " + rest, " | ", k)
  {
    var s := c + " | " + rest;
    forall k | 0 <= k < |c| ensures !OccursAt(s, " | ", k) {
      if k + 1 < |c| {
        assert s[k] == c[k] && s[k + 1] == c[k + 1];
      } else {
        assert s[k] == c[|c| - 1];
      }
    }
  }

  lemma {:induction false} SplitJoinedCells(cells: seq<string>)
    requires |cells| > 0 && forall i :: 0 <= i < |cells| ==> GoodCell(cells[i])
    ensures Split(Join(cells, " | ") + " | ", " | ") == cells + [""]
  {
    NoStraddle(cells[0], if |cells| == 1 then "" else Join(cells[1..], " | ") + " | ");
    if |cells| == 1 {
      assert Join(cells, " | ") + " | " == cells[0] + " | " + "";
      SplitCons(cells[0], " | ", "");
      assert IndexOf("", " | ").None?;
    } else {
      JoinCons(cells[0], cells[1..], " | ");
      assert [cells[0]] + cells[1..] == cells;
      assert Join(cells, " | ") + " | " == cells[0] + " | " + (Join(cells[1..], " | ") + " | ");
      SplitCons(cells[0], " | ", Join(cells[1..], " | ") + " | ");
      SplitJoinedCells(cells[1..]);
    }
  }

  /** A data line the formatter writes parses back to its cells. */
  lemma ParseCellsRowLine(cells: seq<string>)
    requires |cells| > 0 && forall i :: 0 <= i < |cells| ==> GoodCell(cells[i])
    ensures ParseCells(RowLine(cells)) == cells
  {
    NonEmptyFramed(cells);
    TrimAllCells(cells);
    SplitRowLine(cells);
  }

  lemma SplitRowLine(cells: seq<string>)
    requires |cells| > 0 && forall i :: 0 <= i < |cells| ==> GoodCell(cells[i])
    ensures Split(" " + RowLine(cells) + " ", " | ") == [""] + cells + [""]
  {
    var j := Join(cells, " | ") + " | ";
    RowLinePadded(cells);
    SplitCons("", " | ", j);
    SplitJoinedCells(cells);
  }

  lemma RowLinePadded(cells: seq<string>)
    ensures " " + RowLine(cells) + " " == "" + " | " + (Join(cells, " | ") + " | ")
  {
  }

  lemma TrimAllCells(cells: seq<string>)
    requires forall i :: 0 <= i < |cells| ==> GoodCell(cells[i])
    ensures TrimAll([""] + cells + [""]) == [""] + cells + [""]
  {
    var pieces := [""] + cells + [""];
    forall i | 0 <= i < |pieces| ensures Trimmed(pieces[i]) {
      if 0 < i < |pieces| - 1 { assert pieces[i] == cells[i - 1]; }
    }
    TrimAllFramed(pieces);
  }

  function Padded(hs: seq<string>): (r: seq<string>)
    ensures |r| == |hs| && forall i :: 0 <= i < |hs| ==> r[i] == " " + hs[i] + " "
  {
    if hs == [] then [] else [" " + hs[0] + " "] + Padded(hs[1..])
  }

  lemma {:induction false} JoinPadded(hs: seq<string>)
    requires |hs| > 0
    ensures Join(Padded(hs), "|") == " " + Join(hs, " | ") + " "
  {
    if |hs| > 1 {
      JoinPadded(hs[1..]);
      JoinCons(hs[0], hs[1..], " | ");
      JoinCons(" " + hs[0] + " ", Padded(hs[1..]), "|");
      assert [hs[0]] + hs[1..] == hs;
      assert [" " + hs[0] + " "] + Padded(hs[1..]) == Padded(hs);
    }
  }

  lemma TrimPadded(h: string)
    requires |h| > 0 && Trimmed(h)
    ensures Trim(" " + h + " ") == h
  {
    var s := " " + h + " ";
    assert s[1..] == h + " ";
    assert Trim(s) == Trim(h + " ");
    assert (h + " ")[..|h|] == h;
    assert Trim(h + " ") == Trim(h);
    TrimOfTrimmed(h);
  }



  /** The header line the formatter writes parses back to the headers. */
  lemma ParseHeadersRowLine(headers: seq<string>)
    requires |headers| > 0 && forall i :: 0 <= i < |headers| ==> GoodHeader(headers[i])
    ensures ParseHeaders(RowLine(headers)) == headers
  {
    NonEmptyFramed(headers);
    TrimAllPadded(headers);
    SplitHeaderLine(headers);
  }

  lemma SplitHeaderLine(headers: seq<string>)
    requires |headers| > 0 && forall i :: 0 <= i < |headers| ==> GoodHeader(headers[i])
    ensures Split(RowLine(headers), "|") == [""] + Padded(headers) + [""]
  {
    HeaderPiecesLackBar(headers);
    HeaderLineJoin(headers);
    SplitJoinChar([""] + Padded(headers) + [""], '|');
  }

  lemma HeaderPiecesLackBar(headers: seq<string>)
    requires forall i :: 0 <= i < |headers| ==> GoodHeader(headers[i])
    ensures forall i :: 0 <= i < |headers| + 2 ==> Lacks(([""] + Padded(headers) + [""])[i], '|')
  {
    var pieces := [""] + Padded(headers) + [""];
    forall i | 0 <= i < |pieces| ensures Lacks(pieces[i], '|') {
      if 0 < i < |pieces| - 1 {
        var h := headers[i - 1];
        assert GoodHeader(h);
        assert pieces[i] == " " + h + " ";
        PaddedLacks(h, '|');
      } else {
        assert pieces[i] == "";
      }
    }
  }

  lemma PaddedLacks(h: string, ch: char)
    requires Lacks(h, ch) && ch != ' '
    ensures Lacks(" " + h + " ", ch)
  {
    var p := " " + h + " ";
    forall j | 0 <= j < |p| ensures p[j] != ch {
      if 0 < j < |p| - 1 { assert p[j] == h[j - 1]; }
    }
  }

  lemma HeaderLineJoin(headers: seq<string>)
    requires |headers| > 0
    ensures RowLine(headers) == Join([""] + Padded(headers) + [""], "|")
  {
    var p := Padded(headers);
    JoinPadded(headers);
    JoinSnoc([""] + p, "", "|");
    JoinCons("", p, "|");
    BarFrame(Join(headers, " | "));
  }

  lemma BarFrame(j: string)
    ensures "" + "|" + (" " + j + " ") + "|" + "" == "| " + j + " |"
  {
  }

  lemma TrimAllPadded(headers: seq<string>)
    requires forall i :: 0 <= i < |headers| ==> GoodHeader(headers[i])
    ensures TrimAll([""] + Padded(headers) + [""]) == [""] + headers + [""]
  {
    var pieces := [""] + Padded(headers) + [""];
    var want := [""] + headers + [""];
    forall i | 0 <= i < |pieces| ensures Trim(pieces[i]) == want[i] {
      PaddedPiece(headers, i);
      if 0 < i <= |headers| {
        assert GoodHeader(headers[i - 1]);
        TrimPadded(headers[i - 1]);
      } else {
        TrimOfTrimmed("");
      }
    }
    TrimAllPointwise(pieces, want);
  }

  lemma PaddedPiece(headers: seq<string>, i: nat)
    requires i < |headers| + 2
    ensures var pieces, want := [""] + Padded(headers) + [""], [""] + headers + [""];
            if 0 < i <= |headers| then pieces[i] == " " + headers[i - 1] + " " && want[i] == headers[i - 1]
            else pieces[i] == "" && want[i] == ""
  {
    var front, wantFront := [""] + Padded(headers), [""] + headers;
    if i <= |headers| {
      assert ([""] + Padded(headers) + [""])[i] == front[i];
      assert ([""] + headers + [""])[i] == wantFront[i];
    }
  }

  function Rows(headers: seq<string>, rows: seq<seq<string>>): (r: seq<Fields>)
    ensures |r| == |rows| && forall i :: 0 <= i < |rows| ==> r[i] == BuildRow(headers, rows[i])
  {
    if rows == [] then [] else [BuildRow(headers, rows[0])] + Rows(headers, rows[1..])
  }

  /** A row the formatter can write so that it parses back: at least one cell, every
      cell a GoodCell. */
  predicate GoodRow(cells: seq<string>) {
    |cells| > 0 && forall i :: 0 <= i < |cells| ==> GoodCell(cells[i])
  }

  /** The lines of a formatted table followed by any line that does not start with "| "
      parse back to one row object per table row, mapping the headers to the row's cells. */
  lemma FormattedLinesParseBack(headers: seq<string>, rows: seq<seq<string>>, next: string)
    requires |headers| > 0 && forall i :: 0 <= i < |headers| ==> GoodHeader(headers[i])
    requires forall i :: 0 <= i < |rows| ==> GoodRow(rows[i])
    requires !StartsWith(next, "| ")
    ensures ParseRows([RowLine(headers), RowLine(Dashes(|headers|))] + RowLines(rows) + [next])
            == Ok(Rows(headers, rows))
  {
    ParseHeadersRowLine(headers);
    BuildRowsOfRowLines(headers, rows);
    var run := [RowLine(headers), RowLine(Dashes(|headers|))] + RowLines(rows);
    FormattedLinesAreTableLines(headers, rows);
    RunEndsBefore(run, next);
    ParseRowsOfRun(run + [next], run);
    assert run[2..] == RowLines(rows);
  }

  lemma RowLineIsTableLine(cells: seq<string>)
    ensures StartsWith(RowLine(cells), "| ")
  {
    assert RowLine(cells)[..2] == "| ";
  }

  lemma FormattedLinesAreTableLines(headers: seq<string>, rows: seq<seq<string>>)
    ensures forall j :: 0 <= j < |rows| + 2 ==>
              StartsWith(([RowLine(headers), RowLine(Dashes(|headers|))] + RowLines(rows))[j], "| ")
  {
    RowLineIsTableLine(headers);
    RowLineIsTableLine(Dashes(|headers|));
    RowLinesAreTableLines(rows);
    TableLinesCons(RowLine(headers), RowLine(Dashes(|headers|)), RowLines(rows));
  }

  lemma RowLinesAreTableLines(rows: seq<seq<string>>)
    ensures forall j :: 0 <= j < |rows| ==> StartsWith(RowLines(rows)[j], "| ")
  {
    forall j | 0 <= j < |rows| ensures StartsWith(RowLines(rows)[j], "| ") {
      RowLineIsTableLine(rows[j]);
    }
  }

  lemma TableLinesCons(a: string, b: string, rest: seq<string>)
    requires StartsWith(a, "| ") && StartsWith(b, "| ")
    requires forall j :: 0 <= j < |rest| ==> StartsWith(rest[j], "| ")
    ensures forall j :: 0 <= j < |rest| + 2 ==> StartsWith(([a, b] + rest)[j], "| ")
  {
  }

  /** Table lines followed by a non-table line: the run is exactly the table lines. */
  lemma RunEndsBefore(run: seq<string>, next: string)
    requires forall j :: 0 <= j < |run| ==> StartsWith(run[j], "| ")
    requires !StartsWith(next, "| ")
    ensures LeadingRun(run + [next]) == run
  {
    var lines := run + [next];
    match FirstNonTableLine(lines)
    case None =>
      assert lines[|run|] == next;
    case Some(k) =>
      assert forall j :: 0 <= j < |run| ==> lines[j] == run[j];
      assert k == |run|;
      assert lines[..k] == run;
  }

  /** Each formatted data line parses back to its own row. */
  lemma {:induction false} BuildRowsOfRowLines(headers: seq<string>, rows: seq<seq<string>>)
    requires forall i :: 0 <= i < |rows| ==> GoodRow(rows[i])
    ensures BuildRows(headers, RowLines(rows)) == Rows(headers, rows)
  {
    if rows != [] {
      ParseCellsRowLine(rows[0]);
      BuildRowsOfRowLines(headers, rows[1..]);
      assert RowLines(rows)[1..] == RowLines(rows[1..]);
    }
  }
}
