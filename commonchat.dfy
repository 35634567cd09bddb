/**
 * The general design-document chat panel (`ChatPanel`). It needs no AI service: it answers
 * from the document's own content, first to slash commands and then by a ladder of keyword
 * topics, and it can write the recent conversation into the display conditions.
 */
module CommonChat {
  import opened Wrappers
  import opened Text
  import opened Keywords
  import opened DocData
  import opened ChatShared
  import Sorting
  import Lists

  // ---------------------------------------------------------------------------------------
  // What the panel reads off the document (`analyzeCurrentData`)

  /** Length, presence and the first 100 characters of one Markdown field. */
  datatype TextStats = TextStats(length: nat, hasContent: bool, preview: string)

  datatype SheetStats = SheetStats(cellCount: nat, sampleCells: seq<Cell>, sheetName: string, hasData: bool)

  datatype Analysis = Analysis(spreadsheet: SheetStats, conditions: TextStats, supplement: TextStats,
                               hasImage: bool)

  const NoSheetName := "シート名なし"

  function StatsOf(text: string): (t: TextStats)
    ensures t.length == |text| && (t.hasContent <==> text != "")
    ensures |t.preview| <= 100 && t.preview <= text
    ensures |text| <= 100 ==> t.preview == text
  {
    TextStats(|text|, |text| > 0, Prefix(text, 100))
  }

  /** The first sheet's name, or a stand-in when there is no sheet or its name is empty. */
  function SheetName(data: WebUIData): (name: string)
    ensures name != ""
    ensures |data.sheets| > 0 && data.sheets[0].name != "" ==> name == data.sheets[0].name
  {
    if |data.sheets| > 0 && data.sheets[0].name != "" then data.sheets[0].name else NoSheetName
  }

  /** Only the first sheet is looked at; the previews are prefixes of the two Markdown fields. */
  function AnalyzeCurrentData(data: WebUIData): (a: Analysis)
    ensures a.spreadsheet.cellCount == |FirstSheetCells(data)|
    ensures a.spreadsheet.hasData <==> FirstSheetCells(data) != []
    ensures |a.spreadsheet.sampleCells| == if |FirstSheetCells(data)| < 5 then |FirstSheetCells(data)| else 5
    ensures a.spreadsheet.sampleCells <= FirstSheetCells(data)
    ensures a.conditions == StatsOf(data.conditions) && a.supplement == StatsOf(data.supplement)
    ensures a.hasImage <==> HasMockup(data)
  {
    var cells := FirstSheetCells(data);
    Analysis(SheetStats(|cells|, if |cells| < 5 then cells else cells[..5], SheetName(data), |cells| > 0),
             StatsOf(data.conditions), StatsOf(data.supplement), HasMockup(data))
  }

  /** How many of the four parts of the document are filled in. */
  function Filled(a: Analysis): nat
  {
    (if a.spreadsheet.hasData then 1 else 0) + (if a.conditions.hasContent then 1 else 0)
    + (if a.supplement.hasContent then 1 else 0) + (if a.hasImage then 1 else 0)
  }

  /** The completeness percentage, `Math.round(filled / 4 * 100)`: a quarter per filled part. */
  function Completeness(a: Analysis): (pct: nat)
    ensures pct % 25 == 0 && pct <= 100
    ensures pct == 100 <==> a.spreadsheet.hasData && a.conditions.hasContent && a.supplement.hasContent && a.hasImage
    ensures pct == 0 <==> !a.spreadsheet.hasData && !a.conditions.hasContent && !a.supplement.hasContent && !a.hasImage
  {
    Filled(a) * 25
  }

  // ---------------------------------------------------------------------------------------
  // Sorting the sheet's cells in place (`allCells.sort(...)`)

  /** The comparator that orders by row and then by column, read as "`x` may stay before `y`". */
  function CellBefore(x: Cell, y: Cell): bool
  {
    x.r < y.r || (x.r == y.r && x.c <= y.c)
  }

  lemma CellOrderIsPreorder()
    ensures Sorting.TotalPreorder(CellBefore)
  {
  }

  /**
   * The inner loop of an insertion step: the cells after `a[i]` that must precede it move
   * one place down; returns the gap left for it.
   */
  method ShiftDown(a: array<Cell>, i: nat) returns (j: nat)
    requires i < a.Length
    modifies a
    ensures i <= j < a.Length
    ensures forall m :: 0 <= m < i ==> a[m] == old(a[m])
    ensures forall m :: i <= m < j ==> a[m] == old(a[m + 1])
    ensures forall m :: j < m < a.Length ==> a[m] == old(a[m])
    ensures forall m :: i < m <= j ==> !CellBefore(old(a[i]), old(a[m]))
    ensures j + 1 == a.Length || CellBefore(old(a[i]), old(a[j + 1]))
  {
    var x := a[i];
    j := i;
    while j + 1 < a.Length && !CellBefore(x, a[j + 1])
      invariant i <= j < a.Length
      invariant forall m :: 0 <= m < i ==> a[m] == old(a[m])
      invariant forall m :: i <= m < j ==> a[m] == old(a[m + 1])
      invariant forall m :: j < m < a.Length ==> a[m] == old(a[m])
      invariant forall m :: i < m <= j ==> !CellBefore(x, old(a[m]))
    {
      a[j] := a[j + 1];
      j := j + 1;
    }
  }

  /** One insertion step: `a[i]` moves into the sorted run after it. */
  method InsertBack(a: array<Cell>, i: nat)
    requires i < a.Length
    modifies a
    ensures a[..i] == old(a[..i])
    ensures a[i..] == Sorting.Insert(old(a[i]), old(a[i + 1..]), CellBefore)
  {
    var x := a[i];
    var j := ShiftDown(a, i);
    a[j] := x;
    Sorting.ShiftedInsert(old(a[..]), a[..], i, j, CellBefore);
  }

  /**
   * The sort the panel applies to the sheet's own cell list, which it shares with the editor:
   * an insertion sort from the back that leaves the stable row-then-column order.
   */
  method SortCells(a: array<Cell>)
    modifies a
    ensures a[..] == Sorting.Sort(old(a[..]), CellBefore)
  {
    ghost var s := a[..];
    var i := a.Length;
    while i > 0
      invariant 0 <= i <= a.Length
      invariant a[..i] == s[..i]
      invariant a[i..] == Sorting.Sort(s[i..], CellBefore)
    {
      i := i - 1;
      ghost var before := a[..];
      assert before[i] == s[..i + 1][i] == s[i];
      assert before[i + 1..] == Sorting.Sort(s[i + 1..], CellBefore);
      InsertBack(a, i);
      assert s[i..][0] == s[i] && s[i..][1..] == s[i + 1..];
      assert s[..i] == before[..i];
    }
    assert a[..] == a[0..] && s[0..] == s;
  }

  // ---------------------------------------------------------------------------------------
  // Cell references

  /**
   * `String.fromCharCode(n)`: the UTF-16 code unit `n` modulo 2^16. A lone surrogate unit is
   * not a character here and shows as U+FFFD.
   */
  function CharFromCode(n: int): (ch: char)
    ensures 0 <= n < 0xD800 ==> ch as int == n
  {
    var u := n % 0x1_0000;
    if 0xD800 <= u < 0xE000 then '�' else u as char
  }

  /** The reference as the panel writes it: one character counted from `A`, then the 1-based row. */
  function CellRefAsWritten(cell: Cell): string
  {
    [CharFromCode(65 + cell.c)] + IntToString(cell.r + 1)
  }

  /** Past column Z the reference is no longer a letter: the 27th column shows as `[`. */
  lemma ColumnPastZIsNotALetter(v: string)
    ensures CellRefAsWritten(Cell(0, 26, v)) == "[1"
    ensures CellRefAsWritten(Cell(0, 26, v))[0] !in "ABCDEFGHIJKLMNOPQRSTUVWXYZ"
  {
    assert NatToString(1) == "1";
  }

  /** The spreadsheet column name of a 0-based column: A … Z, AA … AZ, BA …, in bijective base 26. */
  function ColumnName(c: nat): (name: string)
    ensures name != []
    ensures forall k :: 0 <= k < |name| ==> 'A' <= name[k] <= 'Z'
    ensures |name| == 1 <==> c < 26
    ensures name[|name| - 1] as int - 'A' as int == c % 26
  {
    if c < 26 then [(65 + c) as char] else ColumnName(c / 26 - 1) + [(65 + c % 26) as char]
  }

  /** Different columns get different names. */
  lemma {:induction false} ColumnNameInjective(a: nat, b: nat)
    requires ColumnName(a) == ColumnName(b)
    ensures a == b
    decreases a
  {
    var na, nb := ColumnName(a), ColumnName(b);
    assert a % 26 == b % 26 by {
      assert na[|na| - 1] == nb[|nb| - 1];
    }
    if a >= 26 {
      assert b >= 26;
      assert ColumnName(a / 26 - 1) == na[..|na| - 1] == nb[..|nb| - 1] == ColumnName(b / 26 - 1);
      ColumnNameInjective(a / 26 - 1, b / 26 - 1);
    }
  }

  /** The first 26 columns keep their single letter; the 27th is `AA`. */
  lemma ColumnNameExamples()
    ensures forall c :: 0 <= c < 26 ==> ColumnName(c) == [CharFromCode(65 + c)]
    ensures ColumnName(26) == "AA" && ColumnName(27) == "AB" && ColumnName(701) == "ZZ" && ColumnName(702) == "AAA"
  {
  }

  /** The A1-style reference: a column name, then the 1-based row. */
  function CellRef(cell: Cell): (ref: string)
    ensures 0 <= cell.c < 26 ==> ref == CellRefAsWritten(cell)
  {
    (if cell.c >= 0 then ColumnName(cell.c) else [CharFromCode(65 + cell.c)]) + IntToString(cell.r + 1)
  }

  predicate IsLetter(ch: char)
  {
    'A' <= ch <= 'Z'
  }

  /** In a column name followed by a row number, the letters are exactly the column name. */
  lemma LettersThenDigits(name: string, digits: string)
    requires forall k :: 0 <= k < |name| ==> IsLetter(name[k])
    requires forall k :: 0 <= k < |digits| ==> '0' <= digits[k] <= '9'
    ensures forall k :: 0 <= k < |name + digits| ==> (IsLetter((name + digits)[k]) <==> k < |name|)
  {
  }

  /** Cells at different places of the sheet's non-negative quarter get different references. */
  lemma CellRefInjective(x: Cell, y: Cell)
    requires x.c >= 0 && y.c >= 0 && x.r >= 0 && y.r >= 0
    requires CellRef(x) == CellRef(y)
    ensures x.r == y.r && x.c == y.c
  {
    var nx, ny := ColumnName(x.c), ColumnName(y.c);
    var rx, ry := NatToString(x.r + 1), NatToString(y.r + 1);
    CellRefParts(x);
    CellRefParts(y);
    SplitLettersDigits(nx, rx, ny, ry);
    ColumnNameInjective(x.c, y.c);
    NatToStringRoundTrip(x.r + 1);
    NatToStringRoundTrip(y.r + 1);
  }

  lemma CellRefParts(x: Cell)
    requires x.c >= 0 && x.r >= 0
    ensures CellRef(x) == ColumnName(x.c) + NatToString(x.r + 1)
  {
  }

  /** Letters followed by digits split in only one way. */
  lemma SplitLettersDigits(nx: string, rx: string, ny: string, ry: string)
    requires forall k :: 0 <= k < |nx| ==> IsLetter(nx[k])
    requires forall k :: 0 <= k < |ny| ==> IsLetter(ny[k])
    requires forall k :: 0 <= k < |rx| ==> '0' <= rx[k] <= '9'
    requires forall k :: 0 <= k < |ry| ==> '0' <= ry[k] <= '9'
    requires nx + rx == ny + ry
    ensures nx == ny && rx == ry
  {
    LettersThenDigits(nx, rx);
    LettersThenDigits(ny, ry);
    var t := nx + rx;
    var m := if |nx| <= |ny| then |nx| else |ny|;
    if m < |t| {
      assert IsLetter(t[m]) <==> m < |nx|;
      assert IsLetter((ny + ry)[m]) <==> m < |ny|;
    }
    assert nx == (nx + rx)[..|nx|] == (ny + ry)[..|ny|] == ny;
    assert rx == (nx + rx)[|nx|..] == (ny + ry)[|ny|..] == ry;
  }

  // ---------------------------------------------------------------------------------------
  // The cell listing of `/data` and of "もっと詳しく"

  /** One listed cell: its reference and its quoted value. */
  function CellLine(cell: Cell): string
  {
    CellRef(cell) + ": \"" + cell.v + "\"\n"
  }

  /** `slice(0, limit)`. */
  function Shown(sorted: seq<Cell>, limit: nat): seq<Cell>
  {
    if |sorted| <= limit then sorted else sorted[..limit]
  }

  /** The note on how many cells were left out, when there are more than `limit`. */
  function Remainder(count: nat, limit: nat): string
  {
    if count > limit then "\n...他" + NatToString(count - limit) + "個のセル" else ""
  }

  /** The listing: the first `limit` cells in row-then-column order, then the note on the rest. */
  function Listing(head: string, cells: seq<Cell>, limit: nat): string
  {
    head + ChatShared.Lines(Shown(Sorting.Sort(cells, CellBefore), limit), CellLine) + Remainder(|cells|, limit)
  }

  /**
   * The listed cells are the `limit` first of the sheet: they come in order, there are as
   * many as the limit allows, every one is a cell of the sheet, all are listed when they fit,
   * and each comes before every cell left out.
   */
  lemma ShownAreFirst(cells: seq<Cell>, limit: nat)
    ensures var shown := Shown(Sorting.Sort(cells, CellBefore), limit);
            && Sorting.Sorted(shown, CellBefore)
            && |shown| == (if |cells| <= limit then |cells| else limit)
            && multiset(shown) <= multiset(cells)
            && (|cells| <= limit ==> multiset(shown) == multiset(cells))
            && forall x, y :: x in shown && y in multiset(cells) - multiset(shown) ==> CellBefore(x, y)
  {
    var sorted := Sorting.Sort(cells, CellBefore);
    var shown := Shown(sorted, limit);
    CellOrderIsPreorder();
    Sorting.SortSorted(cells, CellBefore);
    var n := |shown|;
    assert shown == sorted[..n];
    Sorting.SortedSplit(sorted, n, CellBefore);
    var rest := multiset(sorted[n..]);
    assert multiset(cells) - multiset(shown) == rest;
  }

  /**
   * Sorts the sheet's cell list in place and lists it; the list stays sorted afterwards, as
   * it does in the editor that shares it.
   */
  method ListCells(cells: array<Cell>, head: string, limit: nat) returns (text: string)
    modifies cells
    ensures cells[..] == Sorting.Sort(old(cells[..]), CellBefore)
    ensures text == Listing(head, old(cells[..]), limit)
  {
    SortCells(cells);
    text := ListSorted(head, cells[..], limit);
  }

  /** The listing text of cells already in order: the first `limit` lines, then the note. */
  method ListSorted(head: string, sorted: seq<Cell>, limit: nat) returns (text: string)
    ensures text == head + ChatShared.Lines(Shown(sorted, limit), CellLine) + Remainder(|sorted|, limit)
  {
    var shown := if |sorted| <= limit then sorted else sorted[..limit];
    text := AppendLines(head, shown, CellLine);
    if |sorted| > limit {
      text := text + "\n...他" + NatToString(|sorted| - limit) + "個のセル";
    }
  }

  // ---------------------------------------------------------------------------------------
  // The row table of the spreadsheet answer

  /** A row as the panel collects it: column number to value. */
  type Row = map<int, string>

  /** `rows[cell.r][cell.c] = value`, creating the row on first use. */
  function Put(grid: map<int, Row>, cell: Cell): map<int, Row>
  {
    var row := if cell.r in grid then grid[cell.r] else map[];
    grid[cell.r := row[cell.c := cell.v]]
  }

  /** The rows the `forEach` collects from the cells, in order. */
  function Grid(cells: seq<Cell>): map<int, Row>
  {
    if cells == [] then map[] else Put(Grid(cells[..|cells| - 1]), cells[|cells| - 1])
  }

  /** `i` is the last cell written at row `r`, column `c`. */
  predicate LastAt(cells: seq<Cell>, i: nat, r: int, c: int)
  {
    i < |cells| && cells[i].r == r && cells[i].c == c
    && forall k :: i < k < |cells| ==> !(cells[k].r == r && cells[k].c == c)
  }

  /**
   * The collected rows hold a place exactly when some cell is there, and a place holds the
   * value of the last cell written there.
   */
  lemma {:induction false} GridHolds(cells: seq<Cell>, r: int, c: int)
    ensures r in Grid(cells) <==> exists i :: 0 <= i < |cells| && cells[i].r == r
    ensures (r in Grid(cells) && c in Grid(cells)[r])
            <==> exists i :: 0 <= i < |cells| && cells[i].r == r && cells[i].c == c
    ensures forall i: nat :: LastAt(cells, i, r, c) ==> Grid(cells)[r][c] == cells[i].v
    decreases |cells|
  {
    if cells != [] {
      var n := |cells| - 1;
      var init, last := cells[..n], cells[n];
      GridHolds(init, r, c);
      assert forall i :: 0 <= i < n ==> init[i] == cells[i];
      if exists i :: 0 <= i < n && cells[i].r == r {
        var i :| 0 <= i < n && cells[i].r == r;
        assert init[i].r == r;
      }
      if exists i :: 0 <= i < n && cells[i].r == r && cells[i].c == c {
        var i :| 0 <= i < n && cells[i].r == r && cells[i].c == c;
        assert init[i].r == r && init[i].c == c;
      }
      assert Grid(cells) == Put(Grid(init), last);
      forall i: nat | LastAt(cells, i, r, c) ensures Grid(cells)[r][c] == cells[i].v {
        if i < n {
          assert LastAt(init, i, r, c);
          assert !(last.r == r && last.c == c);
          assert Grid(init)[r][c] == cells[i].v;
        }
      }
    }
  }

  /** The `forEach` that collects the rows. */
  method CollectRows(cells: seq<Cell>) returns (rows: map<int, Row>)
    ensures rows == Grid(cells)
  {
    rows := map[];
    var i := 0;
    while i < |cells|
      invariant i <= |cells|
      invariant rows == Grid(cells[..i])
    {
      var cell := cells[i];
      if cell.r !in rows {
        rows := rows[cell.r := map[]];
      }
      rows := rows[cell.r := rows[cell.r][cell.c := cell.v]];
      assert cells[..i + 1][..i] == cells[..i];
      i := i + 1;
    }
    assert cells[..|cells|] == cells;
  }

  predicate Increasing(s: seq<int>)
  {
    forall i, j :: 0 <= i < j < |s| ==> s[i] < s[j]
  }

  /** Adds `x` to an increasing list of numbers unless it is there already. */
  function InsertKey(x: int, s: seq<int>): (r: seq<int>)
    requires Increasing(s)
    ensures Increasing(r) && |r| <= |s| + 1
    ensures forall k :: k in r <==> k == x || k in s
  {
    if s == [] || x < s[0] then [x] + s
    else if x == s[0] then s
    else
      var rest := InsertKey(x, s[1..]);
      assert forall k :: k in rest ==> s[0] < k;
      PrependSmaller(s[0], rest);
      [s[0]] + rest
  }

  /** A number below every element of an increasing list keeps it increasing in front. */
  lemma PrependSmaller(h: int, s: seq<int>)
    requires Increasing(s) && forall k :: k in s ==> h < k
    ensures Increasing([h] + s)
  {
    var r := [h] + s;
    forall i, j | 0 <= i < j < |r| ensures r[i] < r[j] {
      assert r[j] == s[j - 1];
      if i > 0 {
        assert r[i] == s[i - 1];
      } else {
        assert s[j - 1] in s;
      }
    }
  }

  /** The numbers of `xs` in increasing order, each once. */
  function AscendingDistinct(xs: seq<int>): (r: seq<int>)
    ensures Increasing(r) && |r| <= |xs|
    ensures forall k :: k in r <==> k in xs
  {
    if xs == [] then []
    else
      var init := xs[..|xs| - 1];
      assert forall k :: k in xs <==> k in init || k == xs[|xs| - 1];
      InsertKey(xs[|xs| - 1], AscendingDistinct(init))
  }

  function RowNumbers(cells: seq<Cell>): (rs: seq<int>)
    ensures |rs| == |cells| && forall i :: 0 <= i < |cells| ==> rs[i] == cells[i].r
  {
    seq(|cells|, i requires 0 <= i < |cells| => cells[i].r)
  }

  /**
   * `Object.keys(rows).map(Number).sort((a, b) => a - b).slice(0, 10)`: the ten lowest row
   * numbers that have a cell.
   */
  function ShownRows(cells: seq<Cell>): (rows: seq<int>)
    ensures Increasing(rows)
    ensures forall r :: r in rows ==> r in RowNumbers(cells)
    ensures forall r :: r in RowNumbers(cells) && r !in rows ==> |rows| == 10 && forall k :: k in rows ==> k < r
    ensures |rows| <= 10 && |rows| <= |cells| && (cells != [] ==> rows != [])
  {
    var all := AscendingDistinct(RowNumbers(cells));
    var rows := if |all| < 10 then all else all[..10];
    assert forall r :: r in RowNumbers(cells) && r !in rows ==> |rows| == 10 && forall k :: k in rows ==> k < r by {
      forall r | r in RowNumbers(cells) && r !in rows ensures |rows| == 10 && forall k :: k in rows ==> k < r {
        var j :| 0 <= j < |all| && all[j] == r;
        assert j >= |rows|;
        forall k | k in rows ensures k < r {
          var i :| 0 <= i < |rows| && rows[i] == k;
          assert all[i] == k;
        }
      }
    }
    assert cells != [] ==> rows != [] by {
      if cells != [] {
        assert cells[0].r in RowNumbers(cells);
      }
    }
    rows
  }

  /** The columns that cells of row `r` use, in the cells' order. */
  function ColumnsIn(cells: seq<Cell>, r: int): (cs: seq<int>)
    ensures forall c :: c in cs <==> exists i :: 0 <= i < |cells| && cells[i].r == r && cells[i].c == c
  {
    if cells == [] then []
    else
      var rest := ColumnsIn(cells[1..], r);
      assert forall i :: 1 <= i < |cells| ==> cells[i] == cells[1..][i - 1];
      (if cells[0].r == r then [cells[0].c] else []) + rest
  }

  /** `Math.max(...Object.keys(row).map(Number))`: the rightmost column of row `r`. */
  function MaxColumn(cells: seq<Cell>, r: int): Option<int>
  {
    Lists.MaxOf(ColumnsIn(cells, r))
  }

  /**
   * How many columns a row shows: from the first up to its last column, never past the sixth
   * (`col <= Math.min(maxCol, 5)`).
   */
  function Width(cells: seq<Cell>, r: int): (n: nat)
    ensures n <= 6
    ensures n > 0 ==> exists i :: 0 <= i < |cells| && cells[i].r == r && n - 1 <= cells[i].c
    ensures forall i :: 0 <= i < |cells| && cells[i].r == r && 0 <= cells[i].c ==> cells[i].c < n || n == 6
  {
    var m := MaxColumn(cells, r);
    var cs := ColumnsIn(cells, r);
    assert forall i :: 0 <= i < |cells| && cells[i].r == r ==> cells[i].c in cs;
    assert m.Some? ==> m.value in cs;
    if m.None? || m.value < 0 then 0 else if m.value < 5 then m.value + 1 else 6
  }

  /** `${row[col] || ''}`. */
  function ValueAt(row: Row, col: int): string
  {
    if col in row then row[col] else ""
  }

  /** `s.padEnd(width, ' ')`. */
  function PadEnd(s: string, width: nat): (r: string)
    ensures |r| == if |s| < width then width else |s|
    ensures r[..|s|] == s && forall k :: |s| <= k < |r| ==> r[k] == ' '
  {
    if |s| < width then s + Spaces(width - |s|) else s
  }

  function Spaces(n: nat): (r: string)
    ensures |r| == n && forall k :: 0 <= k < n ==> r[k] == ' '
  {
    if n == 0 then "" else Spaces(n - 1) + " "
  }

  /** The first `n` columns of a row, each padded to 15 characters and closed by a bar. */
  function RowCells(row: Row, n: nat): string
  {
    if n == 0 then "" else RowCells(row, n - 1) + PadEnd(ValueAt(row, n - 1), 15) + "| "
  }

  lemma MatchExtends(s: string, more: string, t: string, i: int)
    requires MatchAt(s, t, i)
    ensures MatchAt(s + more, t, i)
  {
    assert (s + more)[i..i + |t|] == s[i..i + |t|];
  }

  lemma MatchShifts(s: string, more: string, t: string, i: int)
    requires MatchAt(more, t, i)
    ensures MatchAt(s + more, t, |s| + i)
  {
    assert (s + more)[|s| + i..|s| + i + |t|] == more[i..i + |t|];
  }

  /** When no value is wider than 15 characters, every column starts 17 characters after the previous one. */
  lemma {:induction false} RowCellsAligned(row: Row, n: nat)
    requires forall c :: c in row ==> |row[c]| <= 15
    ensures |RowCells(row, n)| == 17 * n
    ensures forall k :: 0 <= k < n ==> MatchAt(RowCells(row, n), ValueAt(row, k), 17 * k)
    ensures forall k :: 0 <= k < n ==> MatchAt(RowCells(row, n), "| ", 17 * k + 15)
    decreases n, 1
  {
    if n > 0 {
      var m := n - 1;
      RowCellsAlignedLast(row, m, n);
    }
  }

  /** The step of `RowCellsAligned`: the last column lands 17 characters after the one before. */
  lemma {:induction false} RowCellsAlignedLast(row: Row, m: nat, n: nat)
    requires forall c :: c in row ==> |row[c]| <= 15
    requires n == m + 1
    ensures |RowCells(row, n)| == 17 * n
    ensures forall k :: 0 <= k < n ==> MatchAt(RowCells(row, n), ValueAt(row, k), 17 * k)
    ensures forall k :: 0 <= k < n ==> MatchAt(RowCells(row, n), "| ", 17 * k + 15)
    decreases n, 0
  {
    RowCellsAligned(row, m);
    var prev := RowCells(row, m);
    var v := ValueAt(row, m);
    var cell := PadEnd(v, 15) + "| ";
    RowCellsLast(row, m, n);
    Regroup(prev, PadEnd(v, 15), "| ");
    PaddedCell(v, cell);
    AlignedAppend(row, m, prev, cell);
  }

  /** Appending a padded column to aligned columns keeps every column aligned. */
  lemma AlignedAppend(row: Row, m: nat, prev: string, cell: string)
    requires |prev| == 17 * m && |cell| == 17
    requires forall k :: 0 <= k < m ==> MatchAt(prev, ValueAt(row, k), 17 * k)
    requires forall k :: 0 <= k < m ==> MatchAt(prev, "| ", 17 * k + 15)
    requires MatchAt(cell, ValueAt(row, m), 0) && MatchAt(cell, "| ", 15)
    ensures forall k :: 0 <= k < m + 1 ==> MatchAt(prev + cell, ValueAt(row, k), 17 * k)
    ensures forall k :: 0 <= k < m + 1 ==> MatchAt(prev + cell, "| ", 17 * k + 15)
  {
    forall k | 0 <= k < m + 1
      ensures MatchAt(prev + cell, ValueAt(row, k), 17 * k)
      ensures MatchAt(prev + cell, "| ", 17 * k + 15)
    {
      if k < m {
        MatchExtends(prev, cell, ValueAt(row, k), 17 * k);
        MatchExtends(prev, cell, "| ", 17 * k + 15);
      } else {
        MatchShifts(prev, cell, ValueAt(row, m), 0);
        MatchShifts(prev, cell, "| ", 15);
      }
    }
  }

  lemma RowCellsLast(row: Row, m: nat, n: nat)
    requires n > 0 && m == n - 1
    ensures RowCells(row, n) == RowCells(row, m) + PadEnd(ValueAt(row, m), 15) + "| "
  {
  }

  /** A padded column holds its value at its start and the bar at position 15. */
  lemma PaddedCell(v: string, cell: string)
    requires |v| <= 15 && cell == PadEnd(v, 15) + "| "
    ensures |cell| == 17 && MatchAt(cell, v, 0) && MatchAt(cell, "| ", 15)
  {
    assert cell[..|v|] == PadEnd(v, 15)[..|v|];
    assert cell[15..17] == "| ";
  }

  /** One line of the table: `行{r+1}: ` and the row's columns. */
  function RowLine(cells: seq<Cell>, grid: map<int, Row>, r: int): string
  {
    "行" + IntToString(r + 1) + ": " + RowCells(if r in grid then grid[r] else map[], Width(cells, r)) + "\n"
  }

  function Table(cells: seq<Cell>): string
  {
    ChatShared.Lines(ShownRows(cells), (r: int) => RowLine(cells, Grid(cells), r))
  }

  /** The rightmost columns of the given rows. */
  function ColumnMaxima(cells: seq<Cell>, rows: seq<int>): (ms: seq<int>)
    ensures forall x :: x in ms <==> exists r :: r in rows && MaxColumn(cells, r) == Some(x)
  {
    if rows == [] then []
    else
      var m := MaxColumn(cells, rows[0]);
      var rest := ColumnMaxima(cells, rows[1..]);
      assert forall r :: r in rows <==> r == rows[0] || r in rows[1..];
      (if m.Some? then [m.value] else []) + rest
  }

  /** The rightmost column in the shown rows, the largest of their `maxCol`s. */
  function Extent(cells: seq<Cell>): Option<int>
  {
    Lists.MaxOf(ColumnMaxima(cells, ShownRows(cells)))
  }

  /** The range line as written: the column figure is the index of the rightmost column. */
  function RangeAsWritten(cells: seq<Cell>): string
  {
    NatToString(|ShownRows(cells)|) + "行 × "
    + (match Extent(cells) case None => "-Infinity" case Some(m) => IntToString(m)) + "列"
  }

  /** The range line: the shown rows and the number of columns up to the rightmost one. */
  function Range(cells: seq<Cell>): string
  {
    NatToString(|ShownRows(cells)|) + "行 × "
    + (match Extent(cells) case None => "0" case Some(m) => IntToString(m + 1)) + "列"
  }

  lemma OneCellShownRows(v: string)
    ensures ShownRows([Cell(0, 0, v)]) == [0]
  {
    var cells := [Cell(0, 0, v)];
    var rows := ShownRows(cells);
    assert RowNumbers(cells) == [0];
    assert forall r :: r in rows ==> r == 0;
    assert |rows| >= 1;
    assert rows[0] in rows;
  }

  /** For one cell in A1 the panel as written reports no column at all. */
  lemma RangeAsWrittenCountsFromZero(v: string)
    ensures RangeAsWritten([Cell(0, 0, v)]) == "1行 × 0列"
    ensures Range([Cell(0, 0, v)]) == "1行 × 1列"
  {
    var cells := [Cell(0, 0, v)];
    OneCellShownRows(v);
    OneCellExtent(v);
    RangeParts(cells);
    SmallNumbers();
    RangeText(NatToString(1), IntToString(0), "0");
    RangeText(NatToString(1), IntToString(1), "1");
  }

  /** The range line from the row count and the column figure. */
  lemma RangeParts(cells: seq<Cell>)
    requires Extent(cells).Some?
    ensures RangeAsWritten(cells) == NatToString(|ShownRows(cells)|) + "行 × " + IntToString(Extent(cells).value) + "列"
    ensures Range(cells) == NatToString(|ShownRows(cells)|) + "行 × " + IntToString(Extent(cells).value + 1) + "列"
  {
  }

  lemma SmallNumbers()
    ensures NatToString(1) == "1" && IntToString(0) == "0" && IntToString(1) == "1"
  {
  }

  lemma RangeText(rows: string, cols: string, digit: string)
    requires rows == "1" && cols == digit
    ensures rows + "行 × " + cols + "列" == "1行 × " + digit + "列"
  {
  }

  lemma OneCellExtent(v: string)
    ensures Extent([Cell(0, 0, v)]) == Some(0)
  {
    var cells := [Cell(0, 0, v)];
    OneCellShownRows(v);
    assert ColumnsIn(cells, 0) == [0];
    assert MaxColumn(cells, 0) == Some(0);
    assert ColumnMaxima(cells, [0]) == [0];
  }

  /** The largest of the rows' rightmost columns is the rightmost column of one of the rows. */
  lemma ExtentOfRows(cells: seq<Cell>, rows: seq<int>)
    requires Lists.MaxOf(ColumnMaxima(cells, rows)).Some?
    ensures exists r :: r in rows && MaxColumn(cells, r) == Lists.MaxOf(ColumnMaxima(cells, rows))
    ensures forall r :: r in rows && MaxColumn(cells, r).Some?
              ==> MaxColumn(cells, r).value <= Lists.MaxOf(ColumnMaxima(cells, rows)).value
  {
    var ms := ColumnMaxima(cells, rows);
    var e := Lists.MaxOf(ms);
    var x :| 0 <= x < |ms| && ms[x] == e.value;
    assert ms[x] in ms;
    forall r | r in rows && MaxColumn(cells, r).Some? ensures MaxColumn(cells, r).value <= e.value {
      assert MaxColumn(cells, r).value in ms;
    }
  }

  /**
   * The column figure counts the columns from the first up to the rightmost one the shown
   * rows use: it exceeds every column number of a cell in a shown row and is one past one of them.
   */
  lemma ExtentCoversShownRows(cells: seq<Cell>)
    requires cells != []
    ensures Extent(cells).Some?
    ensures forall i :: 0 <= i < |cells| && cells[i].r in ShownRows(cells) ==> cells[i].c < Extent(cells).value + 1
    ensures exists i :: 0 <= i < |cells| && cells[i].r in ShownRows(cells) && cells[i].c + 1 == Extent(cells).value + 1
  {
    var rows := ShownRows(cells);
    var ms := ColumnMaxima(cells, rows);
    var r0 := rows[0];
    assert r0 in RowNumbers(cells);
    var i0 :| 0 <= i0 < |cells| && cells[i0].r == r0;
    assert cells[i0].c in ColumnsIn(cells, r0);
    assert MaxColumn(cells, r0).value in ms;
    ExtentOfRows(cells, rows);
    var e := Extent(cells);
    forall i | 0 <= i < |cells| && cells[i].r in rows ensures cells[i].c < e.value + 1 {
      assert cells[i].c in ColumnsIn(cells, cells[i].r);
    }
    var r :| r in rows && MaxColumn(cells, r) == e;
    var cs := ColumnsIn(cells, r);
    assert e.value in cs;
  }

  /** The `for` loop over a row's columns. */
  method RowText(row: Row, width: nat) returns (rowData: string)
    ensures rowData == RowCells(row, width)
  {
    rowData := "";
    var col := 0;
    while col < width
      invariant col <= width
      invariant rowData == RowCells(row, col)
    {
      rowData := rowData + PadEnd(ValueAt(row, col), 15) + "| ";
      ghost var k := col;
      col := col + 1;
      RowCellsLast(row, k, col);
    }
  }

  /** The table is built row by row, each row column by column. */
  method DescribeRows(cells: seq<Cell>) returns (table: string, range: string)
    ensures table == Table(cells) && range == Range(cells)
  {
    var rows := CollectRows(cells);
    var shown := ShownRows(cells);
    ghost var line := (r: int) => RowLine(cells, rows, r);
    table := "";
    var i := 0;
    while i < |shown|
      invariant i <= |shown|
      invariant table == ChatShared.Lines(shown[..i], line)
    {
      var r := shown[i];
      var row := if r in rows then rows[r] else map[];
      var width := Width(cells, r);
      var rowData := RowText(row, width);
      var text := "行" + IntToString(r + 1) + ": " + rowData + "\n";
      assert text == line(r);
      table := table + text;
      ghost var k := i;
      i := i + 1;
      ChatShared.LinesSnoc(shown, k, i, line);
    }
    assert shown[..|shown|] == shown;
    range := Range(cells);
  }

  // ---------------------------------------------------------------------------------------
  // Which answer a message gets (`getDummyResponse`)

  datatype Route =
    | Help | Status | DataList | Write
    | Overview | SheetDetail | FullListing | ConditionsInfo | Hello | Features | Saving | SheetFeatures | Trouble
    | Unmatched

  /** The slash commands, checked on the message as typed, in this order. */
  function CommandOf(message: string): Option<Route>
  {
    if StartsWith(message, "/help") then Some(Help)
    else if StartsWith(message, "/status") then Some(Status)
    else if StartsWith(message, "/data") then Some(DataList)
    else if StartsWith(message, "/write") then Some(Write)
    else None
  }

  /** The keyword ladder, checked on the lower-cased message, first arm first. */
  const Topics: seq<Rule<Route>> := [
    Rule(["現在", "データ", "内容"], Overview),
    Rule(["スプレッドシート", "項目定義", "中身", "詳細"], SheetDetail),
    Rule(["もっと詳しく", "全部", "すべて"], FullListing),
    Rule(["表示条件", "条件"], ConditionsInfo),
    Rule(["こんにちは", "はじめまして"], Hello),
    Rule(["ヘルプ", "使い方"], Features),
    Rule(["保存", "セーブ"], Saving),
    Rule(["スプレッドシート", "表"], SheetFeatures),
    Rule(["エラー", "問題"], Trouble)
  ]

  function RouteOf(message: string): Route
  {
    match CommandOf(message)
    case Some(r) => r
    case None => FirstMatch(Lower(message), Topics, Unmatched)
  }

  /** None of the ladder's words has an ASCII letter, so lower-casing the message changes no answer. */
  lemma TopicsIgnoreCase(message: string)
    ensures FirstMatch(Lower(message), Topics, Unmatched) == FirstMatch(message, Topics, Unmatched)
  {
    forall j, i | 0 <= j < |Topics| && 0 <= i < |Topics[j].words| ensures NoAsciiLetter(Topics[j].words[i]) {
    }
    FirstMatchIgnoresCase(message, Topics, Unmatched);
  }

  /**
   * The sheet-features answer is never given because of the word スプレッドシート: a message with
   * that word is answered by an earlier arm, so that answer goes only to messages that
   * mention 表 and not スプレッドシート.
   */
  lemma SheetFeaturesOnlyForTable(message: string)
    requires RouteOf(message) == SheetFeatures
    ensures Contains(message, "表") && !Contains(message, "スプレッドシート")
  {
    TopicsIgnoreCase(message);
    var s := message;
    FirstMatchFired(s, Topics, Unmatched);
    var j :| 0 <= j < |Topics| && FirstMatch(s, Topics, Unmatched) == Topics[j].result
             && MentionsAny(s, Topics[j].words)
             && forall i :: 0 <= i < j ==> !MentionsAny(s, Topics[i].words);
    assert j == 7;
    assert !MentionsAny(s, Topics[1].words);
    assert Topics[1].words[0] == "スプレッドシート";
    MentionsEither(s, "スプレッドシート", "表");
  }

  /**
   * The answers the ladder gives to a message that mentions no command: an arm that fires
   * answers unless an earlier one fires, and the default answers when none does.
   */
  lemma TopicOrder(message: string, k: nat)
    requires CommandOf(message).None? && k < |Topics|
    ensures MentionsAny(message, Topics[k].words) && (forall j :: 0 <= j < k ==> !MentionsAny(message, Topics[j].words))
            ==> RouteOf(message) == Topics[k].result
    ensures (forall j :: 0 <= j < |Topics| ==> !MentionsAny(message, Topics[j].words)) ==> RouteOf(message) == Unmatched
  {
    TopicsIgnoreCase(message);
    if MentionsAny(message, Topics[k].words) && (forall j :: 0 <= j < k ==> !MentionsAny(message, Topics[j].words)) {
      FirstMatchAt(message, Topics, Unmatched, k);
    }
    if forall j :: 0 <= j < |Topics| ==> !MentionsAny(message, Topics[j].words) {
      FirstMatchNone(message, Topics, Unmatched);
    }
  }

  /** The suggested-question buttons: each gets the answer its label asks for. */
  lemma SuggestedOverview()
    ensures RouteOf("現在のデータは？") == Overview
  {
    var q := "現在のデータは？";
    assert q[0..2] == "現在";
    assert MatchAt(q, Topics[0].words[0], 0);
    assert q[0] == '現';
    TopicOrder(q, 0);
  }

  /** A message that opens with スプレッドシート and has none of 現, デ, 内 gets the spreadsheet answer. */
  lemma SheetDetailWhenSheetFirst(q: string)
    requires |q| >= 8 && q[..8] == "スプレッドシート"
    requires forall i :: 0 <= i < |q| ==> q[i] !in "現デ内"
    ensures RouteOf(q) == SheetDetail
  {
    assert MentionsAny(q, Topics[1].words) by {
      assert MatchAt(q, Topics[1].words[0], 0);
    }
    NoCommand(q);
    NotOverview(q);
    TopicOrder(q, 1);
  }

  lemma SuggestedSheetDetail()
    ensures RouteOf("スプレッドシートの中身") == SheetDetail
  {
    SheetDetailWhenSheetFirst("スプレッドシートの中身");
  }

  /** A message that does not start with a slash is no command. */
  lemma NoCommand(q: string)
    requires q != [] && q[0] != '/'
    ensures CommandOf(q).None?
  {
  }

  lemma NotOverview(q: string)
    requires forall i :: 0 <= i < |q| ==> q[i] !in "現デ内"
    ensures !MentionsAny(q, Topics[0].words)
  {
    MissingCharNotContained(q, "現在", 0);
    MissingCharNotContained(q, "データ", 0);
    MissingCharNotContained(q, "内容", 0);
  }

  lemma NotEarlierThanConditions(q: string)
    requires forall i :: 0 <= i < |q| ==> q[i] !in "現デ内スプ項中詳も全す"
    ensures forall j :: 0 <= j < 3 ==> !MentionsAny(q, Topics[j].words)
  {
    MissingCharNotContained(q, "現在", 0);
    MissingCharNotContained(q, "データ", 0);
    MissingCharNotContained(q, "内容", 0);
    MissingCharNotContained(q, "スプレッドシート", 0);
    MissingCharNotContained(q, "項目定義", 0);
    MissingCharNotContained(q, "中身", 0);
    MissingCharNotContained(q, "詳細", 0);
    MissingCharNotContained(q, "もっと詳しく", 0);
    MissingCharNotContained(q, "全部", 0);
    MissingCharNotContained(q, "すべて", 0);
  }

  /** A message that opens with 表示条件 and has no character of an earlier arm's words gets the conditions answer. */
  lemma ConditionsWhenFirst(q: string)
    requires |q| >= 4 && q[..4] == "表示条件"
    requires forall i :: 0 <= i < |q| ==> q[i] !in "現デ内スプ項中詳も全す"
    ensures RouteOf(q) == ConditionsInfo
  {
    assert MentionsAny(q, Topics[3].words) by {
      assert MatchAt(q, Topics[3].words[0], 0);
    }
    NoCommand(q);
    NotEarlierThanConditions(q);
    TopicOrder(q, 3);
  }

  lemma SuggestedConditions()
    ensures RouteOf("表示条件を教えて") == ConditionsInfo
  {
    ConditionsWhenFirst("表示条件を教えて");
  }

  lemma SuggestedCommands()
    ensures RouteOf("/status") == Status && RouteOf("/help") == Help && RouteOf("/write") == Write
  {
    var help, status, data, write := "/help", "/status", "/data", "/write";
    StartsWithConcat(help, "");
    StartsWithConcat(status, "");
    StartsWithConcat(write, "");
    assert status[..|help|][1] != help[1];
    assert write[..|help|][1] != help[1];
    assert write[..|data|][1] != data[1];
    assert CommandOf(help) == Some(Help);
    assert CommandOf(status) == Some(Status);
    assert CommandOf(write) == Some(Write);
  }

  // ---------------------------------------------------------------------------------------
  // The answers

  const Greeting := ChatMessage("1", "こんにちは！設計書作成のお手伝いをします。何かご質問はありますか？", false, Plain)

  const HelpText :=
    "🤖 **設計アシスタント ヘルプ**\n\n**利用可能なコマンド:**\n• `/help` - このヘルプを表示\n"
    + "• `/status` - 現在のデータ状況を表示\n• `/data` - スプレッドシートの詳細データを表示\n"
    + "• `/write` - チャット履歴を表示条件に書き込み\n\n**よくある質問:**\n"
    + "• \"現在のデータは？\" - 全体の状況確認\n• \"スプレッドシートの中身\" - 項目定義の詳細\n"
    + "• \"表示条件は？\" - 表示条件の内容確認\n• \"もっと詳しく\" - より詳細な情報表示\n\n"
    + "**使い方のコツ:**\nチャット下部の質問ボタンをクリックするか、上記のコマンドを直接入力してください。"

  function Entered(filled: bool, count: nat, unit: string): string
  {
    if filled then NatToString(count) + unit + "入力済み" else "未入力"
  }

  function ImageState(a: Analysis): string
  {
    if a.hasImage then "アップロード済み" else "未アップロード"
  }

  function StatusText(a: Analysis): string
  {
    "📊 **現在の設計書ステータス**\n\n**データ入力状況:**\n✅ 項目定義: "
    + Entered(a.spreadsheet.hasData, a.spreadsheet.cellCount, "セル")
    + "\n✅ 表示条件: " + Entered(a.conditions.hasContent, a.conditions.length, "文字")
    + "\n✅ 補足説明: " + Entered(a.supplement.hasContent, a.supplement.length, "文字")
    + "\n✅ 画面イメージ: " + ImageState(a)
    + "\n\n**完成度:** " + NatToString(Completeness(a)) + "%"
  }

  const DataHead := "📋 **スプレッドシート全データ:**\n\n"
  const NoDataForCommand := "❌ スプレッドシートにデータがありません。「テストデータ」ボタンでサンプルを読み込んでください。"

  function WriteReply(count: nat, timestamp: string): string
  {
    "✅ **チャット履歴を表示条件に書き込みました！**\n\n📝 **書き込み内容:**\n- 最新" + NatToString(count)
    + "件のメッセージ\n- タイムスタンプ: " + timestamp + "\n- 書き込み先: 表示条件セクション\n\n「表示条件」タブを確認してください。"
  }

  /** A field's content line: the quoted preview, or 未入力. */
  function Quoted(t: TextStats): string
  {
    if t.hasContent then "\"" + t.preview + "...\"" else "未入力"
  }

  function OverviewText(a: Analysis): string
  {
    "現在の設計書の状況をお伝えします：\n\n📊 **項目定義（スプレッドシート）**\n• シート名: "
    + a.spreadsheet.sheetName + "\n• セル数: " + NatToString(a.spreadsheet.cellCount) + "個\n• データ: "
    + (if a.spreadsheet.hasData then "入力済み" else "未入力")
    + "\n\n📝 **表示条件**\n• 文字数: " + NatToString(a.conditions.length) + "文字\n• 内容: " + Quoted(a.conditions)
    + "\n\n📋 **補足説明**  \n• 文字数: " + NatToString(a.supplement.length) + "文字\n• 内容: " + Quoted(a.supplement)
    + "\n\n🖼️ **画面イメージ**\n• モックアップ: " + ImageState(a)
    + "\n\n何か具体的にお聞きしたいことはありますか？"
  }

  function SheetDetailText(a: Analysis, table: string, range: string): string
  {
    "📊 項目定義スプレッドシートの詳細：\n\n**基本情報**\n• シート名: " + a.spreadsheet.sheetName
    + "\n• 合計セル数: " + NatToString(a.spreadsheet.cellCount) + "個\n• データ範囲: " + range
    + "\n\n**データ内容（上位10行）**\n```\n" + table + "\n```\n\nさらに詳しく知りたい場合は「もっと詳しく」と聞いてください。"
  }

  const SheetEmpty := "項目定義スプレッドシートはまだ空です。「テストデータ」ボタンでサンプルデータを読み込むか、直接入力してみてください。"
  const FullHead := "📋 スプレッドシート全データ：\n\n"
  const NoDataForTopic := "スプレッドシートにデータがありません。"

  function ConditionsText(a: Analysis): string
  {
    "表示条件の内容：\n\n文字数: " + NatToString(a.conditions.length) + "文字\n内容（抜粋）: \""
    + a.conditions.preview + "...\"\n\n表示条件について具体的に知りたいことがあればお聞かせください。"
  }

  const NoConditions := "表示条件はまだ入力されていません。「表示条件」タブでMarkdown形式で条件を記述してください。"
  const HelloText := "こんにちは！設計書システムへようこそ。現在のデータを読み取って分析できます。「現在のデータは？」などと聞いてみてください。"
  const FeaturesText :=
    "このシステムの主な機能をご紹介します：\n\n1. **表示条件**: Markdown形式で条件を記述できます\n"
    + "2. **画面イメージ**: モックアップ画像をアップロードできます  \n3. **項目定義**: スプレッドシート形式で項目を管理できます\n"
    + "4. **補足説明**: 追加情報をMarkdown形式で記述できます\n\n各タブで個別編集、または「全体表示」で一覧できます。"
  const SavingText := "設計書の保存は右上の「保存」ボタンから行えます。JSON形式でローカルにダウンロードされます。保存したファイルは「読み込み」ボタンで復元できます。"
  const SheetFeaturesText :=
    "スプレッドシート機能について：\n\n• Excelからのコピー&ペーストが可能です\n• セル結合、書式設定もサポートしています\n"
    + "• 日本語入力時のIME問題も解決済みです\n• 「テストデータ」ボタンでサンプルデータを読み込めます"
  const TroubleText :=
    "問題が発生している場合は以下をお試しください：\n\n1. ページをリロードしてみてください\n"
    + "2. ブラウザのキャッシュをクリアしてください\n3. 読み込みが失敗した場合は、テストデータを読み込んでから再試行してください"

  /** The default answer quotes the message as typed. */
  function DefaultText(message: string): string
  {
    "「" + message + "」について承知いたしました。設計書作成に関するご質問でしたら、具体的にお聞かせください。\n\n"
    + "よくある質問：\n• 使い方やヘルプについて\n• 保存・読み込み方法について  \n• スプレッドシート機能について\n"
    + "• エラーや問題の解決方法について"
  }

  /** An answer, and the new display conditions when the answer writes them. */
  datatype Turn = Turn(reply: string, written: Option<string>)

  /**
   * The answer to `message` for the document as it was when the message was sent, where
   * `snapshot` is the conversation as it stood before the message.
   */
  function Answer(route: Route, message: string, data: WebUIData, snapshot: seq<ChatMessage>, timestamp: string): Turn
  {
    var a := AnalyzeCurrentData(data);
    var cells := FirstSheetCells(data);
    match route
    case Help => Turn(HelpText, None)
    case Status => Turn(StatusText(a), None)
    case DataList => Turn(if a.spreadsheet.hasData then Listing(DataHead, cells, 20) else NoDataForCommand, None)
    case Write =>
      Turn(WriteReply(|Recent(snapshot)|, timestamp), Some(Written(data.conditions, History(timestamp, snapshot))))
    case Overview => Turn(OverviewText(a), None)
    case SheetDetail => Turn(if a.spreadsheet.hasData then SheetDetailText(a, Table(cells), Range(cells)) else SheetEmpty, None)
    case FullListing => Turn(if a.spreadsheet.hasData then Listing(FullHead, cells, 50) else NoDataForTopic, None)
    case ConditionsInfo => Turn(if a.conditions.hasContent then ConditionsText(a) else NoConditions, None)
    case Hello => Turn(HelloText, None)
    case Features => Turn(FeaturesText, None)
    case Saving => Turn(SavingText, None)
    case SheetFeatures => Turn(SheetFeaturesText, None)
    case Trouble => Turn(TroubleText, None)
    case Unmatched => Turn(DefaultText(message), None)
  }

  function Respond(message: string, data: WebUIData, snapshot: seq<ChatMessage>, timestamp: string): Turn
  {
    Answer(RouteOf(message), message, data, snapshot, timestamp)
  }

  /** The two listings sort the sheet's cell list in place, and only when it has cells. */
  predicate SortsCells(message: string, data: WebUIData)
  {
    (RouteOf(message) == DataList || RouteOf(message) == FullListing) && FirstSheetCells(data) != []
  }

  /** Of all answers only the history write changes the document. */
  lemma OnlyWriteAnswerWrites(route: Route, message: string, data: WebUIData, snapshot: seq<ChatMessage>,
                              timestamp: string)
    ensures Answer(route, message, data, snapshot, timestamp).written.Some? <==> route == Write
  {
    var t := Answer(route, message, data, snapshot, timestamp);
    if route == Write {
      assert t.written == Some(Written(data.conditions, History(timestamp, snapshot)));
    } else {
      assert t.written == None;
    }
  }

  /** The history is written only for the `/write` command, never for a keyword. */
  lemma WriteOnlyByCommand(message: string)
    ensures RouteOf(message) == Write <==> CommandOf(message) == Some(Write)
  {
    if CommandOf(message).None? {
      assert forall j :: 0 <= j < |Topics| ==> Topics[j].result != Write;
      FirstMatchFired(Lower(message), Topics, Unmatched);
    }
  }

  /**
   * Only `/write` changes the document: it writes the history of the conversation before
   * the message into the display conditions, under the heading.
   */
  lemma OnlyWriteChangesConditions(message: string, data: WebUIData, snapshot: seq<ChatMessage>, timestamp: string)
    ensures Respond(message, data, snapshot, timestamp).written.Some? <==> CommandOf(message) == Some(Write)
    ensures var w := Respond(message, data, snapshot, timestamp).written;
            w.Some? ==> w.value == Written(data.conditions, History(timestamp, snapshot)) && Contains(w.value, Marker)
  {
    OnlyWriteAnswerWrites(RouteOf(message), message, data, snapshot, timestamp);
    WriteOnlyByCommand(message);
    WrittenHasHeading(data.conditions, History(timestamp, snapshot));
  }

  /** The answers `GetDummyResponse` computes itself, and when the listings sort the cells. */
  lemma AnswerOnRoute(message: string, data: WebUIData, snapshot: seq<ChatMessage>, timestamp: string)
    ensures var route := RouteOf(message);
            var a := AnalyzeCurrentData(data);
            var cells := FirstSheetCells(data);
            var t := Respond(message, data, snapshot, timestamp);
            (route == DataList && a.spreadsheet.hasData ==> t == Turn(Listing(DataHead, cells, 20), None))
            && (route == FullListing && a.spreadsheet.hasData ==> t == Turn(Listing(FullHead, cells, 50), None))
            && (route == Write ==>
                  t == Turn(WriteReply(|Recent(snapshot)|, timestamp), Some(Written(data.conditions, History(timestamp, snapshot)))))
            && (route == SheetDetail && a.spreadsheet.hasData ==> t == Turn(SheetDetailText(a, Table(cells), Range(cells)), None))
            && t == Answer(route, message, data, snapshot, timestamp)
            && (SortsCells(message, data) <==> (route == DataList || route == FullListing) && a.spreadsheet.hasData)
  {
    var route := RouteOf(message);
    var hasData := AnalyzeCurrentData(data).spreadsheet.hasData;
    if route == DataList && hasData {
      AnswerListCase(route, message, data, snapshot, timestamp);
    } else if route == FullListing && hasData {
      AnswerFullCase(route, message, data, snapshot, timestamp);
    } else if route == Write {
      AnswerWriteCase(route, message, data, snapshot, timestamp);
    } else if route == SheetDetail && hasData {
      AnswerDetailCase(route, message, data, snapshot, timestamp);
    }
  }

  /** The short listing, for `/data` over a sheet with data. */
  lemma AnswerListCase(route: Route, message: string, data: WebUIData, snapshot: seq<ChatMessage>, timestamp: string)
    requires route == DataList && AnalyzeCurrentData(data).spreadsheet.hasData
    ensures Answer(route, message, data, snapshot, timestamp) == Turn(Listing(DataHead, FirstSheetCells(data), 20), None)
  {
  }

  /** The long listing, for the "everything" keywords over a sheet with data. */
  lemma AnswerFullCase(route: Route, message: string, data: WebUIData, snapshot: seq<ChatMessage>, timestamp: string)
    requires route == FullListing && AnalyzeCurrentData(data).spreadsheet.hasData
    ensures Answer(route, message, data, snapshot, timestamp) == Turn(Listing(FullHead, FirstSheetCells(data), 50), None)
  {
  }

  /** The history write, for `/write`. */
  lemma AnswerWriteCase(route: Route, message: string, data: WebUIData, snapshot: seq<ChatMessage>, timestamp: string)
    requires route == Write
    ensures Answer(route, message, data, snapshot, timestamp)
            == Turn(WriteReply(|Recent(snapshot)|, timestamp), Some(Written(data.conditions, History(timestamp, snapshot))))
  {
  }

  /** The sheet description, for the spreadsheet keywords over a sheet with data. */
  lemma AnswerDetailCase(route: Route, message: string, data: WebUIData, snapshot: seq<ChatMessage>, timestamp: string)
    requires route == SheetDetail && AnalyzeCurrentData(data).spreadsheet.hasData
    ensures var a := AnalyzeCurrentData(data);
            var cells := FirstSheetCells(data);
            Answer(route, message, data, snapshot, timestamp) == Turn(SheetDetailText(a, Table(cells), Range(cells)), None)
  {
  }

  /**
   * `getDummyResponse`: the answer, where the two listings sort the sheet's own cell list in
   * place and the spreadsheet answer collects its rows.
   */
  method GetDummyResponse(message: string, data: WebUIData, cells: array<Cell>, snapshot: seq<ChatMessage>,
                          timestamp: string) returns (t: Turn)
    requires cells[..] == FirstSheetCells(data)
    modifies cells
    ensures t == Respond(message, data, snapshot, timestamp)
    ensures cells[..] == if SortsCells(message, data) then Sorting.Sort(old(cells[..]), CellBefore) else old(cells[..])
  {
    var a := AnalyzeCurrentData(data);
    var route := RouteOf(message);
    AnswerOnRoute(message, data, snapshot, timestamp);
    if route == DataList && a.spreadsheet.hasData {
      var text := ListCells(cells, DataHead, 20);
      t := Turn(text, None);
    } else if route == FullListing && a.spreadsheet.hasData {
      var text := ListCells(cells, FullHead, 50);
      t := Turn(text, None);
    } else if route == Write {
      var updated, count := WriteToMarkdown(data.conditions, timestamp, snapshot);
      t := Turn(WriteReply(count, timestamp), Some(updated));
    } else if route == SheetDetail && a.spreadsheet.hasData {
      var table, range := DescribeRows(cells[..]);
      t := Turn(SheetDetailText(a, table, range), None);
    } else {
      t := Answer(route, message, data, snapshot, timestamp);
    }
  }

  // ---------------------------------------------------------------------------------------
  // The panel

  class CommonPanel {
    var messages: seq<ChatMessage>
    var input: string

    constructor()
      ensures messages == [Greeting] && input == ""
    {
      messages := [Greeting];
      input := "";
    }

    /**
     * One question answered: the user's message now, the answer half a second later after
     * whatever was posted meanwhile; the answer is computed from the document and the
     * conversation as they were when the question was sent.
     */
    method Ask(question: string, data: WebUIData, cells: array<Cell>, sent: nat, answered: nat, timestamp: string,
               meanwhile: seq<ChatMessage>) returns (written: Option<string>)
      requires cells[..] == FirstSheetCells(data)
      modifies this, cells
      ensures var t := Respond(question, data, old(messages), timestamp);
              messages == old(messages) + [UserMessage(question, sent)] + meanwhile + [ReplyMessage(t.reply, answered)]
              && written == t.written && input == ""
      ensures cells[..] == if SortsCells(question, data) then Sorting.Sort(old(cells[..]), CellBefore) else old(cells[..])
    {
      var snapshot := messages;
      messages := messages + [UserMessage(question, sent)];
      input := "";
      messages := messages + meanwhile;
      var t := GetDummyResponse(question, data, cells, snapshot, timestamp);
      messages := messages + [ReplyMessage(t.reply, answered)];
      written := t.written;
    }

    /** `handleSendMessage`: a blank input is ignored; otherwise the input is asked and cleared. */
    method HandleSendMessage(data: WebUIData, cells: array<Cell>, sent: nat, answered: nat, timestamp: string,
                             meanwhile: seq<ChatMessage>) returns (written: Option<string>)
      requires cells[..] == FirstSheetCells(data)
      modifies this, cells
      ensures !HasText(old(input)) ==> messages == old(messages) && input == old(input) && written.None?
                                       && cells[..] == old(cells[..])
      ensures HasText(old(input)) ==>
                var t := Respond(old(input), data, old(messages), timestamp);
                messages == old(messages) + [UserMessage(old(input), sent)] + meanwhile + [ReplyMessage(t.reply, answered)]
                && written == t.written && input == ""
                && cells[..] == if SortsCells(old(input), data) then Sorting.Sort(old(cells[..]), CellBefore) else old(cells[..])
    {
      HasTextIffTrimmed(input);
      if Trim(input) == "" {
        return None;
      }
      written := Ask(input, data, cells, sent, answered, timestamp, meanwhile);
    }

    /**
     * `handleQuestionClick`: the question is put in the input box and, unless it is blank,
     * asked a moment later, which clears the box again.
     */
    method HandleQuestionClick(question: string, data: WebUIData, cells: array<Cell>, sent: nat, answered: nat,
                               timestamp: string, meanwhile: seq<ChatMessage>) returns (written: Option<string>)
      requires cells[..] == FirstSheetCells(data)
      modifies this, cells
      ensures !HasText(question) ==> messages == old(messages) && input == question && written.None?
                                     && cells[..] == old(cells[..])
      ensures HasText(question) ==>
                var t := Respond(question, data, old(messages), timestamp);
                messages == old(messages) + [UserMessage(question, sent)] + meanwhile + [ReplyMessage(t.reply, answered)]
                && written == t.written && input == ""
                && cells[..] == if SortsCells(question, data) then Sorting.Sort(old(cells[..]), CellBefore) else old(cells[..])
    {
      input := question;
      HasTextIffTrimmed(question);
      if Trim(question) == "" {
        return None;
      }
      written := Ask(question, data, cells, sent, answered, timestamp, meanwhile);
    }
  }
}
