/**
 * The spreadsheet-to-Markdown table converter shared by both exports: the first sheet's sparse
 * cell list is written into a jagged grid, all-blank rows are dropped, the remaining rows are
 * padded to the widest one and printed with a single separator line under the first.
 */
module MarkdownTable {
  import opened Wrappers
  import opened Json
  import Text
  import Lists

  /** The table printed when there is nothing to show. */
  const Placeholder: string := "| 項目名 | 型 | 必須 | 説明 |\n|--------|----|----|------|\n| データなし | - | - | - |"

  /** `spreadsheetData.length === 0`. */
  predicate LengthIsZero(data: Json)
  {
    match data
    case JArr(items) => items == []
    case JObj(_) => var l := Get(data, "length"); l.JNum? && l.n == 0.0
    case _ => false
  }

  /**
   * `spreadsheetData[0]`. A string yields its first character, which has no `celldata`; the
   * model gives `undefined` for it, with the same outcome.
   */
  function FirstSheet(data: Json): Json
  {
    match data
    case JArr(items) => if items == [] then JUndef else items[0]
    case JObj(_) => Get(data, "0")
    case _ => JUndef
  }

  predicate IsDigits(s: string)
  {
    forall i :: 0 <= i < |s| ==> '0' <= s[i] <= '9'
  }

  /** 2^32 - 1: the greatest array length, one more than the greatest array index. */
  const MaxArrayLength: nat := 4294967295

  /** A grid coordinate after `|| 0`: an array index, or a value that does not name one. */
  datatype Coordinate = Index(k: nat) | NotIndex

  /**
   * The coordinate `(v || 0)` selects: a whole number below the array length limit, or the
   * canonical decimal string of one, which JavaScript converts to the same index.
   */
  function CoordinateOf(v: Json): (r: Coordinate)
    ensures !Truthy(v) ==> r == Index(0)
    ensures v.JNum? && r.Index? ==> r.k as real == v.n
    ensures r.Index? ==> r.k < MaxArrayLength
  {
    match Or(v, JNum(0.0, "0"))
    case JNum(n, _) =>
      if n >= 0.0 && n == n.Floor as real && n < MaxArrayLength as real then Index(n.Floor) else NotIndex
    case JStr(s) => StringIndex(s)
    case JArr(items) => StringIndex(JoinItems(items))
    case _ => NotIndex
  }

  /** A property key names an array index when it is the canonical decimal text of a number below the length limit. */
  function StringIndex(s: string): (r: Coordinate)
    ensures r.Index? ==> Text.NatToString(r.k) == s && r.k < MaxArrayLength
  {
    if s != "" && IsDigits(s) && Text.NatToString(Text.DigitsValue(s)) == s && Text.DigitsValue(s) < MaxArrayLength
    then Index(Text.DigitsValue(s))
    else NotIndex
  }

  /** The number `v || 0` compares as. */
  function CoordinateNumber(v: Json): JsNumber
  {
    ToNumber(Or(v, JNum(0.0, "0")))
  }

  /**
   * The length `while (xs.length <= v) xs.push(...)` gives an empty array, with `v || 0`
   * converted to a number by the comparison: NaN, minus infinity and negative values push
   * nothing, a value below the array length limit pushes until the length passes it, and
   * `Infinity` or any value from the limit on pushes until the push past the limit raises.
   */
  function Reach(x: JsNumber): (w: Outcome<nat>)
    ensures w.Raised? <==> x == Infinite(true) || (x.Finite? && x.x >= MaxArrayLength as real)
    ensures w.Raised? ==> w.message == InvalidLength
    ensures w.Ok? ==> w.value <= MaxArrayLength
  {
    match x
    case NaN => Ok(0)
    case Infinite(positive) => if positive then Raised(InvalidLength) else Ok(0)
    case Finite(x) => if x < 0.0 then Ok(0) else if x >= MaxArrayLength as real then Raised(InvalidLength) else Ok(x.Floor + 1)
  }

  /** What setting an array's length past the limit raises. */
  const InvalidLength := "RangeError: Invalid array length"

  /**
   * The reached length is the least one the comparison fails at: every shorter length is at
   * most the number, the reached one exceeds it (or the number is NaN or negative).
   */
  lemma ReachIsFirstLengthPast(x: JsNumber)
    requires Reach(x).Ok?
    ensures var w := Reach(x).value;
            (x.Finite? && x.x >= 0.0 ==> (w - 1) as real <= x.x < w as real)
            && (!(x.Finite? && x.x >= 0.0) ==> w == 0)
  {
  }

  /** The text written for a cell: `String(cell.v?.v || '')`. */
  function CellText(cell: Json): (t: string)
    ensures !Truthy(Get(Get(cell, "v"), "v")) ==> t == ""
  {
    ToJsString(Or(Get(Get(cell, "v"), "v"), JStr("")))
  }

  /** Empty rows pushed until row `r` exists. */
  function GrowRows(rows: seq<seq<string>>, r: nat): (g: seq<seq<string>>)
    ensures |g| == if |rows| <= r then r + 1 else |rows|
    ensures g[..|rows|] == rows && forall i :: |rows| <= i < |g| ==> g[i] == []
  {
    if |rows| <= r then rows + seq(r + 1 - |rows|, _ => []) else rows
  }

  /** Empty cells pushed until the row is `w` long. */
  function Pad(row: seq<string>, w: nat): (p: seq<string>)
    ensures |p| == if |row| < w then w else |row|
    ensures p[..|row|] == row && forall i :: |row| <= i < |p| ==> p[i] == ""
  {
    if |row| < w then row + seq(w - |row|, _ => "") else row
  }

  /** Where a cell's text goes once its row exists. */
  datatype Column =
    | Cell(c: nat, text: string)  // an index column: the row is padded to hold it and the text written
    | PadOnly(width: nat)         // a column that names no index: the row is padded, nothing shown is written

  /** What one cell does to the grid, decided before the grid is touched. */
  datatype Placement = Throws(message: string) | Write(r: nat, col: Column)

  /**
   * The coordinates and text the cell callback computes. Reading `r` of `null` or `undefined`
   * throws, and so does a row that is not an index (the row it names is never created, unless
   * growing towards it already hit the array length limit). A column that is not an index
   * still pads the row as far as the comparison with it reaches, but the text goes to a named
   * property that no printed row shows.
   */
  function PlacementOf(cell: Json): (p: Placement)
  {
    if cell.JUndef? || cell.JNull? then Throws("TypeError: cannot read 'r' of " + ToJsString(cell))
    else
      match CoordinateOf(Get(cell, "r"))
      case NotIndex =>
        (match Reach(CoordinateNumber(Get(cell, "r")))
         case Raised(m) => Throws(m)
         case Ok(_) => Throws("TypeError: cannot read 'length' of undefined"))
      case Index(r) =>
        match CoordinateOf(Get(cell, "c"))
        case Index(c) => Write(r, Cell(c, CellText(cell)))
        case NotIndex =>
          match Reach(CoordinateNumber(Get(cell, "c")))
          case Raised(m) => Throws(m)
          case Ok(w) => Write(r, PadOnly(w))
  }

  /** The placements of a cell list, one per cell, in order. */
  function Placements(cells: seq<Json>): (ps: seq<Placement>)
    ensures |ps| == |cells|
  {
    if cells == [] then [] else Placements(cells[..|cells| - 1]) + [PlacementOf(cells[|cells| - 1])]
  }

  /** The placement at position `i` is that of the cell at position `i`. */
  lemma {:induction false} PlacementsAt(cells: seq<Json>, i: nat)
    requires i < |cells|
    ensures Placements(cells)[i] == PlacementOf(cells[i])
  {
    if i < |cells| - 1 {
      PlacementsAt(cells[..|cells| - 1], i);
    }
  }

  /** A placement applied to the grid: the row grown into existence, then padded and written. */
  function PlaceCell(rows: seq<seq<string>>, p: Placement): (g: Outcome<seq<seq<string>>>)
    ensures g.Raised? <==> p.Throws?
    ensures p.Write? ==> |g.value| == (if |rows| <= p.r then p.r + 1 else |rows|)
    ensures p.Write? ==> forall i :: 0 <= i < |rows| && i != p.r ==> g.value[i] == rows[i]
    ensures p.Write? && p.col.Cell? ==> p.col.c < |g.value[p.r]| && g.value[p.r][p.col.c] == p.col.text
    ensures p.Write? && p.col.PadOnly? ==> |g.value[p.r]| >= p.col.width
  {
    match p
    case Throws(m) => Raised(m)
    case Write(r, col) =>
      var grown := GrowRows(rows, r);
      match col
      case PadOnly(w) => Ok(grown[r := Pad(grown[r], w)])
      case Cell(c, text) =>
        var row := Pad(grown[r], c + 1);
        Ok(grown[r := row[c := text]])
  }

  /** The grid after the first `n` placements, or the error the first failing cell raises. */
  function Grid(ps: seq<Placement>, n: nat): Outcome<seq<seq<string>>>
    requires n <= |ps|
  {
    if n == 0 then Ok([])
    else
      match Grid(ps, n - 1)
      case Raised(m) => Raised(m)
      case Ok(rows) => PlaceCell(rows, ps[n - 1])
  }

  /** The grid a cell list builds. */
  function CellGrid(cells: seq<Json>): Outcome<seq<seq<string>>>
  {
    Grid(Placements(cells), |cells|)
  }

  /** Once a cell has raised, the later cells are never reached. */
  lemma {:induction false} RaisedPersists(ps: seq<Placement>, n: nat, m: nat)
    requires n <= m <= |ps| && Grid(ps, n).Raised?
    ensures Grid(ps, m) == Grid(ps, n)
    decreases m - n
  {
    if n < m {
      RaisedPersists(ps, n, m - 1);
    }
  }

  /** One more placement on a grid built without error. */
  lemma GridStep(ps: seq<Placement>, i: nat, j: nat, rows: seq<seq<string>>)
    requires i < |ps| && j == i + 1 && Grid(ps, i) == Ok(rows)
    ensures Grid(ps, j) == PlaceCell(rows, ps[i])
  {
  }

  /** The grid builder: each cell of the list is written in turn, and the first error ends it. */
  method BuildGrid(cells: seq<Json>) returns (g: Outcome<seq<seq<string>>>)
    ensures g == CellGrid(cells)
  {
    var ps := Placements(cells);
    var rows: seq<seq<string>> := [];
    var i := 0;
    while i < |ps|
      invariant 0 <= i <= |ps|
      invariant Grid(ps, i) == Ok(rows)
    {
      var placed := WriteCell(rows, ps[i]);
      ghost var k, before := i, rows;
      i := i + 1;
      GridStep(ps, k, i, before);
      if placed.Raised? {
        g := placed;
        RaisedPersists(ps, i, |ps|);
        return;
      }
      rows := placed.value;
    }
    g := Ok(rows);
  }

  /**
   * The loop body for one cell, once its coordinates and text are read: rows are pushed until
   * the row exists, empty cells until the comparison with the column fails, then the text is
   * written at an index column.
   */
  method WriteCell(rows: seq<seq<string>>, p: Placement) returns (out: Outcome<seq<seq<string>>>)
    ensures out == PlaceCell(rows, p)
  {
    if p.Throws? {
      return Raised(p.message);
    }
    var grid := rows;
    while |grid| <= p.r
      invariant |rows| <= |grid| <= if |rows| <= p.r then p.r + 1 else |rows|
      invariant grid[..|rows|] == rows
      invariant forall j :: |rows| <= j < |grid| ==> grid[j] == []
    {
      grid := grid + [[]];
    }
    assert grid == GrowRows(rows, p.r);
    var width := if p.col.Cell? then p.col.c + 1 else p.col.width;
    var row := grid[p.r];
    ghost var short := row;
    while |row| < width
      invariant |short| <= |row| <= if |short| < width then width else |short|
      invariant row[..|short|] == short
      invariant forall j :: |short| <= j < |row| ==> row[j] == ""
    {
      row := row + [""];
    }
    assert row == Pad(short, width);
    if p.col.Cell? {
      out := Ok(grid[p.r := row[p.col.c := p.col.text]]);
    } else {
      out := Ok(grid[p.r := row]);
    }
  }

  /** The grown rows keep the old ones. */
  lemma GrowKeeps(rows: seq<seq<string>>, r: nat, i: nat)
    requires i < |rows|
    ensures GrowRows(rows, r)[i] == rows[i]
  {
    assert GrowRows(rows, r)[..|rows|][i] == rows[i];
  }

  /**
   * Writing a cell at index coordinates: the grid grows just enough to hold the position, the
   * position holds the cell's text, and every other position keeps its old text or is empty.
   */
  lemma PlaceCellWrites(rows: seq<seq<string>>, r: nat, c: nat, text: string)
    ensures PlaceCell(rows, Write(r, Cell(c, text))).Ok?
    ensures var g := PlaceCell(rows, Write(r, Cell(c, text))).value;
            |g| == (if |rows| <= r then r + 1 else |rows|)
            && |g[r]| == (if r < |rows| && c < |rows[r]| then |rows[r]| else c + 1)
            && g[r][c] == text
            && (forall i :: 0 <= i < |g| && i != r ==> g[i] == if i < |rows| then rows[i] else [])
            && (forall j :: 0 <= j < |g[r]| && j != c ==>
                  g[r][j] == if r < |rows| && j < |rows[r]| then rows[r][j] else "")
  {
    if r < |rows| {
      GrowKeeps(rows, r, r);
    }
    forall i | 0 <= i < |rows| ensures GrowRows(rows, r)[i] == rows[i] {
      GrowKeeps(rows, r, i);
    }
  }

  /**
   * A column that is not an index only pads: the row grows to the reached width and nothing
   * already in the grid changes.
   */
  lemma PlaceCellPads(rows: seq<seq<string>>, r: nat, w: nat)
    ensures PlaceCell(rows, Write(r, PadOnly(w))).Ok?
    ensures var g := PlaceCell(rows, Write(r, PadOnly(w))).value;
            |g| == (if |rows| <= r then r + 1 else |rows|)
            && |g[r]| == (if r < |rows| && w <= |rows[r]| then |rows[r]| else w)
            && (forall i :: 0 <= i < |g| && i != r ==> g[i] == if i < |rows| then rows[i] else [])
            && (forall j :: 0 <= j < |g[r]| ==> g[r][j] == if r < |rows| && j < |rows[r]| then rows[r][j] else "")
  {
    if r < |rows| {
      GrowKeeps(rows, r, r);
    }
    forall i | 0 <= i < |rows| ensures GrowRows(rows, r)[i] == rows[i] {
      GrowKeeps(rows, r, i);
    }
  }

  /** A cell whose column is no index, with a reach that fits, only pads its row. */
  lemma PadOnlyPlacement(cell: Json, r: nat, w: nat)
    requires !cell.JUndef? && !cell.JNull? && CoordinateOf(Get(cell, "r")) == Index(r)
    requires CoordinateOf(Get(cell, "c")) == NotIndex && Reach(CoordinateNumber(Get(cell, "c"))) == Ok(w)
    ensures PlacementOf(cell) == Write(r, PadOnly(w))
  {
  }

  /** A column of `1.5` names no index but pads the row to two cells, as `length <= 1.5` does. */
  lemma FractionalColumnPads(cell: Json)
    requires !cell.JUndef? && !cell.JNull?
    requires Get(cell, "r") == JNum(0.0, "0") && Get(cell, "c") == JNum(1.5, "1.5")
    ensures PlacementOf(cell) == Write(0, PadOnly(2))
  {
  }

  /** A column of `true` names no index but compares as 1: two cells. */
  lemma TrueColumnPads(cell: Json)
    requires !cell.JUndef? && !cell.JNull?
    requires Get(cell, "r") == JNum(0.0, "0") && Get(cell, "c") == JBool(true)
    ensures PlacementOf(cell) == Write(0, PadOnly(2))
  {
    assert CoordinateOf(JBool(true)) == NotIndex && CoordinateNumber(JBool(true)) == Finite(1.0);
    PadOnlyPlacement(cell, 0, 2);
  }

  /** A column of `"02"` names no index (it is not canonical) but compares as 2: three cells. */
  lemma PaddedDigitsColumnPads(cell: Json)
    requires !cell.JUndef? && !cell.JNull?
    requires Get(cell, "r") == JNum(0.0, "0") && Get(cell, "c") == JStr("02")
    ensures PlacementOf(cell) == Write(0, PadOnly(3))
  {
    PaddedDigitsColumn();
    PadOnlyPlacement(cell, 0, 3);
  }

  /** As a coordinate, `"02"` names no index and compares as 2. */
  lemma PaddedDigitsColumn()
    ensures CoordinateOf(JStr("02")) == NotIndex && CoordinateNumber(JStr("02")) == Finite(2.0)
  {
    PaddedDigitsText();
    var v := JStr("02");
    assert Or(v, JNum(0.0, "0")) == v by {
      assert Truthy(v);
    }
    assert CoordinateOf(v) == StringIndex("02");
    assert ToNumber(v) == StringToNumber("02");
    assert CoordinateNumber(v) == ToNumber(v);
  }

  /** The text `"02"` is not the canonical name of index 2, and `Number("02")` is 2. */
  lemma PaddedDigitsText()
    ensures StringIndex("02") == NotIndex && StringToNumber("02") == Finite(2.0)
  {
    assert Text.DigitsValue("02") == 2 by {
      assert "02"[..1] == "0" && "0"[..0] == "";
    }
    assert Text.NatToString(2) == "2";
    DigitStringReads("02");
  }

  /** A column of `"1e1"` names no index but compares as 10: eleven cells. */
  lemma ExponentColumnPads(cell: Json)
    requires !cell.JUndef? && !cell.JNull?
    requires Get(cell, "r") == JNum(0.0, "0") && Get(cell, "c") == JStr("1e1")
    ensures PlacementOf(cell) == Write(0, PadOnly(11))
  {
    ExponentColumn();
    PadOnlyPlacement(cell, 0, 11);
  }

  /** As a coordinate, `"1e1"` names no index and compares as 10. */
  lemma ExponentColumn()
    ensures CoordinateOf(JStr("1e1")) == NotIndex && CoordinateNumber(JStr("1e1")) == Finite(10.0)
  {
    TenReads();
    var v := JStr("1e1");
    assert Or(v, JNum(0.0, "0")) == v by {
      assert Truthy(v);
    }
    assert StringIndex("1e1") == NotIndex by {
      assert !IsDigits("1e1") by {
        assert "1e1"[1] == 'e';
      }
    }
    assert CoordinateOf(v) == StringIndex("1e1");
    assert ToNumber(v) == StringToNumber("1e1");
    assert CoordinateNumber(v) == ToNumber(v);
  }

  /**
   * A column of `"1e400"` names no index and converts to Infinity, so padding its row runs
   * into the array length limit and the cell raises.
   */
  lemma OverflowColumnRaises(cell: Json)
    requires !cell.JUndef? && !cell.JNull?
    requires Get(cell, "r") == JNum(0.0, "0") && Get(cell, "c") == JStr("1e400")
    ensures PlacementOf(cell) == Throws(InvalidLength)
  {
    OverflowReads();
    var v := JStr("1e400");
    assert Or(v, JNum(0.0, "0")) == v by {
      assert Truthy(v);
    }
    assert StringIndex("1e400") == NotIndex by {
      assert !IsDigits("1e400") by {
        assert "1e400"[1] == 'e';
      }
    }
    assert CoordinateOf(v) == NotIndex;
    assert CoordinateNumber(v) == Infinite(true);
  }

  /** A whole-number column at the array length limit names no index: padding to it raises. */
  lemma LimitColumnRaises(cell: Json)
    requires !cell.JUndef? && !cell.JNull?
    requires Get(cell, "r") == JNum(0.0, "0") && Get(cell, "c") == JNum(4294967295.0, "4294967295")
    ensures PlacementOf(cell) == Throws(InvalidLength)
  {
  }

  /** Every prefix of a grid that was built is built too. */
  lemma {:induction false} OkPrefix(ps: seq<Placement>, n: nat, m: nat)
    requires n <= m <= |ps| && Grid(ps, m).Ok?
    ensures Grid(ps, n).Ok?
  {
    if Grid(ps, n).Raised? {
      RaisedPersists(ps, n, m);
    }
  }

  /** A placement that writes text at an index position. */
  predicate At(p: Placement, r: nat, c: nat)
  {
    p.Write? && p.r == r && p.col.Cell? && p.col.c == c
  }

  /**
   * The last cell written at a position decides its text: later cells elsewhere leave it alone
   * (a later cell at the same position overwrites an earlier one).
   */
  lemma {:induction false} LastCellWins(ps: seq<Placement>, j: nat, n: nat, r: nat, c: nat)
    requires j < n <= |ps| && At(ps[j], r, c)
    requires forall k :: j < k < n ==> !At(ps[k], r, c)
    requires Grid(ps, n).Ok?
    ensures var g := Grid(ps, n).value; r < |g| && c < |g[r]| && g[r][c] == ps[j].col.text
  {
    var m := n - 1;
    OkPrefix(ps, m, n);
    var rows := Grid(ps, m).value;
    GridStep(ps, m, n, rows);
    if m == j {
      PlaceCellWrites(rows, r, c, ps[j].col.text);
    } else {
      LastCellWins(ps, j, m, r, c);
      PlaceCellKeeps(rows, ps[m], r, c);
    }
  }

  /**
   * A cell written anywhere else leaves an existing position's text alone, whether its
   * coordinates are indices or only pad a row.
   */
  lemma PlaceCellKeeps(rows: seq<seq<string>>, p: Placement, r: nat, c: nat)
    requires r < |rows| && c < |rows[r]| && !At(p, r, c) && PlaceCell(rows, p).Ok?
    ensures var g := PlaceCell(rows, p).value; r < |g| && c < |g[r]| && g[r][c] == rows[r][c]
  {
    match p.col
    case PadOnly(w) =>
      PlaceCellPads(rows, p.r, w);
    case Cell(c2, text) =>
      PlaceCellWrites(rows, p.r, c2, text);
  }

  /** A row with some cell that is not blank after trimming. */
  predicate NonBlankRow(row: seq<string>)
  {
    exists k :: 0 <= k < |row| && Text.Trim(row[k]) != ""
  }

  /** The rows kept for the table: the non-blank ones, in order. */
  function ValidRows(rows: seq<seq<string>>): (valid: seq<seq<string>>)
    ensures forall row :: row in valid <==> row in rows && NonBlankRow(row)
  {
    Lists.Filter(rows, (row: seq<string>) => NonBlankRow(row))
  }

  /** The widest row's length. */
  function Width(rows: seq<seq<string>>): (w: nat)
    ensures forall i :: 0 <= i < |rows| ==> |rows[i]| <= w
    ensures rows != [] ==> exists i :: 0 <= i < |rows| && |rows[i]| == w
  {
    if rows == [] then 0
    else
      var w := Width(rows[1..]);
      assert forall i :: 1 <= i < |rows| ==> rows[i] == rows[1..][i - 1];
      if |rows[0]| > w then |rows[0]| else w
  }

  /** Cells as printed: an empty cell prints as `-`. */
  function ShownCells(row: seq<string>): (shown: seq<string>)
    ensures |shown| == |row|
    ensures forall i :: 0 <= i < |row| ==> shown[i] != "" && (row[i] != "" ==> shown[i] == row[i])
  {
    seq(|row|, i requires 0 <= i < |row| => if row[i] == "" then "-" else row[i])
  }

  function RowLine(row: seq<string>, w: nat): string
  {
    "| " + Text.Join(ShownCells(Pad(row, w)), " | ") + " |"
  }

  function SeparatorLine(w: nat): string
  {
    "|" + Text.Join(seq(w, _ => "--------"), "|") + "|"
  }

  /** The table's lines: the first row, the separator, then the other rows. */
  function TableLines(valid: seq<seq<string>>): seq<string>
    requires valid != []
  {
    var w := Width(valid);
    [RowLine(valid[0], w), SeparatorLine(w)]
      + seq(|valid| - 1, i requires 0 <= i < |valid| - 1 => RowLine(valid[i + 1], w))
  }

  /** Lines each followed by a newline. */
  function Unlines(lines: seq<string>): string
  {
    if lines == [] then "" else lines[0] + "\n" + Unlines(lines[1..])
  }

  lemma {:induction false} UnlinesAppend(lines: seq<string>, line: string)
    ensures Unlines(lines + [line]) == Unlines(lines) + line + "\n"
  {
    if lines != [] {
      assert (lines + [line])[1..] == lines[1..] + [line];
      UnlinesAppend(lines[1..], line);
    } else {
      assert [] + [line] == [line];
    }
  }

  lemma {:induction false} UnlinesJoin(lines: seq<string>)
    requires lines != []
    ensures Unlines(lines) == Text.Join(lines, "\n") + "\n"
  {
    if |lines| > 1 {
      UnlinesJoin(lines[1..]);
    }
  }

  /** The table text of a sheet, or the error a malformed cell list raises. */
  function TableOf(data: Json): Outcome<string>
  {
    var sheet := FirstSheet(data);
    if !Truthy(data) || LengthIsZero(data) || !Truthy(sheet) || !Truthy(Get(sheet, "celldata")) then Ok(Placeholder)
    else
      match Get(sheet, "celldata")
      case JArr(cells) =>
        (match CellGrid(cells)
         case Raised(m) => Raised(m)
         case Ok(rows) =>
           var valid := ValidRows(rows);
           if valid == [] then Ok(Placeholder) else Ok(Text.Trim(Unlines(TableLines(valid)))))
      case _ => Raised("TypeError: celldata.forEach is not a function")
  }

  /** The printing loop: each row padded to the widest, the separator once after the first. */
  method RenderRows(valid: seq<seq<string>>) returns (markdown: string)
    requires valid != []
    ensures markdown == Unlines(TableLines(valid))
  {
    var lines := TableLines(valid);
    markdown := "";
    var i := 0;
    while i < |valid|
      invariant 0 <= i <= |valid|
      invariant markdown == Unlines(lines[..if i == 0 then 0 else i + 1])
    {
      var maxCols := Width(valid);
      var padded := PadRow(valid[i], maxCols);
      var markdownRow := "| " + Text.Join(ShownCells(padded), " | ") + " |";
      var k := if i == 0 then 0 else i + 1;
      LineOfRow(valid, i, k);
      UnlinesStep(lines, k, markdownRow);
      markdown := markdown + markdownRow + "\n";
      if i == 0 {
        var separator := "|" + Text.Join(seq(|padded|, _ => "--------"), "|") + "|";
        assert separator == lines[1];
        UnlinesStep(lines, 1, separator);
        markdown := markdown + separator + "\n";
      }
      i := i + 1;
    }
    assert lines[..|valid| + 1] == lines;
  }

  /** The inner loop: empty cells appended until the row is as wide as the widest. */
  method PadRow(row: seq<string>, w: nat) returns (padded: seq<string>)
    requires |row| <= w
    ensures padded == Pad(row, w)
  {
    padded := row;
    while |padded| < w
      invariant |row| <= |padded| <= w
      invariant padded[..|row|] == row
      invariant forall j :: |row| <= j < |padded| ==> padded[j] == ""
    {
      padded := padded + [""];
    }
  }

  /** Row `i` is printed as line `i` of the table for the first row and line `i + 1` after the separator. */
  lemma LineOfRow(valid: seq<seq<string>>, i: nat, k: nat)
    requires valid != [] && i < |valid| && k == if i == 0 then 0 else i + 1
    ensures k < |TableLines(valid)| && TableLines(valid)[k] == RowLine(valid[i], Width(valid))
  {
    var lines := TableLines(valid);
    assert |lines| == |valid| + 1;
    if i > 0 {
      assert lines[k] == lines[2..][i - 1];
    }
  }

  /** Printing line `k` after the lines before it prints the lines up to `k`. */
  lemma UnlinesStep(lines: seq<string>, k: nat, line: string)
    requires k < |lines| && lines[k] == line
    ensures Unlines(lines[..k + 1]) == Unlines(lines[..k]) + line + "\n"
  {
    UnlinesAppend(lines[..k], line);
    assert lines[..k] + [line] == lines[..k + 1];
  }

  /** The converter: the placeholder checks, the grid, the non-blank rows and the printed table. */
  method ConvertSpreadsheetToMarkdownTable(data: Json) returns (r: Outcome<string>)
    ensures r == TableOf(data)
  {
    var sheet := FirstSheet(data);
    if !Truthy(data) || LengthIsZero(data) || !Truthy(sheet) || !Truthy(Get(sheet, "celldata")) {
      return Ok(Placeholder);
    }
    var celldata := Get(sheet, "celldata");
    if !celldata.JArr? {
      return Raised("TypeError: celldata.forEach is not a function");
    }
    var grid := BuildGrid(celldata.items);
    if grid.Raised? {
      return Raised(grid.message);
    }
    var valid := ValidRows(grid.value);
    if valid == [] {
      return Ok(Placeholder);
    }
    var markdown := RenderRows(valid);
    r := Ok(Text.Trim(markdown));
  }

  /** A joined list of non-empty parts starts with the first part. */
  lemma JoinStartsWithFirst(parts: seq<string>, sep: string)
    requires parts != []
    ensures |Text.Join(parts, sep)| >= |parts[0]| && Text.Join(parts, sep)[..|parts[0]|] == parts[0]
  {
  }

  /**
   * The table has exactly one separator line, right after the first row, and every row line
   * shows as many cells as the widest row, none of them empty.
   */
  lemma TableShape(valid: seq<seq<string>>)
    requires valid != []
    ensures var lines := TableLines(valid);
            var w := Width(valid);
            |lines| == |valid| + 1
            && lines[1] == SeparatorLine(w)
            && (forall k :: 0 <= k < |lines| && k != 1 ==> lines[k] != SeparatorLine(w))
            && (forall i :: 0 <= i < |valid| ==>
                  |ShownCells(Pad(valid[i], w))| == w
                  && forall s :: s in ShownCells(Pad(valid[i], w)) ==> s != "")
  {
    var lines := TableLines(valid);
    var w := Width(valid);
    var sep := SeparatorLine(w);
    assert sep[1] != ' ' by {
      if w > 0 {
        JoinStartsWithFirst(seq(w, _ => "--------"), "|");
        assert sep[1] == Text.Join(seq(w, _ => "--------"), "|")[0];
      }
    }
    forall k | 0 <= k < |lines| && k != 1 ensures lines[k] != sep {
      assert lines[k][1] == ' ';
    }
  }

  /** Trimming the printed table removes exactly the final newline. */
  lemma TableTextIsJoinedLines(valid: seq<seq<string>>)
    requires valid != []
    ensures Text.Trim(Unlines(TableLines(valid))) == Text.Join(TableLines(valid), "\n")
  {
    var lines := TableLines(valid);
    var joined := Text.Join(lines, "\n");
    UnlinesJoin(lines);
    JoinStartsWithFirst(lines, "\n");
    assert joined[0] == '|';
    assert Text.TrimLeft(Text.Js, joined + "\n") == joined + "\n";
    JoinEndsWithLast(lines, "\n");
    var last := lines[|lines| - 1];
    assert last[|last| - 1] == '|' by {
      if |lines| - 1 == 1 {
      } else {
        assert last == RowLine(valid[|lines| - 2], Width(valid));
      }
    }
    assert joined[|joined| - 1] == '|';
    assert (joined + "\n")[..|joined + "\n"| - 1] == joined;
  }

  /** A joined list ends with its last part. */
  lemma {:induction false} JoinEndsWithLast(parts: seq<string>, sep: string)
    requires parts != []
    ensures var j := Text.Join(parts, sep); var l := parts[|parts| - 1];
            |j| >= |l| && j[|j| - |l|..] == l
  {
    if |parts| > 1 {
      JoinEndsWithLast(parts[1..], sep);
    }
  }

  /**
   * Nothing to show gives the placeholder table: no sheet data, or a first sheet without
   * cells, or cells that leave no non-blank row.
   */
  lemma PlaceholderWhenEmpty(data: Json)
    ensures !Truthy(data) || LengthIsZero(data) ==> TableOf(data) == Ok(Placeholder)
    ensures !Truthy(FirstSheet(data)) || !Truthy(Get(FirstSheet(data), "celldata")) ==> TableOf(data) == Ok(Placeholder)
    ensures var celldata := Get(FirstSheet(data), "celldata");
            celldata.JArr? && CellGrid(celldata.items).Ok?
            && ValidRows(CellGrid(celldata.items).value) == []
            ==> TableOf(data) == Ok(Placeholder)
  {
  }

  /** Otherwise the result is the table's lines joined, with no trailing newline. */
  lemma TableOfRows(data: Json, rows: seq<seq<string>>)
    requires Truthy(data) && !LengthIsZero(data) && Truthy(FirstSheet(data))
    requires var celldata := Get(FirstSheet(data), "celldata");
             celldata.JArr? && celldata.items != [] && CellGrid(celldata.items) == Ok(rows)
    requires ValidRows(rows) != []
    ensures TableOf(data) == Ok(Text.Join(TableLines(ValidRows(rows)), "\n"))
  {
    var cells := Get(FirstSheet(data), "celldata");
    assert Truthy(cells);
    assert TableOf(data) == Ok(Text.Trim(Unlines(TableLines(ValidRows(rows)))));
    TableTextIsJoinedLines(ValidRows(rows));
  }
}
